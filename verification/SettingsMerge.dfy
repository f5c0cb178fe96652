// The laws of publishing and merging settings, for all texts.
module SettingsMerges {
  import opened Options
  import opened Sequences
  import opened SettingsLines
  import opened SettingsTexts
  import opened SettingsLaws

  // What a published text looks like, section by section: no table that stays on
  // the device and no session path.
  ghost predicate Published(sections: seq<seq<string>>) {
    && WellCut(sections) && Proper(Flat(sections)) && Public(Flat(sections))
    && forall i | 0 <= i < |sections| :: Merged(sections[i], None) == sections[i]
  }

  lemma StripLines(lines: seq<string>)
    requires Proper(lines)
    ensures Strip(Join(lines)) == Join(Flat(MergedSections(Sections(Kept(lines)), [])))
  {
    LinesOfJoin(lines);
    KeptProper(lines);
    LinesOfJoin(Kept(lines));
    assert Lines("") == [];
    var nothing: seq<seq<string>> := [[]];
    assert Providers(nothing) == [] by {
      assert nothing[..0] == [];
    }
    MergeAllIsFlat(Sections(Kept(lines)), []);
  }

  lemma MergePathsLines(sections: seq<seq<string>>, local: string)
    requires WellCut(sections) && Proper(Flat(sections))
    ensures MergePaths(Join(Flat(sections)), local) ==
            Join(Flat(MergedSections(sections, Providers(Sections(Lines(local))))))
  {
    LinesOfJoin(Flat(sections));
    SectionsOfFlat(sections);
    MergeAllIsFlat(sections, Providers(Sections(Lines(local))));
  }

  lemma {:induction false} PublicFlat(sections: seq<seq<string>>)
    ensures Public(Flat(sections)) <==> forall section | section in sections :: Public(section)
    decreases |sections|
  {
    if Public(Flat(sections)) {
      forall section | section in sections
        ensures Public(section)
      {
        InFlat(sections, section);
      }
    }
    if |sections| > 0 && forall section | section in sections :: Public(section) {
      PublicFlat(sections[..|sections| - 1]);
      assert Public(sections[|sections| - 1]);
    }
  }

  lemma MergedArePublic(sections: seq<seq<string>>, locals: seq<seq<string>>)
    requires WellCut(sections) && Public(Flat(sections))
    ensures Public(Flat(MergedSections(sections, locals)))
  {
    var r := MergedSections(sections, locals);
    PublicFlat(sections);
    PublicFlat(r);
    forall section | section in r
      ensures Public(section)
    {
      var i :| 0 <= i < |r| && r[i] == section;
      assert sections[i] in sections;
      if sections != [[]] {
        MergedIsSection(sections[i], PathFor(sections[i], locals));
      }
    }
  }

  // Main result: a published text holds nothing that stays on the device.
  lemma StripIsPublished(text: string)
    ensures Published(Sections(Lines(Strip(text))))
    ensures Strip(text) == Join(Flat(Sections(Lines(Strip(text)))))
  {
    var kept := Kept(Lines(text));
    var sections := Sections(kept);
    var r := MergedSections(sections, []);
    LinesAreProper(text);
    JoinLines(text);
    StripLines(Lines(text));
    KeptProper(Lines(text));
    FlatSections(kept);
    SectionsAreWellCut(kept);
    StripAndExtractPartition(Lines(text));
    MergedAreWellCut(sections, []);
    FlatMergedProper(sections, []);
    LinesOfJoin(Flat(r));
    SectionsOfFlat(r);
    MergedArePublic(sections, []);
    forall i | 0 <= i < |r|
      ensures Merged(r[i], None) == r[i]
    {
      NoLocalsNoPath(sections[i]);
      if IsProvider(sections[i]) {
        StripAfterMerge(sections[i], None);
      }
    }
  }

  lemma StripOfPublished(sections: seq<seq<string>>)
    requires Published(sections)
    ensures Strip(Join(Flat(sections))) == Join(Flat(sections))
  {
    StripLines(Flat(sections));
    KeptOfPublic(Flat(sections));
    SectionsOfFlat(sections);
    forall i | 0 <= i < |sections|
      ensures MergedSections(sections, [])[i] == sections[i]
    {
      NoLocalsNoPath(sections[i]);
    }
    assert MergedSections(sections, []) == sections;
  }

  // Main result.
  lemma StripIsIdempotent(text: string)
    ensures Strip(Strip(text)) == Strip(text)
  {
    StripIsPublished(text);
    StripOfPublished(Sections(Lines(Strip(text))));
  }

  // ----- a published text with the device's session paths ---------------------------

  // The header of a section with more lines is not the end of the text.
  lemma {:induction false} HeadIsTerminated(sections: seq<seq<string>>, i: nat)
    requires WellCut(sections) && Proper(Flat(sections)) && i < |sections| && |sections[i]| > 1
    ensures Terminated(sections[i][0])
  {
    var n := |sections| - 1;
    var front, last := sections[..n], sections[n];
    ProperSplit(Flat(front), last);
    if i < n {
      assert sections[i] in front;
      InFlat(front, sections[i]);
    } else {
      assert last[0] in last[..|last| - 1];
    }
  }

  lemma StripOneAfterMerge(section: seq<string>, path: Option<string>)
    requires Merged(section, None) == section
    requires IsProvider(section) && path.Some? ==> Terminated(section[0])
    ensures Merged(Merged(section, path), None) == section
  {
    if IsProvider(section) {
      StripAfterMerge(section, path);
    }
  }

  lemma StripAllAfterMerge(sections: seq<seq<string>>, locals: seq<seq<string>>)
    requires Published(sections) && CleanLocals(locals)
    ensures MergedSections(MergedSections(sections, locals), []) == sections
  {
    var m := MergedSections(sections, locals);
    forall i | 0 <= i < |sections|
      ensures MergedSections(m, [])[i] == sections[i]
    {
      var path := PathFor(sections[i], locals);
      PathForClean(sections[i], locals);
      if IsProvider(sections[i]) && path.Some? {
        HeadIsTerminated(sections, i);
      }
      StripOneAfterMerge(sections[i], path);
      NoLocalsNoPath(m[i]);
    }
  }

  // ----- what follows the published part ---------------------------------------------

  function CloseLast(lines: seq<string>): seq<string>
    requires |lines| > 0
  {
    lines[..|lines| - 1] + [Closed(lines[|lines| - 1])]
  }

  // The published part, its last line finished, and a blank line.
  function Padded(lines: seq<string>): seq<string> {
    if |lines| == 0 then [] else CloseLast(lines) + ["\n"]
  }

  function PaddedLast(sections: seq<seq<string>>): seq<seq<string>>
    requires |sections| > 0
  {
    sections[..|sections| - 1] + [Padded(sections[|sections| - 1])]
  }

  lemma OneLineClosed(line: string)
    requires OneLine(line)
    ensures Terminated(Closed(line))
  {
  }

  lemma PaddedText(lines: seq<string>)
    requires Proper(lines) && |lines| > 0
    ensures AllTerminated(Padded(lines)) && Join(Padded(lines)) == Closed(Join(lines)) + "\n"
  {
    var front, last := lines[..|lines| - 1], lines[|lines| - 1];
    JoinLast(CloseLast(lines), "\n");
    JoinLast(front, Closed(last));
    OneLineClosed(last);
    assert Terminated("\n") by {
      assert ("\n")[..0] == "";
    }
    ClosedSuffix(Join(front), last);
  }

  lemma ClosedSuffix(a: string, b: string)
    requires |b| > 0
    ensures a + Closed(b) == Closed(a + b)
  {
  }

  lemma FlatPadded(sections: seq<seq<string>>)
    requires |sections| > 0 && |sections[|sections| - 1]| > 0
    ensures Flat(PaddedLast(sections)) == Padded(Flat(sections))
  {
    var n := |sections| - 1;
    var front, last := Flat(sections[..n]), sections[n];
    FlatMore(sections[..n], Padded(last));
    FrontOfAppend(front, last);
    Regroup(front, last[..|last| - 1], [Closed(last[|last| - 1])]);
    Regroup(front, CloseLast(last), ["\n"]);
  }

  lemma PaddedIsSection(section: seq<string>)
    requires IsSection(section)
    ensures IsSection(Padded(section)) && (IsHeader(Padded(section)[0]) <==> IsHeader(section[0]))
    ensures IsProvider(Padded(section)) <==> IsProvider(section)
  {
    var p := Padded(section);
    NewlineShape();
    ClosedShape(section[|section| - 1]);
    forall i | 0 < i < |p|
      ensures !IsHeader(p[i])
    {
      if i < |section| - 1 {
        assert p[i] == section[i];
      }
    }
  }

  lemma PaddedAreWellCut(sections: seq<seq<string>>)
    requires WellCut(sections) && sections != [[]]
    ensures WellCut(PaddedLast(sections))
  {
    var r, n := PaddedLast(sections), |sections| - 1;
    PaddedIsSection(sections[n]);
    forall i | 0 <= i < |r|
      ensures IsSection(r[i]) && (i > 0 ==> IsHeader(r[i][0]))
    {
      if i < n {
        assert r[i] == sections[i];
      }
    }
  }

  // ----- stripping the padded text -----------------------------------------------------

  lemma CloseStrip(lines: seq<string>)
    requires |lines| > 0 && WithoutCodex(lines) == lines
    ensures WithoutCodex(Padded(lines)) == Padded(lines)
  {
    var front, last := lines[..|lines| - 1], lines[|lines| - 1];
    LastKept(lines);
    ClosedShape(last);
    NewlineShape();
    WithoutCodexNext(front, Closed(last));
    WithoutCodexNext(CloseLast(lines), "\n");
  }

  lemma LastKept(lines: seq<string>)
    requires |lines| > 0 && WithoutCodex(lines) == lines
    ensures WithoutCodex(lines[..|lines| - 1]) == lines[..|lines| - 1]
    ensures Assignment(lines[|lines| - 1], CODEX).None?
  {
    var front, last := lines[..|lines| - 1], lines[|lines| - 1];
    WithoutCodexTwice(lines);
    assert last in WithoutCodex(lines);
    FrontAndLast(lines);
    FrontOf(WithoutCodex(front), last);
  }

  lemma PaddedTail(head: string, rest: seq<string>)
    ensures |rest| > 0 ==> Padded([head] + rest) == [head] + Padded(rest)
    ensures Padded([head]) == [Closed(head), "\n"]
  {
    assert [head][..0] == [];
    if |rest| > 0 {
      FrontOfAppend([head], rest);
      Regroup([head], rest[..|rest| - 1], [Closed(rest[|rest| - 1])]);
      Regroup([head], CloseLast(rest), ["\n"]);
    }
  }

  lemma MergedHead(head: string, rest: seq<string>, path: Option<string>)
    requires IsProviderHeader(head)
    ensures Merged([head] + rest, path) == Headed(head, path) + WithoutCodex(rest)
  {
    HeadAndRest(head, rest);
  }

  // The last section: what merging and padding add goes, but for the newlines.
  lemma StripPaddedSection(section: seq<string>, path: Option<string>)
    requires IsSection(section) && Merged(section, None) == section
    requires IsProvider(section) && path.Some? ==> |section| > 1 && Terminated(section[0])
    ensures Merged(Padded(Merged(section, path)), None) == Padded(section)
  {
    if IsProvider(section) {
      var head, rest := section[0], section[1..];
      assert section == [head] + rest;
      assert Merged(section, None)[1..] == WithoutCodex(rest);
      if |rest| == 0 {
        StripPaddedHead(head);
        NothingMore([head]);
      } else if path.Some? {
        StripPaddedPath(head, rest, path.value);
      } else {
        StripPaddedRest(head, rest);
      }
    } else {
      PaddedIsSection(section);
    }
  }

  lemma StripPaddedHead(head: string)
    requires IsProviderHeader(head)
    ensures Merged(Padded(Merged([head], None)), None) == Padded([head])
  {
    MergedAlone(head);
    PaddedTail(head, []);
    ClosedShape(head);
    MergedWithBlank(Closed(head));
  }

  lemma MergedAlone(head: string)
    requires IsProviderHeader(head)
    ensures Merged([head], None) == [head]
  {
    NothingMore([head]);
    MergedHead(head, [], None);
  }

  lemma MergedWithBlank(head: string)
    requires IsProviderHeader(head)
    ensures Merged([head, "\n"], None) == [head, "\n"]
  {
    NewlineShape();
    NothingMore(["\n"]);
    WithoutCodexNext([], "\n");
    MergedHead(head, ["\n"], None);
  }

  lemma StripPaddedRest(head: string, rest: seq<string>)
    requires |rest| > 0 && WithoutCodex(rest) == rest && IsProviderHeader(head)
    ensures Merged(Padded(Merged([head] + rest, None)), None) == Padded([head] + rest)
  {
    MergedHead(head, rest, None);
    PaddedTail(head, rest);
    CloseStrip(rest);
    MergedHead(head, Padded(rest), None);
  }

  lemma PaddedTwoTail(head: string, second: string, rest: seq<string>)
    requires |rest| > 0
    ensures Padded([head] + ([second] + rest)) == [head] + ([second] + Padded(rest))
  {
    PaddedTail(head, [second] + rest);
    PaddedTail(second, rest);
  }

  lemma MergedWithPath(head: string, rest: seq<string>, path: string)
    requires WithoutCodex(rest) == rest && IsProviderHeader(head) && Terminated(head)
    ensures Merged([head] + rest, Some(path)) == [head] + ([CodexLine(path)] + rest)
  {
    MergedHead(head, rest, Some(path));
    assert Headed(head, Some(path)) == [head] + [CodexLine(path)];
    Regroup([head], [CodexLine(path)], rest);
  }

  lemma StripPaddedPath(head: string, rest: seq<string>, path: string)
    requires |rest| > 0 && WithoutCodex(rest) == rest && IsProviderHeader(head) && Terminated(head)
    ensures Merged(Padded(Merged([head] + rest, Some(path))), None) == Padded([head] + rest)
  {
    var code := CodexLine(path);
    MergedWithPath(head, rest, path);
    PaddedTwoTail(head, code, rest);
    PaddedTail(head, rest);
    CloseStrip(rest);
    WithoutCodexCode(path, Padded(rest));
    MergedHead(head, [code] + Padded(rest), None);
  }

  lemma WithoutCodexCode(path: string, lines: seq<string>)
    ensures WithoutCodex([CodexLine(path)] + lines) == WithoutCodex(lines)
  {
    var code := CodexLine(path);
    CodexLineShape(path);
    WithoutCodexAppend([code], lines);
    assert [code][..0] == [];
    assert WithoutCodex([code]) == [];
    NothingMore(WithoutCodex(lines));
  }

  lemma StripAllPadded(sections: seq<seq<string>>, locals: seq<seq<string>>)
    requires Published(sections) && CleanLocals(locals) && sections != [[]]
    ensures MergedSections(PaddedLast(MergedSections(sections, locals)), []) == PaddedLast(sections)
  {
    var m, n := MergedSections(sections, locals), |sections| - 1;
    var p := PaddedLast(m);
    StripAllAfterMerge(sections, locals);
    var path := PathFor(sections[n], locals);
    PathForClean(sections[n], locals);
    if IsProvider(sections[n]) && path.Some? {
      HeadIsTerminated(sections, n);
    }
    StripPaddedSection(sections[n], path);
    forall i | 0 <= i < |sections|
      ensures MergedSections(p, [])[i] == PaddedLast(sections)[i]
    {
      NoLocalsNoPath(p[i]);
      OtherLast(m, Padded(m[n]), i);
      OtherLast(sections, Padded(sections[n]), i);
      if i < n {
        NoLocalsNoPath(m[i]);
        assert MergedSections(m, [])[i] == sections[i];
      }
    }
  }
}
