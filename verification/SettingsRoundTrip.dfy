// What comes back when a merged text is split again: the published part, but for
// newlines, and the device's own tables.
module SettingsRoundTrips {
  import opened Options
  import opened Sequences
  import opened SettingsLines
  import opened SettingsTexts
  import opened SettingsLaws
  import opened SettingsMerges

  // ----- the device's own tables ---------------------------------------------------

  lemma JoinStart(lines: seq<string>)
    requires |lines| > 0 && |lines[0]| > 0
    ensures |Join(lines)| > 0 && Join(lines)[0] == lines[0][0]
    ensures |lines[0]| <= |Join(lines)| && Join(lines)[..|lines[0]|] == lines[0]
  {
    assert lines == [lines[0]] + lines[1..];
    JoinAppend([lines[0]], lines[1..]);
    JoinOne(lines[0]);
  }

  lemma {:induction false} TrimEndKeepsStart(s: string)
    requires |s| > 0 && !IsSpace(s[0])
    ensures TrimEnd(s) != ""
    decreases |s|
  {
    if |s| > 1 && IsSpace(s[|s| - 1]) {
      TrimEndKeepsStart(s[..|s| - 1]);
    }
  }

  lemma TablesAreNotBlank(lines: seq<string>)
    requires |lines| > 0 && IsHeader(lines[0])
    ensures Trim(Join(lines)) != ""
  {
    var head, text := lines[0], Join(lines);
    JoinStart(lines);
    assert TrimStart(text[..|head|]) != "";
    TrimStartPrefix(text, |head|);
    TrimEndKeepsStart(TrimStart(text));
  }

  // The last line of the tables that is not blank ends them.
  function Trimmed(lines: seq<string>): (r: seq<string>)
    requires |lines| > 0
    ensures |r| > 0
  {
    if |lines| > 1 && lines[|lines| - 1] == "\n" then Trimmed(lines[..|lines| - 1]) else CloseLast(lines)
  }

  lemma {:induction false} TrimmedTables(lines: seq<string>)
    requires |lines| > 0 && Proper(lines) && Tables(lines)
    ensures AllTerminated(Trimmed(lines)) && Tables(Trimmed(lines))
    decreases |lines|
  {
    var front, last := lines[..|lines| - 1], lines[|lines| - 1];
    if |lines| > 1 && last == "\n" {
      ProperFront(front);
      StaysAt(front, [last], 0);
      FrontAndLast(lines);
      TrimmedTables(front);
    } else {
      ClosedTables(front, last);
      FrontAndLast(lines);
    }
  }

  lemma ClosedTables(front: seq<string>, last: string)
    requires AllTerminated(front) && OneLine(last) && Tables(front + [last])
    ensures AllTerminated(front + [Closed(last)]) && Tables(front + [Closed(last)])
  {
    OneLineClosed(last);
    ClosedShape(last);
    assert (front + [last])[|front|] == last;
    forall line | line in front
      ensures line in front + [last]
    {
    }
  }

  lemma TrimNewlinesEndOf(s: string, c: char)
    ensures c == '\n' ==> TrimNewlinesEnd(s + [c]) == TrimNewlinesEnd(s)
    ensures c != '\n' ==> TrimNewlinesEnd(s + [c]) == s + [c]
  {
    FrontOf(s, c);
  }

  lemma {:induction false} TrimmedText(lines: seq<string>)
    requires |lines| > 0 && Proper(lines) && lines[0] != "\n"
    ensures Join(Trimmed(lines)) == TrimNewlinesEnd(Join(lines)) + "\n"
    decreases |lines|
  {
    var front, last := lines[..|lines| - 1], lines[|lines| - 1];
    var n := |last| - 1;
    assert last == last[..n] + [last[n]];
    Regroup(Join(front), last[..n], [last[n]]);
    TrimNewlinesEndOf(Join(front) + last[..n], last[n]);
    if |lines| > 1 && last == "\n" {
      assert last[..n] == "";
      NothingMore(Join(front));
      ProperFront(front);
      TrimmedText(front);
    } else {
      JoinLast(front, Closed(last));
      if Terminated(last) {
        TrimmedLine(Join(front), last);
      } else {
        Regroup(Join(front), last, "\n");
      }
    }
  }

  lemma TrimmedLine(before: string, line: string)
    requires Terminated(line) && line != "\n"
    ensures TrimNewlinesEnd(before + line[..|line| - 1]) + "\n" == before + line
  {
    var body := line[..|line| - 1];
    var k := |body| - 1;
    assert body == body[..k] + [body[k]];
    Regroup(before, body[..k], [body[k]]);
    TrimNewlinesEndOf(before + body[..k], body[k]);
    assert line == body + "\n";
    Regroup(before, body, "\n");
  }

  lemma HeaderStart(line: string)
    requires IsHeader(line) && OneLine(line)
    ensures line != "\n" && line[0] != '\n'
  {
    NewlineShape();
    NewlineLine(line);
  }

  lemma NewlineLine(line: string)
    requires OneLine(line)
    ensures line[0] == '\n' ==> line == "\n"
  {
    if |line| > 1 {
      assert line[..|line| - 1][0] == line[0];
    }
  }

  lemma {:induction false} TrimNewlinesEndKeeps(s: string)
    requires |s| > 0 && s[0] != '\n'
    ensures |TrimNewlinesEnd(s)| > 0 && TrimNewlinesEnd(s)[|TrimNewlinesEnd(s)| - 1] != '\n'
    decreases |s|
  {
    if s[|s| - 1] == '\n' {
      TrimNewlinesEndKeeps(s[..|s| - 1]);
    }
  }

  // What the merge appends for the device's own tables.
  lemma OwnTables(lines: seq<string>)
    requires |lines| > 0 && Proper(lines) && Tables(lines)
    ensures var w := TrimNewlines(Join(lines));
            && Join(Trimmed(lines)) == w + "\n" && |w| > 0 && w[|w| - 1] != '\n'
            && Trim(Join(lines)) != ""
  {
    OwnStart(lines);
    TrimmedText(lines);
    TrimNewlinesEndKeeps(Join(lines));
  }

  lemma OwnStart(lines: seq<string>)
    requires |lines| > 0 && Proper(lines) && Tables(lines)
    ensures lines[0] != "\n" && Trim(Join(lines)) != ""
    ensures |Join(lines)| > 0 && Join(lines)[0] != '\n' && TrimNewlinesStart(Join(lines)) == Join(lines)
  {
    LocalOnlyIsHeader(lines[0]);
    ProperIsOneLine(lines);
    HeaderStart(lines[0]);
    JoinStart(lines);
    TablesAreNotBlank(lines);
  }

  // ----- the merged text, line by line ----------------------------------------------

  lemma PaddedPublic(lines: seq<string>)
    requires Public(lines)
    ensures Public(Padded(lines))
  {
    if |lines| > 0 {
      var front, last := lines[..|lines| - 1], lines[|lines| - 1];
      ClosedShape(last);
      NewlineShape();
      assert last in lines;
      forall line | line in Padded(lines)
        ensures !IsLocalOnlyHeader(line)
      {
        if line in front {
          assert line in lines;
        }
      }
    }
  }

  lemma ProperIsNotEmpty(lines: seq<string>)
    requires Proper(lines) && |lines| > 0
    ensures Join(lines) != ""
  {
  }

  // The published part as merged with the device's paths.
  ghost function Remerged(remote: string, local: string): seq<seq<string>> {
    MergedSections(Sections(Lines(Strip(remote))), Providers(Sections(Lines(local))))
  }

  lemma RemergedShape(remote: string, local: string)
    ensures WellCut(Remerged(remote, local)) && Proper(Flat(Remerged(remote, local)))
              && Public(Flat(Remerged(remote, local)))
    ensures MergePaths(Strip(remote), local) == Join(Flat(Remerged(remote, local)))
    ensures Remerged(remote, local) == [[]] <==> Strip(remote) == ""
    ensures Flat(Remerged(remote, local)) == [] <==> Strip(remote) == ""
  {
    var sections, locals := Sections(Lines(Strip(remote))), Providers(Sections(Lines(local)));
    StripIsPublished(remote);
    LocalsAreClean(local);
    MergedAreWellCut(sections, locals);
    FlatMergedProper(sections, locals);
    MergedArePublic(sections, locals);
    MergePathsLines(sections, local);
    SectionsAreWellCut(Lines(Strip(remote)));
    LinesAreProper(Strip(remote));
    FlatOfCut(MergedSections(sections, locals));
  }

  lemma FlatOfCut(sections: seq<seq<string>>)
    requires WellCut(sections)
    ensures Flat(sections) == [] <==> sections == [[]]
  {
    if sections == [[]] {
      FlatMore([], []);
      assert [[]] == [] + [sections[0]];
    } else {
      assert IsSection(sections[|sections| - 1]);
    }
  }

  lemma MergeWithoutTables(remote: string, local: string)
    requires |Local(Lines(local))| == 0
    ensures Merge(remote, local) == Join(Flat(Remerged(remote, local))) && Extract(local) == ""
  {
    RemergedShape(remote, local);
    assert TrimStart("") == "";
  }

  lemma LocalShape(text: string)
    ensures Proper(Local(Lines(text))) && Tables(Local(Lines(text)))
  {
    LinesAreProper(text);
    KeptProper(Lines(text));
    StripAndExtractPartition(Lines(text));
  }

  lemma Appended(x: string, w: string)
    requires |w| > 0 && w[|w| - 1] != '\n'
    ensures Closed(x + w) == x + (w + "\n")
  {
    assert (x + w)[|x + w| - 1] == w[|w| - 1];
    Regroup(x, w, "\n");
  }

  // What the merge puts before the device's own tables.
  lemma PaddedOrEmpty(lines: seq<string>)
    requires Proper(lines)
    ensures Join(Padded(lines)) == (if Join(lines) == "" then "" else Closed(Join(lines)) + "\n")
  {
    if |lines| > 0 {
      PaddedText(lines);
      ProperIsNotEmpty(lines);
    }
  }

  lemma MergeWithTables(remote: string, local: string)
    requires |Local(Lines(local))| > 0
    ensures Merge(remote, local) == Join(Padded(Flat(Remerged(remote, local))) + Trimmed(Local(Lines(local))))
  {
    var own, public := Local(Lines(local)), Flat(Remerged(remote, local));
    RemergedShape(remote, local);
    LocalShape(local);
    OwnTables(own);
    PaddedOrEmpty(public);
    Appended(Join(Padded(public)), TrimNewlines(Join(own)));
    JoinAppend(Padded(public), Trimmed(own));
  }

  lemma MergedLines(remote: string, local: string)
    requires |Local(Lines(local))| > 0
    ensures var own, public := Local(Lines(local)), Flat(Remerged(remote, local));
            && Proper(own) && Tables(own)
            && Lines(Merge(remote, local)) == Padded(public) + Trimmed(own)
            && Kept(Lines(Merge(remote, local))) == Padded(public)
            && Local(Lines(Merge(remote, local))) == Trimmed(own)
  {
    var own, public := Local(Lines(local)), Flat(Remerged(remote, local));
    MergeWithTables(remote, local);
    RemergedShape(remote, local);
    LocalShape(local);
    TrimmedTables(own);
    if |public| > 0 {
      PaddedText(public);
    }
    ProperFront(Padded(public) + Trimmed(own));
    LinesOfJoin(Padded(public) + Trimmed(own));
    PaddedPublic(public);
    KeptBeforeTables(Padded(public), Trimmed(own));
  }

  // ----- main results -------------------------------------------------------------

  // Main result: the device's own tables survive a merge, but for the newlines
  // around them.
  lemma ExtractOfMerge(remote: string, local: string)
    ensures Extract(Merge(remote, local)) ==
              if Extract(local) == "" then "" else TrimNewlines(Extract(local)) + "\n"
  {
    var own, public := Local(Lines(local)), Flat(Remerged(remote, local));
    LocalShape(local);
    if |own| == 0 {
      MergeWithoutTables(remote, local);
      RemergedShape(remote, local);
      LinesOfJoin(public);
      KeptOfPublic(public);
    } else {
      MergedLines(remote, local);
      OwnTables(own);
      ProperIsNotEmpty(own);
    }
  }

  lemma StripOfMergePadded(remote: string, local: string)
    requires |Local(Lines(local))| > 0 && Strip(remote) != ""
    ensures Strip(Merge(remote, local)) == Closed(Strip(remote)) + "\n"
  {
    var sections, locals := Sections(Lines(Strip(remote))), Providers(Sections(Lines(local)));
    var m := Remerged(remote, local);
    StripIsPublished(remote);
    LocalsAreClean(local);
    RemergedShape(remote, local);
    MergedLines(remote, local);
    var merged := Lines(Merge(remote, local));
    LinesAreProper(Merge(remote, local));
    JoinLines(Merge(remote, local));
    StripLines(merged);
    assert IsSection(m[|m| - 1]);
    FlatPadded(m);
    PaddedAreWellCut(m);
    SectionsOfFlat(PaddedLast(m));
    StripAllPadded(sections, locals);
    FlatOfCut(sections);
    assert IsSection(sections[|sections| - 1]);
    FlatPadded(sections);
    PaddedText(Flat(sections));
  }

  lemma StripOfMergeUnpadded(remote: string, local: string)
    requires |Local(Lines(local))| == 0
    ensures Strip(Merge(remote, local)) == Strip(remote)
  {
    var sections, locals := Sections(Lines(Strip(remote))), Providers(Sections(Lines(local)));
    var m := Remerged(remote, local);
    StripIsPublished(remote);
    LocalsAreClean(local);
    RemergedShape(remote, local);
    MergeWithoutTables(remote, local);
    StripLines(Flat(m));
    KeptOfPublic(Flat(m));
    SectionsOfFlat(m);
    StripAllAfterMerge(sections, locals);
  }

  lemma StripOfMergeEmpty(remote: string, local: string)
    requires |Local(Lines(local))| > 0 && Strip(remote) == ""
    ensures Strip(Merge(remote, local)) == ""
  {
    RemergedShape(remote, local);
    MergedLines(remote, local);
    NothingKept(Merge(remote, local));
  }

  lemma NothingKept(text: string)
    requires Kept(Lines(text)) == []
    ensures Strip(text) == ""
  {
    LinesAreProper(text);
    JoinLines(text);
    StripLines(Lines(text));
    NoLocalsNoPath([]);
    FlatOfCut(MergedSections([[]], []));
  }

  // Main result: exactly what a device publishes after it has taken over a
  // published text. It is that text again when the device has no tables of its
  // own; otherwise it has gained a blank line.
  lemma StripOfMerge(remote: string, local: string)
    ensures Strip(Merge(remote, local)) ==
              if Extract(local) == "" || Strip(remote) == "" then Strip(remote) else Closed(Strip(remote)) + "\n"
  {
    var own := Local(Lines(local));
    if |own| == 0 {
      StripOfMergeUnpadded(remote, local);
    } else {
      LocalShape(local);
      ProperIsNotEmpty(own);
      if Strip(remote) == "" {
        StripOfMergeEmpty(remote, local);
      } else {
        StripOfMergePadded(remote, local);
      }
    }
  }

  lemma StripOfMergeIff(remote: string, local: string)
    ensures Strip(Merge(remote, local)) == Strip(remote) <==> Extract(local) == "" || Strip(remote) == ""
  {
    StripOfMerge(remote, local);
  }

  // ----- the session paths of a merged text ----------------------------------------

  lemma {:induction false} FlatAppend(a: seq<seq<string>>, b: seq<seq<string>>)
    ensures Flat(a + b) == Flat(a) + Flat(b)
    decreases |b|
  {
    if |b| == 0 {
      NothingMore(a);
      NothingMore(Flat(a));
    } else {
      FrontOfAppend(a, b);
      FlatAppend(a, b[..|b| - 1]);
      Regroup(Flat(a), Flat(b[..|b| - 1]), b[|b| - 1]);
    }
  }

  lemma WellCutAppend(a: seq<seq<string>>, b: seq<seq<string>>)
    requires WellCut(a) && WellCut(b) && a != [[]] && b != [[]] && IsHeader(b[0][0])
    ensures WellCut(a + b)
  {
    assert IsSection(a[0]);
    assert (a + b)[0] == a[0];
    forall i | 0 < i < |a + b|
      ensures IsSection((a + b)[i]) && IsHeader((a + b)[i][0])
    {
      if i >= |a| {
        assert (a + b)[i] == b[i - |a|];
        assert IsSection(b[i - |a|]);
      } else {
        assert IsSection(a[i]);
      }
    }
  }

  lemma FirstOfSections(lines: seq<string>)
    requires |lines| > 0
    ensures Sections(lines) != [[]] && |Sections(lines)[0]| > 0 && Sections(lines)[0][0] == lines[0]
  {
    SectionsAreWellCut(lines);
    var sections := Sections(lines);
    assert IsSection(sections[0]);
    FlatSections(lines);
    assert sections == [sections[0]] + sections[1..];
    FlatAppend([sections[0]], sections[1..]);
    FlatMore([], sections[0]);
    NothingMore(sections[0]);
    assert [] + [sections[0]] == [sections[0]];
  }

  lemma SectionsWithoutTables(remote: string, local: string)
    requires |Local(Lines(local))| == 0
    ensures Sections(Lines(Merge(remote, local))) == Remerged(remote, local)
  {
    RemergedShape(remote, local);
    MergeWithoutTables(remote, local);
    LinesOfJoin(Flat(Remerged(remote, local)));
    SectionsOfFlat(Remerged(remote, local));
  }

  // The sections of a merged text are those of the published part, the last one
  // padded, and those of the device's tables.
  lemma SectionsWithTables(remote: string, local: string)
    requires Strip(remote) != "" && |Local(Lines(local))| > 0
    ensures Sections(Lines(Merge(remote, local))) ==
              PaddedLast(Remerged(remote, local)) + Sections(Trimmed(Local(Lines(local))))
  {
    RemergedShape(remote, local);
    MergedLines(remote, local);
    LocalShape(local);
    TrimmedTables(Local(Lines(local)));
    PaddedShape(Remerged(remote, local));
    TablesAfter(PaddedLast(Remerged(remote, local)), Trimmed(Local(Lines(local))));
  }

  lemma PaddedShape(sections: seq<seq<string>>)
    requires WellCut(sections) && sections != [[]]
    ensures WellCut(PaddedLast(sections)) && PaddedLast(sections) != [[]]
    ensures Flat(PaddedLast(sections)) == Padded(Flat(sections))
  {
    assert IsSection(sections[|sections| - 1]);
    FlatPadded(sections);
    PaddedAreWellCut(sections);
    assert |PaddedLast(sections)[|sections| - 1]| > 0;
  }

  // One of the first sections of a merged text.
  lemma SectionInMerge(remote: string, local: string, i: nat)
    requires Strip(remote) != "" && i < |Remerged(remote, local)|
    ensures var m := Remerged(remote, local);
            var merged := Sections(Lines(Merge(remote, local)));
            && |m| <= |merged|
            && merged[i] == if |Local(Lines(local))| > 0 && i == |m| - 1 then Padded(m[i]) else m[i]
  {
    if |Local(Lines(local))| == 0 {
      SectionsWithoutTables(remote, local);
    } else {
      var m := Remerged(remote, local);
      SectionsWithTables(remote, local);
      PaddedThen(m, Sections(Trimmed(Local(Lines(local)))), Sections(Lines(Merge(remote, local))), i);
    }
  }

  lemma PaddedThen(m: seq<seq<string>>, tables: seq<seq<string>>, merged: seq<seq<string>>, i: nat)
    requires i < |m| && merged == PaddedLast(m) + tables
    ensures |m| <= |merged| && merged[i] == if i == |m| - 1 then Padded(m[i]) else m[i]
  {
    OtherLast(m, Padded(m[|m| - 1]), i);
    StaysAt(PaddedLast(m), tables, i);
  }

  lemma TablesAfter(sections: seq<seq<string>>, tables: seq<string>)
    requires WellCut(sections) && sections != [[]] && |tables| > 0 && Tables(tables)
    ensures Sections(Flat(sections) + tables) == sections + Sections(tables)
  {
    LocalOnlyIsHeader(tables[0]);
    FirstOfSections(tables);
    SectionsAreWellCut(tables);
    FlatSections(tables);
    WellCutAppend(sections, Sections(tables));
    FlatAppend(sections, Sections(tables));
    SectionsOfFlat(sections + Sections(tables));
  }

  // A section as it stands in a merged text; the last one is padded when tables of
  // the device follow.
  function InMerged(section: seq<string>, path: Option<string>, padded: bool): seq<string>
    requires |section| > 0
  {
    var s := Headed(section[0], path) + section[1..];
    if padded then Padded(s) else s
  }

  // Main result: after a merge every provider has the device's own session path
  // for it right after its header, no other, and its other lines as published.
  lemma PathsFollowIdentity(remote: string, local: string, i: nat)
    requires i < |Sections(Lines(Strip(remote)))| && IsProvider(Sections(Lines(Strip(remote)))[i])
    ensures var published := Sections(Lines(Strip(remote)));
            var merged := Sections(Lines(Merge(remote, local)));
            var path := PathFor(published[i], Providers(Sections(Lines(local))));
            && WithoutCodex(published[i]) == published[i]
            && |published| <= |merged| && IsProvider(merged[i])
            && merged[i] == InMerged(published[i], path, i == |published| - 1 && Extract(local) != "")
            && (FirstAssignment(merged[i], CODEX).Some? <==> path.Some?)
  {
    var published, locals := Sections(Lines(Strip(remote))), Providers(Sections(Lines(local)));
    var section, path := published[i], PathFor(published[i], locals);
    StripIsPublished(remote);
    MergedHasPath(section, path);
    NotEmptyWithProvider(remote, i);
    SectionInMerge(remote, local, i);
    ExtractIsEmptyIff(local);
    PaddedHasPath(Merged(section, path));
  }

  lemma NotEmptyWithProvider(remote: string, i: nat)
    requires i < |Sections(Lines(Strip(remote)))| && |Sections(Lines(Strip(remote)))[i]| > 0
    ensures Strip(remote) != ""
  {
    LinesAreProper(Strip(remote));
  }

  lemma ExtractIsEmptyIff(local: string)
    ensures Extract(local) == "" <==> |Local(Lines(local))| == 0
  {
    LocalShape(local);
    if |Local(Lines(local))| > 0 {
      ProperIsNotEmpty(Local(Lines(local)));
    }
  }

  lemma PaddedHasPath(section: seq<string>)
    requires IsProvider(section)
    ensures IsProvider(Padded(section))
    ensures FirstAssignment(Padded(section), CODEX).Some? <==> FirstAssignment(section, CODEX).Some?
  {
    var front, last := section[..|section| - 1], section[|section| - 1];
    ClosedShape(last);
    NewlineShape();
    FirstNext(CloseLast(section), "\n");
    FirstNext(front, Closed(last));
    FirstNext(front, last);
    FrontAndLast(section);
  }

  lemma FirstNext(lines: seq<string>, line: string)
    ensures FirstAssignment(lines + [line], CODEX) ==
              if FirstAssignment(lines, CODEX).Some? then FirstAssignment(lines, CODEX) else Assignment(line, CODEX)
  {
    FrontOf(lines, line);
  }

  lemma {:induction false} NoneAssigned(lines: seq<string>)
    requires WithoutCodex(lines) == lines
    ensures FirstAssignment(lines, CODEX).None?
    decreases |lines|
  {
    if |lines| > 0 {
      LastKept(lines);
      NoneAssigned(lines[..|lines| - 1]);
    }
  }

  lemma {:induction false} AssignedSomewhere(lines: seq<string>, i: nat)
    requires i < |lines| && Assignment(lines[i], CODEX).Some?
    ensures FirstAssignment(lines, CODEX).Some?
    decreases |lines|
  {
    if i < |lines| - 1 {
      AssignedSomewhere(lines[..|lines| - 1], i);
    }
  }

  lemma CleanProvider(section: seq<string>)
    requires IsProvider(section) && Merged(section, None) == section
    ensures WithoutCodex(section) == section && WithoutCodex(section[1..]) == section[1..]
  {
    var head, rest := section[0], section[1..];
    assert section == [head] + rest;
    HeadAndRest(head, WithoutCodex(rest));
    ProviderHeaderIsHeader(head);
    HeaderIsNoAssignment(head, CODEX);
    WithoutCodexAppend([head], rest);
    assert [head][..0] == [];
  }

  lemma MergedHasPath(section: seq<string>, path: Option<string>)
    requires IsProvider(section) && Merged(section, None) == section
    ensures WithoutCodex(section) == section && Merged(section, path) == Headed(section[0], path) + section[1..]
    ensures FirstAssignment(Merged(section, path), CODEX).Some? <==> path.Some?
    ensures IsProvider(Merged(section, path))
  {
    CleanProvider(section);
    ClosedShape(section[0]);
    if path.Some? {
      CodexLineShape(path.value);
      AssignedSomewhere(Merged(section, path), 1);
    } else {
      NoneAssigned(section);
    }
  }
}
