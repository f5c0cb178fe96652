// What splitting and merging the settings keep.
module SettingsLaws {
  import opened Options
  import opened Sequences
  import opened SettingsLines
  import opened SettingsTexts

  // ----- tables ----------------------------------------------------------------

  lemma LocalOnlyIsHeader(line: string)
    requires IsLocalOnlyHeader(line)
    ensures IsHeader(line)
  {
  }

  ghost predicate Public(lines: seq<string>) {
    forall line | line in lines :: !IsLocalOnlyHeader(line)
  }

  // Whole local-only tables.
  ghost predicate Tables(lines: seq<string>) {
    && (|lines| > 0 ==> IsLocalOnlyHeader(lines[0]))
    && forall line | line in lines && IsHeader(line) :: IsLocalOnlyHeader(line)
  }

  // Every line is published or stays, and none is both.
  lemma {:induction false} StripAndExtractPartition(lines: seq<string>)
    ensures multiset(Kept(lines)) + multiset(Local(lines)) == multiset(lines)
    ensures Public(Kept(lines)) && Tables(Local(lines))
  {
    if |lines| > 0 {
      var front, last := lines[..|lines| - 1], lines[|lines| - 1];
      StripAndExtractPartition(front);
      FrontAndLast(lines);
      assert multiset(lines) == multiset(front) + multiset{last};
      if InLocalTable(lines) {
        NothingMore(Kept(front));
        assert multiset(Local(lines)) == multiset(Local(front)) + multiset{last};
        if |Local(front)| == 0 {
          NotLocalYet(front);
          assert Local(lines)[0] == last;
        } else {
          assert Local(lines)[0] == Local(front)[0];
        }
      } else {
        NothingMore(Local(front));
        assert multiset(Kept(lines)) == multiset(Kept(front)) + multiset{last};
        if IsLocalOnlyHeader(last) {
          LocalOnlyIsHeader(last);
        }
      }
    }
  }

  lemma NotLocalYet(lines: seq<string>)
    requires |Local(lines)| == 0
    ensures !InLocalTable(lines)
  {
  }

  lemma {:induction false} KeptOfPublic(lines: seq<string>)
    requires Public(lines)
    ensures !InLocalTable(lines) && Kept(lines) == lines && Local(lines) == []
    decreases |lines|
  {
    if |lines| > 0 {
      KeptOfPublic(lines[..|lines| - 1]);
      FrontAndLast(lines);
    }
  }

  lemma {:induction false} KeptBeforeTables(lines: seq<string>, tables: seq<string>)
    requires Public(lines) && Tables(tables)
    ensures Kept(lines + tables) == lines && Local(lines + tables) == tables
    ensures |tables| > 0 ==> InLocalTable(lines + tables)
    decreases |tables|
  {
    if |tables| == 0 {
      NothingMore(lines);
      KeptOfPublic(lines);
    } else {
      var front, last := tables[..|tables| - 1], tables[|tables| - 1];
      FrontOfAppend(lines, tables);
      FrontAndLast(tables);
      KeptBeforeTables(lines, front);
      NothingMore(lines);
      if |front| == 0 {
        LocalOnlyIsHeader(last);
      }
    }
  }

  lemma {:induction false} KeptTerminated(lines: seq<string>)
    requires AllTerminated(lines)
    ensures AllTerminated(Kept(lines)) && AllTerminated(Local(lines))
    decreases |lines|
  {
    if |lines| > 0 {
      KeptTerminated(lines[..|lines| - 1]);
    }
  }

  lemma ProperAppend(lines: seq<string>, line: string)
    requires AllTerminated(lines) && (Terminated(line) || (|line| > 0 && '\n' !in line))
    ensures Proper(lines + [line])
  {
    FrontOf(lines, line);
  }

  lemma KeptProper(lines: seq<string>)
    requires Proper(lines)
    ensures Proper(Kept(lines)) && Proper(Local(lines))
  {
    if |lines| > 0 {
      var front, last := lines[..|lines| - 1], lines[|lines| - 1];
      KeptTerminated(front);
      ProperFront(Kept(front));
      ProperFront(Local(front));
      ProperAppend(Kept(front), last);
      ProperAppend(Local(front), last);
      NothingMore(Kept(front));
      NothingMore(Local(front));
    }
  }

  // ----- sections ----------------------------------------------------------------

  function Flat(sections: seq<seq<string>>): seq<string> {
    if |sections| == 0 then [] else Flat(sections[..|sections| - 1]) + sections[|sections| - 1]
  }

  // Only the first line may be a header.
  ghost predicate IsSection(section: seq<string>) {
    |section| > 0 && forall i | 0 < i < |section| :: !IsHeader(section[i])
  }

  ghost predicate WellCut(sections: seq<seq<string>>) {
    sections == [[]] ||
    (|sections| > 0 && (forall i | 0 <= i < |sections| :: IsSection(sections[i]))
     && forall i | 0 < i < |sections| :: IsHeader(sections[i][0]))
  }

  lemma FlatMore(sections: seq<seq<string>>, section: seq<string>)
    ensures Flat(sections + [section]) == Flat(sections) + section
  {
    FrontOf(sections, section);
  }

  lemma {:induction false} FlatSections(lines: seq<string>)
    ensures Flat(Sections(lines)) == lines
  {
    if |lines| == 0 {
      FlatMore([], []);
      NothingMore<seq<string>>([[]]);
    } else {
      var front, last := lines[..|lines| - 1], lines[|lines| - 1];
      FlatSections(front);
      FrontAndLast(lines);
      var before := Sections(front);
      var n := |before| - 1;
      FrontAndLast(before);
      if IsHeader(last) && |before[n]| > 0 {
        FlatMore(before, [last]);
      } else {
        FlatMore(before[..n], before[n]);
        FlatMore(before[..n], before[n] + [last]);
        Regroup(Flat(before[..n]), before[n], [last]);
      }
    }
  }

  lemma LongerSection(section: seq<string>, line: string)
    requires section == [] || (IsSection(section) && !IsHeader(line))
    ensures IsSection(section + [line]) && (section != [] ==> (section + [line])[0] == section[0])
  {
  }

  lemma CutAnother(sections: seq<seq<string>>, section: seq<string>)
    requires WellCut(sections) && sections != [[]] && IsSection(section) && IsHeader(section[0])
    ensures WellCut(sections + [section])
  {
    assert IsSection((sections + [section])[0]);
  }

  lemma {:induction false} SectionsAreWellCut(lines: seq<string>)
    ensures WellCut(Sections(lines)) && (Sections(lines) == [[]] <==> |lines| == 0)
  {
    if |lines| > 0 {
      var front, last := lines[..|lines| - 1], lines[|lines| - 1];
      SectionsAreWellCut(front);
      var before := Sections(front);
      var n := |before| - 1;
      if IsHeader(last) && |before[n]| > 0 {
        CutAnother(before, [last]);
      } else {
        LongerSection(before[n], last);
        LastReplaced(before, before[n] + [last]);
      }
    }
  }

  lemma LastReplaced(sections: seq<seq<string>>, section: seq<string>)
    requires WellCut(sections) && IsSection(section)
    requires |sections[|sections| - 1]| > 0 ==> section[0] == sections[|sections| - 1][0]
    ensures WellCut(sections[..|sections| - 1] + [section]) && sections[..|sections| - 1] + [section] != [[]]
  {
    var r := sections[..|sections| - 1] + [section];
    assert r[|sections| - 1] == section;
    if sections == [[]] {
      assert r == [section];
    }
  }

  // Cutting a well-cut text again gives the same sections.
  lemma {:induction false} SectionsOfFlat(sections: seq<seq<string>>)
    requires WellCut(sections)
    ensures Sections(Flat(sections)) == sections
    decreases |sections|
  {
    if sections == [[]] {
      FlatMore([], []);
    } else {
      var n := |sections| - 1;
      var front, last := sections[..n], sections[n];
      FrontAndLast(sections);
      if n == 0 {
        assert front == [];
        SectionsOfLast([], [], last, |last|);
      } else {
        assert WellCut(front) by {
          assert IsSection(sections[0]);
          assert front != [[]];
        }
        SectionsOfFlat(front);
        SectionsOfLast(front, Flat(front), last, |last|);
      }
      assert last[..|last|] == last;
    }
  }

  lemma SectionsMore(lines: seq<string>, line: string, done: seq<seq<string>>, current: seq<string>)
    requires Sections(lines) == done + [current]
    ensures Sections(lines + [line]) ==
              if IsHeader(line) && |current| > 0 then done + [current] + [[line]] else done + [current + [line]]
  {
    FrontOf(lines, line);
    FrontOf(done, current);
  }

  lemma FirstOf<T>(s: seq<T>)
    requires |s| > 0
    ensures s[..1] == [s[0]]
  {
  }

  lemma PrefixMore<T>(lines: seq<T>, s: seq<T>, k: nat)
    requires 0 < k <= |s|
    ensures lines + s[..k] == (lines + s[..k - 1]) + [s[k - 1]] && s[..k - 1] + [s[k - 1]] == s[..k]
  {
  }

  // ... and so does adding one section line by line.
  lemma {:induction false} SectionsOfLast(front: seq<seq<string>>, lines: seq<string>, last: seq<string>, k: nat)
    requires 0 < k <= |last| && IsSection(last)
    requires if |front| == 0 then lines == []
             else WellCut(front) && front != [[]] && IsHeader(last[0]) && Sections(lines) == front
    ensures Sections(lines + last[..k]) == front + [last[..k]]
    decreases k
  {
    if k == 1 {
      FirstOf(last);
      SectionsFirst(front, lines, last[0]);
    } else {
      SectionsOfLast(front, lines, last, k - 1);
      PrefixMore(lines, last, k);
      SectionsMore(lines + last[..k - 1], last[k - 1], front, last[..k - 1]);
    }
  }

  lemma SectionsFirst(front: seq<seq<string>>, lines: seq<string>, line: string)
    requires if |front| == 0 then lines == []
             else WellCut(front) && front != [[]] && IsHeader(line) && Sections(lines) == front
    ensures Sections(lines + [line]) == front + [[line]]
  {
    if |front| == 0 {
      NothingMore<seq<string>>([[]]);
      SectionsMore(lines, line, [], []);
      NothingMore([line]);
    } else {
      FrontAndLast(front);
      assert IsSection(front[|front| - 1]);
      SectionsMore(lines, line, front[..|front| - 1], front[|front| - 1]);
    }
  }

  // ----- one section, merged ------------------------------------------------------

  lemma {:induction false} WithoutCodexTwice(lines: seq<string>)
    ensures WithoutCodex(WithoutCodex(lines)) == WithoutCodex(lines)
    ensures forall line | line in WithoutCodex(lines) :: line in lines && Assignment(line, CODEX).None?
    decreases |lines|
  {
    if |lines| > 0 {
      WithoutCodexTwice(lines[..|lines| - 1]);
      WithoutCodexNext(WithoutCodex(lines[..|lines| - 1]), lines[|lines| - 1]);
      NothingMore(WithoutCodex(lines[..|lines| - 1]));
    }
  }

  lemma {:induction false} WithoutCodexAppend(a: seq<string>, b: seq<string>)
    ensures WithoutCodex(a + b) == WithoutCodex(a) + WithoutCodex(b)
    decreases |b|
  {
    if |b| == 0 {
      NothingMore(a);
      NothingMore(WithoutCodex(a));
    } else {
      FrontOfAppend(a, b);
      WithoutCodexAppend(a, b[..|b| - 1]);
    }
  }

  lemma ClosedShape(line: string)
    ensures IsHeader(Closed(line)) <==> IsHeader(line)
    ensures IsLocalOnlyHeader(Closed(line)) <==> IsLocalOnlyHeader(line)
    ensures IsProviderHeader(Closed(line)) <==> IsProviderHeader(line)
    ensures Assignment(Closed(line), CODEX) == Assignment(line, CODEX)
  {
    HeaderNewline(line);
    ShapeNewline(line, CODEX);
  }

  lemma TailOfHeaded(line: string, path: Option<string>, rest: seq<string>)
    ensures var m := Headed(line, path) + rest;
            && m[0] == (if path.Some? then Closed(line) else line)
            && m[1..] == (if path.Some? then [CodexLine(path.value)] else []) + rest
  {
    NothingMore(rest);
  }

  ghost predicate Plain(lines: seq<string>) {
    forall line | line in lines :: !IsHeader(line)
  }

  lemma SectionIsPlainTail(section: seq<string>)
    requires |section| > 0
    ensures IsSection(section) <==> Plain(section[1..])
  {
    if Plain(section[1..]) {
      forall i | 0 < i < |section|
        ensures !IsHeader(section[i])
      {
        assert section[i] == section[1..][i - 1];
      }
    }
  }

  lemma WithoutCodexPlain(path: Option<string>, lines: seq<string>)
    requires Plain(lines)
    ensures Plain((if path.Some? then [CodexLine(path.value)] else []) + WithoutCodex(lines))
  {
    WithoutCodexTwice(lines);
    if path.Some? {
      CodexLineShape(path.value);
    }
  }

  lemma PublicTail(section: seq<string>)
    requires |section| > 0 && Plain(section[1..])
    ensures Public(section) <==> !IsLocalOnlyHeader(section[0])
  {
    if !IsLocalOnlyHeader(section[0]) {
      forall line | line in section
        ensures !IsLocalOnlyHeader(line)
      {
        assert line == section[0] || line in section[1..];
        if IsLocalOnlyHeader(line) {
          LocalOnlyIsHeader(line);
        }
      }
    }
  }

  lemma MergedIsSection(section: seq<string>, path: Option<string>)
    requires IsSection(section)
    ensures IsSection(Merged(section, path)) && (IsHeader(Merged(section, path)[0]) <==> IsHeader(section[0]))
    ensures Public(section) ==> Public(Merged(section, path))
    ensures IsProvider(Merged(section, path)) <==> IsProvider(section)
  {
    if IsProvider(section) {
      var m := Merged(section, path);
      SectionIsPlainTail(section);
      TailOfHeaded(section[0], path, WithoutCodex(section[1..]));
      WithoutCodexPlain(path, section[1..]);
      SectionIsPlainTail(m);
      ClosedShape(section[0]);
      PublicTail(section);
      PublicTail(m);
    }
  }

  // Adding a path and taking it away again.
  lemma StripAfterMerge(section: seq<string>, path: Option<string>)
    requires IsProvider(section)
    ensures Merged(Merged(section, path), None) ==
              [if path.Some? then Closed(section[0]) else section[0]] + WithoutCodex(section[1..])
  {
    var rest := WithoutCodex(section[1..]);
    TailOfHeaded(section[0], path, rest);
    ClosedShape(section[0]);
    WithoutCodexTwice(section[1..]);
    if path.Some? {
      CodexLineShape(path.value);
      WithoutCodexAppend([CodexLine(path.value)], rest);
      assert WithoutCodex([CodexLine(path.value)]) == [] by {
        assert [CodexLine(path.value)][..0] == [];
      }
    }
    NothingMore(rest);
  }

  // A provider without settings matches none of the device's.
  lemma {:induction false} NoSettingsNoPath(section: seq<string>, locals: seq<seq<string>>)
    requires IsProvider(section) && |section| == 1
    ensures PathFor(section, locals).None?
  {
    HeaderHasNoSetting(section[0], "id");
    HeaderHasNoSetting(section[0], "name");
    assert section == [section[0]];
  }

  lemma HeaderHasNoSetting(line: string, key: string)
    requires IsProviderHeader(line) && |key| > 0 && key[0] != '['
    ensures FirstAssignment([line], key).None?
  {
    assert [line][..0] == [];
    ProviderHeaderIsHeader(line);
    HeaderIsNoAssignment(line, key);
  }

  // ----- all sections, merged -------------------------------------------------------

  function MergedSections(sections: seq<seq<string>>, locals: seq<seq<string>>): (r: seq<seq<string>>)
    ensures |r| == |sections|
    ensures forall i | 0 <= i < |sections| :: r[i] == Merged(sections[i], PathFor(sections[i], locals))
  {
    seq(|sections|, i requires 0 <= i < |sections| => Merged(sections[i], PathFor(sections[i], locals)))
  }

  lemma {:induction false} MergeAllIsFlat(sections: seq<seq<string>>, locals: seq<seq<string>>)
    ensures MergeAll(sections, locals) == Flat(MergedSections(sections, locals))
    decreases |sections|
  {
    if |sections| > 0 {
      var front := sections[..|sections| - 1];
      MergeAllIsFlat(front, locals);
      assert MergedSections(sections, locals)[..|sections| - 1] == MergedSections(front, locals);
    }
  }

  lemma MergedAreWellCut(sections: seq<seq<string>>, locals: seq<seq<string>>)
    requires WellCut(sections)
    ensures WellCut(MergedSections(sections, locals))
    ensures MergedSections(sections, locals) == [[]] <==> sections == [[]]
  {
    var r := MergedSections(sections, locals);
    if sections == [[]] {
      assert r == [[]];
    } else {
      forall i | 0 <= i < |r|
        ensures IsSection(r[i]) && (i > 0 ==> IsHeader(r[i][0]))
      {
        MergedIsSection(sections[i], PathFor(sections[i], locals));
      }
    }
  }

  lemma NoLocalsNoPath(section: seq<string>)
    ensures PathFor(section, []).None?
  {
  }

  // ----- lines stay lines ------------------------------------------------------------

  ghost predicate OneLine(line: string) {
    Terminated(line) || (|line| > 0 && '\n' !in line)
  }

  lemma {:induction false} TrimStartWithin(s: string, c: char)
    requires c in TrimStart(s)
    ensures c in s
    decreases |s|
  {
    if |s| > 0 && IsSpace(s[0]) {
      TrimStartWithin(s[1..], c);
    }
  }

  lemma {:induction false} TrimEndWithin(s: string, c: char)
    requires c in TrimEnd(s)
    ensures c in s
  {
  }

  lemma AssignedIsOneLine(line: string, key: string)
    requires OneLine(line) && Assignment(line, key).Some?
    ensures '\n' !in Assignment(line, key).value
  {
    var i := Find(line, "=", 0).value;
    var rest := line[i + 1..];
    assert line[i..i + 1] == "=";
    assert line[i] == line[i..i + 1][0];
    if Terminated(line) {
      var body := rest[..|rest| - 1];
      assert rest == body + "\n";
      TrimNewline(body);
      assert forall c | c in body :: c in line[..|line| - 1];
      if '\n' in Trim(body) {
        TrimEndWithin(TrimStart(body), '\n');
        TrimStartWithin(body, '\n');
      }
    } else if '\n' in Trim(rest) {
      TrimEndWithin(TrimStart(rest), '\n');
      TrimStartWithin(rest, '\n');
    }
  }

  ghost predicate AllOneLine(lines: seq<string>) {
    forall line | line in lines :: OneLine(line)
  }

  lemma {:induction false} FirstIsOneLine(lines: seq<string>, key: string)
    requires AllOneLine(lines) && FirstAssignment(lines, key).Some?
    ensures '\n' !in FirstAssignment(lines, key).value
    decreases |lines|
  {
    var front, last := lines[..|lines| - 1], lines[|lines| - 1];
    if FirstAssignment(front, key).Some? {
      FirstIsOneLine(front, key);
    } else {
      AssignedIsOneLine(last, key);
    }
  }

  ghost predicate CleanLocals(locals: seq<seq<string>>) {
    forall local | local in locals :: AllOneLine(local)
  }

  lemma {:induction false} WithSettingIsLocal(locals: seq<seq<string>>, key: string, value: string)
    requires WithSetting(locals, key, value).Some?
    ensures WithSetting(locals, key, value).value in locals
    decreases |locals|
  {
    var front := locals[..|locals| - 1];
    if WithSetting(front, key, value).Some? {
      WithSettingIsLocal(front, key, value);
    }
  }

  lemma PathIsOneLine(section: seq<string>, locals: seq<seq<string>>)
    requires CleanLocals(locals) && PathFor(section, locals).Some?
    ensures '\n' !in PathFor(section, locals).value
  {
    var byId := ProviderSetting(section, "id");
    var byName := ProviderSetting(section, "name");
    if MatchBy(section, locals, "id").Some? {
      WithSettingIsLocal(locals, "id", byId.value);
    } else {
      WithSettingIsLocal(locals, "name", byName.value);
    }
    FirstIsOneLine(Matching(section, locals).value, CODEX);
  }

  lemma {:induction false} InFlat(sections: seq<seq<string>>, section: seq<string>)
    requires section in sections
    ensures forall line | line in section :: line in Flat(sections)
    decreases |sections|
  {
    FrontAndLast(sections);
    if section != sections[|sections| - 1] {
      InFlat(sections[..|sections| - 1], section);
    }
  }

  lemma {:induction false} ProvidersAreSections(sections: seq<seq<string>>)
    ensures forall p | p in Providers(sections) :: p in sections
    decreases |sections|
  {
    if |sections| > 0 {
      ProvidersAreSections(sections[..|sections| - 1]);
    }
  }

  lemma ProperIsOneLine(lines: seq<string>)
    requires Proper(lines)
    ensures AllOneLine(lines)
  {
    if |lines| > 0 {
      FrontAndLast(lines);
    }
  }

  lemma LocalsAreClean(text: string)
    ensures CleanLocals(Providers(Sections(Lines(text))))
  {
    var lines := Lines(text);
    LinesAreProper(text);
    ProperIsOneLine(lines);
    FlatSections(lines);
    ProvidersAreSections(Sections(lines));
    forall p | p in Providers(Sections(lines))
      ensures AllOneLine(p)
    {
      InFlat(Sections(lines), p);
    }
  }

  lemma CodexLineTerminated(path: string)
    requires '\n' !in path
    ensures Terminated(CodexLine(path))
  {
    var line := CodexLine(path);
    assert line[..|line| - 1] == CODEX + " = " + path;
  }

  // ----- proper texts stay proper -------------------------------------------------------

  lemma ProperConcat(a: seq<string>, b: seq<string>)
    requires AllTerminated(a) && Proper(b)
    ensures Proper(a + b)
  {
    if |b| == 0 {
      NothingMore(a);
      ProperFront(a);
    } else {
      FrontOfAppend(a, b);
    }
  }

  lemma ProperSplit(a: seq<string>, b: seq<string>)
    requires Proper(a + b) && |b| > 0
    ensures AllTerminated(a) && Proper(b)
  {
    FrontOfAppend(a, b);
    var front, whole := b[..|b| - 1], (a + b)[..|a + b| - 1];
    assert forall line | line in a :: line in whole;
    assert forall line | line in front :: line in whole;
  }

  lemma WithoutCodexProper(lines: seq<string>)
    requires Proper(lines)
    ensures Proper(WithoutCodex(lines))
  {
    if |lines| > 0 {
      var front, last := lines[..|lines| - 1], lines[|lines| - 1];
      WithoutCodexTwice(front);
      ProperFront(WithoutCodex(front));
      ProperAppend(WithoutCodex(front), last);
      NothingMore(WithoutCodex(front));
    }
  }

  ghost predicate OneLinePath(path: Option<string>) {
    path.Some? ==> '\n' !in path.value
  }

  lemma HeadedTerminated(line: string, path: Option<string>)
    requires Terminated(line) && OneLinePath(path)
    ensures AllTerminated(Headed(line, path))
  {
    if path.Some? {
      CodexLineTerminated(path.value);
    }
  }

  lemma MergedTerminated(section: seq<string>, path: Option<string>)
    requires AllTerminated(section) && OneLinePath(path)
    ensures AllTerminated(Merged(section, path))
  {
    if IsProvider(section) {
      HeadedTerminated(section[0], path);
      WithoutCodexTwice(section[1..]);
    }
  }

  lemma MergedProper(section: seq<string>, path: Option<string>)
    requires Proper(section) && OneLinePath(path) && (IsProvider(section) && path.Some? ==> |section| > 1)
    ensures Proper(Merged(section, path))
  {
    if IsProvider(section) {
      if |section| == 1 {
        assert section[1..] == [];
        NothingMore([section[0]]);
        assert section == [section[0]];
      } else {
        assert section == [section[0]] + section[1..];
        ProperSplit([section[0]], section[1..]);
        assert Terminated([section[0]][0]);
        HeadedTerminated(section[0], path);
        WithoutCodexProper(section[1..]);
        ProperConcat(Headed(section[0], path), WithoutCodex(section[1..]));
      }
    }
  }

  lemma {:induction false} FlatMergedTerminated(sections: seq<seq<string>>, locals: seq<seq<string>>)
    requires AllTerminated(Flat(sections)) && CleanLocals(locals)
    ensures AllTerminated(Flat(MergedSections(sections, locals)))
    decreases |sections|
  {
    if |sections| > 0 {
      var front, last := sections[..|sections| - 1], sections[|sections| - 1];
      assert AllTerminated(Flat(front)) && AllTerminated(last);
      FlatMergedTerminated(front, locals);
      PathForClean(last, locals);
      MergedTerminated(last, PathFor(last, locals));
      assert MergedSections(sections, locals)[..|sections| - 1] == MergedSections(front, locals);
    }
  }

  lemma PathForClean(section: seq<string>, locals: seq<seq<string>>)
    requires CleanLocals(locals)
    ensures OneLinePath(PathFor(section, locals))
    ensures IsProvider(section) && PathFor(section, locals).Some? ==> |section| > 1
  {
    if PathFor(section, locals).Some? {
      PathIsOneLine(section, locals);
    }
    if IsProvider(section) && |section| == 1 {
      NoSettingsNoPath(section, locals);
    }
  }

  lemma FlatMergedProper(sections: seq<seq<string>>, locals: seq<seq<string>>)
    requires WellCut(sections) && Proper(Flat(sections)) && CleanLocals(locals)
    ensures Proper(Flat(MergedSections(sections, locals)))
  {
    var n := |sections| - 1;
    var front, last := sections[..n], sections[n];
    assert MergedSections(sections, locals)[..n] == MergedSections(front, locals);
    PathForClean(last, locals);
    if sections == [[]] {
      assert front == [] && Flat(front) == [];
      NothingMore<string>([]);
    } else {
      ProperSplit(Flat(front), last);
      FlatMergedTerminated(front, locals);
      MergedProper(last, PathFor(last, locals));
      ProperConcat(Flat(MergedSections(front, locals)), Merged(last, PathFor(last, locals)));
    }
  }
}
