// What of the settings is published, what stays on the device, and how a
// published text is merged with the device's own.
module SettingsTexts {
  import opened Options
  import opened Sequences
  import opened SettingsLines

  // ----- the functions, line by line ----------------------------------------

  // Whether the last line belongs to a table that stays on the device.
  predicate InLocalTable(lines: seq<string>) {
    |lines| > 0 &&
    var last := lines[|lines| - 1];
    if IsHeader(last) then IsLocalOnlyHeader(last) else InLocalTable(lines[..|lines| - 1])
  }

  function Kept(lines: seq<string>): seq<string> {
    if |lines| == 0 then []
    else Kept(lines[..|lines| - 1]) + (if InLocalTable(lines) then [] else [lines[|lines| - 1]])
  }

  function Local(lines: seq<string>): seq<string> {
    if |lines| == 0 then []
    else Local(lines[..|lines| - 1]) + (if InLocalTable(lines) then [lines[|lines| - 1]] else [])
  }

  // Sections start at table headers; the first may start without one.
  function Sections(lines: seq<string>): (r: seq<seq<string>>)
    ensures |r| > 0
  {
    if |lines| == 0 then [[]]
    else
      var before, last := Sections(lines[..|lines| - 1]), lines[|lines| - 1];
      var n := |before| - 1;
      if IsHeader(last) && |before[n]| > 0 then before + [[last]] else before[..n] + [before[n] + [last]]
  }

  predicate IsProvider(section: seq<string>) {
    |section| > 0 && IsProviderHeader(section[0])
  }

  function FirstAssignment(lines: seq<string>, key: string): Option<string> {
    if |lines| == 0 then None
    else
      var earlier := FirstAssignment(lines[..|lines| - 1], key);
      if earlier.Some? then earlier else Assignment(lines[|lines| - 1], key)
  }

  function ProviderSetting(section: seq<string>, key: string): Option<string> {
    var r := FirstAssignment(section, key);
    if r == Some("\"\"") || r == Some("''") then None else r
  }

  function Providers(sections: seq<seq<string>>): seq<seq<string>> {
    if |sections| == 0 then []
    else
      var last := sections[|sections| - 1];
      Providers(sections[..|sections| - 1]) + (if IsProvider(last) then [last] else [])
  }

  // The first of the device's providers with this setting.
  function WithSetting(locals: seq<seq<string>>, key: string, value: string): Option<seq<string>> {
    if |locals| == 0 then None
    else
      var earlier := WithSetting(locals[..|locals| - 1], key, value);
      if earlier.Some? then earlier
      else if ProviderSetting(locals[|locals| - 1], key) == Some(value) then Some(locals[|locals| - 1]) else None
  }

  function MatchBy(section: seq<string>, locals: seq<seq<string>>, key: string): Option<seq<string>> {
    var value := ProviderSetting(section, key);
    if value.Some? then WithSetting(locals, key, value.value) else None
  }

  function Matching(section: seq<string>, locals: seq<seq<string>>): Option<seq<string>> {
    var byId := MatchBy(section, locals, "id");
    if byId.Some? then byId else MatchBy(section, locals, "name")
  }

  // The device's session path for a provider, by id or else by name.
  function PathFor(section: seq<string>, locals: seq<seq<string>>): Option<string> {
    var m := Matching(section, locals);
    if m.Some? then ProviderSetting(m.value, CODEX) else None
  }

  function WithoutCodex(lines: seq<string>): seq<string> {
    if |lines| == 0 then []
    else
      var last := lines[|lines| - 1];
      WithoutCodex(lines[..|lines| - 1]) + (if Assignment(last, CODEX).None? then [last] else [])
  }

  // A text that ends with a newline: one is added unless it is there.
  function Closed(line: string): string {
    if |line| > 0 && line[|line| - 1] == '\n' then line else line + "\n"
  }

  function Headed(line: string, path: Option<string>): seq<string> {
    if path.Some? then [Closed(line), CodexLine(path.value)] else [line]
  }

  // A provider loses the session path it came with and gets the device's own,
  // right after its header.
  function Merged(section: seq<string>, path: Option<string>): seq<string> {
    if IsProvider(section) then Headed(section[0], path) + WithoutCodex(section[1..]) else section
  }

  function MergeAll(sections: seq<seq<string>>, locals: seq<seq<string>>): seq<string> {
    if |sections| == 0 then []
    else
      var last := sections[|sections| - 1];
      MergeAll(sections[..|sections| - 1], locals) + Merged(last, PathFor(last, locals))
  }

  // ----- the functions, text by text ----------------------------------------

  function MergePaths(remote: string, local: string): string {
    Join(MergeAll(Sections(Lines(remote)), Providers(Sections(Lines(local)))))
  }

  function Strip(text: string): string {
    MergePaths(Join(Kept(Lines(text))), "")
  }

  function Extract(text: string): string {
    Join(Local(Lines(text)))
  }

  function TrimNewlinesStart(s: string): string {
    if |s| > 0 && s[0] == '\n' then TrimNewlinesStart(s[1..]) else s
  }

  function TrimNewlinesEnd(s: string): string {
    if |s| > 0 && s[|s| - 1] == '\n' then TrimNewlinesEnd(s[..|s| - 1]) else s
  }

  function TrimNewlines(s: string): string {
    TrimNewlinesEnd(TrimNewlinesStart(s))
  }

  function Merge(remote: string, local: string): string {
    var merged, own := MergePaths(Strip(remote), local), Extract(local);
    if Trim(own) == "" then merged
    else Closed((if merged == "" then "" else Closed(merged) + "\n") + TrimNewlines(own))
  }

  // ----- the code ------------------------------------------------------------

  lemma TableNext(lines: seq<string>, i: nat)
    requires i < |lines|
    ensures InLocalTable(lines[..i + 1]) ==
              if IsHeader(lines[i]) then IsLocalOnlyHeader(lines[i]) else InLocalTable(lines[..i])
    ensures Join(Kept(lines[..i + 1])) == Join(Kept(lines[..i]))
              + (if InLocalTable(lines[..i + 1]) then "" else lines[i])
    ensures Join(Local(lines[..i + 1])) == Join(Local(lines[..i]))
              + (if InLocalTable(lines[..i + 1]) then lines[i] else "")
  {
    assert lines[..i + 1][..i] == lines[..i];
    JoinLast(Kept(lines[..i]), lines[i]);
    JoinLast(Local(lines[..i]), lines[i]);
    Unchanged(Kept(lines[..i]));
    Unchanged(Local(lines[..i]));
  }

  lemma Unchanged(lines: seq<string>)
    ensures Join(lines + []) == Join(lines) + ""
  {
    assert lines + [] == lines;
  }

  method StripTables(text: string) returns (output: string)
    ensures output == Join(Kept(Lines(text)))
  {
    var lines := Lines(text);
    output := "";
    var skipping := false;
    for i := 0 to |lines|
      invariant skipping == InLocalTable(lines[..i]) && output == Join(Kept(lines[..i]))
    {
      TableNext(lines, i);
      if IsHeader(lines[i]) {
        skipping := IsLocalOnlyHeader(lines[i]);
      }
      if !skipping {
        output := output + lines[i];
      }
    }
    assert lines[..|lines|] == lines;
  }

  method StripLocalOnlySettingsTables(text: string) returns (output: string)
    ensures output == Strip(text)
  {
    var kept := StripTables(text);
    output := MergeCodexSessionPaths(kept, "");
  }

  method ExtractLocalOnlySettingsTables(text: string) returns (output: string)
    ensures output == Extract(text)
  {
    var lines := Lines(text);
    output := "";
    var keeping := false;
    for i := 0 to |lines|
      invariant keeping == InLocalTable(lines[..i]) && output == Join(Local(lines[..i]))
    {
      TableNext(lines, i);
      if IsHeader(lines[i]) {
        keeping := IsLocalOnlyHeader(lines[i]);
      }
      if keeping {
        output := output + lines[i];
      }
    }
    assert lines[..|lines|] == lines;
  }

  lemma SectionsNext(lines: seq<string>, i: nat, done: seq<seq<string>>, current: seq<string>)
    requires i < |lines| && done + [current] == Sections(lines[..i])
    ensures Sections(lines[..i + 1]) ==
              if IsHeader(lines[i]) && |current| > 0 then done + [current] + [[lines[i]]]
                  else done + [current + [lines[i]]]
  {
    PrefixAt(lines, i);
    FrontOf(done, current);
  }

  method SettingsSections(lines: seq<string>) returns (sections: seq<seq<string>>)
    ensures sections == Sections(lines)
  {
    sections := [];
    var current: seq<string> := [];
    assert lines[..0] == [];
    for i := 0 to |lines|
      invariant sections + [current] == Sections(lines[..i])
    {
      SectionsNext(lines, i, sections, current);
      if IsHeader(lines[i]) && |current| > 0 {
        sections := sections + [current];
        current := [];
        NothingMore([lines[i]]);
      }
      current := current + [lines[i]];
    }
    assert lines[..|lines|] == lines;
    sections := sections + [current];
  }

  // What line i of a provider adds to the output.
  function Pushed(line: string, path: Option<string>, first: bool): string {
    if first && path.Some? then Closed(line) + CodexLine(path.value)
    else if Assignment(line, CODEX).None? then line else ""
  }

  function PushedTo(section: seq<string>, path: Option<string>, i: nat): string
    requires i <= |section|
  {
    if i == 0 then "" else PushedTo(section, path, i - 1) + Pushed(section[i - 1], path, i == 1)
  }

  method PushSection(section: seq<string>, path: Option<string>) returns (output: string)
    requires IsProvider(section)
    ensures output == Join(Merged(section, path))
  {
    SectionPushed(section, path);
    output := PushLine("", section[0], path, true);
    for i := 1 to |section|
      invariant output == PushedTo(section, path, i)
    {
      output := PushLine(output, section[i], path, false);
    }
  }

  method PushLine(output: string, line: string, path: Option<string>, first: bool) returns (r: string)
    requires first ==> output == "" && IsProviderHeader(line)
    ensures r == output + Pushed(line, path, first)
  {
    r := output;
    NothingMore(output);
    NothingMore(line);
    if first {
      ProviderHeaderIsHeader(line);
      HeaderIsNoAssignment(line, CODEX);
    }
    if Assignment(line, CODEX).None? {
      r := r + line;
    }
    if first && path.Some? {
      r := Closed(r) + CodexLine(path.value);
    }
  }

  lemma SectionPushed(section: seq<string>, path: Option<string>)
    requires IsProvider(section)
    ensures PushedTo(section, path, |section|) == Join(Merged(section, path))
    ensures PushedTo(section, path, 1) == "" + Pushed(section[0], path, true)
  {
    assert PushedTo(section, path, 0) == "";
    PushedFirst(section[0], path);
    JoinMerged(section, path, Join(Headed(section[0], path)), |section|);
    assert section[1..|section|] == section[1..];
    JoinAppend(Headed(section[0], path), WithoutCodex(section[1..]));
  }

  lemma PushedFirst(line: string, path: Option<string>)
    requires IsProviderHeader(line)
    ensures Pushed(line, path, true) == Join(Headed(line, path))
  {
    ProviderHeaderIsHeader(line);
    HeaderIsNoAssignment(line, CODEX);
    if path.Some? {
      JoinLast([Closed(line)], CodexLine(path.value));
      JoinOne(Closed(line));
      assert [Closed(line)] + [CodexLine(path.value)] == Headed(line, path);
    } else {
      JoinOne(line);
    }
  }

  lemma PushedMore(lines: seq<string>, line: string, path: Option<string>)
    ensures Join(WithoutCodex(lines + [line])) == Join(WithoutCodex(lines)) + Pushed(line, path, false)
  {
    WithoutCodexNext(lines, line);
    JoinLast(WithoutCodex(lines), line);
    Unchanged(WithoutCodex(lines));
  }

  lemma {:induction false} JoinMerged(section: seq<string>, path: Option<string>, head: string, i: nat)
    requires 0 < i <= |section| && PushedTo(section, path, 1) == head
    ensures PushedTo(section, path, i) == head + Join(WithoutCodex(section[1..i]))
  {
    if i == 1 {
      NothingAfterHead(section);
      NothingMore(head);
    } else {
      JoinMerged(section, path, head, i - 1);
      OneMore(section, 1, i - 1);
      PushedStep(section, path, i);
      JoinPushed(head, section[1..i - 1], section[i - 1], section[1..i], PushedTo(section, path, i - 1), path);
    }
  }

  lemma JoinPushed(head: string, before: seq<string>, line: string, after: seq<string>, text: string,
                   path: Option<string>)
    requires text == head + Join(WithoutCodex(before)) && after == before + [line]
    ensures text + Pushed(line, path, false) == head + Join(WithoutCodex(after))
  {
    PushedMore(before, line, path);
    Regroup(head, Join(WithoutCodex(before)), Pushed(line, path, false));
  }

  lemma NothingAfterHead(section: seq<string>)
    requires |section| > 0
    ensures Join(WithoutCodex(section[1..1])) == ""
  {
    assert section[1..1] == [];
  }

  lemma PushedStep(section: seq<string>, path: Option<string>, i: nat)
    requires 1 < i <= |section|
    ensures PushedTo(section, path, i) == PushedTo(section, path, i - 1) + Pushed(section[i - 1], path, false)
  {
  }

  lemma OneMore<T>(s: seq<T>, i: nat, j: nat)
    requires i <= j < |s|
    ensures s[i..j + 1] == s[i..j] + [s[j]]
  {
  }

  lemma WithoutCodexNext(lines: seq<string>, line: string)
    ensures WithoutCodex(lines + [line]) == WithoutCodex(lines) + (if Assignment(line, CODEX).None? then [line] else [])
  {
    FrontOf(lines, line);
  }

  method FindPath(section: seq<string>, locals: seq<seq<string>>) returns (path: Option<string>)
    ensures path == PathFor(section, locals)
  {
    var keys := ["id", "name"];
    for k := 0 to 2
      invariant k >= 1 ==> MatchBy(section, locals, "id").None?
      invariant k >= 2 ==> MatchBy(section, locals, "name").None?
    {
      var value := ProviderSetting(section, keys[k]);
      if value.Some? {
        for i := 0 to |locals|
          invariant WithSetting(locals[..i], keys[k], value.value).None?
        {
          assert locals[..i + 1][..i] == locals[..i];
          if ProviderSetting(locals[i], keys[k]) == value {
            WithSettingFirst(locals, keys[k], value.value, i);
            return ProviderSetting(locals[i], CODEX);
          }
        }
        assert locals[..|locals|] == locals;
      }
    }
    return None;
  }

  lemma {:induction false} WithSettingFirst(locals: seq<seq<string>>, key: string, value: string, i: nat)
    requires i < |locals| && WithSetting(locals[..i], key, value).None?
              && ProviderSetting(locals[i], key) == Some(value)
    ensures WithSetting(locals, key, value) == Some(locals[i])
    decreases |locals|
  {
    if i == |locals| - 1 {
      assert locals[..|locals| - 1] == locals[..i];
    } else {
      assert locals[..|locals| - 1][..i] == locals[..i];
      WithSettingFirst(locals[..|locals| - 1], key, value, i);
    }
  }

  method LocalProviders(text: string) returns (locals: seq<seq<string>>)
    ensures locals == Providers(Sections(Lines(text)))
  {
    var sections := SettingsSections(Lines(text));
    locals := [];
    for i := 0 to |sections|
      invariant locals == Providers(sections[..i])
    {
      assert sections[..i + 1][..i] == sections[..i];
      if IsProvider(sections[i]) {
        locals := locals + [sections[i]];
      }
    }
    assert sections[..|sections|] == sections;
  }

  method MergeCodexSessionPaths(remote: string, local: string) returns (output: string)
    ensures output == MergePaths(remote, local)
  {
    var locals := LocalProviders(local);
    var sections := SettingsSections(Lines(remote));
    output := "";
    for i := 0 to |sections|
      invariant output == Join(MergeAll(sections[..i], locals))
    {
      assert sections[..i + 1][..i] == sections[..i];
      var section := sections[i];
      JoinAppend(MergeAll(sections[..i], locals), Merged(section, PathFor(section, locals)));
      if !IsProvider(section) {
        output := output + Join(section);
      } else {
        var path := FindPath(section, locals);
        var pushed := PushSection(section, path);
        output := output + pushed;
      }
    }
    assert sections[..|sections|] == sections;
  }

  method MergeLocalOnlySettingsTables(remote: string, local: string) returns (merged: string)
    ensures merged == Merge(remote, local)
  {
    var own := ExtractLocalOnlySettingsTables(local);
    var public := StripLocalOnlySettingsTables(remote);
    merged := MergeCodexSessionPaths(public, local);
    if Trim(own) == "" {
      return;
    }
    if merged != "" {
      merged := Closed(merged);
      merged := merged + "\n";
    }
    merged := merged + TrimNewlines(own);
    merged := Closed(merged);
  }
}
