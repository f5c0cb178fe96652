// Which of the device's own session paths a published provider gets.
module SettingsMatches {
  import opened Options
  import opened Sequences
  import opened SettingsLines
  import opened SettingsTexts

  // The first line that assigns the key.
  ghost predicate AssignedAt(section: seq<string>, key: string, i: nat) {
    && i < |section| && Assignment(section[i], key).Some?
    && forall j | 0 <= j < i :: Assignment(section[j], key).None?
  }

  lemma {:induction false} FirstAssignmentIs(section: seq<string>, key: string)
    ensures var r := FirstAssignment(section, key);
            && (r.Some? ==> exists i: nat :: AssignedAt(section, key, i) && r == Assignment(section[i], key))
            && (r.None? ==> forall i | 0 <= i < |section| :: Assignment(section[i], key).None?)
    decreases |section|
  {
    if |section| > 0 {
      var front, last := section[..|section| - 1], section[|section| - 1];
      FirstAssignmentIs(front, key);
      FrontAndLast(section);
      if FirstAssignment(front, key).Some? {
        var i: nat :| AssignedAt(front, key, i) && FirstAssignment(front, key) == Assignment(front[i], key);
        StaysAt(front, [last], i);
        assert AssignedAt(section, key, i);
      } else if Assignment(last, key).Some? {
        assert AssignedAt(section, key, |section| - 1);
      }
    }
  }

  lemma AssignedOnce(section: seq<string>, key: string, i: nat, j: nat)
    requires AssignedAt(section, key, i) && AssignedAt(section, key, j)
    ensures i == j
  {
  }

  // Main result: a provider's setting is what its first line for the key says, and an
  // empty string counts as none.
  lemma SettingIsFirst(section: seq<string>, key: string, i: nat)
    requires AssignedAt(section, key, i)
    ensures var value := Assignment(section[i], key).value;
            ProviderSetting(section, key) == if value in {"\"\"", "''"} then None else Some(value)
  {
    FirstAssignmentIs(section, key);
    var j: nat :| AssignedAt(section, key, j) && FirstAssignment(section, key) == Assignment(section[j], key);
    AssignedOnce(section, key, i, j);
  }

  // The first of the device's providers that has the same setting.
  ghost predicate AgreesAt(section: seq<string>, locals: seq<seq<string>>, key: string, i: nat) {
    && i < |locals| && ProviderSetting(section, key).Some?
    && ProviderSetting(locals[i], key) == ProviderSetting(section, key)
    && forall j | 0 <= j < i :: ProviderSetting(locals[j], key) != ProviderSetting(section, key)
  }

  ghost predicate Agrees(section: seq<string>, locals: seq<seq<string>>, key: string) {
    exists i: nat :: AgreesAt(section, locals, key, i)
  }

  lemma {:induction false} WithSettingIs(locals: seq<seq<string>>, key: string, value: string)
    ensures var r := WithSetting(locals, key, value);
            && (r.Some? ==> exists i: nat :: FirstWith(locals, key, value, i) && r.value == locals[i])
            && (r.None? ==> forall i | 0 <= i < |locals| :: ProviderSetting(locals[i], key) != Some(value))
    decreases |locals|
  {
    if |locals| > 0 {
      var front, last := locals[..|locals| - 1], locals[|locals| - 1];
      WithSettingIs(front, key, value);
      FrontAndLast(locals);
      if WithSetting(front, key, value).Some? {
        var i: nat :| FirstWith(front, key, value, i) && WithSetting(front, key, value).value == front[i];
        StaysAt(front, [last], i);
        assert FirstWith(locals, key, value, i);
      } else if ProviderSetting(last, key) == Some(value) {
        assert FirstWith(locals, key, value, |locals| - 1);
      }
    }
  }

  ghost predicate FirstWith(locals: seq<seq<string>>, key: string, value: string, i: nat) {
    && i < |locals| && ProviderSetting(locals[i], key) == Some(value)
    && forall j | 0 <= j < i :: ProviderSetting(locals[j], key) != Some(value)
  }

  lemma MatchIs(section: seq<string>, locals: seq<seq<string>>, key: string, i: nat)
    ensures AgreesAt(section, locals, key, i) ==> MatchBy(section, locals, key) == Some(locals[i])
    ensures !Agrees(section, locals, key) ==> MatchBy(section, locals, key).None?
  {
    var value := ProviderSetting(section, key);
    if value.Some? {
      WithSettingIs(locals, key, value.value);
      if WithSetting(locals, key, value.value).Some? {
        var found := WithSetting(locals, key, value.value).value;
        var j: nat :| FirstWith(locals, key, value.value, j) && found == locals[j];
        assert AgreesAt(section, locals, key, j);
        if AgreesAt(section, locals, key, i) {
          assert i == j;
        }
      }
    }
  }

  // Main result: the path comes from the first provider of the device with the same id,
  // or, when there is none, from the first with the same name; otherwise there is none.
  lemma PathComesFrom(section: seq<string>, locals: seq<seq<string>>, i: nat)
    ensures AgreesAt(section, locals, "id", i) ==> PathFor(section, locals) == ProviderSetting(locals[i], CODEX)
    ensures !Agrees(section, locals, "id") && AgreesAt(section, locals, "name", i) ==>
              PathFor(section, locals) == ProviderSetting(locals[i], CODEX)
    ensures !Agrees(section, locals, "id") && !Agrees(section, locals, "name") ==> PathFor(section, locals).None?
  {
    MatchIs(section, locals, "id", i);
    MatchIs(section, locals, "name", i);
  }

  // The device's providers are its provider sections, in their order.
  lemma {:induction false} ProvidersAre(sections: seq<seq<string>>)
    ensures forall p :: p in Providers(sections) <==> p in sections && IsProvider(p)
    decreases |sections|
  {
    if |sections| > 0 {
      var front, last := sections[..|sections| - 1], sections[|sections| - 1];
      ProvidersAre(front);
      FrontAndLast(sections);
      assert forall p :: p in sections <==> p in front || p == last;
    }
  }

  // ----- which tables stay -------------------------------------------------------------

  // A bare name: no blanks, no brackets.
  predicate IsBare(name: string) {
    |name| > 0 && forall i | 0 <= i < |name| :: !IsSpace(name[i]) && name[i] != '[' && name[i] != ']'
  }

  predicate StaysHere(name: string) {
    || name in {"sync", "remote", "plugins"}
    || StartsWith(name, "sync.") || StartsWith(name, "remote.") || StartsWith(name, "plugins.")
  }

  lemma BareIsTrimmed(name: string)
    requires IsBare(name)
    ensures TrimStart(name) == name && TrimEnd(name) == name && Trim(name) == name
  {
  }

  // Main result: the table [name] stays on the device exactly when its name is sync,
  // remote or plugins or lies below one of these.
  lemma TableStaysIff(name: string)
    requires IsBare(name)
    ensures var line := "[" + (name + "]"); IsHeader(line) && (IsLocalOnlyHeader(line) <==> StaysHere(name))
  {
    var line := "[" + (name + "]");
    var n := |name| + 1;
    BareIsTrimmed(name);
    assert line[0] == '[' && line[1] == name[0];
    assert TrimStart(line) == line;
    assert line[..1] == "[";
    assert line[..2][1] != '[';
    forall i: nat | 1 <= i < n
      ensures !OccursAt(line, "]", i)
    {
      assert line[i..i + 1][0] == line[i] == name[i - 1];
    }
    Slice(line, n, n + 1, "]");
    FindSkips(line, "]", 1, n);
    Slice(line, 1, n, name);
  }

  // The same for an array of tables, [[name]].
  lemma ArrayStaysIff(name: string)
    requires IsBare(name)
    ensures var line := "[[" + (name + "]]"); IsHeader(line) && (IsLocalOnlyHeader(line) <==> StaysHere(name))
  {
    var line := "[[" + (name + "]]");
    var n := |name| + 2;
    BareIsTrimmed(name);
    assert line[0] == '[';
    assert TrimStart(line) == line;
    Slice(line, 0, 2, "[[");
    forall i: nat | 2 <= i < n
      ensures !OccursAt(line, "]]", i)
    {
      assert line[i..i + 2][0] == line[i] == name[i - 2];
    }
    Slice(line, n, n + 2, "]]");
    FindSkips(line, "]]", 2, n);
    Slice(line, 2, n, name);
  }

  const PROVIDERS := "[[providers]]"

  // A provider's table is [[providers]], with nothing but a comment behind it.
  lemma ProviderTableIff(rest: string)
    requires TrimEnd(rest) == rest
    ensures IsProviderHeader(PROVIDERS + rest) <==> rest == "" || (TrimStart(rest) != "" && TrimStart(rest)[0] == '#')
  {
    var line := PROVIDERS + rest;
    assert line[0] == '[';
    assert TrimStart(line) == line;
    assert |rest| > 0 ==> line[|line| - 1] == rest[|rest| - 1];
    assert |rest| == 0 ==> line[|line| - 1] == ']';
    assert TrimEnd(line) == line;
    Slice(line, 0, |PROVIDERS|, PROVIDERS);
    assert line[|PROVIDERS|..] == rest;
    if |TrimStart(rest)| > 0 {
      assert TrimStart(rest)[..1][0] == TrimStart(rest)[0];
      assert StartsWith(TrimStart(rest), "#") <==> TrimStart(rest)[0] == '#';
    }
    BlankTail(rest);
  }

  lemma {:induction false} BlankTail(s: string)
    requires TrimEnd(s) == s
    ensures TrimStart(s) == "" <==> s == ""
    ensures Trim(s) == "" <==> s == ""
    decreases |s|
  {
    if |s| > 0 {
      assert !IsSpace(s[|s| - 1]);
      TrimStartKeepsEnd(s);
    }
  }

  lemma {:induction false} TrimStartKeepsEnd(s: string)
    requires |s| > 0 && !IsSpace(s[|s| - 1])
    ensures |TrimStart(s)| > 0 && TrimStart(s)[|TrimStart(s)| - 1] == s[|s| - 1]
    decreases |s|
  {
    if IsSpace(s[0]) {
      assert s[1..][|s[1..]| - 1] == s[|s| - 1];
      TrimStartKeepsEnd(s[1..]);
    }
  }
}
