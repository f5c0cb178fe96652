// Strings as the settings functions look at them: whitespace, lines and the
// shapes of a line.
module SettingsLines {
  import opened Options
  import opened Sequences

  // char::is_whitespace
  predicate IsSpace(c: char) {
    var n := c as int;
    || 0x09 <= n <= 0x0D || n == 0x20 || n == 0x85 || n == 0xA0 || n == 0x1680 || 0x2000 <= n <= 0x200A
    || n == 0x2028 || n == 0x2029 || n == 0x202F || n == 0x205F || n == 0x3000
  }

  function TrimStart(s: string): (r: string)
    ensures |r| > 0 ==> !IsSpace(r[0])
    ensures |r| <= |s|
  {
    if |s| > 0 && IsSpace(s[0]) then TrimStart(s[1..]) else s
  }

  function TrimEnd(s: string): (r: string)
    ensures |r| <= |s| && r == s[..|r|]
    ensures |r| > 0 ==> !IsSpace(r[|r| - 1])
  {
    if |s| > 0 && IsSpace(s[|s| - 1]) then TrimEnd(s[..|s| - 1]) else s
  }

  function Trim(s: string): string {
    TrimEnd(TrimStart(s))
  }

  predicate StartsWith(s: string, prefix: string) {
    |prefix| <= |s| && s[..|prefix|] == prefix
  }

  predicate OccursAt(s: string, part: string, i: nat) {
    i + |part| <= |s| && s[i..i + |part|] == part
  }

  // The first place, from i on, where `part` occurs.
  function Find(s: string, part: string, i: nat): (r: Option<nat>)
    ensures r.Some? ==> i <= r.value && OccursAt(s, part, r.value)
    decreases |s| - i
  {
    if i + |part| > |s| then None else if OccursAt(s, part, i) then Some(i) else Find(s, part, i + 1)
  }

  // ----- the shapes of a line ----------------------------------------------

  predicate IsHeader(line: string) {
    var t := TrimStart(line);
    if StartsWith(t, "[[") then Find(t, "]]", 2).Some? else StartsWith(t, "[") && Find(t, "]", 1).Some?
  }

  predicate IsLocalOnlyName(name: string) {
    || name == "sync" || StartsWith(name, "sync.")
    || name == "remote" || StartsWith(name, "remote.")
    || name == "plugins" || StartsWith(name, "plugins.")
  }

  predicate IsLocalOnlyHeader(line: string) {
    var t := TrimStart(line);
    if StartsWith(t, "[[") then
      var end := Find(t, "]]", 2);
      end.Some? && IsLocalOnlyName(Trim(t[2..end.value]))
    else
      var end := Find(t, "]", 1);
      StartsWith(t, "[") && end.Some? && IsLocalOnlyName(Trim(t[1..end.value]))
  }

  predicate IsProviderHeader(line: string) {
    var t := Trim(line);
    StartsWith(t, "[[providers]]") &&
    var rest := t[|"[[providers]]"|..];
    Trim(rest) == "" || StartsWith(TrimStart(rest), "#")
  }

  // key = value
  function Assignment(line: string, key: string): Option<string> {
    var i := Find(line, "=", 0);
    if i.Some? && Trim(line[..i.value]) == key then Some(Trim(line[i.value + 1..])) else None
  }

  const CODEX := "codexSessionPath"

  function CodexLine(path: string): string {
    CODEX + " = " + path + "\n"
  }

  // ----- what a final newline does to a line --------------------------------

  lemma {:induction false} TrimStartNewline(s: string)
    ensures TrimStart(s + "\n") == if TrimStart(s) == "" then "" else TrimStart(s) + "\n"
    decreases |s|
  {
    if |s| == 0 {
      assert ("\n")[1..] == "";
    } else if IsSpace(s[0]) {
      assert (s + "\n")[1..] == s[1..] + "\n";
      TrimStartNewline(s[1..]);
    }
  }

  lemma TrimEndNewline(s: string)
    ensures TrimEnd(s + "\n") == TrimEnd(s)
  {
    assert (s + "\n")[..|s|] == s;
  }

  lemma TrimNewline(s: string)
    ensures Trim(s + "\n") == Trim(s)
  {
    TrimStartNewline(s);
    TrimEndNewline(TrimStart(s));
  }

  lemma {:induction false} FindNewline(s: string, part: string, i: nat)
    requires |part| > 0 && '\n' !in part
    ensures Find(s + "\n", part, i) == Find(s, part, i)
    decreases |s| - i
  {
    if i + |part| <= |s| {
      assert (s + "\n")[i..i + |part|] == s[i..i + |part|];
      FindNewline(s, part, i + 1);
    } else if i + |part| == |s| + 1 {
      assert (s + "\n")[i..i + |part|][|part| - 1] == '\n';
      assert !OccursAt(s + "\n", part, i);
    }
  }

  lemma PrefixNewline(s: string, prefix: string)
    requires |prefix| > 0 && '\n' !in prefix
    ensures StartsWith(s + "\n", prefix) <==> StartsWith(s, prefix)
  {
    if |prefix| <= |s| {
      assert (s + "\n")[..|prefix|] == s[..|prefix|];
    } else if |prefix| == |s| + 1 {
      assert (s + "\n")[..|prefix|][|prefix| - 1] == '\n';
    }
  }

  // What is found between brackets stays, too.
  lemma BetweenNewline(t: string, part: string, from: nat)
    requires |part| > 0 && '\n' !in part
    ensures Find(t + "\n", part, from) == Find(t, part, from)
    ensures var end := Find(t, part, from); end.Some? ==> (t + "\n")[from..end.value] == t[from..end.value]
  {
    FindNewline(t, part, from);
    if Find(t, part, from).Some? {
      PrefixOf(t, "\n", from, Find(t, part, from).value);
    }
  }

  lemma HeaderNewline(line: string)
    ensures IsHeader(line + "\n") <==> IsHeader(line)
    ensures IsLocalOnlyHeader(line + "\n") <==> IsLocalOnlyHeader(line)
  {
    var t := TrimStart(line);
    TrimStartNewline(line);
    if t != "" {
      PrefixNewline(t, "[[");
      PrefixNewline(t, "[");
      BetweenNewline(t, "]]", 2);
      BetweenNewline(t, "]", 1);
    }
  }

  lemma ShapeNewline(line: string, key: string)
    ensures IsProviderHeader(line + "\n") <==> IsProviderHeader(line)
    ensures Assignment(line + "\n", key) == Assignment(line, key)
  {
    TrimNewline(line);
    FindNewline(line, "=", 0);
    var i := Find(line, "=", 0);
    if i.Some? {
      assert (line + "\n")[..i.value] == line[..i.value];
      assert (line + "\n")[i.value + 1..] == line[i.value + 1..] + "\n";
      TrimNewline(line[i.value + 1..]);
    }
  }

  // ----- headers and assignments are different things ------------------------

  lemma {:induction false} TrimStartPrefix(s: string, i: nat)
    requires i <= |s| && TrimStart(s[..i]) != ""
    ensures TrimStart(s) != "" && TrimStart(s)[0] == TrimStart(s[..i])[0]
    decreases |s|
  {
    if IsSpace(s[0]) {
      assert s[..i][1..] == s[1..][..i - 1];
      TrimStartPrefix(s[1..], i - 1);
    }
  }

  lemma HeaderBracket(line: string)
    requires IsHeader(line)
    ensures TrimStart(line) != "" && TrimStart(line)[0] == '['
  {
    var t := TrimStart(line);
    if StartsWith(t, "[[") {
      assert t[0] == t[..2][0];
    } else {
      assert t[0] == t[..1][0];
    }
  }

  lemma AssignedStart(line: string, key: string)
    requires Assignment(line, key).Some? && |key| > 0
    ensures TrimStart(line) != "" && TrimStart(line)[0] == key[0]
  {
    var i := Find(line, "=", 0).value;
    assert Trim(line[..i])[0] == TrimStart(line[..i])[0];
    TrimStartPrefix(line, i);
  }

  lemma HeaderIsNoAssignment(line: string, key: string)
    requires IsHeader(line) && |key| > 0 && key[0] != '['
    ensures Assignment(line, key).None?
  {
    HeaderBracket(line);
    if Assignment(line, key).Some? {
      AssignedStart(line, key);
    }
  }

  lemma ProviderHeaderIsHeader(line: string)
    requires IsProviderHeader(line)
    ensures IsHeader(line)
  {
    var t, s := Trim(line), TrimStart(line);
    assert s[..13] == t[..13];
    assert s[..2] == t[..13][..2];
    assert s[11..13] == t[..13][11..13];
    FindReaches(s, "]]", 2, 11);
  }

  lemma {:induction false} FindReaches(s: string, part: string, i: nat, k: nat)
    requires i <= k && OccursAt(s, part, k)
    ensures Find(s, part, i).Some?
    decreases k - i
  {
    if i < k && !OccursAt(s, part, i) {
      FindReaches(s, part, i + 1, k);
    }
  }

  lemma CodexLineShape(path: string)
    ensures !IsHeader(CodexLine(path)) && Assignment(CodexLine(path), CODEX).Some?
  {
    var line := CodexLine(path);
    assert line[0] == 'c';
    assert TrimStart(line) == line;
    assert forall i: nat | i < 17 :: !OccursAt(line, "=", i) by {
      forall i: nat | i < 17
        ensures !OccursAt(line, "=", i)
      {
        assert line[i] == (CODEX + " ")[i];
        assert line[i..i + 1][0] == line[i];
      }
    }
    assert line[17..18] == "=";
    FindSkips(line, "=", 0, 17);
    assert line[..17] == CODEX + " ";
    assert (CODEX + " ")[..16] == CODEX;
    assert TrimEnd(CODEX + " ") == TrimEnd(CODEX);
  }

  lemma {:induction false} FindSkips(s: string, part: string, i: nat, k: nat)
    requires i <= k && OccursAt(s, part, k) && forall j: nat | i <= j < k :: !OccursAt(s, part, j)
    ensures Find(s, part, i) == Some(k)
    decreases k - i
  {
    if i < k {
      FindSkips(s, part, i + 1, k);
    }
  }

  lemma NewlineShape()
    ensures !IsHeader("\n") && !IsLocalOnlyHeader("\n") && Assignment("\n", CODEX).None?
  {
    assert TrimStart("\n") == "" by {
      assert ("\n")[1..] == "";
    }
    assert Find("\n", "=", 0).None? by {
      assert ("\n")[0..1] == "\n";
    }
  }

  // ----- lines --------------------------------------------------------------

  predicate Terminated(line: string) {
    |line| > 0 && line[|line| - 1] == '\n' && '\n' !in line[..|line| - 1]
  }

  predicate AllTerminated(lines: seq<string>) {
    forall line | line in lines :: Terminated(line)
  }

  // What split_inclusive('\n') yields: only the last line may lack its newline.
  predicate Proper(lines: seq<string>) {
    |lines| > 0 ==>
      && AllTerminated(lines[..|lines| - 1])
      && (Terminated(lines[|lines| - 1]) || (|lines[|lines| - 1]| > 0 && '\n' !in lines[|lines| - 1]))
  }

  function Join(lines: seq<string>): string {
    if |lines| == 0 then "" else Join(lines[..|lines| - 1]) + lines[|lines| - 1]
  }

  // Whether a text ends in the middle of a line.
  predicate Open(lines: seq<string>) {
    |lines| > 0 && !Terminated(lines[|lines| - 1])
  }

  // One more character: it goes on the open line or starts a new one.
  function AddChar(lines: seq<string>, c: char): seq<string> {
    if Open(lines) then lines[..|lines| - 1] + [lines[|lines| - 1] + [c]] else lines + [[c]]
  }

  // split_inclusive('\n')
  function Lines(text: string): seq<string> {
    if |text| == 0 then [] else AddChar(Lines(text[..|text| - 1]), text[|text| - 1])
  }

  lemma {:induction false} JoinAppend(a: seq<string>, b: seq<string>)
    ensures Join(a + b) == Join(a) + Join(b)
    decreases |b|
  {
    if |b| == 0 {
      NothingMore(a);
    } else {
      var front, last := b[..|b| - 1], b[|b| - 1];
      FrontOfAppend(a, b);
      JoinAppend(a, front);
      Regroup(Join(a), Join(front), last);
    }
  }

  lemma JoinOne(line: string)
    ensures Join([line]) == line
  {
    assert [line][..0] == [];
  }

  lemma JoinLast(lines: seq<string>, line: string)
    ensures Join(lines + [line]) == Join(lines) + line
  {
    FrontOf(lines, line);
  }

  lemma JoinAddChar(lines: seq<string>, c: char)
    ensures Join(AddChar(lines, c)) == Join(lines) + [c]
  {
    if Open(lines) {
      var front, last := lines[..|lines| - 1], lines[|lines| - 1];
      JoinLast(front, last + [c]);
      Regroup(Join(front), last, [c]);
    } else {
      JoinLast(lines, [c]);
    }
  }

  lemma {:induction false} JoinLines(text: string)
    ensures Join(Lines(text)) == text
    decreases |text|
  {
    if |text| > 0 {
      var front, last := text[..|text| - 1], text[|text| - 1];
      JoinLines(front);
      JoinAddChar(Lines(front), last);
      FrontAndLast(text);
    }
  }

  lemma ProperFront(lines: seq<string>)
    requires AllTerminated(lines)
    ensures Proper(lines) && !Open(lines)
  {
    if |lines| > 0 {
      assert lines[|lines| - 1] in lines;
    }
  }

  lemma ProperOpen(front: seq<string>, line: string)
    requires AllTerminated(front) && |line| > 0 && '\n' !in line
    ensures Proper(front + [line]) && Open(front + [line])
  {
    assert (front + [line])[..|front|] == front;
  }

  // A line that is not empty ends with a character after a shorter text.
  lemma LastChar(front: seq<string>, last: string) returns (before: seq<string>, c: char)
    requires AllTerminated(front) && (Terminated(last) || (|last| > 0 && '\n' !in last))
    ensures Proper(before) && AddChar(before, c) == front + [last]
  {
    c := last[|last| - 1];
    var shorter := last[..|last| - 1];
    assert shorter + [c] == last;
    if |shorter| == 0 {
      before := front;
      ProperFront(front);
    } else {
      before := front + [shorter];
      ProperOpen(front, shorter);
    }
  }

  lemma AddCharIsProper(lines: seq<string>, c: char)
    requires Proper(lines)
    ensures Proper(AddChar(lines, c)) && |AddChar(lines, c)| > 0 && (Open(AddChar(lines, c)) <==> c != '\n')
  {
    if Open(lines) {
      var front, last := lines[..|lines| - 1], lines[|lines| - 1] + [c];
      assert last[..|last| - 1] == lines[|lines| - 1];
      assert (front + [last])[..|front|] == front;
    } else {
      assert AllTerminated(lines) by {
        forall line | line in lines
          ensures Terminated(line)
        {
          assert |lines| > 0 ==> lines == lines[..|lines| - 1] + [lines[|lines| - 1]];
        }
      }
      assert [c][..0] == "";
      assert (lines + [[c]])[..|lines|] == lines;
    }
  }

  lemma {:induction false} LinesAreProper(text: string)
    ensures Proper(Lines(text)) && (|text| == 0 <==> |Lines(text)| == 0)
    ensures |text| > 0 ==> (Open(Lines(text)) <==> text[|text| - 1] != '\n')
    decreases |text|
  {
    if |text| > 0 {
      LinesAreProper(text[..|text| - 1]);
      AddCharIsProper(Lines(text[..|text| - 1]), text[|text| - 1]);
    }
  }

  // Splitting undoes joining.
  lemma {:induction false} LinesOfJoin(lines: seq<string>)
    requires Proper(lines)
    ensures Lines(Join(lines)) == lines
    decreases |Join(lines)|
  {
    if |lines| > 0 {
      var before, c := LastChar(lines[..|lines| - 1], lines[|lines| - 1]);
      assert lines[..|lines| - 1] + [lines[|lines| - 1]] == lines;
      JoinAddChar(before, c);
      LinesOfJoin(before);
      assert Join(lines)[..|Join(lines)| - 1] == Join(before);
    }
  }
}
