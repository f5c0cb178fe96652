// The streaming UTF-8 decoder of the process host.
module Utf8 {
  newtype byte = x: int | 0 <= x < 256

  // U+FFFD, as the bytes a string holds.
  const REPLACEMENT: seq<byte> := [0xEF, 0xBF, 0xBD]

  predicate IsContinuation(b: byte) {
    0x80 <= b <= 0xBF
  }

  // ----- reference ---------------------------------------------------------

  // Section 4 of RFC 3629: the byte sequences that encode one character.
  predicate WellFormedChar(s: seq<byte>) {
    || (|s| == 1 && s[0] <= 0x7F)
    || (|s| == 2 && 0xC2 <= s[0] <= 0xDF && IsContinuation(s[1]))
    || (|s| == 3 && IsContinuation(s[2]) &&
        (|| (s[0] == 0xE0 && 0xA0 <= s[1] <= 0xBF)
         || (0xE1 <= s[0] <= 0xEC && IsContinuation(s[1]))
         || (s[0] == 0xED && 0x80 <= s[1] <= 0x9F)
         || (0xEE <= s[0] <= 0xEF && IsContinuation(s[1]))))
    || (|s| == 4 && IsContinuation(s[2]) && IsContinuation(s[3]) &&
        (|| (s[0] == 0xF0 && 0x90 <= s[1] <= 0xBF)
         || (0xF1 <= s[0] <= 0xF3 && IsContinuation(s[1]))
         || (s[0] == 0xF4 && 0x80 <= s[1] <= 0x8F)))
  }

  ghost predicate StartsWithChar(s: seq<byte>, n: nat) {
    n <= |s| && WellFormedChar(s[..n])
  }

  // A non-empty proper prefix of some well-formed character.
  ghost predicate Partial(s: seq<byte>) {
    s != [] && exists rest: seq<byte> :: rest != [] && WellFormedChar(s + rest)
  }

  // Section 3.9 of the Unicode Standard: n bytes that start no well-formed
  // character and are the longest run that begins one, or else a single byte.
  ghost predicate MaximalSubpart(s: seq<byte>, n: nat) {
    && 1 <= n <= |s|
    && (n == 1 || Partial(s[..n]))
    && (forall m | n < m <= |s| :: !Partial(s[..m]))
  }

  // One-shot lossy decoding, as a relation: well-formed characters are kept and
  // each maximal subpart is replaced.
  ghost predicate LossyDecodesTo(s: seq<byte>, out: seq<byte>)
    decreases |s|
  {
    if |s| == 0 then out == []
    else if exists n: nat :: StartsWithChar(s, n) then
      exists n: nat, rest: seq<byte> :: StartsWithChar(s, n) && n > 0 && out == s[..n] + rest
          && LossyDecodesTo(s[n..], rest)
    else
      exists n: nat, rest: seq<byte> :: MaximalSubpart(s, n) && n > 0 && out == REPLACEMENT + rest
          && LossyDecodesTo(s[n..], rest)
  }

  // ----- std::str::from_utf8, one character at a time -----------------------

  // Char: n bytes are a character. Bad: error_len is Some(n). Short: None.
  datatype Head = Char(n: nat) | Bad(n: nat) | Short

  function HeadOf(s: seq<byte>): (h: Head)
    requires s != []
    ensures !h.Short? ==> 1 <= h.n <= |s| && h.n <= 4
    ensures h.Short? ==> |s| <= 3
  {
    var b := s[0];
    if b <= 0x7F then Char(1)
    else if 0xC2 <= b <= 0xDF then
      if |s| < 2 then Short else if IsContinuation(s[1]) then Char(2) else Bad(1)
    else if 0xE0 <= b <= 0xEF then
      if |s| < 2 then Short
      else if !SecondOk(b, s[1]) then Bad(1)
      else if |s| < 3 then Short
      else if IsContinuation(s[2]) then Char(3) else Bad(2)
    else if 0xF0 <= b <= 0xF4 then
      if |s| < 2 then Short
      else if !SecondOk(b, s[1]) then Bad(1)
      else if |s| < 3 then Short
      else if !IsContinuation(s[2]) then Bad(2)
      else if |s| < 4 then Short
      else if IsContinuation(s[3]) then Char(4) else Bad(3)
    else Bad(1)
  }

  // The second bytes that can follow a lead byte of three or four.
  predicate SecondOk(first: byte, second: byte) {
    if first == 0xE0 then 0xA0 <= second <= 0xBF
    else if first == 0xED then 0x80 <= second <= 0x9F
    else if first == 0xF0 then 0x90 <= second <= 0xBF
    else if first == 0xF4 then 0x80 <= second <= 0x8F
    else IsContinuation(second)
  }

  predicate ValidUtf8(s: seq<byte>)
    decreases |s|
  {
    |s| == 0 || (HeadOf(s).Char? && ValidUtf8(s[HeadOf(s).n..]))
  }

  // ----- the decoder as a function -----------------------------------------

  datatype Decoded = Decoded(out: seq<byte>, rest: seq<byte>)

  // Everything that can be decided: stops at the end or at an unfinished character.
  function Scan(s: seq<byte>): (d: Decoded)
    ensures |d.rest| <= 3
    ensures |d.rest| > 0 ==> HeadOf(d.rest).Short?
    decreases |s|
  {
    if |s| == 0 || HeadOf(s).Short? then Decoded([], s)
    else
      var tail := Scan(s[HeadOf(s).n..]);
      Decoded(Kept(s) + tail.out, tail.rest)
  }

  // The first character, or what stands for bytes that are none.
  function Kept(s: seq<byte>): seq<byte>
    requires s != []
  {
    if HeadOf(s).Char? then s[..HeadOf(s).n] else REPLACEMENT
  }

  function Finish(d: Decoded): seq<byte> {
    if |d.rest| == 0 then d.out else d.out + REPLACEMENT
  }

  function Lossy(s: seq<byte>): seq<byte> {
    Finish(Scan(s))
  }

  // ----- the byte tests decide what the reference says -----------------------

  lemma CharIsWellFormed(s: seq<byte>)
    requires s != []
    ensures forall n :: StartsWithChar(s, n) <==> HeadOf(s) == Char(n)
  {
  }

  // Some byte completes every unfinished character.
  lemma ShortIsPartial(s: seq<byte>)
    requires s != []
    ensures HeadOf(s).Short? ==> Partial(s)
  {
    var b := s[0];
    if HeadOf(s).Short? {
      var second: byte := if b == 0xE0 then 0xA0 else if b == 0xED then 0x80 else if b == 0xF0 then 0x90 else 0x80;
      var rest: seq<byte> :=
        if b <= 0xDF then [0x80]
        else if b <= 0xEF then (if |s| == 1 then [second, 0x80] else [0x80])
        else (if |s| == 1 then [second, 0x80, 0x80] else if |s| == 2 then [0x80, 0x80] else [0x80]);
      assert WellFormedChar(s + rest);
    }
  }

  lemma PartialIsShort(s: seq<byte>)
    requires Partial(s)
    ensures HeadOf(s).Short?
  {
    var rest: seq<byte> :| rest != [] && WellFormedChar(s + rest);
    assert (s + rest)[0] == s[0];
    assert |s| >= 2 ==> (s + rest)[1] == s[1];
    assert |s| >= 3 ==> (s + rest)[2] == s[2];
  }

  // Once a character or an error has been decided, more input does not change it.
  lemma HeadIsStable(a: seq<byte>, b: seq<byte>)
    requires a != [] && !HeadOf(a).Short?
    ensures HeadOf(a + b) == HeadOf(a)
  {
  }

  lemma BadIsMaximalSubpart(s: seq<byte>)
    requires s != [] && HeadOf(s).Bad?
    ensures MaximalSubpart(s, HeadOf(s).n)
  {
    var n := HeadOf(s).n;
    if n > 1 {
      assert HeadOf(s[..n]).Short?;
      ShortIsPartial(s[..n]);
    }
    forall m | n < m <= |s|
      ensures !Partial(s[..m])
    {
      assert HeadOf(s[..m]).Bad?;
      if Partial(s[..m]) {
        PartialIsShort(s[..m]);
      }
    }
  }

  lemma ShortIsMaximalSubpart(s: seq<byte>)
    requires s != [] && HeadOf(s).Short?
    ensures MaximalSubpart(s, |s|) && forall n :: !StartsWithChar(s, n)
  {
    assert s[..|s|] == s;
    ShortIsPartial(s);
    CharIsWellFormed(s);
  }

  lemma MaximalSubpartUnique(s: seq<byte>, n: nat, m: nat)
    requires MaximalSubpart(s, n) && MaximalSubpart(s, m)
    ensures n == m
  {
    assert m <= 1 || Partial(s[..m]);
    assert n <= 1 || Partial(s[..n]);
  }

  lemma LossyStep(s: seq<byte>)
    requires s != []
    ensures var n := if HeadOf(s).Short? then |s| else HeadOf(s).n;
            Lossy(s) == Kept(s) + Lossy(s[n..])
  {
    if HeadOf(s).Short? {
      assert Scan(s[|s|..]) == Decoded([], []);
    } else {
      var d := Scan(s[HeadOf(s).n..]);
      Associative(Kept(s), d.out, REPLACEMENT);
    }
  }

  // Main result: the function is the reference decoding, and nothing else is.
  lemma {:induction false} LossyIsReference(s: seq<byte>, out: seq<byte>)
    ensures LossyDecodesTo(s, out) <==> out == Lossy(s)
    decreases |s|
  {
    if s != [] {
      var h := HeadOf(s);
      CharIsWellFormed(s);
      var n := if h.Short? then |s| else h.n;
      if h.Char? {
        assert StartsWithChar(s, n);
      } else if h.Bad? {
        BadIsMaximalSubpart(s);
      } else {
        ShortIsMaximalSubpart(s);
      }
      LossyStep(s);
      LossyIsReference(s[n..], Lossy(s[n..]));
      if LossyDecodesTo(s, out) {
        if h.Char? {
          var m: nat, rest: seq<byte> :| StartsWithChar(s, m) && m > 0 && out == s[..m] + rest
              && LossyDecodesTo(s[m..], rest);
          LossyIsReference(s[m..], rest);
        } else {
          var m: nat, rest: seq<byte> :| MaximalSubpart(s, m) && m > 0 && out == REPLACEMENT + rest
              && LossyDecodesTo(s[m..], rest);
          MaximalSubpartUnique(s, n, m);
          LossyIsReference(s[m..], rest);
        }
      }
    }
  }

  // ----- chunks ------------------------------------------------------------

  lemma ScanStep(s: seq<byte>, n: nat, tail: seq<byte>)
    requires s != [] && !HeadOf(s).Short? && n == HeadOf(s).n && tail == s[n..]
    ensures Scan(s) == Decoded(Kept(s) + Scan(tail).out, Scan(tail).rest)
  {
  }

  lemma KeptIsStable(a: seq<byte>, b: seq<byte>)
    requires a != [] && !HeadOf(a).Short?
    ensures a + b != [] && HeadOf(a + b) == HeadOf(a) && Kept(a + b) == Kept(a)
    ensures (a + b)[HeadOf(a).n..] == a[HeadOf(a).n..] + b
  {
    HeadIsStable(a, b);
    if HeadOf(a).Char? {
      assert (a + b)[..HeadOf(a).n] == a[..HeadOf(a).n];
    }
  }

  lemma {:induction false} ScanAppend(a: seq<byte>, b: seq<byte>)
    ensures Scan(a + b) == Decoded(Scan(a).out + Scan(Scan(a).rest + b).out, Scan(Scan(a).rest + b).rest)
    decreases |a|
  {
    if a == [] || HeadOf(a).Short? {
      assert Scan(a) == Decoded([], a);
    } else {
      var n := HeadOf(a).n;
      var tail := a[n..];
      ScanAppend(tail, b);
      KeptIsStable(a, b);
      ScanStep(a, n, tail);
      ScanStep(a + b, n, tail + b);
      Associative(Kept(a), Scan(tail).out, Scan(Scan(tail).rest + b).out);
    }
  }

  lemma Associative(a: seq<byte>, b: seq<byte>, c: seq<byte>)
    ensures a + (b + c) == (a + b) + c
  {
  }

  // What pushing the chunks one after the other yields, and what stays pending.
  function PushAll(pending: seq<byte>, chunks: seq<seq<byte>>): Decoded
    decreases |chunks|
  {
    if |chunks| == 0 then Decoded([], pending)
    else
      var d := Scan(pending + chunks[0]);
      var e := PushAll(d.rest, chunks[1..]);
      Decoded(d.out + e.out, e.rest)
  }

  function Concat(chunks: seq<seq<byte>>): seq<byte> {
    if |chunks| == 0 then [] else chunks[0] + Concat(chunks[1..])
  }

  lemma {:induction false} PushAllIsScan(pending: seq<byte>, chunks: seq<seq<byte>>)
    requires pending == [] || HeadOf(pending).Short?
    ensures PushAll(pending, chunks) == Scan(pending + Concat(chunks))
    decreases |chunks|
  {
    if chunks == [] {
      assert pending + [] == pending;
    } else {
      var d := Scan(pending + chunks[0]);
      PushAllIsScan(d.rest, chunks[1..]);
      ScanAppend(pending + chunks[0], Concat(chunks[1..]));
      Associative(pending, chunks[0], Concat(chunks[1..]));
    }
  }

  // Main result: however the bytes are cut, pushing the pieces and finishing
  // gives the reference decoding of the whole.
  lemma ChunkingDoesNotMatter(chunks: seq<seq<byte>>)
    ensures LossyDecodesTo(Concat(chunks), Finish(PushAll([], chunks)))
    ensures |PushAll([], chunks).rest| <= 3
  {
    PushAllIsScan([], chunks);
    assert [] + Concat(chunks) == Concat(chunks);
    LossyIsReference(Concat(chunks), Lossy(Concat(chunks)));
  }

  // ----- strings -----------------------------------------------------------

  lemma {:induction false} ValidAppend(a: seq<byte>, b: seq<byte>)
    requires ValidUtf8(a) && ValidUtf8(b)
    ensures ValidUtf8(a + b)
    decreases |a|
  {
    if a == [] {
      assert a + b == b;
    } else {
      HeadIsStable(a, b);
      var n := HeadOf(a).n;
      assert (a + b)[n..] == a[n..] + b;
      ValidAppend(a[n..], b);
    }
  }

  lemma CharIsValid(s: seq<byte>)
    requires s != [] && HeadOf(s).Char?
    ensures ValidUtf8(s[..HeadOf(s).n])
  {
    var c := s[..HeadOf(s).n];
    assert HeadOf(c) == HeadOf(s);
    assert c[|c|..] == [];
  }

  lemma {:induction false} ScanIsValid(s: seq<byte>)
    ensures ValidUtf8(Scan(s).out)
    decreases |s|
  {
    if s != [] && !HeadOf(s).Short? {
      ScanIsValid(s[HeadOf(s).n..]);
      if HeadOf(s).Char? {
        CharIsValid(s);
        ValidAppend(s[..HeadOf(s).n], Scan(s[HeadOf(s).n..]).out);
      } else {
        ValidAppend(REPLACEMENT, Scan(s[HeadOf(s).n..]).out);
      }
    }
  }

  lemma Rejoin<T>(s: seq<T>, n: nat)
    requires n <= |s|
    ensures s[..n] + s[n..] == s
  {
  }

  // The output is a string, and a string decodes to itself.
  lemma {:induction false} ScanOfValid(s: seq<byte>)
    requires ValidUtf8(s)
    ensures Scan(s) == Decoded(s, [])
    decreases |s|
  {
    if |s| > 0 {
      var n := HeadOf(s).n;
      ScanOfValid(s[n..]);
      Rejoin(s, n);
    }
  }

  // ----- the decoder -------------------------------------------------------

  datatype Check = Ok | Err(validUpTo: nat, errorLen: Head)

  lemma OneMoreChar(s: seq<byte>, i: nat, n: nat)
    requires i < |s| && ValidUtf8(s[..i]) && HeadOf(s[i..]) == Char(n)
    ensures i + n <= |s| && ValidUtf8(s[..i + n]) && (ValidUtf8(s[i..]) <==> ValidUtf8(s[i + n..]))
  {
    CharIsValid(s[i..]);
    ValidAppend(s[..i], s[i..][..n]);
    SliceMore(s, i, n);
  }

  lemma SliceMore<T>(s: seq<T>, i: nat, n: nat)
    requires i + n <= |s|
    ensures s[..i] + s[i..][..n] == s[..i + n] && s[i..][n..] == s[i + n..]
  {
  }

  // The first i bytes are characters, and the rest decides.
  ghost predicate ValidUpTo(s: seq<byte>, i: nat) {
    i <= |s| && ValidUtf8(s[..i]) && (ValidUtf8(s) <==> ValidUtf8(s[i..]))
  }

  lemma ValidUpToStart(s: seq<byte>)
    ensures ValidUpTo(s, 0)
  {
    assert s[0..] == s;
  }

  lemma ValidUpToEnd(s: seq<byte>)
    requires ValidUpTo(s, |s|)
    ensures ValidUtf8(s)
  {
    assert s[|s|..] == [];
  }

  lemma ValidUpToHere(s: seq<byte>, i: nat)
    requires ValidUpTo(s, i) && i < |s| && !HeadOf(s[i..]).Char?
    ensures ValidUtf8(s[..i]) && !ValidUtf8(s)
  {
  }

  lemma ValidUpToNext(s: seq<byte>, i: nat, n: nat)
    requires ValidUpTo(s, i) && i < |s| && HeadOf(s[i..]) == Char(n)
    ensures ValidUpTo(s, i + n)
  {
    OneMoreChar(s, i, n);
  }

  // std::str::from_utf8: the longest valid prefix and what follows it.
  method FromUtf8(s: seq<byte>) returns (r: Check)
    ensures r.Ok? <==> ValidUtf8(s)
    ensures r.Err? ==> r.validUpTo < |s| && ValidUtf8(s[..r.validUpTo])
                       && !r.errorLen.Char? && HeadOf(s[r.validUpTo..]) == r.errorLen
  {
    var i := 0;
    ValidUpToStart(s);
    while i < |s|
      invariant ValidUpTo(s, i)
    {
      var h := HeadOf(s[i..]);
      if !h.Char? {
        ValidUpToHere(s, i);
        return Err(i, h);
      }
      ValidUpToNext(s, i, h.n);
      i := i + h.n;
    }
    ValidUpToEnd(s);
    return Ok;
  }

  // Where the loop of push stands: what is out and pending, with `rest` to go.
  ghost predicate Pushing(bytes: seq<byte>, rest: seq<byte>, finished: bool, output: seq<byte>, pending: seq<byte>) {
    && ValidUtf8(output)
    && if rest != [] then pending == [] && Scan(bytes) == Decoded(output + Scan(rest).out, Scan(rest).rest)
       else if finished then pending == [] && output == Finish(Scan(bytes))
       else Decoded(output, pending) == Scan(bytes)
  }

  lemma PushingStarts(bytes: seq<byte>, finished: bool)
    ensures Pushing(bytes, bytes, finished, [], [])
  {
    assert [] + Scan(bytes).out == Scan(bytes).out;
  }

  lemma PushingValid(bytes: seq<byte>, rest: seq<byte>, n: nat, finished: bool, output: seq<byte>)
    requires rest != [] && n <= |rest| && ValidUtf8(rest[..n]) && Pushing(bytes, rest, finished, output, [])
    ensures Pushing(bytes, rest[n..], finished, output + rest[..n], [])
  {
    ScanPrefix(rest, n);
    ValidAppend(output, rest[..n]);
    Associative(output, rest[..n], Scan(rest[n..]).out);
    if n == |rest| {
      assert Scan(rest[n..]) == Decoded([], []);
      assert output + rest[..n] + [] == output + rest[..n];
    }
  }

  lemma PushingBad(bytes: seq<byte>, rest: seq<byte>, n: nat, finished: bool, output: seq<byte>)
    requires rest != [] && HeadOf(rest) == Bad(n) && Pushing(bytes, rest, finished, output, [])
    ensures Pushing(bytes, rest[n..], finished, output + REPLACEMENT, [])
  {
    ScanStep(rest, n, rest[n..]);
    ValidAppend(output, REPLACEMENT);
    Associative(output, REPLACEMENT, Scan(rest[n..]).out);
    if n == |rest| {
      assert Scan(rest[n..]) == Decoded([], []);
      assert output + REPLACEMENT + [] == output + REPLACEMENT;
    }
  }

  lemma PushingShort(bytes: seq<byte>, rest: seq<byte>, finished: bool, output: seq<byte>)
    requires rest != [] && HeadOf(rest).Short? && Pushing(bytes, rest, finished, output, [])
    ensures Pushing(bytes, [], finished, if finished then output + REPLACEMENT else output, if finished then []
              else rest)
  {
    assert Scan(rest) == Decoded([], rest) && output + [] == output;
    ValidAppend(output, REPLACEMENT);
  }

  // What a check of the rest says about the output so far.
  lemma PushingOk(bytes: seq<byte>, rest: seq<byte>, finished: bool, output: seq<byte>, pending: seq<byte>)
    requires rest != [] && ValidUtf8(rest) && Pushing(bytes, rest, finished, output, pending)
    ensures pending == [] && Pushing(bytes, [], finished, output + rest, [])
  {
    assert rest[..|rest|] == rest && rest[|rest|..] == [];
    PushingValid(bytes, rest, |rest|, finished, output);
  }

  lemma PushingErr(bytes: seq<byte>, rest: seq<byte>, v: nat, head: Head, finished: bool,
                   output: seq<byte>, pending: seq<byte>)
    requires v < |rest| && ValidUtf8(rest[..v]) && HeadOf(rest[v..]) == head && !head.Char?
    requires Pushing(bytes, rest, finished, output, pending)
    ensures pending == []
    ensures head.Bad? ==>
      && 0 < v + head.n <= |rest|
      && Pushing(bytes, rest[v + head.n..], finished, output + rest[..v] + REPLACEMENT, [])
    ensures head.Short? ==> Pushing(bytes, [], finished,
      if finished then output + rest[..v] + REPLACEMENT else output + rest[..v], if finished then [] else rest[v..])
  {
    PushingValid(bytes, rest, v, finished, output);
    if head.Bad? {
      PushingBad(bytes, rest[v..], head.n, finished, output + rest[..v]);
      assert rest[v..][head.n..] == rest[v + head.n..];
    } else {
      PushingShort(bytes, rest[v..], finished, output + rest[..v]);
    }
  }

  class Utf8StreamDecoder {
    var pending: seq<byte>

    predicate Valid()
      reads this
    {
      |pending| == 0 || HeadOf(pending).Short?
    }

    constructor ()
      ensures Valid() && pending == []
    {
      pending := [];
    }

    method Push(chunk: seq<byte>, finished: bool) returns (output: seq<byte>)
      requires Valid()
      modifies this
      ensures Valid() && |pending| <= 3 && ValidUtf8(output)
      ensures var d := Scan(old(pending) + chunk);
              if finished then output == Finish(d) && pending == []
              else output == d.out && pending == d.rest
    {
      var bytes := pending + chunk;
      var rest := bytes;
      pending := [];
      output := [];
      PushingStarts(bytes, finished);
      while |rest| > 0
        invariant Pushing(bytes, rest, finished, output, pending)
        decreases |rest|
      {
        var check := FromUtf8(rest);
        match check {
          case Ok =>
            PushingOk(bytes, rest, finished, output, pending);
            output := output + rest;
            rest := [];
          case Err(v, errorLen) =>
            PushingErr(bytes, rest, v, errorLen, finished, output, pending);
            output := output + rest[..v];
            if errorLen.Bad? {
              output := output + REPLACEMENT;
              rest := rest[v + errorLen.n..];
            } else {
              if finished {
                output := output + REPLACEMENT;
              } else {
                pending := rest[v..];
              }
              rest := [];
            }
        }
      }
    }
  }

  lemma ScanPrefix(s: seq<byte>, n: nat)
    requires n <= |s| && ValidUtf8(s[..n])
    ensures Scan(s) == Decoded(s[..n] + Scan(s[n..]).out, Scan(s[n..]).rest)
  {
    ScanOfValid(s[..n]);
    ScanAppend(s[..n], s[n..]);
    assert s[..n] + s[n..] == s;
    assert [] + s[n..] == s[n..];
  }
}
