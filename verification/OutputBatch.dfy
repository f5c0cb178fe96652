// The bounded tail of a job's output.
module OutputBatches {
  import opened Utf8

  const MAX_BATCH_BYTES: nat := 65536

  datatype Stream = Stdout | Stderr

  datatype Tagged = Tagged(stream: Stream, b: byte)

  type Chunk = (Stream, seq<byte>)

  function Tag(stream: Stream, text: seq<byte>): seq<Tagged> {
    seq(|text|, i requires 0 <= i < |text| => Tagged(stream, text[i]))
  }

  function Flat(chunks: seq<Chunk>): seq<Tagged> {
    if |chunks| == 0 then []
    else
      var last := chunks[|chunks| - 1];
      Flat(chunks[..|chunks| - 1]) + Tag(last.0, last.1)
  }

  // A character may start at i (or the text ends there).
  predicate Aligned(text: seq<Tagged>, i: nat) {
    i >= |text| || !IsContinuation(text[i].b)
  }

  // The first aligned position from which what remains fits, from `i` on.
  function TailStart(text: seq<Tagged>, i: nat): (k: nat)
    requires i <= |text|
    ensures i <= k <= |text| && Aligned(text, k) && |text| - k <= MAX_BATCH_BYTES
    ensures forall j | i <= j < k :: !(Aligned(text, j) && |text| - j <= MAX_BATCH_BYTES)
    decreases |text| - i
  {
    if i == |text| || (Aligned(text, i) && |text| - i <= MAX_BATCH_BYTES) then i else TailStart(text, i + 1)
  }

  // The longest aligned suffix that fits in a batch.
  function Tail(text: seq<Tagged>): seq<Tagged> {
    var k := TailStart(text, 0);
    seq(|text| - k, i requires 0 <= i < |text| - k => text[k + i])
  }

  lemma TailIsSuffix(text: seq<Tagged>)
    ensures Tail(text) == text[TailStart(text, 0)..]
  {
  }

  lemma TailIsWhole(text: seq<Tagged>)
    ensures Tail(text) == text <==> TailStart(text, 0) == 0
  {
    if TailStart(text, 0) > 0 {
      assert |Tail(text)| < |text|;
    }
  }

  ghost predicate Alternating(chunks: seq<Chunk>) {
    forall i, j | 0 <= i < j < |chunks| && j == i + 1 :: chunks[i].0 != chunks[j].0
  }

  // Strings start with the first byte of a character.
  predicate StartsAligned(text: seq<byte>) {
    text == [] || !IsContinuation(text[0])
  }

  predicate ChunksAligned(chunks: seq<Chunk>) {
    forall i | 0 <= i < |chunks| :: StartsAligned(chunks[i].1)
  }

  lemma ValidStartsAligned(text: seq<byte>)
    requires ValidUtf8(text)
    ensures StartsAligned(text)
  {
  }

  lemma {:induction false} FlatAppend(xs: seq<Chunk>, ys: seq<Chunk>)
    ensures Flat(xs + ys) == Flat(xs) + Flat(ys)
    decreases |ys|
  {
    if |ys| == 0 {
      assert xs + ys == xs;
    } else {
      var n := |ys| - 1;
      assert (xs + ys)[..|xs + ys| - 1] == xs + ys[..n];
      FlatAppend(xs, ys[..n]);
    }
  }

  lemma FlatOne(c: Chunk)
    ensures Flat([c]) == Tag(c.0, c.1)
  {
    assert [c][..0] == [];
  }

  lemma FlatFirst(chunks: seq<Chunk>)
    requires |chunks| > 0
    ensures Flat(chunks) == Tag(chunks[0].0, chunks[0].1) + Flat(chunks[1..])
  {
    assert chunks == [chunks[0]] + chunks[1..];
    FlatAppend([chunks[0]], chunks[1..]);
    FlatOne(chunks[0]);
  }

  // Appending to the last chunk appends to the text.
  lemma FlatExtend(xs: seq<Chunk>, stream: Stream, old_: seq<byte>, more: seq<byte>)
    ensures Flat(xs + [(stream, old_ + more)]) == Flat(xs + [(stream, old_)]) + Tag(stream, more)
  {
    FlatAppend(xs, [(stream, old_ + more)]);
    FlatAppend(xs, [(stream, old_)]);
    FlatOne((stream, old_ + more));
    FlatOne((stream, old_));
    assert Tag(stream, old_ + more) == Tag(stream, old_) + Tag(stream, more);
  }

  // Nothing longer than text[start..] is an aligned suffix that fits.
  ghost predicate NothingBefore(text: seq<Tagged>, start: nat) {
    forall j: nat | j < start :: !(Aligned(text, j) && |text| - j <= MAX_BATCH_BYTES)
  }

  lemma TailIs(text: seq<Tagged>, start: nat)
    requires start <= |text| && Aligned(text, start) && |text| - start <= MAX_BATCH_BYTES && NothingBefore(text, start)
    ensures TailStart(text, 0) == start
  {
  }

  lemma TagNothing(text: seq<Tagged>, stream: Stream)
    ensures text + Tag(stream, []) == text
  {
    assert Tag(stream, []) == [];
  }

  // A cut can leave an empty first chunk, but only by dropping something.
  predicate NoneEmpty(chunks: seq<Chunk>) {
    forall i | 0 <= i < |chunks| :: chunks[i].1 != []
  }

  // The chunks are what remains of the text from `at` on, and nothing before it fits.
  ghost predicate Trimming(text: seq<Tagged>, at: nat, chunks: seq<Chunk>, bytes: int) {
    && at <= |text| && text[at..] == Flat(chunks) && bytes == |Flat(chunks)|
    && Aligned(text, at) && NothingBefore(text, at)
    && Alternating(chunks) && ChunksAligned(chunks)
    && (at == 0 ==> NoneEmpty(chunks))
  }

  lemma SuffixOf<T>(a: seq<T>, b: seq<T>, at: nat)
    requires at <= |a|
    ensures (a + b)[at..] == a[at..] + b && (at < |a| ==> (a + b)[at] == a[at])
    ensures at == |a| && |b| > 0 ==> (a + b)[at] == b[0]
  {
  }

  lemma AlignedMore(text: seq<Tagged>, more: seq<Tagged>, j: nat)
    requires j < |text|
    ensures Aligned(text + more, j) == Aligned(text, j)
  {
    SuffixOf(text, more, j);
  }

  lemma NothingBeforeMore(text: seq<Tagged>, more: seq<Tagged>, at: nat)
    requires at <= |text| && NothingBefore(text, at)
    ensures NothingBefore(text + more, at)
  {
    forall j: nat | j < at
      ensures !(Aligned(text + more, j) && |text + more| - j <= MAX_BATCH_BYTES)
    {
      AlignedMore(text, more, j);
    }
  }

  lemma StillAligned(text: seq<Tagged>, stream: Stream, s: seq<byte>, at: nat)
    requires at <= |text| && Aligned(text, at) && NothingBefore(text, at) && s != [] && StartsAligned(s)
    ensures Aligned(text + Tag(stream, s), at) && NothingBefore(text + Tag(stream, s), at)
  {
    var tag := Tag(stream, s);
    SuffixOf(text, tag, at);
    NothingBeforeMore(text, tag, at);
    if at < |text| {
      AlignedMore(text, tag, at);
    } else {
      assert tag[0].b == s[0];
    }
  }

  // The suffix and what is pushed, as one text.
  ghost predicate Extends(text: seq<Tagged>, at: nat, before: seq<Tagged>, tag: seq<Tagged>, after: seq<Tagged>) {
    at <= |text| && text[at..] == before && after == before + tag
  }

  lemma SuffixExtends(text: seq<Tagged>, at: nat, before: seq<Tagged>, tag: seq<Tagged>, after: seq<Tagged>)
    requires Extends(text, at, before, tag, after)
    ensures at <= |text + tag| && (text + tag)[at..] == after && |after| == |before| + |tag|
  {
    SuffixOf(text, tag, at);
  }

  lemma PushStartsTrimming(text: seq<Tagged>, chunks: seq<Chunk>, stream: Stream, s: seq<byte>, next: seq<Chunk>)
    requires Flat(chunks) == Tail(text) && Alternating(next) && ChunksAligned(next)
    requires Flat(next) == Flat(chunks) + Tag(stream, s) && s != [] && StartsAligned(s)
    requires TailStart(text, 0) == 0 ==> NoneEmpty(next)
    ensures Trimming(text + Tag(stream, s), TailStart(text, 0), next, |Flat(chunks)| + |s|)
  {
    TrimmingStarts(text, TailStart(text, 0), Flat(chunks), stream, s, next, Flat(next));
  }

  lemma TrimmingStarts(text: seq<Tagged>, at: nat, before: seq<Tagged>, stream: Stream, s: seq<byte>,
                       next: seq<Chunk>, after: seq<Tagged>)
    requires Extends(text, at, before, Tag(stream, s), after) && after == Flat(next)
    requires Aligned(text, at) && NothingBefore(text, at) && s != [] && StartsAligned(s)
    requires Alternating(next) && ChunksAligned(next) && (at == 0 ==> NoneEmpty(next))
    ensures Trimming(text + Tag(stream, s), at, next, |before| + |s|)
  {
    SuffixExtends(text, at, before, Tag(stream, s), after);
    StillAligned(text, stream, s, at);
  }

  lemma HeadStart(text: seq<Tagged>, at: nat, chunks: seq<Chunk>, bytes: nat, i: nat)
    requires Trimming(text, at, chunks, bytes) && chunks != [] && i <= |chunks[0].1|
    ensures at + |chunks[0].1| <= |text|
    ensures i < |chunks[0].1| ==> text[at + i].b == chunks[0].1[i]
    ensures text[at + i..] == Tag(chunks[0].0, chunks[0].1[i..]) + Flat(chunks[1..])
  {
    FlatFirst(chunks);
    var t := Tag(chunks[0].0, chunks[0].1);
    assert |text| - at == |t| + |Flat(chunks[1..])|;
    assert text[at + i..] == text[at..][i..];
    assert (t + Flat(chunks[1..]))[i..] == t[i..] + Flat(chunks[1..]);
    assert t[i..] == Tag(chunks[0].0, chunks[0].1[i..]);
    if i < |t| {
      assert text[at..][i] == t[i];
    }
  }

  lemma {:induction false} FlatAligned(chunks: seq<Chunk>)
    requires ChunksAligned(chunks)
    ensures Aligned(Flat(chunks), 0)
  {
    if |chunks| > 0 {
      FlatFirst(chunks);
      if |chunks[0].1| == 0 {
        assert Tag(chunks[0].0, []) + Flat(chunks[1..]) == Flat(chunks[1..]);
        FlatAligned(chunks[1..]);
      } else {
        assert Flat(chunks)[0] == Tag(chunks[0].0, chunks[0].1)[0];
      }
    }
  }

  lemma AlignedAt(text: seq<Tagged>, at: nat, chunks: seq<Chunk>)
    requires at <= |text| && text[at..] == Flat(chunks) && ChunksAligned(chunks)
    ensures Aligned(text, at)
  {
    FlatAligned(chunks);
    if at < |text| {
      assert text[at] == Flat(chunks)[0];
    }
  }

  // The whole first chunk is more than has to go.
  lemma PopFirst(text: seq<Tagged>, at: nat, chunks: seq<Chunk>, bytes: nat)
    requires Trimming(text, at, chunks, bytes) && chunks != []
    requires bytes > MAX_BATCH_BYTES && |chunks[0].1| <= bytes - MAX_BATCH_BYTES
    ensures chunks[1..] != []
    ensures Trimming(text, at + |chunks[0].1|, chunks[1..], bytes - |chunks[0].1|)
  {
    var n := |chunks[0].1|;
    HeadStart(text, at, chunks, bytes, n);
    assert Tag(chunks[0].0, chunks[0].1[n..]) == [];
    assert [] + Flat(chunks[1..]) == Flat(chunks[1..]);
    FlatFirst(chunks);
    assert |Flat(chunks)| == n + |Flat(chunks[1..])|;
    AlignedAt(text, at + n, chunks[1..]);
  }

  predicate CharBoundary(s: seq<byte>, i: nat) {
    i == 0 || i >= |s| || !IsContinuation(s[i])
  }

  // Part of the first chunk goes, up to the next character.
  lemma CutFirst(text: seq<Tagged>, at: nat, chunks: seq<Chunk>, bytes: nat, cut: nat)
    requires Trimming(text, at, chunks, bytes) && chunks != [] && bytes > MAX_BATCH_BYTES
    requires bytes - MAX_BATCH_BYTES <= cut <= |chunks[0].1| && CharBoundary(chunks[0].1, cut)
    requires forall i | bytes - MAX_BATCH_BYTES <= i < cut :: !CharBoundary(chunks[0].1, i)
    ensures Trimming(text, at + cut, [(chunks[0].0, chunks[0].1[cut..])] + chunks[1..], bytes - cut)
  {
    var next := [(chunks[0].0, chunks[0].1[cut..])] + chunks[1..];
    FlatFirst(chunks);
    assert |Flat(chunks)| == |chunks[0].1| + |Flat(chunks[1..])|;
    HeadStart(text, at, chunks, bytes, cut);
    assert next[1..] == chunks[1..];
    FlatFirst(next);
    assert Flat(next) == Tag(chunks[0].0, chunks[0].1[cut..]) + Flat(chunks[1..]);
    assert ChunksAligned(next) && Alternating(next);
    AlignedAt(text, at + cut, next);
    forall j: nat | j < at + cut
      ensures !(Aligned(text, j) && |text| - j <= MAX_BATCH_BYTES)
    {
      assert |text[at..]| == bytes;
      if at <= j {
        var i: nat := j - at;
        HeadStart(text, at, chunks, bytes, i);
        if bytes - MAX_BATCH_BYTES <= i {
          assert !CharBoundary(chunks[0].1, i);
        }
      } else {
        assert NothingBefore(text, at);
      }
    }
  }

  class OutputBatch {
    var chunks: seq<Chunk>
    var bytes: nat
    var truncated: bool
    ghost var text: seq<Tagged>  // everything pushed since the last take

    ghost predicate Valid()
      reads this
    {
      && Flat(chunks) == Tail(text)
      && bytes == |Flat(chunks)|
      && (truncated <==> Tail(text) != text)
      && Alternating(chunks) && ChunksAligned(chunks)
      && (chunks == [] <==> text == [])
      && (TailStart(text, 0) == 0 ==> NoneEmpty(chunks))
    }

    constructor ()
      ensures Valid() && text == []
    {
      chunks, bytes, truncated, text := [], 0, false, [];
    }

    // Main result: the batch is always the longest aligned suffix that fits.
    method Push(stream: Stream, s: seq<byte>)
      requires Valid() && ValidUtf8(s)
      modifies this
      ensures Valid() && text == old(text) + Tag(stream, s)
    {
      if s == [] {
        TagNothing(text, stream);
        return;
      }
      ValidStartsAligned(s);
      bytes := bytes + |s|;
      Append(stream, s);
      PushStartsTrimming(text, old(chunks), stream, s, chunks);
      ghost var start := TailStart(text, 0);
      TailIsWhole(text);
      text := text + Tag(stream, s);
      TrimToLimit(start);
    }

    method Append(stream: Stream, s: seq<byte>)
      requires Alternating(chunks) && ChunksAligned(chunks) && s != [] && StartsAligned(s)
      modifies `chunks
      ensures Alternating(chunks) && ChunksAligned(chunks) && chunks != []
      ensures NoneEmpty(old(chunks)) ==> NoneEmpty(chunks)
      ensures Flat(chunks) == old(Flat(chunks)) + Tag(stream, s)
    {
      ghost var before := chunks;
      if chunks != [] && chunks[|chunks| - 1].0 == stream {
        var last := chunks[|chunks| - 1].1;
        ghost var front := chunks[..|chunks| - 1];
        assert chunks == front + [(stream, last)];
        FlatExtend(front, stream, last, s);
        chunks := chunks[..|chunks| - 1] + [(stream, last + s)];
      } else {
        FlatAppend(chunks, [(stream, s)]);
        FlatOne((stream, s));
        chunks := chunks + [(stream, s)];
      }
    }

    method NextBoundary(s: seq<byte>, from: nat) returns (cut: nat)
      requires from <= |s|
      ensures from <= cut <= |s| && CharBoundary(s, cut) && forall i | from <= i < cut :: !CharBoundary(s, i)
    {
      cut := from;
      while !CharBoundary(s, cut)
        invariant from <= cut <= |s| && forall i | from <= i < cut :: !CharBoundary(s, i)
        decreases |s| - cut
      {
        cut := cut + 1;
      }
    }

    // The first chunk goes, or the part of it that has to.
    method TrimFirst(ghost at: nat) returns (ghost after: nat)
      requires Trimming(text, at, chunks, bytes) && chunks != [] && bytes > MAX_BATCH_BYTES
      modifies `chunks, `bytes, `truncated
      ensures Trimming(text, after, chunks, bytes) && chunks != [] && truncated && after > 0
      ensures bytes < old(bytes) || (bytes == old(bytes) && |chunks| < |old(chunks)|)
    {
      var excess := bytes - MAX_BATCH_BYTES;
      var first := chunks[0].1;
      truncated := true;
      if |first| <= excess {
        PopFirst(text, at, chunks, bytes);
        after := at + |first|;
        bytes := bytes - |first|;
        chunks := chunks[1..];
      } else {
        var cut := NextBoundary(first, excess);
        CutFirst(text, at, chunks, bytes, cut);
        after := at + cut;
        chunks := [(chunks[0].0, first[cut..])] + chunks[1..];
        bytes := bytes - cut;
      }
    }

    // `start` is how much of the text had been dropped before.
    method TrimToLimit(ghost start: nat)
      requires Trimming(text, start, chunks, bytes) && chunks != [] && text != []
      requires truncated <==> start > 0
      modifies `chunks, `bytes, `truncated
      ensures Valid()
    {
      ghost var at: nat := start;
      while bytes > MAX_BATCH_BYTES
        invariant Trimming(text, at, chunks, bytes) && chunks != []
        invariant truncated <==> at > 0
        decreases bytes, |chunks|
      {
        at := TrimFirst(at);
      }
      TailIs(text, at);
      TailIsSuffix(text);
      TailIsWhole(text);
    }

    method Take() returns (taken: seq<Chunk>, wasTruncated: bool)
      requires Valid()
      modifies this
      ensures Valid() && text == []
      ensures Flat(taken) == Tail(old(text)) && Alternating(taken)
      ensures wasTruncated <==> Tail(old(text)) != old(text)
    {
      bytes := 0;
      taken, wasTruncated := chunks, truncated;
      chunks, truncated, text := [], false, [];
    }

    predicate IsEmpty()
      reads this
    {
      chunks == []
    }
  }
}
