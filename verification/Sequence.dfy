// Equations of sequences that proofs name one at a time.
module Sequences {
  lemma FrontOf<T>(a: seq<T>, x: T)
    ensures (a + [x])[..|a + [x]| - 1] == a && (a + [x])[|a + [x]| - 1] == x
  {
  }

  lemma FrontAndLast<T>(a: seq<T>)
    requires |a| > 0
    ensures a[..|a| - 1] + [a[|a| - 1]] == a
  {
  }

  lemma FrontOfAppend<T>(a: seq<T>, b: seq<T>)
    requires |b| > 0
    ensures (a + b)[..|a + b| - 1] == a + b[..|b| - 1] && (a + b)[|a + b| - 1] == b[|b| - 1]
  {
  }

  lemma NothingMore<T>(a: seq<T>)
    ensures a + [] == a && [] + a == a
  {
  }

  lemma Regroup<T>(a: seq<T>, b: seq<T>, c: seq<T>)
    ensures (a + b) + c == a + (b + c)
  {
  }

  lemma HeadAndRest<T>(head: T, rest: seq<T>)
    ensures ([head] + rest)[0] == head && ([head] + rest)[1..] == rest
  {
  }

  lemma PrefixAt<T>(a: seq<T>, i: nat)
    requires i < |a|
    ensures a[..i + 1] == a[..i] + [a[i]]
    ensures |a[..i + 1]| == i + 1 && a[..i + 1][..i] == a[..i] && a[..i + 1][i] == a[i]
  {
  }

  // The part between two places, element by element.
  lemma Slice<T>(a: seq<T>, from: nat, to: nat, part: seq<T>)
    requires from <= to <= |a| && |part| == to - from
    requires forall i | 0 <= i < |part| :: a[from + i] == part[i]
    ensures a[from..to] == part
  {
  }

  lemma StaysAt<T>(a: seq<T>, b: seq<T>, i: nat)
    requires i < |a|
    ensures |a| <= |a + b| && (a + b)[i] == a[i]
  {
  }

  lemma OtherLast<T>(a: seq<T>, x: T, i: nat)
    requires i < |a|
    ensures |a[..|a| - 1] + [x]| == |a| && (a[..|a| - 1] + [x])[i] == if i == |a| - 1 then x else a[i]
  {
  }

  // What is appended does not change what comes before.
  lemma PrefixOf<T>(a: seq<T>, b: seq<T>, from: nat, to: nat)
    requires from <= to <= |a|
    ensures (a + b)[from..to] == a[from..to]
  {
  }
}
