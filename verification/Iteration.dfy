// Two parties that take turns: what each step adds or leaves.
module Iteration {
  // Two parties take turns.
  function Iterate<W>(step: (W, bool) -> W, w: W, turn: bool, n: nat): W
    decreases n
  {
    if n == 0 then w else Iterate(step, step(w, turn), !turn, n - 1)
  }

  // While the invariant holds, every step adds one.
  lemma {:induction false} EveryStepAdds<W(!new)>(
    step: (W, bool) -> W, w: W, turn: bool, n: nat, inv: (W, bool) -> bool, size: W -> nat)
    requires inv(w, turn)
    requires forall v, t :: inv(v, t) ==> inv(step(v, t), !t) && size(step(v, t)) == size(v) + 1
    ensures size(Iterate(step, w, turn, n)) == size(w) + n
    decreases n
  {
    if n > 0 {
      EveryStepAdds(step, step(w, turn), !turn, n - 1, inv, size);
    }
  }

  // While the invariant holds, no step changes what is seen.
  lemma {:induction false} NoStepShows<W(!new), O>(
    step: (W, bool) -> W, w: W, turn: bool, n: nat, inv: (W, bool) -> bool, seen: W -> O)
    requires inv(w, turn)
    requires forall v, t :: inv(v, t) ==> inv(step(v, t), !t) && seen(step(v, t)) == seen(v)
    ensures seen(Iterate(step, w, turn, n)) == seen(w)
    decreases n
  {
    if n > 0 {
      NoStepShows(step, step(w, turn), !turn, n - 1, inv, seen);
    }
  }

  lemma OneStep<W>(step: (W, bool) -> W, w: W, turn: bool, n: nat)
    requires n >= 1
    ensures Iterate(step, w, turn, n) == Iterate(step, step(w, turn), !turn, n - 1)
  {
  }
}
