/** Runs of a state machine: the state after a list of calls, and the rule for invariants. */
module Runs {
  function After<S, C>(step: (S, C) -> S, s: S, calls: seq<C>): S
    decreases |calls|
  {
    if calls == [] then s else After(step, step(s, calls[0]), calls[1..])
  }

  lemma {:induction false} Invariant<S(!new), C(!new)>(step: (S, C) -> S, inv: S -> bool, s: S, calls: seq<C>)
    requires inv(s)
    requires forall t, c :: inv(t) ==> inv(step(t, c))
    ensures inv(After(step, s, calls))
    decreases |calls|
  {
    if calls != [] {
      Invariant(step, inv, step(s, calls[0]), calls[1..]);
    }
  }
}
