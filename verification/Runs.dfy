/** Finite runs of a transition system, and the two inductions over them. */
module Runs {

  /** States joined by steps, from an initial one. */
  ghost predicate IsRun<S(!new), T(!new)>(init: S -> bool, next: (S, T, S) -> bool, states: seq<S>, steps: seq<T>) {
    && |states| == |steps| + 1
    && init(states[0])
    && forall i :: 0 <= i < |steps| ==> next(states[i], steps[i], states[i + 1])
  }

  /** What holds at state b and survives every allowed step still holds at state i. */
  lemma {:induction false} Onward<S(!new), T(!new)>(init: S -> bool, next: (S, T, S) -> bool, inv: S -> bool, allowed: T -> bool,
                                                   states: seq<S>, steps: seq<T>, b: nat, i: nat)
    requires IsRun(init, next, states, steps) && b <= i <= |steps|
    requires inv(states[b])
    requires forall k :: b <= k < i ==> allowed(steps[k])
    requires forall s, t, s' :: inv(s) && allowed(t) && next(s, t, s') ==> inv(s')
    ensures inv(states[i])
  {
    if b < i {
      Onward(init, next, inv, allowed, states, steps, b, i - 1);
      assert next(states[i - 1], steps[i - 1], states[i - 1 + 1]);
    }
  }

  /** An inductive invariant holds throughout a run. */
  lemma Throughout<S(!new), T(!new)>(init: S -> bool, next: (S, T, S) -> bool, inv: S -> bool, states: seq<S>, steps: seq<T>, i: nat)
    requires IsRun(init, next, states, steps) && i <= |steps|
    requires forall s :: init(s) ==> inv(s)
    requires forall s, t, s' :: inv(s) && next(s, t, s') ==> inv(s')
    ensures inv(states[i])
  {
    Onward(init, next, inv, t => true, states, steps, 0, i);
  }
}
