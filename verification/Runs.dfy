/**
 Runs of a step machine, and the one induction every interleaved model in this project uses.
 A machine is given by its initial states and its step relation; an action names the step taken.
 */
module Runs {

  /** A finite run: action `i` leads from state `i` to state `i + 1`. */
  ghost predicate IsRun<S(!new), A(!new)>(init: S -> bool, next: (S, A, S) -> bool, states: seq<S>, actions: seq<A>) {
    && |states| == |actions| + 1
    && init(states[0])
    && forall i :: 0 <= i < |actions| ==> next(states[i], actions[i], states[i + 1])
  }

  /** What holds initially and is kept by every step holds in every state of every run. */
  lemma Invariance<S(!new), A(!new)>(
    init: S -> bool, next: (S, A, S) -> bool, inv: S -> bool, states: seq<S>, actions: seq<A>)
    requires forall s :: init(s) ==> inv(s)
    requires forall s, a, s' :: inv(s) && next(s, a, s') ==> inv(s')
    requires IsRun(init, next, states, actions)
    ensures forall i :: 0 <= i < |states| ==> inv(states[i])
  {
    var n := 0;
    while n < |actions|
      invariant n <= |actions|
      invariant forall i :: 0 <= i <= n ==> inv(states[i])
    {
      assert next(states[n], actions[n], states[n + 1]);
      n := n + 1;
    }
  }

  /** What holds initially and is kept by every action but the bad ones holds as long as none of those was taken. */
  lemma InvarianceUntil<S(!new), A(!new)>(
    init: S -> bool, next: (S, A, S) -> bool, bad: A -> bool, inv: S -> bool, states: seq<S>, actions: seq<A>, i: nat)
    requires forall s :: init(s) ==> inv(s)
    requires forall s, a, s' :: inv(s) && next(s, a, s') && !bad(a) ==> inv(s')
    requires IsRun(init, next, states, actions) && i < |states|
    requires forall k :: 0 <= k < i ==> !bad(actions[k])
    ensures inv(states[i])
  {
    var n := 0;
    while n < i
      invariant n <= i && inv(states[n])
    {
      assert next(states[n], actions[n], states[n + 1]);
      n := n + 1;
    }
  }

  /** What every step keeps, once true, stays true for the rest of the run. */
  lemma Stability<S(!new), A(!new)>(
    init: S -> bool, next: (S, A, S) -> bool, kept: S -> bool, states: seq<S>, actions: seq<A>, i: nat, j: nat)
    requires forall s, a, s' :: kept(s) && next(s, a, s') ==> kept(s')
    requires IsRun(init, next, states, actions)
    requires i <= j < |states| && kept(states[i])
    ensures kept(states[j])
  {
    var n := i;
    while n < j
      invariant i <= n <= j && kept(states[n])
    {
      assert next(states[n], actions[n], states[n + 1]);
      n := n + 1;
    }
  }

  /** A run goes on with any step possible in its last state. */
  lemma Extend<S(!new), A(!new)>(
    init: S -> bool, next: (S, A, S) -> bool, states: seq<S>, actions: seq<A>, a: A, s': S)
    returns (states': seq<S>, actions': seq<A>)
    requires IsRun(init, next, states, actions) && next(states[|actions|], a, s')
    ensures IsRun(init, next, states', actions')
    ensures states' == states + [s'] && actions' == actions + [a]
  {
    states', actions' := states + [s'], actions + [a];
  }
}
