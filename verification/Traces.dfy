/** The states that a log of steps passes through, one more than there are steps. */
module Traces {
  import opened Domain

  ghost predicate Linked<S, A>(next: (S, A) -> Option<S>, trace: seq<S>, log: seq<A>) {
    |trace| == |log| + 1 && forall k | 0 <= k < |log| :: LinkedAt(next, trace, log, k)
  }

  ghost predicate LinkedAt<S, A>(next: (S, A) -> Option<S>, trace: seq<S>, log: seq<A>, k: nat) {
    k < |log| && k + 1 < |trace| && next(trace[k], log[k]) == Some(trace[k + 1])
  }

  lemma LinkedExtends<S, A>(next: (S, A) -> Option<S>, trace: seq<S>, log: seq<A>, step: A, t: S)
    requires Linked(next, trace, log) && next(trace[|log|], step) == Some(t)
    ensures Linked(next, trace + [t], log + [step])
  {
    forall k | 0 <= k < |log + [step]| ensures LinkedAt(next, trace + [t], log + [step], k) {
      if k < |log| {
        assert LinkedAt(next, trace, log, k);
      }
    }
  }

  lemma LinkedFront<S, A>(next: (S, A) -> Option<S>, trace: seq<S>, log: seq<A>)
    requires Linked(next, trace, log) && |log| > 0
    ensures Linked(next, trace[..|log|], log[..|log| - 1])
    ensures next(trace[|log| - 1], log[|log| - 1]) == Some(trace[|log|])
  {
    var states, front := trace[..|log|], log[..|log| - 1];
    forall k | 0 <= k < |front| ensures LinkedAt(next, states, front, k) {
      assert LinkedAt(next, trace, log, k);
    }
    assert LinkedAt(next, trace, log, |log| - 1);
  }
}
