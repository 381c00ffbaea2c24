/** Mutual exclusion of the fill lock across API and worker: it holds as long as nobody outlives the
    lock, and fails exactly when somebody does. */
module RuleLock {
  import opened Domain
  import opened Pipeline
  import opened RuleCache

  /** The time at which the process acquired the lock it has not yet released. */
  function HeldSince(r: Reader): Option<int> {
    match r
    case Filling(lockedAt) => lockedAt
    case Holding(_, _, lockedAt) => lockedAt
    case Releasing(_, _, _, lockedAt) => lockedAt
    case Throwing(lockedAt) => lockedAt
    case _ => None
  }

  predicate IsHolder(s: Shared, w: nat) {
    w < |s.readers| && HeldSince(s.readers[w]).Some?
  }

  function LockEnd(s: Shared, w: nat): int
    requires IsHolder(s, w) && |s.limits| == |s.readers|
  {
    HeldSince(s.readers[w]).value + s.limits[w].lockTtl
  }

  /** Every process that holds the lock releases it before the lock's time to live is over. */
  ghost predicate Timely(s: Shared) {
    |s.limits| == |s.readers| && forall w: nat | IsHolder(s, w) :: s.now < LockEnd(s, w)
  }

  ghost predicate TimelyThroughout(s: Shared, steps: seq<CacheStep>) {
    forall k | 0 <= k <= |steps| :: CacheRun(s, steps[..k]).Some? ==> Timely(CacheRun(s, steps[..k]).value)
  }

  /** At most one holder, and the lock key lives until that holder's end. */
  ghost predicate Exclusive(s: Shared) {
    && |s.limits| == |s.readers|
    && (forall v: nat, w: nat | IsHolder(s, v) && IsHolder(s, w) :: v == w)
    && (forall w: nat | IsHolder(s, w) :: s.lock == Some(LockEnd(s, w)))
  }

  /** What a reader's step does to the lock key and to its own hold. */
  lemma ReaderHolds(s: Shared, w: nat, step: CacheStep)
    requires ReaderNext(s, w, step).Some?
    ensures var t := ReaderNext(s, w, step).value;
            || (t.lock == s.lock && (IsHolder(t, w) ==> IsHolder(s, w) && LockEnd(t, w) == LockEnd(s, w)))
            || (LockFree(s) && (IsHolder(t, w) ==> t.lock == Some(LockEnd(t, w))))
            || (IsHolder(s, w) && !IsHolder(t, w))
            || (s.readers[w].Releasing? || s.readers[w].Throwing?)
    ensures (s.readers[w].Releasing? || s.readers[w].Throwing?) ==> !IsHolder(ReaderNext(s, w, step).value, w)
  {}

  /** Fills that reach the release came with the lock. */
  ghost predicate ReleasersHold(s: Shared) {
    forall w | 0 <= w < |s.readers| && (s.readers[w].Releasing? || s.readers[w].Throwing?) :: IsHolder(s, w)
  }

  lemma StepKeepsReleasers(s: Shared, step: CacheStep)
    requires ReleasersHold(s) && CacheNext(s, step).Some?
    ensures ReleasersHold(CacheNext(s, step).value)
  {
    if !step.Upsert? && !step.Invalidate? && !step.Pass? {
      ReaderFrames(s, step.w, step);
    }
  }

  lemma ReaderKeepsExclusive(s: Shared, w: nat, step: CacheStep)
    requires Exclusive(s) && Timely(s) && ReleasersHold(s) && ReaderNext(s, w, step).Some?
    ensures Exclusive(ReaderNext(s, w, step).value)
  {
    var t := ReaderNext(s, w, step).value;
    ReaderFrames(s, w, step);
    ReaderHolds(s, w, step);
    forall v: nat | IsHolder(t, v) ensures t.lock == Some(LockEnd(t, v)) && (IsHolder(t, w) ==> v == w) {
      if v != w {
        assert IsHolder(s, v) && LockEnd(t, v) == LockEnd(s, v);
        assert s.lock == Some(LockEnd(s, v)) && s.now < LockEnd(s, v);
        assert !IsHolder(s, w);
      }
    }
    forall v: nat, u: nat | IsHolder(t, v) && IsHolder(t, u) ensures v == u {
      assert v != w ==> IsHolder(s, v);
      assert u != w ==> IsHolder(s, u);
    }
  }

  lemma StepKeepsExclusive(s: Shared, step: CacheStep)
    requires Exclusive(s) && Timely(s) && ReleasersHold(s) && CacheNext(s, step).Some?
    ensures Exclusive(CacheNext(s, step).value)
  {
    if step.Upsert? || step.Invalidate? || step.Pass? {
      var t := CacheNext(s, step).value;
      assert forall v: nat :: IsHolder(t, v) == IsHolder(s, v);
    } else {
      ReaderKeepsExclusive(s, step.w, step);
    }
  }

  lemma {:induction false} RunKeepsExclusive(s: Shared, steps: seq<CacheStep>)
    requires CacheInit(s) && CacheRun(s, steps).Some? && TimelyThroughout(s, steps)
    ensures Exclusive(CacheRun(s, steps).value) && ReleasersHold(CacheRun(s, steps).value)
  {
    if |steps| > 0 {
      var front := steps[..|steps| - 1];
      forall k | 0 <= k <= |front|
        ensures CacheRun(s, front[..k]).Some? ==> Timely(CacheRun(s, front[..k]).value)
      {
        assert front[..k] == steps[..k];
      }
      assert front[..|front|] == front;
      RunKeepsExclusive(s, front);
      StepKeepsExclusive(CacheRun(s, front).value, steps[|steps| - 1]);
      StepKeepsReleasers(CacheRun(s, front).value, steps[|steps| - 1]);
    }
  }

  /** If every holder releases in time, then at most one process holds the lock at any moment, although
      release deletes the key without checking who set it and every Redis call may fail silently. */
  lemma AtMostOneHolder(s: Shared, steps: seq<CacheStep>, v: nat, w: nat)
    requires CacheInit(s) && CacheRun(s, steps).Some? && TimelyThroughout(s, steps)
    requires IsHolder(CacheRun(s, steps).value, v) && IsHolder(CacheRun(s, steps).value, w)
    ensures v == w
  {
    RunKeepsExclusive(s, steps);
  }

  /** However long the holder of a so far timely run then takes, another's acquisition succeeds exactly when the
      holder has outlived its lock. */
  lemma SecondHolderExactlyAfterExpiry(s0: Shared, steps: seq<CacheStep>, ms: nat, p: nat, q: nat)
    requires CacheInit(s0) && CacheRun(s0, steps).Some? && TimelyThroughout(s0, steps)
    requires var s := CacheRun(s0, steps).value; IsHolder(s, p) && q < |s.readers| && s.readers[q] == Missed
    ensures var s := CacheRun(s0, steps).value; var more := CacheRun(s0, steps + [Pass(ms)] + [Acquire(q, Ok)]);
            more.Some? && IsHolder(more.value, p) && (IsHolder(more.value, q) <==> s.now + ms >= LockEnd(s, p))
  {
    RunKeepsExclusive(s0, steps);
    assert (steps + [Pass(ms)])[..|steps|] == steps;
    var late := steps + [Pass(ms)];
    assert (late + [Acquire(q, Ok)])[..|late|] == late;
    var s := CacheRun(s0, steps).value;
    assert s.lock == Some(LockEnd(s, p));
  }
}
