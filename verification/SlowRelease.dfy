/** The release of the lock comes after the cache write and may outlive the entry: exactly when a returned rule
    need not have been in force within lifetime plus delay before the return. */
module SlowRelease {
  import opened Domain
  import opened Pipeline
  import opened RuleCache

  const OLD := Rule(500, None)
  const NEW := Rule(700, None)

  /** One client with the given limits. */
  function EmptyCache(l: Limits): Shared {
    Shared(0, [Change(0, None)], None, None, [l], [Idle], [])
  }

  /** It holds the lock and has read the old rule. */
  function OldRead(l: Limits): Shared {
    EmptyCache(l).(lock := Some(l.lockTtl), readers := [Holding(OLD, 0, Some(0))])
  }

  lemma Take(s0: Shared, steps: seq<CacheStep>, s: Shared, step: CacheStep) returns (more: seq<CacheStep>, t: Shared)
    requires CacheRun(s0, steps) == Some(s) && CacheNext(s, step).Some?
    ensures more == steps + [step] && CacheNext(s, step) == Some(t) && CacheRun(s0, more) == Some(t)
  {
    more, t := steps + [step], CacheNext(s, step).value;
    assert more[..|steps|] == steps;
  }

  lemma ReadOld(l: Limits) returns (steps: seq<CacheStep>)
    ensures CacheRun(EmptyCache(l), steps) == Some(OldRead(l))
  {
    var s0 := EmptyCache(l);
    var missed := s0.(readers := [Missed]);
    var locked := s0.(lock := Some(l.lockTtl), readers := [Filling(Some(0))]);
    assert CacheNext(s0, Get(0, Ok)) == Some(missed) by {
      assert [Idle][0 := Missed] == [Missed];
    }
    assert CacheNext(missed, Acquire(0, Ok)) == Some(locked) by {
      assert [Missed][0 := Filling(Some(0))] == [Filling(Some(0))];
    }
    var s;
    steps, s := Take(s0, [], s0, Get(0, Ok));
    steps, s := Take(s0, steps, missed, Acquire(0, Ok));
    steps, s := Take(s0, steps, locked, ReadRule(0, Ok));
    assert s.readers == OldRead(l).readers;
  }

  /** For any limits, delay and tail above the lifetime: the rule changes right after the read, the cache write
      comes `delay` later and the release `tail` after that. The call then returns the old rule, although the
      new one was in force during the whole lifetime plus delay before the return. */
  lemma SlowReleaseReturnsOldRule(l: Limits, delay: nat, tail: nat) returns (steps: seq<CacheStep>, t: Shared)
    requires tail > l.ttl
    ensures CacheInit(EmptyCache(l)) && CacheRun(EmptyCache(l), steps) == Some(t) && |t.answers| == 1
    ensures t.answers[0].delay == delay && t.answers[0].tail == tail
    ensures !WithinLifetime(t.history, t.answers[0], l.ttl)
  {
    var s0, s := EmptyCache(l), OldRead(l);
    steps := ReadOld(l);
    steps, s := Take(s0, steps, s, Upsert(NEW));
    steps, s := Take(s0, steps, s, Pass(delay));
    steps, s := Take(s0, steps, s, SetEntry(0, Ok));
    steps, s := Take(s0, steps, s, Pass(tail));
    steps, t := Take(s0, steps, s, Unlock(0, Ok));
    assert t.history == [Change(0, None), Change(0, Some(NEW))];
  }

  /** With clients of at most this lifetime, every answer of these numbers was in force within lifetime plus delay. */
  ghost predicate AlwaysWithinLifetime(ttl: nat, delay: nat, tail: nat) {
    forall s, steps, i: nat |
      CacheInit(s) && TtlAtMost(s.limits, ttl) && CacheRun(s, steps).Some?
      && Numbered(CacheRun(s, steps).value, i, delay, tail) ::
      WithinLifetime(CacheRun(s, steps).value.history, CacheRun(s, steps).value.answers[i], ttl)
  }

  predicate Numbered(t: Shared, i: nat, delay: nat, tail: nat) {
    i < |t.answers| && t.answers[i].delay == delay && t.answers[i].tail == tail
  }

  /** Lifetime plus delay bound the staleness exactly when the call returns within a lifetime of its cache
      write. */
  lemma WithinLifetimeExactlyIfPrompt(ttl: nat, delay: nat, tail: nat)
    ensures AlwaysWithinLifetime(ttl, delay, tail) <==> tail <= ttl
  {
    if tail <= ttl {
      forall s, steps, i: nat |
        CacheInit(s) && TtlAtMost(s.limits, ttl) && CacheRun(s, steps).Some?
        && Numbered(CacheRun(s, steps).value, i, delay, tail)
        ensures WithinLifetime(CacheRun(s, steps).value.history, CacheRun(s, steps).value.answers[i], ttl)
      {
        PromptIsWithinLifetime(s, steps, i, ttl);
      }
    } else {
      var l := Limits(ttl, 300, 30);
      var steps, t := SlowReleaseReturnsOldRule(l, delay, tail);
      assert Numbered(CacheRun(EmptyCache(l), steps).value, 0, delay, tail);
    }
  }
}
