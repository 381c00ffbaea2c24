/** The two cache clients as they are written: `getCashbackRule` of the worker and `getRule` of the API are
    the same code with their own limits, and `upsertRule` writes the row and then deletes the key. Between
    any two calls all other clients may run and time passes. Each method is proved to follow module
    RuleCache, so what it returns is as fresh as proved there. */
module CacheClient {
  import opened Domain
  import opened Pipeline
  import opened RuleCache
  import opened Traces

  predicate IsReaderStep(step: CacheStep) {
    !step.Upsert? && !step.Invalidate? && !step.Pass?
  }

  /** A reader is moved by its own steps only, and time never runs backwards. */
  lemma {:induction false} OthersLeaveReader(s: Shared, steps: seq<CacheStep>, w: nat)
    requires w < |s.readers| && CacheRun(s, steps).Some?
    requires forall k | 0 <= k < |steps| && IsReaderStep(steps[k]) :: steps[k].w != w
    ensures var t := CacheRun(s, steps).value;
            |t.readers| == |s.readers| && t.readers[w] == s.readers[w] && s.now <= t.now
  {
    if |steps| > 0 {
      var front, last := steps[..|steps| - 1], steps[|steps| - 1];
      OthersLeaveReader(s, front, w);
      if IsReaderStep(last) {
        ReaderFrames(CacheRun(s, front).value, last.w, last);
      }
    }
  }

  lemma {:induction false} LinkedCacheRuns(trace: seq<Shared>, log: seq<CacheStep>)
    requires Linked(CacheNext, trace, log)
    ensures CacheRun(trace[0], log) == Some(trace[|log|])
  {
    if |log| > 0 {
      LinkedFront(CacheNext, trace, log);
      LinkedCacheRuns(trace[..|log|], log[..|log| - 1]);
    }
  }

  /** The client was stopped at the last step. */
  predicate Stopped(log: seq<CacheStep>, w: nat) {
    |log| > 0 && log[|log| - 1] == Crash(w)
  }

  /** The last step is one that ends a call without a hit: a stop, a database read that threw, or the
      release in the `finally` block. */
  predicate Ended(log: seq<CacheStep>, w: nat) {
    |log| > 0 && EndsRead(log[|log| - 1], w)
  }

  predicate EndsRead(last: CacheStep, w: nat) {
    IsReaderStep(last) && last.w == w && (last.Crash? || last.Unlock? || (last.ReadRule? && last.o != Ok))
  }

  /** One merchant's row, cache key and lock key, with the clients' places and answers as ghost state. */
  class RuleStore {
    const limits: seq<Limits>
    var now: int
    var history: seq<Change>
    var entry: Option<Cached>
    var lock: Option<int>
    ghost var readers: seq<Reader>
    ghost var answers: seq<Answer>
    ghost const origin: Shared
    ghost var trace: seq<Shared>
    ghost var log: seq<CacheStep>

    ghost function View(): Shared
      reads this
    {
      Shared(now, history, entry, lock, limits, readers, answers)
    }

    ghost predicate Valid()
      reads this
    {
      && CacheInit(origin) && Linked(CacheNext, trace, log) && trace[0] == origin && trace[|log|] == View()
      && |limits| == |readers|
    }

    lemma FollowsCache()
      requires Valid()
      ensures CacheInit(origin) && CacheRun(origin, log) == Some(View())
    {
      LinkedCacheRuns(trace, log);
    }

    lemma Known()
      requires Valid()
      ensures CacheInv(View()) && AnswersInPast(View())
    {
      FollowsCache();
      RunKeepsCacheInv(origin, log);
    }

    constructor (limits: seq<Limits>, now: int)
      ensures Valid() && log == [] && this.limits == limits && |readers| == |limits|
    {
      this.limits, this.now := limits, now;
      history, entry, lock := [Change(now, None)], None, None;
      readers, answers, log := seq(|limits|, _ => Idle), [], [];
      origin := Shared(now, [Change(now, None)], None, None, limits, seq(|limits|, _ => Idle), []);
      trace := [Shared(now, [Change(now, None)], None, None, limits, seq(|limits|, _ => Idle), [])];
    }

    ghost method Record(step: CacheStep)
      requires CacheInit(origin) && Linked(CacheNext, trace, log) && trace[0] == origin && |limits| == |readers|
      requires CacheNext(trace[|log|], step) == Some(View())
      modifies this`log, this`trace
      ensures Valid() && log == old(log) + [step]
    {
      LinkedExtends(CacheNext, trace, log, step, View());
      trace, log := trace + [View()], log + [step];
    }

    /** What happens at an await: any steps of the others, and time. The body takes none; the contract
        leaves room for all. */
    method Others(ghost w: nat)
      requires Valid() && w < |readers|
      modifies this
      ensures Valid() && old(log) <= log && old(now) <= now
      ensures w < |readers| && readers[w] == old(readers[w]) && |answers| >= old(|answers|)
    {
    }

    /** An await of `upsertRule`, which has no place of its own among the readers. */
    method Meanwhile() returns (stopped: bool)
      requires Valid()
      modifies this
      ensures Valid() && old(log) <= log
    {
      stopped := *;
    }

    /** An await, after which the client may find that it has been stopped. */
    method Await(ghost w: nat) returns (stopped: bool)
      requires Valid() && w < |readers|
      modifies this
      ensures Valid() && old(log) <= log && old(now) <= now
      ensures w < |readers| && readers[w] == (if stopped then Idle else old(readers[w])) && |answers| >= old(|answers|)
      ensures stopped ==> old(log) < log && Stopped(log, w)
    {
      Others(w);
      stopped := *;
      if stopped {
        readers := readers[w := Idle];
        Record(Crash(w));
      }
    }

    /** `readCache`: no value when the call fails, the key is missing or its time is up. A hit is the
        call's answer. */
    method ReadCache(ghost w: nat) returns (left: bool, found: Option<Rule>, ghost a: Answer)
      requires Valid() && w < |readers|
      requires readers[w] == Idle || (readers[w].Pausing? && readers[w].until <= now)
      modifies this
      ensures Valid() && old(log) < log && w < |readers| && |answers| >= old(|answers|)
      ensures left ==> readers[w] == Idle && Stopped(log, w)
      ensures !left && found.Some? ==> readers[w] == Idle && |answers| > old(|answers|) && answers[|answers| - 1] == a
                                       && a.rule == found.value && a.at == now
                                       && entry.Some? && now < entry.value.expires && entry.value.rule == found.value
      ensures !left && found.None? ==> readers[w] == if old(readers[w]) == Idle then Missed else Filling(None)
    {
      ghost var first := readers[w] == Idle;
      left := Await(w);
      found, a := None, *;
      if left { return; }
      var o: Outcome := *;
      if o == Ok && entry.Some? && now < entry.value.expires {
        found := Some(entry.value.rule);
      }
      ghost var s := View();
      if found.Some? {
        answers, readers := Hit(s, w, entry.value).answers, readers[w := Idle];
        a := answers[|answers| - 1];
      } else {
        readers := readers[w := if first then Missed else Filling(None)];
      }
      Record(if first then Get(w, o) else Recheck(w, o));
    }

    /** `acquireLock`: SET NX PX; an error counts as not having it. */
    method AcquireLock(w: nat) returns (left: bool, got: bool)
      requires Valid() && w < |readers| && readers[w] == Missed
      modifies this
      ensures Valid() && old(log) < log && w < |readers| && |answers| >= old(|answers|)
      ensures left ==> readers[w] == Idle && Stopped(log, w)
      ensures !left ==> readers[w] == if got then Filling(Some(now)) else Pausing(now + limits[w].lockWait)
      ensures !left && got ==> lock == Some(now + limits[w].lockTtl)
    {
      left := Await(w);
      got := false;
      if left { return; }
      var o: Outcome := *;
      if o != Refused && (lock.None? || lock.value <= now) {
        lock := Some(now + limits[w].lockTtl);
        got := o == Ok;
      }
      readers := readers[w := if got then Filling(Some(now)) else Pausing(now + limits[w].lockWait)];
      Record(Acquire(w, o));
    }

    /** The `setTimeout`: the others run until it fires. */
    method Wait(w: nat) returns (left: bool)
      requires Valid() && w < |readers| && readers[w] == Pausing(now + limits[w].lockWait)
      modifies this
      ensures Valid() && old(log) <= log && w < |readers| && |answers| >= old(|answers|)
      ensures left ==> readers[w] == Idle && Stopped(log, w)
      ensures !left ==> readers[w] == old(readers[w]) && readers[w].until <= now
    {
      var due := now + limits[w].lockWait;
      left := Await(w);
      if !left && now < due {
        ghost var ms := due - now;
        now := due;
        Record(Pass(ms));
      }
    }

    /** `findUnique`, with 5% and no cap for a merchant without a row. When it throws, a caller that holds
        the lock still releases it. */
    method FindRule(ghost w: nat, ghost lockedAt: Option<int>) returns (left: bool, rule: Option<Rule>, readAt: int)
      requires Valid() && w < |readers| && readers[w] == Filling(lockedAt)
      modifies this
      ensures Valid() && old(log) < log && w < |readers| && |answers| >= old(|answers|)
      ensures left ==> readers[w] == Idle && Stopped(log, w)
      ensures !left ==> match rule
              case Some(r) =>
                && r == (match Current(View()) case Some(row) => row case None => Rule(500, None))
                && readAt == now && readers[w] == Holding(r, readAt, lockedAt)
              case None => Ended(log, w) && readers[w] == if lockedAt.Some? then Throwing(lockedAt) else Idle
    {
      left := Await(w);
      rule, readAt := None, now;
      if left { return; }
      var o: Outcome := *;
      if o == Ok {
        var row := if |history| == 0 then None else history[|history| - 1].rule;
        rule := Some(if row.Some? then row.value else Rule(500, None));
        readers := readers[w := Holding(rule.value, readAt, lockedAt)];
      } else {
        readers := readers[w := if lockedAt.Some? then Throwing(lockedAt) else Idle];
      }
      Record(ReadRule(w, o));
    }

    /** `writeCache`: SET EX, whose error is swallowed. Without the lock this is the call's answer. */
    method WriteCache(w: nat, rule: Rule, readAt: int, ghost lockedAt: Option<int>)
      returns (left: bool, ghost a: Answer)
      requires Valid() && w < |readers| && readers[w] == Holding(rule, readAt, lockedAt)
      modifies this
      ensures Valid() && old(log) < log && w < |readers| && |answers| >= old(|answers|)
      ensures left ==> readers[w] == Idle && Stopped(log, w)
      ensures !left ==> log[|log| - 1].SetEntry?
                        && (log[|log| - 1].o != Refused ==>
                              entry == Some(Cached(rule, readAt, now, now + limits[w].ttl)))
      ensures !left && lockedAt.Some? ==> readers[w] == Releasing(rule, readAt, now, lockedAt)
      ensures !left && lockedAt.None? ==>
                && readers[w] == Idle && |answers| > old(|answers|) && answers[|answers| - 1] == a
                && a == Answer(rule, now, readAt, now - readAt, 0)
    {
      left := Await(w);
      a := *;
      if left { return; }
      var o: Outcome := *;
      if o != Refused {
        entry := Some(Cached(rule, readAt, now, now + limits[w].ttl));
      }
      if lockedAt.Some? {
        readers := readers[w := Releasing(rule, readAt, now, lockedAt)];
      } else {
        a := Answer(rule, now, readAt, now - readAt, 0);
        readers, answers := readers[w := Idle], answers + [a];
      }
      Record(SetEntry(w, o));
    }

    /** `releaseLock`: an unconditional DEL whose error is swallowed; then the `finally` block ends. */
    method ReleaseLock(ghost w: nat) returns (left: bool, ghost a: Answer)
      requires Valid() && w < |readers| && (readers[w].Releasing? || readers[w].Throwing?)
      modifies this
      ensures Valid() && old(log) < log && w < |readers| && |answers| >= old(|answers|) && readers[w] == Idle
      ensures left ==> Stopped(log, w)
      ensures !left ==> Ended(log, w)
      ensures !left && old(readers[w]).Releasing? ==>
                |answers| > old(|answers|) && answers[|answers| - 1] == a && a.rule == old(readers[w]).rule
                  && a.at == now
    {
      left := Await(w);
      a := *;
      if left { return; }
      var o: Outcome := *;
      ghost var r, s := readers[w], View();
      if o != Refused {
        lock := None;
      }
      if r.Releasing? {
        a := Answer(r.rule, now, r.readAt, r.setAt - r.readAt, now - r.setAt);
        answers := answers + [a];
      }
      readers := readers[w := Idle];
      Record(Unlock(w, o));
    }

    /** One call. What it returns is in the answers, so it was the merchant's rule at some time within the
        staleness bound of module RuleCache; it returns nothing only if it was stopped or the database
        threw. */
    method GetRule(w: nat) returns (rule: Option<Rule>, ghost a: Answer)
      requires Valid() && w < |readers| && readers[w] == Idle
      modifies this
      ensures Valid() && old(log) < log && w < |readers| && readers[w] == Idle
      ensures rule.Some? ==>
                |answers| > old(|answers|) && answers[|answers| - 1] == a && a.at == now && a.rule == rule.value
      ensures rule.Some? ==> AnswerOk(history, limits, a)
      ensures rule.None? ==> Ended(log, w)
    {
      rule, a := Lookup(w);
      Known();
    }

    method Lookup(w: nat) returns (rule: Option<Rule>, ghost a: Answer)
      requires Valid() && w < |readers| && readers[w] == Idle
      modifies this
      ensures Valid() && old(log) < log && w < |readers| && readers[w] == Idle
      ensures rule.Some? ==>
                |answers| > old(|answers|) && answers[|answers| - 1] == a && a.at == now && a.rule == rule.value
      ensures rule.None? ==> Ended(log, w)
    {
      var left, got, found;
      left, found, a := ReadCache(w);
      if left || found.Some? {
        return (if left then None else found), a;
      }
      left, got := AcquireLock(w);
      if left { return None, a; }
      if !got {
        left := Wait(w);
        if left { return None, a; }
        left, found, a := ReadCache(w);
        if left || found.Some? {
          return (if left then None else found), a;
        }
      }
      rule, a := Fill(w, got);
    }

    /** The database read, the cache write and the release. */
    method Fill(w: nat, got: bool) returns (rule: Option<Rule>, ghost a: Answer)
      requires Valid() && w < |readers| && readers[w].Filling? && (got <==> readers[w].lockedAt.Some?)
      modifies this
      ensures Valid() && old(log) < log && w < |readers| && readers[w] == Idle && |answers| >= old(|answers|)
      ensures rule.Some? ==>
                |answers| > old(|answers|) && answers[|answers| - 1] == a && a.at == now && a.rule == rule.value
      ensures rule.None? ==> Ended(log, w)
    {
      var left, readAt;
      ghost var lockedAt := readers[w].lockedAt;
      a := *;
      left, rule, readAt := FindRule(w, lockedAt);
      if left { return None, a; }
      if rule.Some? {
        left, a := WriteCache(w, rule.value, readAt, lockedAt);
        if left { return None, a; }
      }
      if got {
        left, a := ReleaseLock(w);
        if left { return None, a; }
      }
    }

    /** `upsertRule`: the row, then the invalidation, whose error is swallowed. */
    method UpsertRule(rule: Rule) returns (left: bool)
      requires Valid()
      modifies this
      ensures Valid() && old(log) <= log
      ensures !left ==> |log| >= |old(log)| + 2 && log[|old(log)|] == Upsert(rule)
                        && (log[|log| - 1] == Invalidate(Refused) || (log[|log| - 1].Invalidate? && entry.None?))
    {
      left := *;
      if left { return; }
      history := history + [Change(now, Some(rule))];
      Record(Upsert(rule));
      left := Meanwhile();
      if left { return; }
      var o: Outcome := *;
      if o != Refused {
        entry := None;
      }
      Record(Invalidate(o));
    }
  }
}
