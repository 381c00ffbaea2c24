/** What each Redis and database call of the rule cache writes and where its caller goes on, stated on the keys
    and the row. */
module CacheCalls {
  import opened Domain
  import opened Cashback
  import opened Pipeline
  import opened RuleCache

  predicate SameKeys(s: Shared, t: Shared) {
    t.now == s.now && t.history == s.history && t.entry == s.entry && t.lock == s.lock && t.limits == s.limits
  }

  /** A refused call leaves both keys and the row alone. */
  lemma RefusedWritesNothing(s: Shared, step: CacheStep)
    requires CacheNext(s, step).Some? && !step.Upsert? && !step.Pass? && !step.Crash? && step.o == Refused
    ensures SameKeys(s, CacheNext(s, step).value)
  {}

  /** Reads write nothing, whether or not they succeed. */
  lemma ReadsWriteNothing(s: Shared, step: CacheStep)
    requires CacheNext(s, step).Some? && (step.Get? || step.Recheck? || step.ReadRule? || step.Crash?)
    ensures SameKeys(s, CacheNext(s, step).value)
  {}

  /** A write whose reply is lost changes the keys as an acknowledged one does. */
  lemma LostWritesTheSame(s: Shared, w: nat)
    ensures CacheNext(s, Acquire(w, Lost)).Some? ==>
              SameKeys(CacheNext(s, Acquire(w, Lost)).value, CacheNext(s, Acquire(w, Ok)).value)
    ensures CacheNext(s, SetEntry(w, Lost)) == CacheNext(s, SetEntry(w, Ok))
    ensures CacheNext(s, Unlock(w, Lost)) == CacheNext(s, Unlock(w, Ok))
    ensures CacheNext(s, Invalidate(Lost)) == CacheNext(s, Invalidate(Ok))
  {}

  /** A lookup of the key before it expires returns the rule it holds at once; any other is a miss. */
  lemma GetReads(s: Shared, w: nat, o: Outcome)
    requires w < |s.readers| == |s.limits| && s.readers[w] == Idle
    ensures var t := CacheNext(s, Get(w, o));
            && t.Some?
            && if o == Ok && s.entry.Some? && s.now < s.entry.value.expires
               then var c := s.entry.value;
                    && t.value.readers == s.readers
                    && t.value.answers == s.answers + [Answer(c.rule, s.now, c.readAt, c.setAt - c.readAt, 0)]
               else t.value == s.(readers := s.readers[w := Missed])
  {
    assert s.readers[w := Idle] == s.readers;
  }

  /** The lock is taken if its key is missing or expired, for the caller's lock time; only an acknowledged
      caller fills under it, any other waits for its lock wait. */
  lemma AcquireWrites(s: Shared, w: nat, o: Outcome)
    requires w < |s.readers| == |s.limits| && s.readers[w] == Missed && o != Refused
    ensures var free := s.lock.None? || s.lock.value <= s.now;
            CacheNext(s, Acquire(w, o))
            == Some(s.(lock := if free then Some(s.now + s.limits[w].lockTtl) else s.lock,
                       readers := s.readers[w := if free && o == Ok then Filling(Some(s.now))
                                                 else Pausing(s.now + s.limits[w].lockWait)]))
  {}

  /** The second lookup comes once the wait is over, not before; a miss fills without the lock. */
  lemma RecheckReads(s: Shared, w: nat, o: Outcome)
    requires w < |s.readers| == |s.limits| && s.readers[w].Pausing?
    ensures var t := CacheNext(s, Recheck(w, o));
            && (t.Some? <==> s.readers[w].until <= s.now)
            && (t.Some? ==>
                  if o == Ok && s.entry.Some? && s.now < s.entry.value.expires
                  then var c := s.entry.value;
                       && t.value.readers == s.readers[w := Idle]
                       && t.value.answers == s.answers + [Answer(c.rule, s.now, c.readAt, c.setAt - c.readAt, 0)]
                  else t.value == s.(readers := s.readers[w := Filling(None)]))
  {}

  /** The fill takes the row as it is now, or 5% without a cap; a read that throws ends the call, after the
      release if it has the lock. */
  lemma FillReads(s: Shared, w: nat, lockedAt: Option<int>, o: Outcome)
    requires w < |s.readers| == |s.limits| && s.readers[w] == Filling(lockedAt) && |s.history| > 0
    ensures var row := s.history[|s.history| - 1].rule;
            CacheNext(s, ReadRule(w, o))
            == Some(s.(readers := s.readers[w :=
                         if o == Ok then Holding(if row.Some? then row.value else Rule(500, None), s.now, lockedAt)
                         else if lockedAt.Some? then Throwing(lockedAt) else Idle]))
  {}

  /** The set replaces the entry for the caller's configured lifetime from now; without the lock the call then
      returns what it read, set or not. */
  lemma SetWrites(s: Shared, w: nat, rule: Rule, readAt: int, lockedAt: Option<int>, o: Outcome)
    requires w < |s.readers| == |s.limits| && s.readers[w] == Holding(rule, readAt, lockedAt)
    ensures var t := CacheNext(s, SetEntry(w, o));
            && t.Some?
            && t.value.entry == (if o == Refused then s.entry
                                 else Some(Cached(rule, readAt, s.now, s.now + s.limits[w].ttl)))
            && t.value.lock == s.lock
            && if lockedAt.Some?
               then t.value.readers == s.readers[w := Releasing(rule, readAt, s.now, lockedAt)]
                    && t.value.answers == s.answers
               else && t.value.readers == s.readers[w := Idle]
                    && t.value.answers == s.answers + [Answer(rule, s.now, readAt, s.now - readAt, 0)]
  {}

  /** The release deletes the lock key, whoever set it; then the call returns what it read, or throws. */
  lemma ReleaseWrites(s: Shared, w: nat, o: Outcome)
    requires w < |s.readers| == |s.limits| && (s.readers[w].Releasing? || s.readers[w].Throwing?)
    ensures var t := CacheNext(s, Unlock(w, o));
            && t.Some? && t.value.entry == s.entry && t.value.readers == s.readers[w := Idle]
            && t.value.lock == (if o == Refused then s.lock else None)
            && if s.readers[w].Releasing?
               then var r := s.readers[w];
                    t.value.answers
                    == s.answers + [Answer(r.rule, s.now, r.readAt, r.setAt - r.readAt, s.now - r.setAt)]
               else t.value.answers == s.answers
  {}

  /** The upsert replaces the row from now on and leaves the key; the invalidation deletes the key. */
  lemma UpsertWrites(s: Shared, rule: Rule)
    ensures CacheNext(s, Upsert(rule)) == Some(s.(history := s.history + [Change(s.now, Some(rule))]))
    ensures CacheNext(s, Invalidate(Ok)) == Some(s.(entry := None))
  {}

  /** A client that stops is not in any call afterwards. */
  lemma StopsEndCalls(s: Shared, w: nat)
    requires w < |s.readers| == |s.limits|
    ensures CacheNext(s, Crash(w)) == Some(s.(readers := s.readers[w := Idle]))
  {}

  /** The order of the calls of one lookup. */
  lemma LookupOrder(s: Shared, w: nat, step: CacheStep)
    requires ReaderNext(s, w, step).Some? && !step.Crash?
    ensures match s.readers[w]
            case Idle => step.Get?
            case Missed => step.Acquire?
            case Pausing(_) => step.Recheck?
            case Filling(_) => step.ReadRule?
            case Holding(_, _, _) => step.SetEntry?
            case Releasing(_, _, _, _) => step.Unlock?
            case Throwing(_) => step.Unlock?
  {}

  /** A merchant without a row gives 5%, to the nearest cent. */
  lemma DefaultIsFivePercent(amount: Cents)
    ensures -10 <= 20 * CashbackOf(amount, Snapshot(None)) - amount <= 10
    ensures Snapshot(None).cap.None?
  {
    RoundingIsNearest(amount * 500);
  }
}
