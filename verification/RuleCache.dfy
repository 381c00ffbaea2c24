/** The cashback-rule cache of one merchant, shared by any number of API and worker processes through one
    Redis key and one lock key. Each Redis or database call is one step and may fail silently. */
module RuleCache {
  import opened Domain
  import opened Pipeline

  /** The environment of one process, in milliseconds. */
  datatype Limits = Limits(ttl: nat, lockTtl: nat, lockWait: nat)

  /** A row change: the merchant's rule from `at` on; `None` while there is no row. */
  datatype Change = Change(at: int, rule: Option<Rule>)

  /** The cached value, with when it was read from the database and when it was set. */
  datatype Cached = Cached(rule: Rule, readAt: int, setAt: int, expires: int)

  /** Where one call of `getCashbackRule` or `getRule` stands. */
  datatype Reader =
    | Idle
    | Missed
    | Pausing(until: int)
    | Filling(lockedAt: Option<int>)
    | Holding(rule: Rule, readAt: int, lockedAt: Option<int>)
    | Releasing(rule: Rule, readAt: int, setAt: int, lockedAt: Option<int>)
    | Throwing(lockedAt: Option<int>)

  /** A returned rule: when it was returned, when it was read from the database, the delay between that
      read and the cache set, and the time the call took after that. */
  datatype Answer = Answer(rule: Rule, at: int, readAt: int, delay: int, tail: int)

  datatype Shared = Shared(
    now: int, history: seq<Change>, entry: Option<Cached>, lock: Option<int>,
    limits: seq<Limits>, readers: seq<Reader>, answers: seq<Answer>)

  datatype CacheStep =
    | Get(w: nat, o: Outcome)
    | Acquire(w: nat, o: Outcome)
    | Recheck(w: nat, o: Outcome)
    | ReadRule(w: nat, o: Outcome)
    | SetEntry(w: nat, o: Outcome)
    | Unlock(w: nat, o: Outcome)
    | Crash(w: nat)
    | Upsert(rule: Rule)
    | Invalidate(o: Outcome)
    | Pass(ms: nat)

  /** What both readers make of a row, or of no row: 5% without a cap. */
  function Snapshot(row: Option<Rule>): Rule {
    if row.Some? then row.value else Rule(500, None)
  }

  function Current(s: Shared): Option<Rule> {
    if |s.history| == 0 then None else s.history[|s.history| - 1].rule
  }

  function Visible(s: Shared): Option<Cached> {
    if s.entry.Some? && s.now < s.entry.value.expires then s.entry else None
  }

  function WithReader(s: Shared, w: nat, r: Reader): Shared
    requires w < |s.readers|
  {
    s.(readers := s.readers[w := r])
  }

  function Returns(s: Shared, w: nat, a: Answer): Shared
    requires w < |s.readers|
  {
    s.(readers := s.readers[w := Idle], answers := s.answers + [a])
  }

  function Hit(s: Shared, w: nat, c: Cached): Shared
    requires w < |s.readers|
  {
    Returns(s, w, Answer(c.rule, s.now, c.readAt, c.setAt - c.readAt, 0))
  }

  predicate LockFree(s: Shared) {
    s.lock.None? || s.lock.value <= s.now
  }

  /** `SET NX PX`: only an `Ok` reply of a set that took place counts as the lock. */
  function AfterAcquire(s: Shared, w: nat, o: Outcome): Shared
    requires w < |s.readers| && |s.limits| == |s.readers|
  {
    var takes := LockFree(s) && o != Refused;
    var t := if takes then s.(lock := Some(s.now + s.limits[w].lockTtl)) else s;
    WithReader(t, w, if takes && o == Ok then Filling(Some(s.now)) else Pausing(s.now + s.limits[w].lockWait))
  }

  function AfterSet(s: Shared, w: nat, r: Reader, o: Outcome): Shared
    requires w < |s.readers| && |s.limits| == |s.readers| && r.Holding?
  {
    var t := if o == Refused then s
             else s.(entry := Some(Cached(r.rule, r.readAt, s.now, s.now + s.limits[w].ttl)));
    if r.lockedAt.Some? then WithReader(t, w, Releasing(r.rule, r.readAt, s.now, r.lockedAt))
    else Returns(t, w, Answer(r.rule, s.now, r.readAt, s.now - r.readAt, 0))
  }

  /** The unconditional delete of the lock key, then the return or the throw. */
  function AfterUnlock(s: Shared, w: nat, o: Outcome): Shared
    requires w < |s.readers| && |s.limits| == |s.readers| && (s.readers[w].Releasing? || s.readers[w].Throwing?)
  {
    var t := if o == Refused then s else s.(lock := None);
    match s.readers[w]
    case Releasing(rule, readAt, setAt, _) =>
      Returns(t, w, Answer(rule, s.now, readAt, setAt - readAt, s.now - setAt))
    case _ => WithReader(t, w, Idle)
  }

  function ReaderNext(s: Shared, w: nat, step: CacheStep): Option<Shared> {
    if w >= |s.readers| || |s.limits| != |s.readers| then None
    else if step.Crash? then Some(WithReader(s, w, Idle))
    else
      match s.readers[w]
      case Idle =>
        if !step.Get? then None
        else if step.o == Ok && Visible(s).Some? then Some(Hit(s, w, Visible(s).value))
        else Some(WithReader(s, w, Missed))
      case Missed =>
        if step.Acquire? then Some(AfterAcquire(s, w, step.o)) else None
      case Pausing(until) =>
        if !step.Recheck? || s.now < until then None
        else if step.o == Ok && Visible(s).Some? then Some(Hit(s, w, Visible(s).value))
        else Some(WithReader(s, w, Filling(None)))
      case Filling(lockedAt) =>
        if !step.ReadRule? then None
        else if step.o == Ok then Some(WithReader(s, w, Holding(Snapshot(Current(s)), s.now, lockedAt)))
        else if lockedAt.Some? then Some(WithReader(s, w, Throwing(lockedAt)))
        else Some(WithReader(s, w, Idle))
      case Holding(_, _, _) =>
        if step.SetEntry? then Some(AfterSet(s, w, s.readers[w], step.o)) else None
      case _ =>
        if step.Unlock? then Some(AfterUnlock(s, w, step.o)) else None
  }

  /** `Upsert` and `Invalidate` are the two awaited calls of `upsertRule`; an invalidation may also be
      an eviction. */
  function CacheNext(s: Shared, step: CacheStep): Option<Shared> {
    match step
    case Upsert(rule) => Some(s.(history := s.history + [Change(s.now, Some(rule))]))
    case Invalidate(o) => Some(if o == Refused then s else s.(entry := None))
    case Pass(ms) => Some(s.(now := s.now + ms))
    case _ => ReaderNext(s, step.w, step)
  }

  function CacheRun(s: Shared, steps: seq<CacheStep>): Option<Shared> {
    if |steps| == 0 then Some(s)
    else
      var before := CacheRun(s, steps[..|steps| - 1]);
      if before.None? then None else CacheNext(before.value, steps[|steps| - 1])
  }

  lemma {:induction false} CacheRunConcat(s: Shared, a: seq<CacheStep>, b: seq<CacheStep>)
    ensures CacheRun(s, a + b) == if CacheRun(s, a).None? then None else CacheRun(CacheRun(s, a).value, b)
  {
    if |b| == 0 {
      assert a + b == a;
    } else {
      CacheRunConcat(s, a, b[..|b| - 1]);
      assert (a + b)[..|a + b| - 1] == a + b[..|b| - 1];
    }
  }

  /** No row, no entry, no lock, and any number of processes with any limits. */
  ghost predicate CacheInit(s: Shared) {
    && s.history == [Change(s.now, None)] && s.entry == None && s.lock == None && s.answers == []
    && |s.limits| == |s.readers|
    && forall w | 0 <= w < |s.readers| :: s.readers[w] == Idle
  }

  // ---------------------------------------------------------------- staleness

  /** The row was in this state at some moment of time `t`. */
  ghost predicate InForce(history: seq<Change>, t: int, row: Option<Rule>) {
    exists i :: ValueAt(history, i, t, row)
  }

  predicate ValueAt(history: seq<Change>, i: int, t: int, row: Option<Rule>) {
    && 0 <= i < |history| && history[i].rule == row && history[i].at <= t
    && (i + 1 < |history| ==> t <= history[i + 1].at)
  }

  /** The rule is what the readers make of the row as it was at time `t`. */
  ghost predicate WasRule(history: seq<Change>, t: int, rule: Rule) {
    exists row :: InForce(history, t, row) && Snapshot(row) == rule
  }

  ghost predicate HistoryOk(history: seq<Change>, now: int) {
    && |history| > 0 && history[|history| - 1].at <= now
    && forall i | 0 < i < |history| :: history[i - 1].at <= history[i].at
  }

  ghost predicate ReadOk(history: seq<Change>, now: int, rule: Rule, readAt: int) {
    readAt <= now && WasRule(history, readAt, rule)
  }

  /** The time is not later than some client's configured lifetime after `from`. */
  predicate WithinSomeTtl(limits: seq<Limits>, from: int, t: int) {
    exists w | 0 <= w < |limits| :: t <= from + limits[w].ttl
  }

  /** An entry expires by the configured lifetime of the client that set it. */
  ghost predicate EntryOk(history: seq<Change>, limits: seq<Limits>, now: int, c: Cached) {
    && ReadOk(history, c.setAt, c.rule, c.readAt) && c.setAt <= now
    && exists w | 0 <= w < |limits| :: c.expires == c.setAt + limits[w].ttl
  }

  ghost predicate ReaderOk(history: seq<Change>, now: int, r: Reader) {
    match r
    case Holding(rule, readAt, _) => ReadOk(history, now, rule, readAt)
    case Releasing(rule, readAt, setAt, _) => ReadOk(history, setAt, rule, readAt) && setAt <= now
    case _ => true
  }

  /** What is known of an answer: it was read from the database, and either the call that read it took
      `delay` and then `tail`, or it was a hit within the configured lifetime of some client. */
  ghost predicate AnswerOk(history: seq<Change>, limits: seq<Limits>, a: Answer) {
    && a.delay >= 0 && a.tail >= 0
    && WasRule(history, a.readAt, a.rule)
    && a.readAt <= a.at
    && (a.at == a.readAt + a.delay + a.tail || (a.tail == 0 && WithinSomeTtl(limits, a.readAt + a.delay, a.at)))
  }

  ghost predicate CacheInv(s: Shared) {
    && HistoryOk(s.history, s.now)
    && (s.entry.Some? ==> EntryOk(s.history, s.limits, s.now, s.entry.value))
    && (forall w | 0 <= w < |s.readers| :: ReaderOk(s.history, s.now, s.readers[w]))
    && (forall i | 0 <= i < |s.answers| :: AnswerOk(s.history, s.limits, s.answers[i]))
  }

  ghost predicate AnswersInPast(s: Shared) {
    forall i | 0 <= i < |s.answers| :: s.answers[i].at <= s.now
  }

  lemma CurrentWasRule(s: Shared)
    requires HistoryOk(s.history, s.now)
    ensures WasRule(s.history, s.now, Snapshot(Current(s)))
  {
    assert ValueAt(s.history, |s.history| - 1, s.now, Current(s));
  }

  /** A later change does not rewrite the past. */
  lemma PastIsKept(history: seq<Change>, c: Change, t: int, rule: Rule)
    requires t <= c.at && WasRule(history, t, rule)
    ensures WasRule(history + [c], t, rule)
  {
    var row :| InForce(history, t, row) && Snapshot(row) == rule;
    var i :| ValueAt(history, i, t, row);
    assert ValueAt(history + [c], i, t, row);
  }

  /** A reader's step appends at most one answer and moves only that reader. */
  lemma ReaderFrames(s: Shared, w: nat, step: CacheStep)
    requires ReaderNext(s, w, step).Some?
    ensures var t := ReaderNext(s, w, step).value;
            && t.history == s.history && t.now == s.now && t.limits == s.limits && |t.readers| == |s.readers|
            && (forall v | 0 <= v < |s.readers| && v != w :: t.readers[v] == s.readers[v])
            && (t.answers == s.answers || (|t.answers| == |s.answers| + 1 && t.answers[..|s.answers|] == s.answers))
  {}

  lemma ReaderPlace(s: Shared, w: nat, step: CacheStep)
    requires HistoryOk(s.history, s.now) && ReaderNext(s, w, step).Some? && ReaderOk(s.history, s.now, s.readers[w])
    ensures ReaderOk(s.history, s.now, ReaderNext(s, w, step).value.readers[w])
  {
    CurrentWasRule(s);
  }

  lemma ReaderEntry(s: Shared, w: nat, step: CacheStep)
    requires ReaderNext(s, w, step).Some? && ReaderOk(s.history, s.now, s.readers[w])
    requires s.entry.Some? ==> EntryOk(s.history, s.limits, s.now, s.entry.value)
    ensures var t := ReaderNext(s, w, step).value; t.entry.Some? ==> EntryOk(s.history, s.limits, s.now, t.entry.value)
  {}

  lemma ReaderAnswer(s: Shared, w: nat, step: CacheStep)
    requires ReaderNext(s, w, step).Some? && ReaderOk(s.history, s.now, s.readers[w])
    requires s.entry.Some? ==> EntryOk(s.history, s.limits, s.now, s.entry.value)
    ensures var t := ReaderNext(s, w, step).value;
            |t.answers| > |s.answers| ==>
              AnswerOk(s.history, s.limits, t.answers[|s.answers|]) && t.answers[|s.answers|].at == s.now
  {}

  lemma ReaderKeepsCacheInv(s: Shared, w: nat, step: CacheStep)
    requires CacheInv(s) && AnswersInPast(s) && ReaderNext(s, w, step).Some?
    ensures CacheInv(ReaderNext(s, w, step).value) && AnswersInPast(ReaderNext(s, w, step).value)
  {
    var t := ReaderNext(s, w, step).value;
    assert ReaderOk(s.history, s.now, s.readers[w]);
    ReaderFrames(s, w, step);
    ReaderPlace(s, w, step);
    ReaderEntry(s, w, step);
    ReaderAnswer(s, w, step);
    FramedByReader(s, t, w);
  }

  lemma FramedByReader(s: Shared, t: Shared, w: nat)
    requires CacheInv(s) && AnswersInPast(s) && w < |s.readers| && |t.readers| == |s.readers|
    requires t.history == s.history && t.now == s.now && t.limits == s.limits
    requires forall v | 0 <= v < |s.readers| && v != w :: t.readers[v] == s.readers[v]
    requires t.answers == s.answers || (|t.answers| == |s.answers| + 1 && t.answers[..|s.answers|] == s.answers)
    requires ReaderOk(t.history, t.now, t.readers[w])
    requires t.entry.Some? ==> EntryOk(t.history, t.limits, t.now, t.entry.value)
    requires |t.answers| > |s.answers| ==>
               AnswerOk(t.history, t.limits, t.answers[|s.answers|]) && t.answers[|s.answers|].at == t.now
    ensures CacheInv(t) && AnswersInPast(t)
  {
    forall i | 0 <= i < |t.answers| ensures AnswerOk(t.history, t.limits, t.answers[i]) && t.answers[i].at <= t.now {
      if i < |s.answers| { assert t.answers[i] == t.answers[..|s.answers|][i]; }
    }
  }

  lemma UpsertKeepsCacheInv(s: Shared, rule: Rule)
    requires CacheInv(s) && AnswersInPast(s)
    ensures CacheInv(CacheNext(s, Upsert(rule)).value)
  {
    var c := Change(s.now, Some(rule));
    var t := CacheNext(s, Upsert(rule)).value;
    if s.entry.Some? { PastIsKept(s.history, c, s.entry.value.readAt, s.entry.value.rule); }
    forall w | 0 <= w < |s.readers| ensures ReaderOk(t.history, t.now, t.readers[w]) {
      var r := s.readers[w];
      assert ReaderOk(s.history, s.now, r);
      if r.Holding? || r.Releasing? { PastIsKept(s.history, c, r.readAt, r.rule); }
    }
    forall i | 0 <= i < |s.answers| ensures AnswerOk(t.history, t.limits, t.answers[i]) {
      assert AnswerOk(s.history, s.limits, s.answers[i]);
      PastIsKept(s.history, c, s.answers[i].readAt, s.answers[i].rule);
    }
  }

  lemma StepKeepsCacheInv(s: Shared, step: CacheStep)
    requires CacheInv(s) && AnswersInPast(s) && CacheNext(s, step).Some?
    ensures CacheInv(CacheNext(s, step).value) && AnswersInPast(CacheNext(s, step).value)
  {
    match step
    case Upsert(rule) => UpsertKeepsCacheInv(s, rule);
    case Invalidate(_) =>
    case Pass(_) =>
    case _ => ReaderKeepsCacheInv(s, step.w, step);
  }

  lemma {:induction false} RunKeepsCacheInv(s: Shared, steps: seq<CacheStep>)
    requires CacheInit(s) && CacheRun(s, steps).Some?
    ensures CacheInv(CacheRun(s, steps).value) && AnswersInPast(CacheRun(s, steps).value)
  {
    if |steps| > 0 {
      RunKeepsCacheInv(s, steps[..|steps| - 1]);
      StepKeepsCacheInv(CacheRun(s, steps[..|steps| - 1]).value, steps[|steps| - 1]);
    }
  }

  lemma {:induction false} RunKeepsLimits(s: Shared, steps: seq<CacheStep>)
    requires CacheRun(s, steps).Some?
    ensures CacheRun(s, steps).value.limits == s.limits
  {
    if |steps| > 0 {
      var front, last := steps[..|steps| - 1], steps[|steps| - 1];
      RunKeepsLimits(s, front);
      if !last.Upsert? && !last.Invalidate? && !last.Pass? {
        ReaderFrames(CacheRun(s, front).value, last.w, last);
      }
    }
  }

  /** No client is configured with a longer lifetime. */
  ghost predicate TtlAtMost(limits: seq<Limits>, ttl: nat) {
    forall w | 0 <= w < |limits| :: limits[w].ttl <= ttl
  }

  /** How long before its return a rule may have been read. */
  function MaxAge(a: Answer, ttl: nat): int {
    a.delay + if a.tail > ttl then a.tail else ttl
  }

  /** Bounded staleness: every rule ever returned is the database rule (5% without a cap if there was no
      row) at some time between its return and the fill's delay plus the configured lifetime, or plus the
      call's tail if that is longer, before it, despite racing upserts, lost invalidations, lost locks and
      crashes. With different lifetimes the longest counts. */
  lemma StalenessIsBounded(s: Shared, steps: seq<CacheStep>, i: nat, ttl: nat)
    requires CacheInit(s) && CacheRun(s, steps).Some? && i < |CacheRun(s, steps).value.answers|
    requires TtlAtMost(s.limits, ttl)
    ensures var t := CacheRun(s, steps).value; var a := t.answers[i];
            exists u, row :: && a.at - MaxAge(a, ttl) <= u <= a.at
                             && InForce(t.history, u, row) && Snapshot(row) == a.rule
  {
    RunKeepsCacheInv(s, steps);
    RunKeepsLimits(s, steps);
    var t := CacheRun(s, steps).value;
    assert AnswerOk(t.history, t.limits, t.answers[i]);
  }

  /** The rule was in force at some time within lifetime plus delay before the return. */
  ghost predicate WithinLifetime(history: seq<Change>, a: Answer, ttl: nat) {
    exists u, row :: a.at - (a.delay + ttl) <= u <= a.at && InForce(history, u, row) && Snapshot(row) == a.rule
  }

  /** So it is whenever the call returned within a lifetime of its cache write. */
  lemma PromptIsWithinLifetime(s: Shared, steps: seq<CacheStep>, i: nat, ttl: nat)
    requires CacheInit(s) && CacheRun(s, steps).Some? && i < |CacheRun(s, steps).value.answers|
    requires TtlAtMost(s.limits, ttl) && CacheRun(s, steps).value.answers[i].tail <= ttl
    ensures WithinLifetime(CacheRun(s, steps).value.history, CacheRun(s, steps).value.answers[i], ttl)
  {
    StalenessIsBounded(s, steps, i, ttl);
  }
}
