/** The pipeline and the caches together: which rule a ledger credit was computed under. */
module CreditRules {
  import opened Domain
  import opened Cashback
  import opened Pipeline
  import opened Invariants
  import opened Drain
  import opened RuleCache

  /** A run of each merchant's cache. */
  datatype CacheLog = CacheLog(start: Shared, steps: seq<CacheStep>)

  ghost predicate CachesRun(caches: map<string, CacheLog>) {
    forall m | m in caches :: CacheInit(caches[m].start) && CacheRun(caches[m].start, caches[m].steps).Some?
  }

  /** The merchant's cache has returned the rule at `now`, or at most `d` before it. */
  ghost predicate Returned(caches: map<string, CacheLog>, merchant: string, rule: Rule, now: int, d: nat) {
    && merchant in caches
    && var run := CacheRun(caches[merchant].start, caches[merchant].steps);
    run.Some? && exists i :: 0 <= i < |run.value.answers| && IsAnswer(run.value.answers[i], rule, now, d)
  }

  predicate IsAnswer(a: Answer, rule: Rule, now: int, d: nat) {
    a.rule == rule && now - d <= a.at <= now
  }

  /** The order a handler call is on, and the rule it got. */
  function Subject(s: State, step: Step): Option<(OrderId, Rule)> {
    match step
    case Retry(w, RetProcess(_, rule)) =>
      if Creditable(s.orders, RetrySubject(s, w)) then Some((RetrySubject(s, w).value, rule)) else None
    case Consume(w, ConProcess(_, rule)) =>
      if Creditable(s.orders, ConsumeSubject(s, w)) then Some((ConsumeSubject(s, w).value, rule)) else None
    case _ => None
  }

  /** Every handler call of the run got its rule from the cache of the order's merchant, at most `d` before it
      inserts. */
  ghost predicate Fed(s0: State, steps: seq<Step>, caches: map<string, CacheLog>, d: nat) {
    |steps| == 0 ||
    var at := Run(s0, steps[..|steps| - 1]);
    && Fed(s0, steps[..|steps| - 1], caches, d)
    && (at.Some? ==> FedStep(at.value, steps[|steps| - 1], caches, d))
  }

  ghost predicate FedStep(s: State, step: Step, caches: map<string, CacheLog>, d: nat) {
    var subject := Subject(s, step);
    subject.Some? && subject.value.0 < |s.orders| ==>
      Returned(caches, s.orders[subject.value.0].merchant, subject.value.1, s.now, d)
  }

  /** When the run added the ledger's entry at a position. */
  function CreditedAt(s0: State, steps: seq<Step>, i: nat): int {
    if |steps| == 0 then s0.now
    else
      var at := Run(s0, steps[..|steps| - 1]);
      if at.Some? && i >= |at.value.ledger| then at.value.now else CreditedAt(s0, steps[..|steps| - 1], i)
  }

  /** The credit is the order's cashback under a rule its merchant's cache returned at most `d` before then. */
  ghost predicate Explained(orders: seq<Order>, e: Entry, caches: map<string, CacheLog>, time: int, d: nat) {
    && e.orderId < |orders|
    && exists rule: Rule :: && Returned(caches, orders[e.orderId].merchant, rule, time, d)
                            && e.amount == CashbackOf(orders[e.orderId].amount, rule)
  }

  lemma ExplainedStays(a: seq<Order>, b: seq<Order>, e: Entry, caches: map<string, CacheLog>, time: int, d: nat)
    requires Explained(a, e, caches, time, d) && OrdersGrow(a, b)
    ensures Explained(b, e, caches, time, d)
  {
    assert OrderAges(a[e.orderId], b[e.orderId]);
  }

  /** Only a handler call on an order adds to the ledger, and it adds that order's cashback. */
  lemma NewEntry(s: State, step: Step)
    requires Next(s, step).Some?
    ensures var t := Next(s, step).value;
            || t.ledger == s.ledger
            || (Subject(s, step).Some? && Subject(s, step).value.0 < |s.orders| && t.orders == s.orders
                && t.now == s.now
                && t.ledger == s.ledger + [CreditFor(s.orders, Subject(s, step).value.0, Subject(s, step).value.1)])
  {
    match step
    case Publish(w, a) => PublisherFrames(s, w, a);
    case Retry(w, a) => RetrierFrames(s, w, a);
    case Consume(w, a) => ConsumerFrames(s, w, a);
    case Replay(w, a) => ReplayerFrames(s, w, a);
    case _ =>
  }

  lemma StepExplains(s: State, step: Step, t: State, caches: map<string, CacheLog>, d: nat)
    requires Next(s, step) == Some(t) && FedStep(s, step, caches, d)
    ensures s.ledger <= t.ledger
    ensures forall i | |s.ledger| <= i < |t.ledger| :: Explained(t.orders, t.ledger[i], caches, s.now, d)
  {
    NewEntry(s, step);
  }

  lemma {:induction false} CreditIsExplained(
    s0: State, steps: seq<Step>, s: State, caches: map<string, CacheLog>, d: nat, i: nat)
    requires Init(s0) && Run(s0, steps) == Some(s) && Fed(s0, steps, caches, d) && i < |s.ledger|
    ensures Explained(s.orders, s.ledger[i], caches, CreditedAt(s0, steps, i), d)
  {
    if |steps| > 0 {
      var front, last := steps[..|steps| - 1], steps[|steps| - 1];
      var at := Run(s0, front).value;
      StepExplains(at, last, s, caches, d);
      if i < |at.ledger| {
        CreditIsExplained(s0, front, at, caches, d, i);
        InitHasInv(s0);
        RunKeepsInv(s0, front);
        StepGrows(at, last);
        ExplainedStays(at.orders, s.orders, s.ledger[i], caches, CreditedAt(s0, front, i), d);
      }
    }
  }

  /** The amount is what a rule gives that was in force within `d` plus the answer's age before `time`. */
  ghost predicate UsesRecentRule(log: CacheLog, amount: Cents, credit: Cents, time: int, d: nat, ttl: nat)
    requires CacheRun(log.start, log.steps).Some?
  {
    var t := CacheRun(log.start, log.steps).value;
    exists a: Answer, u: int, row: Option<Rule> ::
      && a in t.answers && time - d <= a.at <= time && a.at - MaxAge(a, ttl) <= u <= a.at
      && InForce(t.history, u, row) && credit == CashbackOf(amount, Snapshot(row))
  }

  /** If no handler call takes longer than `d` from the return of the rule to the insert, every credit is the
      order's cashback under a rule that was in force within `d` plus the staleness bound before the credit
      was written. */
  lemma CreditsUseRecentRules(s0: State, steps: seq<Step>, caches: map<string, CacheLog>, d: nat, ttl: nat, i: nat)
    requires forall m | m in caches :: TtlAtMost(caches[m].start.limits, ttl)
    requires Init(s0) && Run(s0, steps).Some? && CachesRun(caches) && Fed(s0, steps, caches, d)
    requires i < |Run(s0, steps).value.ledger|
    ensures var s := Run(s0, steps).value; var e := s.ledger[i];
            && e.orderId < |s.orders| && s.orders[e.orderId].merchant in caches
            && UsesRecentRule(caches[s.orders[e.orderId].merchant], s.orders[e.orderId].amount, e.amount,
                              CreditedAt(s0, steps, i), d, ttl)
  {
    var s, time := Run(s0, steps).value, CreditedAt(s0, steps, i);
    CreditIsExplained(s0, steps, s, caches, d, i);
    var e := s.ledger[i];
    var order := s.orders[e.orderId];
    var rule: Rule :| Returned(caches, order.merchant, rule, time, d) && e.amount == CashbackOf(order.amount, rule);
    var log := caches[order.merchant];
    var k :| 0 <= k < |CacheRun(log.start, log.steps).value.answers|
             && IsAnswer(CacheRun(log.start, log.steps).value.answers[k], rule, time, d);
    StalenessIsBounded(log.start, log.steps, k, ttl);
  }
}
