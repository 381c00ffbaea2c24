/** Running without faults drains the pipeline: every schedule of one publisher, one consumer and one
    retry loop does a bounded amount of work, and ends with exactly the CONFIRMED orders credited. */
module Drain {
  import opened Domain
  import opened Pipeline
  import opened Invariants
  import opened Delivery
  import opened RetryBudget
  import opened Fairness
  import opened PublisherFairness

  // ---------------------------------------------------------------- steps without faults

  /** What the handler does on an order that has its credit. The insert fails on the unique index; then the
      handler finds the entry and returns, or, on a database that rejects later statements of the
      transaction, it throws. */
  datatype Duplicates = Return | Throw | Either

  predicate Replies(credited: bool, o: Outcome, d: Duplicates) {
    if credited && d != Return then d == Throw ==> o != Ok else o == Ok
  }

  /** The order a retry loop's next handler call is on. */
  function RetrySubject(s: State, w: nat): Option<OrderId> {
    if w < |s.retriers| && s.retriers[w].RetBatch? && |s.retriers[w].rest| > 0
    then s.retriers[w].rest[0].payload.orderId else None
  }

  function ConsumeSubject(s: State, w: nat): Option<OrderId> {
    if w < |s.consumers| && s.consumers[w].ConStored? && s.consumers[w].at < |s.topic|
      && s.topic[s.consumers[w].at].Event?
    then s.topic[s.consumers[w].at].payload.orderId else None
  }

  /** No call fails, except that the handler may throw on an order that has its credit. */
  predicate FaultFree(s: State, step: Step, d: Duplicates) {
    match step
    case Publish(w, a) =>
      a == PubPoll || a == PubFinish || a == PubClaim(Ok) || a == PubSend(Ok) || a == PubMark(Ok)
    case Retry(w, a) =>
      || a == RetPoll || a == RetFinish
      || (a.RetProcess? && Replies(CreditedId(s.ledger, RetrySubject(s, w)), a.o, d))
      || a == RetMark(Ok) || a == RetCount(Ok) || a == RetSettle(Ok) || a == RetSend(Ok)
    case Consume(w, a) =>
      || a == ConStore(Ok) || a == ConMark(Ok) || a == ConCommit
      || (a.ConProcess? && Replies(CreditedId(s.ledger, ConsumeSubject(s, w)), a.o, d))
    case Tick(_) => true
    case _ => false
  }

  /** A step that handles a row or a message; the others only poll, wait or commit. */
  predicate IsWork(step: Step) {
    match step
    case Publish(w, a) => a.PubClaim? || a.PubSend? || a.PubMark?
    case Retry(w, a) => !(a.RetPoll? || a.RetFinish?)
    case Consume(w, a) => !a.ConCommit?
    case _ => false
  }

  // ---------------------------------------------------------------- the measure

  /** What a message may still cost: three steps of the consumer, and a new inbox row. */
  function MessageCost(cfg: Config): nat {
    4 * Left(0, cfg) + 3
  }

  function MessagesCost(n: nat, cfg: Config): nat {
    if n == 0 then 0 else MessagesCost(n - 1, cfg) + MessageCost(cfg)
  }

  function OutboxCost(row: OutboxRow, i: nat, p: Publisher, cfg: Config): nat {
    if row.status != OutboxStatus.Waiting then 0
    else if p.PubClaimed? && p.job.id == i then MessageCost(cfg) + 2
    else if p.PubSent? && p.job.id == i then 1
    else MessageCost(cfg) + 3
  }

  function InboxCost(row: InboxRow, i: nat, r: Retrier, cfg: Config): nat {
    var full := 4 * Left(row.attempts, cfg);
    var pending := row.status == Pending;
    if r.RetCredited? && r.job.id == i then (if pending then full - 1 else 1)
    else if r.RetFailing? && r.job.id == i then (if pending then full - 1 else 3)
    else if r.RetSettling? && r.job.id == i then
      (if pending && r.attempts < cfg.maxAttempts then full + 1 else 2)
    else if r.RetDeadLetter? && r.job.id == i then (if pending then full + 1 else 1)
    else if pending then full
    else if ToCome(r, i) then 4
    else 0
  }

  function ConsumerCost(topic: seq<Message>, c: Consumer, cfg: Config): nat
    requires c.ConAt? ==> c.at <= |topic|
    requires !c.ConAt? ==> c.at < |topic|
  {
    match c
    case ConAt(at) => MessagesCost(|topic| - at, cfg)
    case ConStored(at, _) => MessagesCost(|topic| - at - 1, cfg) + 2
    case ConCredited(at, _) => MessagesCost(|topic| - at - 1, cfg) + 1
  }

  function OutboxCosts(s: State): seq<nat>
    requires |s.publishers| == 1
  {
    seq(|s.outbox|, i requires 0 <= i < |s.outbox| => OutboxCost(s.outbox[i], i, s.publishers[0], s.cfg))
  }

  function InboxCosts(s: State): seq<nat>
    requires |s.retriers| == 1
  {
    seq(|s.inbox|, i requires 0 <= i < |s.inbox| => InboxCost(s.inbox[i], i, s.retriers[0], s.cfg))
  }

  predicate Single(s: State) {
    |s.publishers| == 1 && |s.retriers| == 1 && |s.consumers| == 1
  }

  predicate ConsumerInRange(s: State) {
    Single(s) && if s.consumers[0].ConAt? then s.consumers[0].at <= |s.topic| else s.consumers[0].at < |s.topic|
  }

  /** The work left: a bound on the steps that handle a row or a message. */
  function Rank(s: State): nat
    requires ConsumerInRange(s)
  {
    Total(OutboxCosts(s)) + ConsumerCost(s.topic, s.consumers[0], s.cfg) + Total(InboxCosts(s))
  }

  // ---------------------------------------------------------------- what fault-free steps keep

  /** The row of an outbox event fails only when its order has its credit. */
  predicate MayFail(ledger: seq<Entry>, row: InboxRow) {
    row.source.Own? ==> CreditedId(ledger, row.payload.orderId)
  }

  /** No outbox row is FAILED, and no inbox row of an outbox event is, unless its order has its credit. Rows
      of foreign events may be beyond repair. */
  ghost predicate Mended(s: State) {
    && (forall i | 0 <= i < |s.outbox| :: s.outbox[i].status != Abandoned)
    && (forall i | 0 <= i < |s.inbox| && s.inbox[i].status == Failed :: MayFail(s.ledger, s.inbox[i]))
  }

  ghost predicate LoopReady(s: State) {
    && |s.retriers| == 1 && Distinct(s.retriers[0])
    && (var r := s.retriers[0];
        && (r.RetFailing? || r.RetSettling? || r.RetDeadLetter? ==>
              r.job.id < |s.inbox| && MayFail(s.ledger, s.inbox[r.job.id]))
        && (r.RetSettling? ==> r.attempts == s.inbox[r.job.id].attempts))
  }

  ghost predicate PublisherReady(s: State) {
    Orderly(s) && !s.publishers[0].PubFailing? && !s.publishers[0].PubSettling?
  }

  /** A repaired system, up to the messages behind the committed offset that were never stored. */
  ghost predicate Ready(s: State, gone: set<nat>) {
    && Inv(s) && OffsetsOk(s, gone) && Single(s)
    && PublisherReady(s) && LoopReady(s) && Mended(s)
  }

  lemma ReadyInRange(s: State)
    requires ConsumersOk(s) && Single(s)
    ensures ConsumerInRange(s)
  {
    assert ConsumerOk(s.topic, s.inbox, s.ledger, s.consumers[0]);
  }

  /** The order of an outbox event is CONFIRMED, so the handler never fails on it. */
  lemma OwnRowsAreCreditable(s: State, i: nat)
    requires OutboxOk(s.orders, s.outbox) && InboxOk(s.outbox, s.inbox)
    requires i < |s.inbox| && s.inbox[i].source.Own?
    ensures Creditable(s.orders, s.inbox[i].payload.orderId)
  {}

  lemma RetrierStaysReady(s: State, a: RetrierAction, d: Duplicates)
    requires LoopReady(s) && RetriersOk(s) && OutboxOk(s.orders, s.outbox) && InboxOk(s.outbox, s.inbox)
    requires RetrierNext(s, 0, a).Some? && FaultFree(s, Retry(0, a), d)
    ensures LoopReady(RetrierNext(s, 0, a).value)
  {
    assert RetrierOk(s.inbox, s.ledger, s.retriers[0]);
    match s.retriers[0]
    case RetIdle => BatchIsDistinct(s);
    case RetBatch(rest) =>
      if |rest| > 0 {
        HeadAndRest(rest, rest[0].id);
        assert InboxJobOk(s.inbox, rest[0]);
        if s.inbox[rest[0].id].source.Own? { OwnRowsAreCreditable(s, rest[0].id); }
      }
    case _ =>
  }

  lemma MayFailPersists(a: seq<Entry>, b: seq<Entry>, row: InboxRow)
    requires a <= b && MayFail(a, row)
    ensures MayFail(b, row)
  {
    if CreditedId(a, row.payload.orderId) {
      CreditsPersist(a, b, row.payload.orderId.value);
    }
  }

  lemma RetrierKeepsMended(s: State, a: RetrierAction, d: Duplicates)
    requires LoopReady(s) && Mended(s) && RetrierNext(s, 0, a).Some? && FaultFree(s, Retry(0, a), d)
    ensures Mended(RetrierNext(s, 0, a).value)
  {
    var t := RetrierNext(s, 0, a).value;
    RetrierFrames(s, 0, a);
    RetrierGrows(s, 0, a);
    forall i | 0 <= i < |t.inbox| && t.inbox[i].status == Failed ensures MayFail(t.ledger, t.inbox[i]) {
      if s.inbox[i].status == Failed {
        MayFailPersists(s.ledger, t.ledger, s.inbox[i]);
      }
    }
  }

  lemma PublisherStaysReady(s: State, a: PublisherAction, d: Duplicates)
    requires PublisherReady(s) && Mended(s) && PublisherNext(s, 0, a).Some? && FaultFree(s, Publish(0, a), d)
    ensures PublisherReady(PublisherNext(s, 0, a).value) && Mended(PublisherNext(s, 0, a).value)
  {
    PublisherFrames(s, 0, a);
    PublisherKeepsOrder(s, a);
  }

  lemma ConsumerKeepsLoop(s: State, a: ConsumerAction, d: Duplicates)
    requires LoopReady(s) && RetriersOk(s) && Mended(s) && ConsumerNext(s, 0, a).Some? && FaultFree(s, Consume(0, a), d)
    ensures LoopReady(ConsumerNext(s, 0, a).value) && Mended(ConsumerNext(s, 0, a).value)
  {
    ConsumerFrames(s, 0, a);
    OthersLeaveRows(s, Consume(0, a));
    ConsumerGrows(s, 0, a);
    assert RetrierOk(s.inbox, s.ledger, s.retriers[0]);
  }

  lemma StepStaysReady(s: State, gone: set<nat>, step: Step, d: Duplicates)
    requires Ready(s, gone) && Next(s, step).Some? && FaultFree(s, step, d)
    ensures Ready(Next(s, step).value, gone)
  {
    StepKeepsInv(s, step);
    StepKeepsOffsets(s, step, gone);
    assert gone + SwallowedBy(s, step) == gone;
    match step
    case Publish(w, a) =>
      PublisherFrames(s, w, a);
      PublisherStaysReady(s, a, d);
    case Retry(w, a) =>
      RetrierFrames(s, w, a);
      RetrierStaysReady(s, a, d);
      RetrierKeepsMended(s, a, d);
    case Consume(w, a) =>
      ConsumerFrames(s, w, a);
      ConsumerKeepsLoop(s, a, d);
    case _ =>
  }

  // ---------------------------------------------------------------- the measure decreases

  lemma {:induction false} TotalUpdate(a: seq<nat>, i: nat, v: nat)
    requires i < |a|
    ensures Total(a[i := v]) + a[i] == Total(a) + v
  {
    var n := |a| - 1;
    if i == n {
      assert a[i := v][..n] == a[..n];
    } else {
      assert a[i := v][..n] == a[..n][i := v];
      TotalUpdate(a[..n], i, v);
    }
  }

  lemma TotalAppend(a: seq<nat>, v: nat)
    ensures Total(a + [v]) == Total(a) + v
  {
    assert (a + [v])[..|a|] == a;
  }

  lemma PublisherWorkCounts(s: State, a: PublisherAction, d: Duplicates)
    requires PublisherReady(s) && PublisherNext(s, 0, a).Some? && FaultFree(s, Publish(0, a), d)
    ensures var t := PublisherNext(s, 0, a).value;
            && |t.publishers| == 1
            && Total(OutboxCosts(t)) + (if t.topic == s.topic then 0 else MessageCost(s.cfg))
               + (if IsWork(Publish(0, a)) then 1 else 0) <= Total(OutboxCosts(s))
  {
    var t := PublisherNext(s, 0, a).value;
    var p := s.publishers[0];
    if IsWork(Publish(0, a)) {
      var id := if p.PubBatch? then p.rest[0].id else p.job.id;
      PublisherRowCosts(s, a, id, d);
      assert OutboxCosts(t) == OutboxCosts(s)[id := OutboxCosts(t)[id]];
      TotalUpdate(OutboxCosts(s), id, OutboxCosts(t)[id]);
    } else {
      assert OutboxCosts(t) == OutboxCosts(s);
    }
  }

  lemma PublisherRowCosts(s: State, a: PublisherAction, id: nat, d: Duplicates)
    requires PublisherReady(s) && PublisherNext(s, 0, a).Some? && FaultFree(s, Publish(0, a), d)
             && IsWork(Publish(0, a))
    requires var p := s.publishers[0]; id == if p.PubBatch? then p.rest[0].id else p.job.id
    ensures id < |s.outbox| && |PublisherNext(s, 0, a).value.outbox| == |s.outbox|
    ensures var t := PublisherNext(s, 0, a).value;
            forall i | 0 <= i < |s.outbox| && i != id ::
              OutboxCost(t.outbox[i], i, t.publishers[0], t.cfg) == OutboxCost(s.outbox[i], i, s.publishers[0], s.cfg)
    ensures var t := PublisherNext(s, 0, a).value;
            OutboxCost(t.outbox[id], id, t.publishers[0], t.cfg)
            + (if t.topic == s.topic then 0 else MessageCost(s.cfg))
            < OutboxCost(s.outbox[id], id, s.publishers[0], s.cfg)
  {
    var p := s.publishers[0];
    if p.PubBatch? {
      HeadAndRest(p.rest, id);
      assert IsPending(s, p.rest[0].id);
    }
  }

  lemma RetrierWorkCounts(s: State, a: RetrierAction, d: Duplicates)
    requires LoopReady(s) && RetriersOk(s) && RetrierNext(s, 0, a).Some? && FaultFree(s, Retry(0, a), d)
    ensures var t := RetrierNext(s, 0, a).value;
            && |t.retriers| == 1
            && Total(InboxCosts(t)) + (if IsWork(Retry(0, a)) then 1 else 0) <= Total(InboxCosts(s))
  {
    var t := RetrierNext(s, 0, a).value;
    var r := s.retriers[0];
    RetrierFrames(s, 0, a);
    assert RetrierOk(s.inbox, s.ledger, r);
    if IsWork(Retry(0, a)) {
      var id := if r.RetBatch? then r.rest[0].id else r.job.id;
      RetrierRowCosts(s, a, id, d);
      assert InboxCosts(t) == InboxCosts(s)[id := InboxCosts(t)[id]];
      TotalUpdate(InboxCosts(s), id, InboxCosts(t)[id]);
    } else {
      BatchIsDistinct(s);
      assert InboxCosts(t) == InboxCosts(s);
    }
  }

  lemma RetrierRowCosts(s: State, a: RetrierAction, id: nat, d: Duplicates)
    requires LoopReady(s) && RetriersOk(s) && RetrierNext(s, 0, a).Some? && FaultFree(s, Retry(0, a), d)
             && IsWork(Retry(0, a))
    requires var r := s.retriers[0]; id == if r.RetBatch? then r.rest[0].id else r.job.id
    ensures id < |s.inbox| && |RetrierNext(s, 0, a).value.inbox| == |s.inbox|
    ensures var t := RetrierNext(s, 0, a).value;
            forall i | 0 <= i < |s.inbox| && i != id ::
              InboxCost(t.inbox[i], i, t.retriers[0], t.cfg) == InboxCost(s.inbox[i], i, s.retriers[0], s.cfg)
    ensures var t := RetrierNext(s, 0, a).value;
            InboxCost(t.inbox[id], id, t.retriers[0], t.cfg) < InboxCost(s.inbox[id], id, s.retriers[0], s.cfg)
  {
    var r := s.retriers[0];
    assert RetrierOk(s.inbox, s.ledger, r);
    if r.RetBatch? {
      assert InboxJobOk(s.inbox, r.rest[0]);
      HeadAndRest(r.rest, id);
      forall i | 0 <= i < |s.inbox| && i != id ensures Holds(r.rest, i) <==> Holds(r.rest[1..], i) {
        HeadAndRest(r.rest, i);
      }
    }
  }

  lemma MarkLowersCost(s: State, row: nat)
    requires row < |s.inbox| && LoopReady(s)
    ensures InboxCost(s.inbox[row].(status := Processed), row, s.retriers[0], s.cfg)
            <= InboxCost(s.inbox[row], row, s.retriers[0], s.cfg)
  {}

  /** A new inbox row costs what its message had set aside for it. */
  lemma StoreCounts(s: State)
    requires LoopReady(s) && RetriersOk(s) && Single(s) && s.consumers[0].ConAt?
    requires s.consumers[0].at < |s.topic|
    ensures var at := s.consumers[0].at; var t := AfterStore(s, 0, at, Ok);
            ConsumerInRange(t) && t.topic == s.topic && t.cfg == s.cfg
            && ConsumerCost(t.topic, t.consumers[0], s.cfg) + Total(InboxCosts(t)) + 1
               <= ConsumerCost(s.topic, s.consumers[0], s.cfg) + Total(InboxCosts(s))
  {
    var at := s.consumers[0].at;
    var t := AfterStore(s, 0, at, Ok);
    assert RetrierOk(s.inbox, s.ledger, s.retriers[0]);
    if |t.inbox| == |s.inbox| {
      assert InboxCosts(t) == InboxCosts(s);
    } else {
      assert InboxCosts(t) == InboxCosts(s) + [InboxCosts(t)[|s.inbox|]];
      TotalAppend(InboxCosts(s), InboxCosts(t)[|s.inbox|]);
    }
  }

  lemma ConsumerWorkCounts(s: State, a: ConsumerAction, d: Duplicates)
    requires LoopReady(s) && RetriersOk(s) && ConsumerInRange(s)
    requires ConsumerNext(s, 0, a).Some? && FaultFree(s, Consume(0, a), d)
    ensures var t := ConsumerNext(s, 0, a).value;
            && ConsumerInRange(t) && t.cfg == s.cfg
            && ConsumerCost(t.topic, t.consumers[0], s.cfg) + Total(InboxCosts(t))
               + (if IsWork(Consume(0, a)) then 1 else 0)
               <= ConsumerCost(s.topic, s.consumers[0], s.cfg) + Total(InboxCosts(s))
  {
    match s.consumers[0]
    case ConAt(at) => if a.ConStore? { StoreCounts(s); } else { CommitCounts(s); }
    case ConStored(at, row) =>
      assert InboxCosts(ConsumerNext(s, 0, a).value) == InboxCosts(s);
    case ConCredited(at, row) => MarkCounts(s, at, row);
  }

  lemma CommitCounts(s: State)
    requires LoopReady(s) && ConsumerInRange(s) && s.consumers[0].ConAt?
    ensures InboxCosts(s.(committed := s.consumers[0].at)) == InboxCosts(s)
  {}

  lemma MarkCounts(s: State, at: nat, row: nat)
    requires LoopReady(s) && RetriersOk(s) && Single(s) && s.consumers[0] == ConCredited(at, row)
    requires at < |s.topic| && row < |s.inbox|
    ensures var t := AfterConsumerMark(s, 0, at, row, Ok);
            && ConsumerInRange(t) && t.cfg == s.cfg
            && ConsumerCost(t.topic, t.consumers[0], s.cfg) + Total(InboxCosts(t)) + 1
               <= ConsumerCost(s.topic, s.consumers[0], s.cfg) + Total(InboxCosts(s))
  {
    var t := AfterConsumerMark(s, 0, at, row, Ok);
    MarkLowersCost(s, row);
    assert InboxCosts(t) == InboxCosts(s)[row := InboxCosts(t)[row]];
    TotalUpdate(InboxCosts(s), row, InboxCosts(t)[row]);
  }

  lemma LaterMessagesCost(topic: seq<Message>, longer: seq<Message>, c: Consumer, cfg: Config)
    requires |longer| == |topic| + 1
    requires if c.ConAt? then c.at <= |topic| else c.at < |topic|
    ensures ConsumerCost(longer, c, cfg) == ConsumerCost(topic, c, cfg) + MessageCost(cfg)
  {}

  lemma PublisherStepCounts(s: State, a: PublisherAction, d: Duplicates)
    requires PublisherReady(s) && ConsumerInRange(s) && PublisherNext(s, 0, a).Some? && FaultFree(s, Publish(0, a), d)
    requires ConsumerInRange(PublisherNext(s, 0, a).value)
    ensures Rank(PublisherNext(s, 0, a).value) + (if IsWork(Publish(0, a)) then 1 else 0) <= Rank(s)
  {
    var t := PublisherNext(s, 0, a).value;
    PublisherWorkCounts(s, a, d);
    PublisherFrames(s, 0, a);
    assert InboxCosts(t) == InboxCosts(s);
    if t.topic != s.topic { LaterMessagesCost(s.topic, t.topic, s.consumers[0], s.cfg); }
  }

  lemma RetrierStepCounts(s: State, a: RetrierAction, d: Duplicates)
    requires LoopReady(s) && RetriersOk(s) && ConsumerInRange(s) && RetrierNext(s, 0, a).Some?
             && FaultFree(s, Retry(0, a), d)
    requires ConsumerInRange(RetrierNext(s, 0, a).value)
    ensures Rank(RetrierNext(s, 0, a).value) + (if IsWork(Retry(0, a)) then 1 else 0) <= Rank(s)
  {
    RetrierWorkCounts(s, a, d);
    RetrierFrames(s, 0, a);
    assert OutboxCosts(RetrierNext(s, 0, a).value) == OutboxCosts(s);
  }

  lemma ConsumerStepCounts(s: State, a: ConsumerAction, d: Duplicates)
    requires LoopReady(s) && RetriersOk(s) && ConsumerInRange(s) && ConsumerNext(s, 0, a).Some?
             && FaultFree(s, Consume(0, a), d)
    requires ConsumerInRange(ConsumerNext(s, 0, a).value)
    ensures Rank(ConsumerNext(s, 0, a).value) + (if IsWork(Consume(0, a)) then 1 else 0) <= Rank(s)
  {
    ConsumerWorkCounts(s, a, d);
    ConsumerFrames(s, 0, a);
    assert OutboxCosts(ConsumerNext(s, 0, a).value) == OutboxCosts(s);
  }

  /** Every fault-free step keeps the rank, and every piece of work lowers it. */
  lemma StepCounts(s: State, gone: set<nat>, step: Step, d: Duplicates)
    requires Ready(s, gone) && ConsumerInRange(s) && Next(s, step).Some? && FaultFree(s, step, d)
    requires ConsumerInRange(Next(s, step).value)
    ensures Rank(Next(s, step).value) + (if IsWork(step) then 1 else 0) <= Rank(s)
  {
    match step
    case Publish(w, a) =>
      assert w == 0;
      PublisherStepCounts(s, a, d);
    case Retry(w, a) =>
      assert w == 0;
      RetrierStepCounts(s, a, d);
    case Consume(w, a) =>
      assert w == 0;
      ConsumerStepCounts(s, a, d);
    case Tick(ms) => TickCounts(s, ms);
    case _ =>
  }

  lemma TickCounts(s: State, ms: nat)
    requires ConsumerInRange(s) && ConsumerInRange(s.(now := s.now + ms))
    ensures Rank(s.(now := s.now + ms)) == Rank(s)
  {
    assert OutboxCosts(s.(now := s.now + ms)) == OutboxCosts(s);
    assert InboxCosts(s.(now := s.now + ms)) == InboxCosts(s);
  }

  predicate AllFaultFree(s: State, steps: seq<Step>, d: Duplicates) {
    |steps| == 0 ||
    var at := Run(s, steps[..|steps| - 1]);
    AllFaultFree(s, steps[..|steps| - 1], d) && (at.Some? ==> FaultFree(at.value, steps[|steps| - 1], d))
  }

  function WorkDone(steps: seq<Step>): nat {
    if |steps| == 0 then 0 else WorkDone(steps[..|steps| - 1]) + if IsWork(steps[|steps| - 1]) then 1 else 0
  }

  lemma {:induction false} RunStaysReady(s: State, gone: set<nat>, steps: seq<Step>, d: Duplicates)
    requires Ready(s, gone) && Run(s, steps).Some? && AllFaultFree(s, steps, d)
    ensures Ready(Run(s, steps).value, gone)
  {
    if |steps| > 0 {
      RunStaysReady(s, gone, steps[..|steps| - 1], d);
      StepStaysReady(Run(s, steps[..|steps| - 1]).value, gone, steps[|steps| - 1], d);
    }
  }

  /** Whatever the schedule, and whatever the duplicate branch does, a fault-free run does at most `Rank(s)`
      pieces of work. */
  lemma {:induction false} WorkIsBounded(s: State, gone: set<nat>, steps: seq<Step>, d: Duplicates)
    requires Ready(s, gone) && ConsumerInRange(s) && Run(s, steps).Some? && AllFaultFree(s, steps, d)
    ensures ConsumerInRange(Run(s, steps).value)
    ensures WorkDone(steps) + Rank(Run(s, steps).value) <= Rank(s)
  {
    RunStaysReady(s, gone, steps, d);
    ReadyInRange(Run(s, steps).value);
    if |steps| > 0 {
      var front := steps[..|steps| - 1];
      WorkIsBounded(s, gone, front, d);
      RunStaysReady(s, gone, front, d);
      StepCounts(Run(s, front).value, gone, steps[|steps| - 1], d);
    }
  }

  // ---------------------------------------------------------------- the end of a drain

  /** Nothing is left to do: all messages handled and committed, no PENDING row. */
  ghost predicate Finished(s: State) {
    && s.consumers == [ConAt(|s.topic|)] && s.committed == |s.topic|
    && (forall i | 0 <= i < |s.outbox| :: s.outbox[i].status != OutboxStatus.Waiting)
    && (forall i | 0 <= i < |s.inbox| :: s.inbox[i].status != Pending)
  }

  /** And all workers are idle. */
  ghost predicate Quiet(s: State) {
    s.publishers == [PubIdle] && s.retriers == [RetIdle] && Finished(s)
  }

  /** A copy of the row's event that a consumer has handled or will come to. */
  predicate FreshCopy(topic: seq<Message>, gone: set<nat>, row: nat, at: nat) {
    IsCopy(topic, at, row) && at !in gone
  }

  ghost predicate HasFreshCopy(topic: seq<Message>, gone: set<nat>, row: nat) {
    exists at: nat :: FreshCopy(topic, gone, row, at)
  }

  predicate SentBy(p: Publisher, row: nat) {
    p.PubSent? && p.job.id == row
  }

  /** The row's event is in the inbox, will get there, or has yet to be sent. */
  ghost predicate OnItsWay(s: State, gone: set<nat>, row: nat) {
    && row < |s.outbox|
    && (|| InInbox(s.inbox, Own(row)) || HasFreshCopy(s.topic, gone, row)
        || (s.outbox[row].status != Sent && Single(s) && !SentBy(s.publishers[0], row)))
  }

  lemma CopiesStay(s: State, t: State, gone: set<nat>, row: nat)
    requires Grows(s, t) && row < |s.outbox|
    ensures InInbox(s.inbox, Own(row)) ==> InInbox(t.inbox, Own(row))
    ensures HasFreshCopy(s.topic, gone, row) ==> HasFreshCopy(t.topic, gone, row)
  {
    if InInbox(s.inbox, Own(row)) {
      var i :| 0 <= i < |s.inbox| && s.inbox[i].source == Own(row);
      assert t.inbox[i].source == Own(row);
    }
    if HasFreshCopy(s.topic, gone, row) {
      var at: nat :| FreshCopy(s.topic, gone, row, at);
      assert FreshCopy(t.topic, gone, row, at);
    }
  }

  lemma PublisherKeepsOnItsWay(s: State, gone: set<nat>, a: PublisherAction, row: nat, d: Duplicates)
    requires Single(s) && PublisherReady(s) && OnItsWay(s, gone, row) && PublisherNext(s, 0, a).Some?
    requires FaultFree(s, Publish(0, a), d) && forall k | k in gone :: k < |s.topic|
    ensures OnItsWay(PublisherNext(s, 0, a).value, gone, row)
  {
    var t := PublisherNext(s, 0, a).value;
    PublisherGrows(s, 0, a);
    PublisherFrames(s, 0, a);
    CopiesStay(s, t, gone, row);
    if s.publishers[0].PubClaimed? && s.publishers[0].job.id == row && a.PubSend? {
      assert FreshCopy(t.topic, gone, row, |s.topic|);
    }
  }

  lemma StepKeepsOnItsWay(s: State, gone: set<nat>, step: Step, row: nat, d: Duplicates)
    requires Ready(s, gone) && OnItsWay(s, gone, row) && Next(s, step).Some? && FaultFree(s, step, d)
    requires forall k | k in gone :: k < |s.topic|
    ensures OnItsWay(Next(s, step).value, gone, row)
  {
    match step
    case Publish(w, a) =>
      assert w == 0;
      PublisherKeepsOnItsWay(s, gone, a, row, d);
    case Retry(w, a) =>
      RetrierFrames(s, w, a);
      RetrierGrows(s, w, a);
      CopiesStay(s, Next(s, step).value, gone, row);
    case Consume(w, a) =>
      ConsumerFrames(s, w, a);
      ConsumerGrows(s, w, a);
      CopiesStay(s, Next(s, step).value, gone, row);
    case _ =>
  }

  lemma {:induction false} RunKeepsOnItsWay(s: State, gone: set<nat>, steps: seq<Step>, row: nat, d: Duplicates)
    requires Ready(s, gone) && OnItsWay(s, gone, row) && Run(s, steps).Some? && AllFaultFree(s, steps, d)
    requires forall k | k in gone :: k < |s.topic|
    ensures OnItsWay(Run(s, steps).value, gone, row) && |s.topic| <= |Run(s, steps).value.topic|
  {
    if |steps| > 0 {
      var front := steps[..|steps| - 1];
      RunKeepsOnItsWay(s, gone, front, row, d);
      RunStaysReady(s, gone, front, d);
      StepKeepsOnItsWay(Run(s, front).value, gone, steps[|steps| - 1], row, d);
      StepGrows(Run(s, front).value, steps[|steps| - 1]);
    }
  }

  /** When nothing is left to do, every order whose event was still on its way has its credit. */
  lemma FinishedMeansCredited(s: State, gone: set<nat>, row: nat)
    requires Ready(s, gone) && Finished(s) && OnItsWay(s, gone, row)
    ensures HasCredit(s.ledger, s.outbox[row].aggregateId)
  {
    if HasFreshCopy(s.topic, gone, row) {
      var at: nat :| FreshCopy(s.topic, gone, row, at);
      assert InInbox(s.inbox, s.topic[at].source);
    }
    var k :| 0 <= k < |s.inbox| && s.inbox[k].source == Own(row);
    if s.inbox[k].status == Processed {
      JustifiedOwnRowIsCredited(s, k);
    } else {
      assert MayFail(s.ledger, s.inbox[k]);
    }
  }

  /** If every committed message was stored, exactly the CONFIRMED orders end up with their credit. */
  lemma FinishedMeansAllCredited(s: State, id: OrderId)
    requires Ready(s, {}) && Finished(s)
    ensures (id < |s.orders| && s.orders[id].status == Confirmed) <==> HasCredit(s.ledger, id)
  {
    if id < |s.orders| && s.orders[id].status == Confirmed {
      assert HasOutboxRow(s.outbox, id);
      var i :| 0 <= i < |s.outbox| && s.outbox[i].aggregateId == id;
      var at: nat :| IsCopy(s.topic, at, i);
      assert FreshCopy(s.topic, {}, i, at);
      FinishedMeansCredited(s, {}, i);
    }
  }

  // ---------------------------------------------------------------- progress

  ghost predicate SomeWaiting(outbox: seq<OutboxRow>) {
    exists i :: 0 <= i < |outbox| && outbox[i].status == OutboxStatus.Waiting
  }

  ghost predicate SomeDueOutbox(outbox: seq<OutboxRow>, now: int) {
    exists i :: 0 <= i < |outbox| && outbox[i].status == OutboxStatus.Waiting && outbox[i].availableAt <= now
  }

  ghost predicate SomePending(inbox: seq<InboxRow>) {
    exists i :: 0 <= i < |inbox| && inbox[i].status == Pending
  }

  ghost predicate SomeDueInbox(inbox: seq<InboxRow>, now: int) {
    exists i :: 0 <= i < |inbox| && inbox[i].status == Pending && inbox[i].availableAt <= now
  }

  /** Polls, waits and round ends that may come before the publisher's next piece of work. */
  ghost function PublisherChores(p: Publisher, outbox: seq<OutboxRow>, now: int): nat {
    match p
    case PubBatch(rest) => if |rest| == 0 then 3 else 0
    case PubIdle => if SomeDueOutbox(outbox, now) then 1 else if SomeWaiting(outbox) then 2 else 0
    case _ => 0
  }

  ghost function RetrierChores(r: Retrier, inbox: seq<InboxRow>, now: int): nat {
    match r
    case RetBatch(rest) => if |rest| == 0 then 3 else 0
    case RetIdle => if SomeDueInbox(inbox, now) then 1 else if SomePending(inbox) then 2 else 0
    case _ => 0
  }

  ghost function Chores(s: State): nat
    requires Single(s)
  {
    PublisherChores(s.publishers[0], s.outbox, s.now) + RetrierChores(s.retriers[0], s.inbox, s.now)
    + if s.committed == |s.topic| then 0 else 1
  }

  ghost predicate BatchesOpen(cfg: Config) {
    cfg.publishBatch > 0 && cfg.retryBatch > 0
  }

  lemma TimeOnlyHelps(s: State, ms: nat)
    ensures forall p :: PublisherChores(p, s.outbox, s.now + ms) <= PublisherChores(p, s.outbox, s.now)
    ensures forall r :: RetrierChores(r, s.inbox, s.now + ms) <= RetrierChores(r, s.inbox, s.now)
  {}

  lemma IdlePublisherAdvances(s: State, d: Duplicates) returns (step: Step)
    requires Single(s) && s.publishers[0] == PubIdle && BatchesOpen(s.cfg) && SomeWaiting(s.outbox)
    ensures FaultFree(s, step, d) && Next(s, step).Some? && Single(Next(s, step).value)
    ensures Chores(Next(s, step).value) < Chores(s)
  {
    if SomeDueOutbox(s.outbox, s.now) {
      step := Publish(0, PubPoll);
      var x :| 0 <= x < |s.outbox| && s.outbox[x].status == OutboxStatus.Waiting && s.outbox[x].availableAt <= s.now;
      assert DueOutbox(s)[x];
      if |Oldest(DueOutbox(s), s.cfg.publishBatch)| == 0 {
        OldestLeavesOut(DueOutbox(s), s.cfg.publishBatch, x);
      }
    } else {
      var x :| 0 <= x < |s.outbox| && s.outbox[x].status == OutboxStatus.Waiting;
      step := Tick(s.outbox[x].availableAt - s.now);
      TimeOnlyHelps(s, s.outbox[x].availableAt - s.now);
      assert SomeDueOutbox(s.outbox, s.outbox[x].availableAt);
    }
  }

  lemma IdleRetrierAdvances(s: State, d: Duplicates) returns (step: Step)
    requires Single(s) && s.retriers[0] == RetIdle && BatchesOpen(s.cfg) && SomePending(s.inbox)
    ensures FaultFree(s, step, d) && Next(s, step).Some? && Single(Next(s, step).value)
    ensures Chores(Next(s, step).value) < Chores(s)
  {
    if SomeDueInbox(s.inbox, s.now) {
      step := Retry(0, RetPoll);
      var x :| 0 <= x < |s.inbox| && s.inbox[x].status == Pending && s.inbox[x].availableAt <= s.now;
      assert DueInbox(s)[x];
      if |Oldest(DueInbox(s), s.cfg.retryBatch)| == 0 {
        OldestLeavesOut(DueInbox(s), s.cfg.retryBatch, x);
      }
    } else {
      var x :| 0 <= x < |s.inbox| && s.inbox[x].status == Pending;
      step := Tick(s.inbox[x].availableAt - s.now);
      TimeOnlyHelps(s, s.inbox[x].availableAt - s.now);
      assert SomeDueInbox(s.inbox, s.inbox[x].availableAt);
    }
  }

  function ReplyOn(ledger: seq<Entry>, id: Option<OrderId>, d: Duplicates): (o: Outcome)
    ensures Replies(CreditedId(ledger, id), o, d)
  {
    if CreditedId(ledger, id) && d == Throw then Refused else Ok
  }

  lemma BusyPublisherAdvances(s: State, d: Duplicates) returns (step: Step)
    requires Single(s) && PublisherReady(s) && s.publishers[0] != PubIdle
    requires PublisherOk(s.outbox, s.topic, s.publishers[0])
    ensures FaultFree(s, step, d) && Next(s, step).Some? && Single(Next(s, step).value)
    ensures IsWork(step) || Chores(Next(s, step).value) < Chores(s)
  {
    match s.publishers[0]
    case PubBatch(rest) =>
      step := Publish(0, if |rest| == 0 then PubFinish else PubClaim(Ok));
      assert |rest| > 0 ==> OutboxJobOk(s.outbox, rest[0]);
    case PubClaimed(_, _) => step := Publish(0, PubSend(Ok));
    case PubSent(_, _) => step := Publish(0, PubMark(Ok));
  }

  lemma BusyRetrierAdvances(s: State, d: Duplicates) returns (step: Step)
    requires Single(s) && s.retriers[0] != RetIdle && RetrierOk(s.inbox, s.ledger, s.retriers[0])
    ensures FaultFree(s, step, d) && Next(s, step).Some? && Single(Next(s, step).value)
    ensures IsWork(step) || Chores(Next(s, step).value) < Chores(s)
  {
    match s.retriers[0]
    case RetBatch(rest) =>
      step := Retry(0, if |rest| == 0 then RetFinish
                       else RetProcess(ReplyOn(s.ledger, RetrySubject(s, 0), d), Rule(0, None)));
    case RetCredited(_, _) => step := Retry(0, RetMark(Ok));
    case RetFailing(_, _) => step := Retry(0, RetCount(Ok));
    case RetSettling(_, _, _) => step := Retry(0, RetSettle(Ok));
    case RetDeadLetter(_, _, _) => step := Retry(0, RetSend(Ok));
  }

  lemma ConsumerAdvances(s: State, d: Duplicates) returns (step: Step)
    requires Single(s) && ConsumerOk(s.topic, s.inbox, s.ledger, s.consumers[0])
    requires s.consumers[0] != ConAt(|s.topic|) || s.committed != |s.topic|
    ensures FaultFree(s, step, d) && Next(s, step).Some? && Single(Next(s, step).value)
    ensures IsWork(step) || Chores(Next(s, step).value) < Chores(s)
  {
    match s.consumers[0]
    case ConAt(at) => step := Consume(0, if at < |s.topic| then ConStore(Ok) else ConCommit);
    case ConStored(_, _) => step := Consume(0, ConProcess(ReplyOn(s.ledger, ConsumeSubject(s, 0), d), Rule(0, None)));
    case ConCredited(_, _) => step := Consume(0, ConMark(Ok));
  }

  /** Until nothing is left, some worker can take a fault-free step that is work or brings work nearer,
      whether the duplicate branch returns or throws. */
  lemma Progress(s: State, gone: set<nat>, d: Duplicates) returns (step: Step)
    requires Ready(s, gone) && BatchesOpen(s.cfg) && !Quiet(s)
    ensures FaultFree(s, step, d) && Next(s, step).Some? && Single(Next(s, step).value)
    ensures IsWork(step) || Chores(Next(s, step).value) < Chores(s)
  {
    if s.publishers[0] != PubIdle {
      assert PublisherOk(s.outbox, s.topic, s.publishers[0]);
      step := BusyPublisherAdvances(s, d);
    } else if s.retriers[0] != RetIdle {
      assert RetrierOk(s.inbox, s.ledger, s.retriers[0]);
      step := BusyRetrierAdvances(s, d);
    } else if SomeWaiting(s.outbox) {
      step := IdlePublisherAdvances(s, d);
    } else if SomePending(s.inbox) {
      step := IdleRetrierAdvances(s, d);
    } else {
      assert s.publishers == [PubIdle] && s.retriers == [RetIdle];
      assert s.consumers[0] == ConAt(|s.topic|) ==> s.consumers == [ConAt(|s.topic|)];
      assert ConsumerOk(s.topic, s.inbox, s.ledger, s.consumers[0]);
      step := ConsumerAdvances(s, d);
    }
  }

  /** Such a step leads to a ready state that is nearer to the end. */
  lemma Nearer(s: State, gone: set<nat>, d: Duplicates) returns (step: Step)
    requires Ready(s, gone) && BatchesOpen(s.cfg) && ConsumerInRange(s) && !Quiet(s)
    ensures FaultFree(s, step, d) && Next(s, step).Some?
    ensures var t := Next(s, step).value;
            && Ready(t, gone) && t.cfg == s.cfg && ConsumerInRange(t)
            && Rank(t) <= Rank(s) && (Rank(t) < Rank(s) || Chores(t) < Chores(s))
  {
    step := Progress(s, gone, d);
    var t := Next(s, step).value;
    StepStaysReady(s, gone, step, d);
    ReadyInRange(t);
    StepCounts(s, gone, step, d);
    StepGrows(s, step);
  }

  lemma {:induction false} FaultFreePrepend(s: State, step: Step, rest: seq<Step>, d: Duplicates)
    requires Next(s, step).Some? && FaultFree(s, step, d) && AllFaultFree(Next(s, step).value, rest, d)
    ensures AllFaultFree(s, [step] + rest, d)
  {
    var all := [step] + rest;
    if |rest| == 0 {
      assert all[..0] == [];
    } else {
      var front := rest[..|rest| - 1];
      FaultFreePrepend(s, step, front, d);
      RunPrepend(s, step, front);
      assert all[..|all| - 1] == [step] + front;
    }
  }

  /** From every ready state a fault-free run reaches the end, whether the duplicate branch returns or
      throws. */
  lemma {:induction false} DrainsToTheEnd(s: State, gone: set<nat>, d: Duplicates) returns (steps: seq<Step>)
    requires Ready(s, gone) && BatchesOpen(s.cfg) && ConsumerInRange(s)
    ensures AllFaultFree(s, steps, d) && Run(s, steps).Some?
    ensures Ready(Run(s, steps).value, gone) && Quiet(Run(s, steps).value)
    decreases Rank(s), Chores(s)
  {
    if Quiet(s) {
      steps := [];
    } else {
      var step := Nearer(s, gone, d);
      var rest := DrainsToTheEnd(Next(s, step).value, gone, d);
      steps := [step] + rest;
      RunPrepend(s, step, rest);
      FaultFreePrepend(s, step, rest, d);
    }
  }
}
