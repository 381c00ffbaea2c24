/** Where an event can be between the confirm and the credit: what SENT and PROCESSED promise, and when
    a confirmed order can be lost without a trace. */
module Delivery {
  import opened Domain
  import opened Pipeline
  import opened Invariants

  // ---------------------------------------------------------------- SENT and PROCESSED

  /** A SENT row has a message with its id and payload on the topic. */
  lemma SentMeansPublished(s: State, i: nat)
    requires Reachable(s) && i < |s.outbox| && s.outbox[i].status == Sent
    ensures exists at: nat :: at < |s.topic| && s.topic[at] == Event(Own(i), s.outbox[i].payload)
  {
    ReachableHasInv(s);
    var at: nat :| IsCopy(s.topic, at, i);
    assert s.topic[at] == Event(Own(i), s.outbox[i].payload);
  }

  /** An outbox row tells its CONFIRMED order's id, user, merchant, amount and currency, and so do all its
      messages and its inbox row. */
  lemma EventsTellTheOrder(s: State, i: nat)
    requires Reachable(s) && i < |s.outbox|
    ensures var id := s.outbox[i].aggregateId;
            && id < |s.orders| && s.orders[id].status == Confirmed
            && var o := s.orders[id];
            && var payload := Payload(Some(id), o.user, o.merchant, o.amount, o.currency);
            && s.outbox[i].payload == payload
            && (forall at | 0 <= at < |s.topic| && IsCopy(s.topic, at, i) :: s.topic[at].payload == payload)
            && (forall k | 0 <= k < |s.inbox| && s.inbox[k].source == Own(i) :: s.inbox[k].payload == payload)
  {
    ReachableHasInv(s);
  }

  lemma JustifiedOwnRowIsCredited(s: State, i: nat)
    requires Inv(s) && i < |s.inbox| && s.inbox[i].source.Own? && s.inbox[i].status == Processed
    ensures CreditedId(s.ledger, s.inbox[i].payload.orderId)
  {
    assert Justified(s.topic, s.ledger, s.inbox[i]);
  }

  /** A PROCESSED row of an outbox event names a confirmed order, and that order has its credit. */
  lemma ProcessedMeansCredited(s: State, i: nat)
    requires Reachable(s) && i < |s.inbox| && s.inbox[i].source.Own? && s.inbox[i].status == Processed
    ensures Creditable(s.orders, s.inbox[i].payload.orderId)
    ensures HasCredit(s.ledger, s.inbox[i].payload.orderId.value)
  {
    ReachableHasInv(s);
    JustifiedOwnRowIsCredited(s, i);
  }

  /** For events of other producers the same holds if all messages with the row's id agree with it. */
  lemma ForeignProcessedMeansCredited(s: State, i: nat)
    requires Reachable(s) && i < |s.inbox| && s.inbox[i].status == Processed
    requires forall at | 0 <= at < |s.topic| && s.topic[at].Event? && s.topic[at].source == s.inbox[i].source ::
               s.topic[at].payload.orderId == s.inbox[i].payload.orderId
    ensures CreditedId(s.ledger, s.inbox[i].payload.orderId)
  {
    ReachableHasInv(s);
    assert Justified(s.topic, s.ledger, s.inbox[i]);
  }

  // ---------------------------------------------------------------- offsets behind a consumer

  /** The offsets whose inbox upsert this step refuses; the consumer goes on all the same. */
  function SwallowedBy(s: State, step: Step): set<nat> {
    if step.Consume? && step.c == ConStore(Refused) && step.w < |s.consumers| && s.consumers[step.w].ConAt?
    then {s.consumers[step.w].at} else {}
  }

  function Swallowed(s: State, steps: seq<Step>): set<nat> {
    if |steps| == 0 then {}
    else
      var front := steps[..|steps| - 1];
      Swallowed(s, front) +
      (if Run(s, front).None? then {} else SwallowedBy(Run(s, front).value, steps[|steps| - 1]))
  }

  ghost predicate InInbox(inbox: seq<InboxRow>, source: SourceId) {
    exists i :: 0 <= i < |inbox| && inbox[i].source == source
  }

  ghost predicate HandledBelow(topic: seq<Message>, inbox: seq<InboxRow>, gone: set<nat>, bound: nat) {
    forall k | 0 <= k < bound && k < |topic| && topic[k].Event? :: k in gone || InInbox(inbox, topic[k].source)
  }

  /** Every message behind the committed offset or behind a consumer is in the inbox, unless its
      upsert was swallowed. */
  ghost predicate OffsetsOk(s: State, gone: set<nat>) {
    && HandledBelow(s.topic, s.inbox, gone, s.committed)
    && forall w | 0 <= w < |s.consumers| :: HandledBelow(s.topic, s.inbox, gone, s.consumers[w].at)
  }

  lemma HandledPersists(s: State, t: State, gone: set<nat>, more: set<nat>, bound: nat)
    requires Grows(s, t) && bound <= |s.topic| && gone <= more
    requires HandledBelow(s.topic, s.inbox, gone, bound)
    ensures HandledBelow(t.topic, t.inbox, more, bound)
  {
    forall k | 0 <= k < bound && k < |t.topic| && t.topic[k].Event?
      ensures k in more || InInbox(t.inbox, t.topic[k].source)
    {
      if k !in gone {
        var i :| 0 <= i < |s.inbox| && s.inbox[i].source == s.topic[k].source;
        assert t.inbox[i].source == t.topic[k].source;
      }
    }
  }

  lemma StoredIsInInbox(inbox: seq<InboxRow>, source: SourceId, payload: Payload, now: int)
    ensures InInbox(Stored(inbox, source, payload, now), source)
  {
    var after := Stored(inbox, source, payload, now);
    assert after[RowFor(inbox, source)].source == source;
  }

  lemma ConsumerStepHandled(s: State, w: nat, a: ConsumerAction, gone: set<nat>)
    requires ConsumersOk(s) && OffsetsOk(s, gone) && ConsumerNext(s, w, a).Some?
    ensures var t := ConsumerNext(s, w, a).value; var more := gone + SwallowedBy(s, Consume(w, a));
            HandledBelow(t.topic, t.inbox, more, t.consumers[w].at)
  {
    var t := ConsumerNext(s, w, a).value;
    var more := gone + SwallowedBy(s, Consume(w, a));
    ConsumerGrows(s, w, a);
    var c := s.consumers[w];
    assert ConsumerOk(s.topic, s.inbox, s.ledger, c);
    HandledPersists(s, t, gone, more, c.at);
    HandledPersists(s, t, gone, more, s.committed);
    if t.consumers[w].at == c.at + 1 && s.topic[c.at].Event? && c.at !in more {
      if c.ConAt? {
        StoredIsInInbox(s.inbox, s.topic[c.at].source, s.topic[c.at].payload, s.now);
      } else {
        assert t.inbox[c.row].source == t.topic[c.at].source;
      }
    }
  }

  lemma OffsetsPersist(s: State, t: State, gone: set<nat>, more: set<nat>)
    requires ConsumersOk(s) && OffsetsOk(s, gone) && Grows(s, t) && gone <= more
    ensures HandledBelow(t.topic, t.inbox, more, s.committed)
    ensures forall w | 0 <= w < |s.consumers| :: HandledBelow(t.topic, t.inbox, more, s.consumers[w].at)
  {
    HandledPersists(s, t, gone, more, s.committed);
    forall w | 0 <= w < |s.consumers| ensures HandledBelow(t.topic, t.inbox, more, s.consumers[w].at) {
      assert ConsumerOk(s.topic, s.inbox, s.ledger, s.consumers[w]);
      HandledPersists(s, t, gone, more, s.consumers[w].at);
    }
  }

  lemma ConsumerKeepsOffsets(s: State, w: nat, a: ConsumerAction, gone: set<nat>)
    requires ConsumersOk(s) && OffsetsOk(s, gone) && ConsumerNext(s, w, a).Some?
    ensures OffsetsOk(ConsumerNext(s, w, a).value, gone + SwallowedBy(s, Consume(w, a)))
  {
    ConsumerGrows(s, w, a);
    ConsumerFrames(s, w, a);
    ConsumerStepHandled(s, w, a, gone);
    OffsetsPersist(s, ConsumerNext(s, w, a).value, gone, gone + SwallowedBy(s, Consume(w, a)));
  }

  lemma OthersLeaveConsumers(s: State, step: Step)
    requires Next(s, step).Some? && !step.Consume?
    ensures var t := Next(s, step).value; t.consumers == s.consumers && t.committed == s.committed
  {
    match step
    case Publish(w, a) => PublisherFrames(s, w, a);
    case Retry(w, a) => RetrierFrames(s, w, a);
    case Replay(w, a) => ReplayerFrames(s, w, a);
    case _ =>
  }

  lemma StepKeepsOffsets(s: State, step: Step, gone: set<nat>)
    requires ConsumersOk(s) && RequestsOk(s) && OffsetsOk(s, gone) && Next(s, step).Some?
    ensures OffsetsOk(Next(s, step).value, gone + SwallowedBy(s, step))
  {
    if step.Consume? {
      ConsumerKeepsOffsets(s, step.w, step.c, gone);
    } else {
      StepGrows(s, step);
      OthersLeaveConsumers(s, step);
      OffsetsPersist(s, Next(s, step).value, gone, gone);
    }
  }

  lemma {:induction false} RunKeepsOffsets(s0: State, steps: seq<Step>)
    requires Init(s0) && Run(s0, steps).Some?
    ensures OffsetsOk(Run(s0, steps).value, Swallowed(s0, steps))
  {
    if |steps| > 0 {
      var front := steps[..|steps| - 1];
      RunKeepsOffsets(s0, front);
      InitHasInv(s0);
      RunKeepsInv(s0, front);
      StepKeepsOffsets(Run(s0, front).value, steps[|steps| - 1], Swallowed(s0, front));
    }
  }

  // ---------------------------------------------------------------- no silent loss

  /** The order waits for its credit. */
  predicate Awaiting(s: State, id: OrderId) {
    id < |s.orders| && s.orders[id].status == Confirmed && !HasCredit(s.ledger, id)
  }

  predicate IsEventOf(s: State, source: SourceId, id: OrderId) {
    source.Own? && source.row < |s.outbox| && s.outbox[source.row].aggregateId == id
  }

  ghost predicate OutboxTrace(s: State, id: OrderId) {
    exists i :: 0 <= i < |s.outbox| && s.outbox[i].aggregateId == id && s.outbox[i].status != Sent
  }

  ghost predicate TopicTrace(s: State, id: OrderId) {
    exists k :: s.committed <= k < |s.topic| && s.topic[k].Event? && IsEventOf(s, s.topic[k].source, id)
  }

  ghost predicate InboxTrace(s: State, id: OrderId) {
    exists i :: 0 <= i < |s.inbox| && IsEventOf(s, s.inbox[i].source, id) && s.inbox[i].status != Processed
  }

  /** Something is left from which a worker or an operator can still credit the order: an outbox row
      that is PENDING or FAILED, a message not yet committed, an inbox row that is PENDING or FAILED. */
  ghost predicate Traceable(s: State, id: OrderId) {
    OutboxTrace(s, id) || TopicTrace(s, id) || InboxTrace(s, id)
  }

  /** Every copy of the order's event is behind the committed offset and none was stored, because
      the upsert of each was refused. */
  ghost predicate AllCopiesSwallowed(s: State, id: OrderId, gone: set<nat>) {
    && (forall i | 0 <= i < |s.outbox| && s.outbox[i].aggregateId == id :: s.outbox[i].status == Sent)
    && (forall k | 0 <= k < |s.topic| && s.topic[k].Event? && IsEventOf(s, s.topic[k].source, id) ::
          k < s.committed && k in gone)
    && (forall i | 0 <= i < |s.inbox| :: !IsEventOf(s, s.inbox[i].source, id))
  }

  lemma OwnInboxRowMeansCredit(s: State, id: OrderId, i: nat)
    requires Inv(s) && i < |s.inbox| && IsEventOf(s, s.inbox[i].source, id) && s.inbox[i].status == Processed
    ensures HasCredit(s.ledger, id)
  {
    JustifiedOwnRowIsCredited(s, i);
  }

  lemma UntracedMeansSwallowed(s: State, id: OrderId, gone: set<nat>)
    requires Inv(s) && HandledBelow(s.topic, s.inbox, gone, s.committed) && Awaiting(s, id) && !Traceable(s, id)
    ensures AllCopiesSwallowed(s, id, gone)
  {
    forall i | 0 <= i < |s.inbox| ensures !IsEventOf(s, s.inbox[i].source, id) {
      if IsEventOf(s, s.inbox[i].source, id) {
        assert s.inbox[i].status == Processed;
        OwnInboxRowMeansCredit(s, id, i);
      }
    }
    forall k | 0 <= k < |s.topic| && s.topic[k].Event? && IsEventOf(s, s.topic[k].source, id)
      ensures k < s.committed && k in gone
    {
      assert k < s.committed;
      assert k in gone || InInbox(s.inbox, s.topic[k].source);
    }
  }

  /** An order that waits for its credit is lost exactly when every copy of its event was swallowed. */
  lemma LostExactlyWhenSwallowed(s0: State, steps: seq<Step>, id: OrderId)
    requires Init(s0) && Run(s0, steps).Some? && Awaiting(Run(s0, steps).value, id)
    ensures var s := Run(s0, steps).value;
            !Traceable(s, id) <==> AllCopiesSwallowed(s, id, Swallowed(s0, steps))
  {
    InitHasInv(s0);
    RunKeepsInv(s0, steps);
    RunKeepsOffsets(s0, steps);
    if !Traceable(Run(s0, steps).value, id) {
      UntracedMeansSwallowed(Run(s0, steps).value, id, Swallowed(s0, steps));
    }
  }

  /** The order waits for its credit and nothing is left that could lead to it. */
  ghost predicate IsLost(s: State, id: OrderId) {
    Awaiting(s, id) && !Traceable(s, id)
  }

  /** The committed offsets whose message is in no inbox row. */
  ghost function Missing(s: State): set<nat> {
    set k: nat | k < s.committed && k < |s.topic| && s.topic[k].Event? && !InInbox(s.inbox, s.topic[k].source)
  }

  /** A committed message is missing only if its upsert was refused; a refusal before a restart or a
      redelivery that stores the message does no harm. */
  lemma MissingWasSwallowed(s0: State, steps: seq<Step>)
    requires Init(s0) && Run(s0, steps).Some?
    ensures Missing(Run(s0, steps).value) <= Swallowed(s0, steps)
  {
    RunKeepsOffsets(s0, steps);
  }

  /** No silent loss: while every committed message is stored, every confirmed order has its credit or a
      trace, whatever crashes, fails, is redelivered or replayed. */
  lemma NoSilentLoss(s: State, id: OrderId)
    requires Reachable(s) && Missing(s) == {}
    requires id < |s.orders| && s.orders[id].status == Confirmed
    ensures HasCredit(s.ledger, id) || Traceable(s, id)
  {
    ReachableHasInv(s);
    assert HasOutboxRow(s.outbox, id);
    var i :| 0 <= i < |s.outbox| && s.outbox[i].aggregateId == id;
    if s.outbox[i].status == Sent {
      var at: nat :| IsCopy(s.topic, at, i);
      assert IsEventOf(s, s.topic[at].source, id);
      if IsLost(s, id) {
        AllButMissingHandled(s);
        UntracedMeansSwallowed(s, id, {});
      }
    }
  }

  lemma AllButMissingHandled(s: State)
    ensures HandledBelow(s.topic, s.inbox, Missing(s), s.committed)
  {}
}
