/** Confirms and outbox rows stay in step: how many rows an order gets over a whole run. */
module ConfirmOutbox {
  import opened Domain
  import opened Pipeline
  import opened Invariants

  function RowsOf(outbox: seq<OutboxRow>, id: OrderId): nat {
    if |outbox| == 0 then 0
    else RowsOf(outbox[..|outbox| - 1], id) + if outbox[|outbox| - 1].aggregateId == id then 1 else 0
  }

  /** A confirm commits for an order that another confirm has confirmed since it was read. */
  predicate CommitsStale(s: State, step: Step, id: OrderId) {
    && step.Confirm? && step.w < |s.requests| && s.requests[step.w] == ReqConfirming(id)
    && step.q.ReqWrite? && step.q.o != Refused
    && id < |s.orders| && s.orders[id].status == Confirmed
  }

  function StaleCommits(s: State, steps: seq<Step>, id: OrderId): nat {
    if |steps| == 0 then 0
    else
      var at := Run(s, steps[..|steps| - 1]);
      StaleCommits(s, steps[..|steps| - 1], id)
      + if at.Some? && CommitsStale(at.value, steps[|steps| - 1], id) then 1 else 0
  }

  predicate IsConfirmed(s: State, id: OrderId) {
    id < |s.orders| && s.orders[id].status == Confirmed
  }

  lemma {:induction false} RowsDependOnAggregates(a: seq<OutboxRow>, b: seq<OutboxRow>, id: OrderId)
    requires |a| == |b| && forall i | 0 <= i < |a| :: a[i].aggregateId == b[i].aggregateId
    ensures RowsOf(a, id) == RowsOf(b, id)
  {
    if |a| > 0 { RowsDependOnAggregates(a[..|a| - 1], b[..|b| - 1], id); }
  }

  lemma ConfirmAddsRow(s: State, which: OrderId, id: OrderId)
    requires which < |s.orders|
    ensures var t := ConfirmedWithOutbox(s, which);
            && RowsOf(t.outbox, id) == RowsOf(s.outbox, id) + (if which == id then 1 else 0)
            && IsConfirmed(t, id) == (IsConfirmed(s, id) || which == id)
  {
    var t := ConfirmedWithOutbox(s, which);
    assert t.outbox[..|s.outbox|] == s.outbox;
  }

  lemma RequestRows(s: State, w: nat, a: RequestAction, id: OrderId)
    requires Inv(s) && RequestNext(s, w, a).Some?
    requires RowsOf(s.outbox, id) >= if IsConfirmed(s, id) then 1 else 0
    ensures var t := RequestNext(s, w, a).value;
            RowsOf(t.outbox, id) - (if IsConfirmed(t, id) then 1 else 0)
            == RowsOf(s.outbox, id) - (if IsConfirmed(s, id) then 1 else 0)
               + if CommitsStale(s, Confirm(w, a), id) then 1 else 0
  {
    match s.requests[w]
    case ReqIdle =>
      if a.ReqConfirmAtomically? && a.id < |s.orders| { ConfirmAddsRow(s, a.id, id); }
    case ReqConfirming(which) => WriteRows(s, w, which, a, id);
  }

  lemma WriteRows(s: State, w: nat, which: OrderId, a: RequestAction, id: OrderId)
    requires Inv(s) && w < |s.requests| && s.requests[w] == ReqConfirming(which) && RequestNext(s, w, a).Some?
    requires RowsOf(s.outbox, id) >= if IsConfirmed(s, id) then 1 else 0
    ensures var t := RequestNext(s, w, a).value;
            RowsOf(t.outbox, id) - (if IsConfirmed(t, id) then 1 else 0)
            == RowsOf(s.outbox, id) - (if IsConfirmed(s, id) then 1 else 0)
               + if CommitsStale(s, Confirm(w, a), id) then 1 else 0
  {
    if which < |s.orders| { ConfirmAddsRow(s, which, id); }
  }

  lemma OthersLeaveRowsOf(s: State, step: Step, id: OrderId)
    requires Next(s, step).Some? && !step.Confirm?
    ensures var t := Next(s, step).value;
            RowsOf(t.outbox, id) == RowsOf(s.outbox, id) && IsConfirmed(t, id) == IsConfirmed(s, id)
  {
    var t := Next(s, step).value;
    match step
    case Publish(w, a) =>
      PublisherFrames(s, w, a);
      PublisherGrows(s, w, a);
      RowsDependOnAggregates(s.outbox, t.outbox, id);
    case Replay(w, a) =>
      ReplayerFrames(s, w, a);
      ReplayerGrows(s, w, a);
      RowsDependOnAggregates(s.outbox, t.outbox, id);
    case Retry(w, a) => RetrierFrames(s, w, a);
    case Consume(w, a) => ConsumerFrames(s, w, a);
    case _ =>
  }

  lemma StepRows(s: State, step: Step, id: OrderId)
    requires Inv(s) && Next(s, step).Some?
    requires RowsOf(s.outbox, id) >= if IsConfirmed(s, id) then 1 else 0
    ensures var t := Next(s, step).value;
            RowsOf(t.outbox, id) - (if IsConfirmed(t, id) then 1 else 0)
            == RowsOf(s.outbox, id) - (if IsConfirmed(s, id) then 1 else 0)
               + if CommitsStale(s, step, id) then 1 else 0
  {
    if step.Confirm? {
      RequestRows(s, step.w, step.q, id);
    } else {
      OthersLeaveRowsOf(s, step, id);
    }
  }

  /** An order has one outbox row once it is CONFIRMED, none before, and one more for each confirm that
      committed on a stale read. */
  lemma {:induction false} RowsPerOrder(s0: State, steps: seq<Step>, id: OrderId)
    requires Init(s0) && Run(s0, steps).Some?
    ensures var s := Run(s0, steps).value;
            RowsOf(s.outbox, id) == (if IsConfirmed(s, id) then 1 else 0) + StaleCommits(s0, steps, id)
  {
    if |steps| > 0 {
      var front := steps[..|steps| - 1];
      RowsPerOrder(s0, front, id);
      InitHasInv(s0);
      RunKeepsInv(s0, front);
      StepRows(Run(s0, front).value, steps[|steps| - 1], id);
    }
  }

  ghost predicate NoOverlap(steps: seq<Step>) {
    forall k | 0 <= k < |steps| && steps[k].Confirm? :: !steps[k].q.ReqRead?
  }

  lemma {:induction false} AtomicConfirmsAreNeverStale(s0: State, steps: seq<Step>, id: OrderId)
    requires Init(s0) && Run(s0, steps).Some? && NoOverlap(steps)
    ensures StaleCommits(s0, steps, id) == 0
    ensures forall w | 0 <= w < |Run(s0, steps).value.requests| :: Run(s0, steps).value.requests[w] == ReqIdle
  {
    if |steps| > 0 {
      var front, last := steps[..|steps| - 1], steps[|steps| - 1];
      AtomicConfirmsAreNeverStale(s0, front, id);
      RequestsStayIdle(Run(s0, front).value, last);
    }
  }

  lemma RequestsStayIdle(s: State, step: Step)
    requires Next(s, step).Some? && (step.Confirm? ==> !step.q.ReqRead?)
    requires forall w | 0 <= w < |s.requests| :: s.requests[w] == ReqIdle
    ensures Next(s, step).value.requests == s.requests
  {
    match step
    case Publish(w, a) => PublisherFrames(s, w, a);
    case Retry(w, a) => RetrierFrames(s, w, a);
    case Consume(w, a) => ConsumerFrames(s, w, a);
    case Replay(w, a) => ReplayerFrames(s, w, a);
    case _ =>
  }

  /** Without overlapping confirms, an order is CONFIRMED exactly when it has exactly one outbox row, and
      otherwise it has none. */
  lemma ConfirmedExactlyWhenAnnounced(s0: State, steps: seq<Step>, id: OrderId)
    requires Init(s0) && Run(s0, steps).Some? && NoOverlap(steps)
    ensures var s := Run(s0, steps).value;
            && (IsConfirmed(s, id) <==> RowsOf(s.outbox, id) == 1)
            && (!IsConfirmed(s, id) <==> RowsOf(s.outbox, id) == 0)
  {
    RowsPerOrder(s0, steps, id);
    AtomicConfirmsAreNeverStale(s0, steps, id);
  }

  // ---------------------------------------------------------------- which confirms yield an event id

  /** The confirm commits an outbox row for the order, whose id it returns as `outboxEventId`. */
  predicate Announces(s: State, step: Step, id: OrderId) {
    && step.Confirm? && step.w < |s.requests| && id < |s.orders|
    && match s.requests[step.w]
       case ReqIdle => step.q == ReqConfirmAtomically(id) && s.orders[id].status == Created
       case ReqConfirming(which) => which == id && step.q.ReqWrite? && step.q.o != Refused
  }

  function Announcements(s: State, steps: seq<Step>, id: OrderId): nat {
    if |steps| == 0 then 0
    else
      var at := Run(s, steps[..|steps| - 1]);
      Announcements(s, steps[..|steps| - 1], id)
      + if at.Some? && Announces(at.value, steps[|steps| - 1], id) then 1 else 0
  }

  lemma RequestAnnounces(s: State, w: nat, a: RequestAction, id: OrderId)
    requires RequestNext(s, w, a).Some?
    ensures RowsOf(RequestNext(s, w, a).value.outbox, id)
            == RowsOf(s.outbox, id) + if Announces(s, Confirm(w, a), id) then 1 else 0
  {
    if a.ReqConfirmAtomically? && a.id < |s.orders| { ConfirmAddsRow(s, a.id, id); }
    if s.requests[w].ReqConfirming? && s.requests[w].orderId < |s.orders| {
      ConfirmAddsRow(s, s.requests[w].orderId, id);
    }
  }

  lemma StepAnnounces(s: State, step: Step, id: OrderId)
    requires Next(s, step).Some?
    ensures RowsOf(Next(s, step).value.outbox, id) == RowsOf(s.outbox, id) + if Announces(s, step, id) then 1 else 0
  {
    if step.Confirm? {
      RequestAnnounces(s, step.w, step.q, id);
    } else {
      OthersLeaveRowsOf(s, step, id);
    }
  }

  lemma {:induction false} RowsAreAnnouncements(s0: State, steps: seq<Step>, id: OrderId)
    requires Init(s0) && Run(s0, steps).Some?
    ensures RowsOf(Run(s0, steps).value.outbox, id) == Announcements(s0, steps, id)
  {
    if |steps| > 0 {
      var front := steps[..|steps| - 1];
      RowsAreAnnouncements(s0, front, id);
      StepAnnounces(Run(s0, front).value, steps[|steps| - 1], id);
    }
  }

  /** Of all confirms of an order, exactly one returns an event id once it is CONFIRMED and none before,
      as long as confirms do not overlap. When they do, every confirm that committed on a stale read
      returns one more: at least one, but not exactly one. */
  lemma OneConfirmAnnounces(s0: State, steps: seq<Step>, id: OrderId)
    requires Init(s0) && Run(s0, steps).Some?
    ensures Announcements(s0, steps, id)
            == (if IsConfirmed(Run(s0, steps).value, id) then 1 else 0) + StaleCommits(s0, steps, id)
    ensures NoOverlap(steps) ==> Announcements(s0, steps, id) == if IsConfirmed(Run(s0, steps).value, id) then 1 else 0
  {
    RowsAreAnnouncements(s0, steps, id);
    RowsPerOrder(s0, steps, id);
    if NoOverlap(steps) {
      AtomicConfirmsAreNeverStale(s0, steps, id);
    }
  }
}
