/** Recovery after arbitrary faults: restart the workers, replay the FAILED rows, and drain. */
module Recovery {
  import opened Domain
  import opened Pipeline
  import opened Invariants
  import opened Delivery
  import opened Drain
  import opened FairDrain
  import opened Crew

  // ---------------------------------------------------------------- restart

  /** The first workers and the replay tool, after a restart. */
  function Restarted(s: State): State
    requires |s.replayers| > 0
  {
    s.(publishers := [PubIdle], retriers := [RetIdle], consumers := [ConAt(s.committed)],
       replayers := s.replayers[0 := RepIdle])
  }

  lemma Restart(s: State) returns (steps: seq<Step>)
    requires Inv(s) && |s.replayers| > 0 && Single(s)
    ensures Run(s, steps) == Some(Restarted(s)) && AllByFirst(steps) && Inv(Restarted(s))
  {
    var a, b, c, d := Publish(0, PubCrash), Retry(0, RetCrash), Consume(0, ConRestart), Replay(0, RepCrash);
    var s1 := s.(publishers := [PubIdle]);
    var s2 := s1.(retriers := [RetIdle]);
    var s3 := s2.(consumers := [ConAt(s.committed)]);
    assert Next(s, a) == Some(s1) by { assert s.publishers[0 := PubIdle] == [PubIdle]; }
    assert Next(s1, b) == Some(s2) by { assert s1.retriers[0 := RetIdle] == [RetIdle]; }
    assert Next(s2, c) == Some(s3) by { assert s2.consumers[0 := ConAt(s.committed)] == [ConAt(s.committed)]; }
    RunExtends(s, [], s, a);
    RunExtends(s, [] + [a], s1, b);
    RunExtends(s, [] + [a] + [b], s2, c);
    RunExtends(s, [] + [a] + [b] + [c], s3, d);
    steps := [] + [a] + [b] + [c] + [d];
    RunKeepsInv(s, steps);
  }

  // ---------------------------------------------------------------- replay

  /** What a replay leaves alone. */
  ghost predicate Undisturbed(s: State, t: State) {
    && t.cfg == s.cfg && t.orders == s.orders && t.ledger == s.ledger && t.topic == s.topic
    && OutboxGrows(s.outbox, t.outbox) && |t.outbox| == |s.outbox|
    && InboxGrows(s.inbox, t.inbox) && |t.inbox| == |s.inbox|
    && (forall i | 0 <= i < |t.outbox| && t.outbox[i].status == Abandoned :: s.outbox[i].status == Abandoned)
    && (forall i | 0 <= i < |t.outbox| && t.outbox[i].status == Sent :: s.outbox[i].status == Sent)
    && (forall i | 0 <= i < |t.inbox| && t.inbox[i].status == Failed :: s.inbox[i].status == Failed)
    && t.publishers == s.publishers && t.retriers == s.retriers && t.consumers == s.consumers
    && t.committed == s.committed && |t.replayers| == |s.replayers|
  }

  lemma ReplayStep(s: State, a: ReplayerAction)
    requires ReplayerNext(s, 0, a).Some?
    ensures Undisturbed(s, ReplayerNext(s, 0, a).value)
  {
    ReplayerFrames(s, 0, a);
    ReplayerGrows(s, 0, a);
  }

  predicate AllReplay(steps: seq<Step>) {
    forall k | 0 <= k < |steps| :: steps[k].Replay? && steps[k].w == 0
  }

  lemma {:induction false} ResetOutbox(s: State, rows: seq<Saved>, reset: bool) returns (steps: seq<Step>)
    requires |s.replayers| > 0 && s.replayers[0] == RepOutbox(rows, reset)
    requires forall k | 0 <= k < |rows| :: rows[k].id < |s.outbox|
    ensures AllReplay(steps) && Run(s, steps).Some?
    ensures var t := Run(s, steps).value; |t.replayers| > 0 && t.replayers[0] == RepIdle && Undisturbed(s, t)
    ensures forall k | 0 <= k < |rows| :: Run(s, steps).value.outbox[rows[k].id].status != Abandoned
    ensures forall i | 0 <= i < |s.outbox| && !Covers(rows, i) :: Run(s, steps).value.outbox[i] == s.outbox[i]
    decreases |rows|
  {
    var a := if |rows| == 0 then RepFinish else RepReset(Ok);
    ReplayStep(s, a);
    var rest := [];
    if |rows| > 0 {
      rest := ResetOutbox(ReplayerNext(s, 0, a).value, rows[1..], reset);
      assert forall k | 0 < k < |rows| :: rows[k] == rows[1..][k - 1];
    }
    steps := [Replay(0, a)] + rest;
    RunPrepend(s, Replay(0, a), rest);
  }

  lemma {:induction false} ResetInbox(s: State, rows: seq<Saved>, reset: bool) returns (steps: seq<Step>)
    requires |s.replayers| > 0 && s.replayers[0] == RepInbox(rows, reset)
    requires forall k | 0 <= k < |rows| :: rows[k].id < |s.inbox|
    ensures AllReplay(steps) && Run(s, steps).Some?
    ensures var t := Run(s, steps).value; |t.replayers| > 0 && t.replayers[0] == RepIdle && Undisturbed(s, t)
    ensures forall k | 0 <= k < |rows| :: Run(s, steps).value.inbox[rows[k].id].status != Failed
    ensures Run(s, steps).value.outbox == s.outbox
    decreases |rows|
  {
    var a := if |rows| == 0 then RepFinish else RepReset(Ok);
    ReplayStep(s, a);
    var rest := [];
    if |rows| > 0 {
      rest := ResetInbox(ReplayerNext(s, 0, a).value, rows[1..], reset);
      assert forall k | 0 < k < |rows| :: rows[k] == rows[1..][k - 1];
    }
    steps := [Replay(0, a)] + rest;
    RunPrepend(s, Replay(0, a), rest);
  }

  lemma FetchedOutboxCovers(s: State)
    ensures var rows := FetchedOutbox(s.outbox, Abandoned, |s.outbox| + 1);
            && (forall k | 0 <= k < |rows| :: rows[k].id < |s.outbox|)
            && forall i | 0 <= i < |s.outbox| && s.outbox[i].status == Abandoned :: Covers(rows, i)
  {
    var rows := FetchedOutbox(s.outbox, Abandoned, |s.outbox| + 1);
    PicksFitIn(rows, |s.outbox|);
    forall i | 0 <= i < |s.outbox| && s.outbox[i].status == Abandoned ensures Covers(rows, i) {
      FetchedOutboxLeavesOut(s.outbox, Abandoned, |s.outbox| + 1, i);
    }
  }

  /** Replaying FAILED outbox rows with a limit above the table's size leaves none. */
  lemma ReplayOutbox(s: State, reset: bool) returns (steps: seq<Step>)
    requires |s.replayers| > 0 && s.replayers[0] == RepIdle
    ensures AllReplay(steps) && Run(s, steps).Some?
    ensures var t := Run(s, steps).value;
            |t.replayers| > 0 && t.replayers[0] == RepIdle && Undisturbed(s, t)
            && (forall i | 0 <= i < |t.outbox| :: t.outbox[i].status != Abandoned)
            && forall i | 0 <= i < |t.outbox| && s.outbox[i].status != Abandoned :: t.outbox[i] == s.outbox[i]
  {
    var a := RepFetchOutbox(Abandoned, |s.outbox| + 1, reset);
    ReplayStep(s, a);
    FetchedOutboxCovers(s);
    var rows := FetchedOutbox(s.outbox, Abandoned, |s.outbox| + 1);
    var rest := ResetOutbox(ReplayerNext(s, 0, a).value, rows, reset);
    steps := [Replay(0, a)] + rest;
    RunPrepend(s, Replay(0, a), rest);
  }

  lemma FetchedInboxCovers(s: State)
    ensures var rows := FetchedInbox(s.inbox, ByStatus(Failed), |s.inbox| + 1);
            && (forall k | 0 <= k < |rows| :: rows[k].id < |s.inbox|)
            && forall i | 0 <= i < |s.inbox| && s.inbox[i].status == Failed :: Covers(rows, i)
  {
    var rows := FetchedInbox(s.inbox, ByStatus(Failed), |s.inbox| + 1);
    PicksFitIn(rows, |s.inbox|);
    forall i | 0 <= i < |s.inbox| && s.inbox[i].status == Failed ensures Covers(rows, i) {
      FetchedInboxLeavesOut(s.inbox, ByStatus(Failed), |s.inbox| + 1, i);
    }
  }

  /** Replaying FAILED inbox rows with a limit above the table's size leaves none. */
  lemma ReplayInbox(s: State, reset: bool) returns (steps: seq<Step>)
    requires |s.replayers| > 0 && s.replayers[0] == RepIdle
    ensures AllReplay(steps) && Run(s, steps).Some?
    ensures var t := Run(s, steps).value;
            |t.replayers| > 0 && t.replayers[0] == RepIdle && Undisturbed(s, t)
            && t.outbox == s.outbox && forall i | 0 <= i < |t.inbox| :: t.inbox[i].status != Failed
  {
    var a := RepFetchInbox(ByStatus(Failed), |s.inbox| + 1, reset);
    ReplayStep(s, a);
    FetchedInboxCovers(s);
    var rows := FetchedInbox(s.inbox, ByStatus(Failed), |s.inbox| + 1);
    var rest := ResetInbox(ReplayerNext(s, 0, a).value, rows, reset);
    steps := [Replay(0, a)] + rest;
    RunPrepend(s, Replay(0, a), rest);
  }

  /** Increasing positions below n are at most n. */
  lemma {:induction false} PicksFitIn(rows: seq<Saved>, n: nat)
    requires forall i, j | 0 <= i < j < |rows| :: rows[i].id < rows[j].id
    requires forall i | 0 <= i < |rows| :: rows[i].id < n
    ensures |rows| <= n
  {
    if |rows| > 0 {
      PicksFitIn(rows[..|rows| - 1], rows[|rows| - 1].id);
    }
  }

  // ---------------------------------------------------------------- orders that stay lost

  predicate Names(m: Message, id: OrderId) {
    m.Event? && m.payload.orderId == Some(id)
  }

  /** Some event of another producer names the order. */
  ghost predicate NamedByOthers(s: State, id: OrderId) {
    || (exists k :: 0 <= k < |s.topic| && Names(s.topic[k], id) && s.topic[k].source.Foreign?)
    || (exists i :: 0 <= i < |s.inbox| && s.inbox[i].payload.orderId == Some(id) && s.inbox[i].source.Foreign?)
  }

  /** Nothing the workers still have to do names the order. */
  ghost predicate Doomed(s: State, id: OrderId) {
    && Single(s) && !HasCredit(s.ledger, id)
    && (forall i | 0 <= i < |s.outbox| && s.outbox[i].aggregateId == id :: s.outbox[i].status == Sent)
    && (forall k | 0 <= k < |s.topic| && Names(s.topic[k], id) :: k < s.consumers[0].at)
    && (forall i | 0 <= i < |s.inbox| :: s.inbox[i].payload.orderId != Some(id))
  }

  lemma LostIsDoomed(s: State, id: OrderId)
    requires Inv(s) && |s.replayers| > 0 && IsLost(s, id) && !NamedByOthers(s, id)
    ensures Doomed(Restarted(s), id)
  {
    forall i | 0 <= i < |s.inbox| ensures s.inbox[i].payload.orderId != Some(id) {
      if s.inbox[i].payload.orderId == Some(id) {
        assert IsEventOf(s, s.inbox[i].source, id);
        if s.inbox[i].status == Processed { OwnInboxRowMeansCredit(s, id, i); }
      }
    }
    forall k | 0 <= k < |s.topic| && Names(s.topic[k], id) ensures k < s.committed {
      assert IsEventOf(s, s.topic[k].source, id);
    }
  }

  lemma PublisherKeepsDoomed(s: State, gone: set<nat>, a: PublisherAction, id: OrderId, d: Duplicates)
    requires Ready(s, gone) && Doomed(s, id) && PublisherNext(s, 0, a).Some? && FaultFree(s, Publish(0, a), d)
    ensures Doomed(PublisherNext(s, 0, a).value, id)
  {
    PublisherFrames(s, 0, a);
    PublisherGrows(s, 0, a);
    var p := s.publishers[0];
    assert PublisherOk(s.outbox, s.topic, p);
    if p.PubClaimed? && a.PubSend? {
      var t := PublisherNext(s, 0, a).value;
      assert s.outbox[p.job.id].aggregateId != id;
      assert t.topic == s.topic + [MessageOf(p.job)];
    }
  }

  lemma PostedElsewhere(orders: seq<Order>, ledger: seq<Entry>, other: Option<OrderId>, rule: Rule, id: OrderId)
    requires !HasCredit(ledger, id) && other != Some(id)
    ensures !HasCredit(Posted(orders, ledger, other, rule), id)
  {}

  lemma RetrierKeepsDoomed(s: State, gone: set<nat>, a: RetrierAction, id: OrderId)
    requires Ready(s, gone) && Doomed(s, id) && RetrierNext(s, 0, a).Some?
    ensures Doomed(RetrierNext(s, 0, a).value, id)
  {
    RetrierFrames(s, 0, a);
    RetrierGrows(s, 0, a);
    var r := s.retriers[0];
    assert RetrierOk(s.inbox, s.ledger, r);
    if r.RetBatch? && |r.rest| > 0 && a.RetProcess? {
      assert InboxJobOk(s.inbox, r.rest[0]);
      PostedElsewhere(s.orders, s.ledger, r.rest[0].payload.orderId, a.rule, id);
    }
  }

  lemma ConsumerKeepsDoomed(s: State, gone: set<nat>, a: ConsumerAction, id: OrderId)
    requires Ready(s, gone) && Doomed(s, id) && ConsumerNext(s, 0, a).Some? && a != ConRestart
    ensures Doomed(ConsumerNext(s, 0, a).value, id)
  {
    ConsumerFrames(s, 0, a);
    var c := s.consumers[0];
    assert ConsumerOk(s.topic, s.inbox, s.ledger, c);
    assert c.at < |s.topic| ==> !Names(s.topic[c.at], id);
    if c.ConStored? && a.ConProcess? {
      PostedElsewhere(s.orders, s.ledger, s.topic[c.at].payload.orderId, a.rule, id);
    }
  }

  lemma {:induction false} RunKeepsDoomed(s: State, gone: set<nat>, steps: seq<Step>, id: OrderId, d: Duplicates)
    requires Ready(s, gone) && Doomed(s, id) && Run(s, steps).Some? && AllFaultFree(s, steps, d)
    ensures Doomed(Run(s, steps).value, id)
  {
    if |steps| > 0 {
      var front, last := steps[..|steps| - 1], steps[|steps| - 1];
      RunKeepsDoomed(s, gone, front, id, d);
      RunStaysReady(s, gone, front, d);
      StepKeepsDoomed(Run(s, front).value, gone, last, id, d);
    }
  }

  lemma StepKeepsDoomed(s: State, gone: set<nat>, step: Step, id: OrderId, d: Duplicates)
    requires Ready(s, gone) && Doomed(s, id) && Next(s, step).Some? && FaultFree(s, step, d)
    ensures Doomed(Next(s, step).value, id)
  {
    match step
    case Publish(w, a) =>
      assert w == 0;
      PublisherKeepsDoomed(s, gone, a, id, d);
    case Retry(w, a) =>
      assert w == 0;
      RetrierKeepsDoomed(s, gone, a, id);
    case Consume(w, a) =>
      assert w == 0;
      ConsumerKeepsDoomed(s, gone, a, id);
    case _ =>
  }

  // ---------------------------------------------------------------- recovery

  /** Something is left of the row's event: it has yet to be sent, a copy has yet to be committed, or it is
      in the inbox. */
  ghost predicate Traced(s: State, row: nat) {
    && row < |s.outbox|
    && (|| s.outbox[row].status != Sent || InInbox(s.inbox, Own(row))
        || exists k: nat :: s.committed <= k && IsCopy(s.topic, k, row))
  }

  lemma TracedUnlessLost(s: State, id: OrderId) returns (row: nat)
    requires Inv(s) && Awaiting(s, id) && !IsLost(s, id)
    ensures Traced(s, row) && s.outbox[row].aggregateId == id
  {
    if OutboxTrace(s, id) {
      row :| row < |s.outbox| && s.outbox[row].aggregateId == id && s.outbox[row].status != Sent;
    } else if TopicTrace(s, id) {
      var k: nat :| s.committed <= k < |s.topic| && s.topic[k].Event? && IsEventOf(s, s.topic[k].source, id);
      row := s.topic[k].source.row;
      assert IsCopy(s.topic, k, row);
    } else {
      var i :| 0 <= i < |s.inbox| && IsEventOf(s, s.inbox[i].source, id) && s.inbox[i].status != Processed;
      row := s.inbox[i].source.row;
    }
  }

  /** The state `r` is a repair of `s`: the first workers are ready to drain it, what is left of any event
      leads on to its credit, and nothing else names a lost order. */
  ghost predicate Repaired(s: State, r: State) {
    && Manned(r) && Ready(First(r), Missing(s))
    && r.cfg == s.cfg && r.orders == s.orders && r.ledger == s.ledger && r.topic == s.topic
    && OutboxGrows(s.outbox, r.outbox)
    && (forall row | Traced(s, row) :: OnItsWay(First(r), Missing(s), row))
    && (forall id | IsLost(s, id) && !NamedByOthers(s, id) :: Doomed(First(r), id))
  }

  lemma TracedStays(s: State, q: State, row: nat)
    requires |s.replayers| > 0 && Traced(s, row) && Undisturbed(Restarted(s), q)
    ensures OnItsWay(q, Missing(s), row)
  {
    if InInbox(s.inbox, Own(row)) {
      var i :| 0 <= i < |s.inbox| && s.inbox[i].source == Own(row);
      assert q.inbox[i].source == Own(row);
    } else if k: nat :| s.committed <= k && IsCopy(s.topic, k, row) {
      assert FreshCopy(q.topic, Missing(s), row, k);
    }
  }

  lemma DoomedStays(s: State, q: State, id: OrderId)
    requires Doomed(s, id) && Undisturbed(s, q)
    requires forall i | 0 <= i < |s.outbox| && s.outbox[i].status != Abandoned :: q.outbox[i] == s.outbox[i]
    ensures Doomed(q, id)
  {}

  /** Both replays, from a restarted system. */
  lemma ReplayAll(s: State, reset: bool) returns (steps: seq<Step>, q: State)
    requires Inv(s) && |s.replayers| > 0 && s.replayers[0] == RepIdle
    ensures Run(s, steps) == Some(q) && AllReplay(steps) && Inv(q) && Undisturbed(s, q)
    ensures forall i | 0 <= i < |q.outbox| :: q.outbox[i].status != Abandoned
    ensures forall i | 0 <= i < |q.inbox| :: q.inbox[i].status != Failed
    ensures forall i | 0 <= i < |s.outbox| && s.outbox[i].status != Abandoned :: q.outbox[i] == s.outbox[i]
  {
    var b := ReplayOutbox(s, reset);
    var m := Run(s, b).value;
    var c := ReplayInbox(m, reset);
    RunConcat(s, b, c);
    steps, q := b + c, Run(m, c).value;
    RunKeepsInv(s, steps);
  }

  lemma ReplayedIsReady(s: State, gone: set<nat>, q: State)
    requires |s.replayers| > 0 && HandledBelow(s.topic, s.inbox, gone, s.committed)
    requires Inv(q) && Undisturbed(Restarted(s), q)
    requires forall i | 0 <= i < |q.outbox| :: q.outbox[i].status != Abandoned
    requires forall i | 0 <= i < |q.inbox| :: q.inbox[i].status != Failed
    ensures Ready(q, gone)
  {
    forall k | 0 <= k < q.committed && k < |q.topic| && q.topic[k].Event?
      ensures k in gone || InInbox(q.inbox, q.topic[k].source)
    {
      if k !in gone {
        var i :| 0 <= i < |s.inbox| && s.inbox[i].source == s.topic[k].source;
        assert q.inbox[i].source == q.topic[k].source;
      }
    }
  }

  lemma FirstHasInv(s: State)
    requires Inv(s) && Manned(s)
    ensures Inv(First(s)) && Missing(First(s)) == Missing(s)
  {
    forall w | 0 <= w < 1 ensures PublisherOk(s.outbox, s.topic, s.publishers[..1][w]) {
      assert PublisherOk(s.outbox, s.topic, s.publishers[w]);
    }
    forall w | 0 <= w < 1 ensures RetrierOk(s.inbox, s.ledger, s.retriers[..1][w]) {
      assert RetrierOk(s.inbox, s.ledger, s.retriers[w]);
    }
    forall w | 0 <= w < 1 ensures ConsumerOk(s.topic, s.inbox, s.ledger, s.consumers[..1][w]) {
      assert ConsumerOk(s.topic, s.inbox, s.ledger, s.consumers[w]);
    }
  }

  /** The repair of the first workers. */
  lemma RepairFirst(s: State, reset: bool) returns (steps: seq<Step>, q: State)
    requires Inv(s) && Single(s) && |s.replayers| > 0
    ensures Run(s, steps) == Some(q) && AllByFirst(steps) && Ready(q, Missing(s)) && Undisturbed(Restarted(s), q)
    ensures forall row | Traced(s, row) :: OnItsWay(q, Missing(s), row)
    ensures forall id | IsLost(s, id) && !NamedByOthers(s, id) :: Doomed(q, id)
  {
    var a := Restart(s);
    var b;
    b, q := ReplayAll(Restarted(s), reset);
    RunConcat(s, a, b);
    steps := a + b;
    AllButMissingHandled(s);
    ReplayedIsReady(s, Missing(s), q);
    forall row | Traced(s, row) ensures OnItsWay(q, Missing(s), row) {
      TracedStays(s, q, row);
    }
    forall id | IsLost(s, id) && !NamedByOthers(s, id) ensures Doomed(q, id) {
      LostIsDoomed(s, id);
      DoomedStays(Restarted(s), q, id);
    }
  }

  /** From every reachable state, whatever happened before and however many workers took part, restarting
      the first worker of each kind and replaying the FAILED rows repairs the system. */
  lemma Repair(s: State, reset: bool) returns (steps: seq<Step>, r: State)
    requires Reachable(s) && Manned(s) && |s.replayers| > 0
    ensures AllByFirst(steps) && Run(s, steps) == Some(r) && Repaired(s, r)
  {
    ReachableHasInv(s);
    FirstHasInv(s);
    var q;
    steps, q := RepairFirst(First(s), reset);
    FirstRuns(s, steps);
    r := Run(s, steps).value;
    assert First(r) == q;
    forall row | Traced(s, row) ensures OnItsWay(q, Missing(s), row) {
      assert Traced(First(s), row);
    }
    forall id | IsLost(s, id) && !NamedByOthers(s, id) ensures Doomed(q, id) {
      assert IsLost(First(s), id) && !NamedByOthers(First(s), id);
    }
  }

  lemma {:induction false} FaultFreeKeepsOrders(s: State, steps: seq<Step>, d: Duplicates)
    requires Run(s, steps).Some? && AllFaultFree(s, steps, d)
    ensures Run(s, steps).value.orders == s.orders && s.ledger <= Run(s, steps).value.ledger
  {
    if |steps| > 0 {
      var front, last := steps[..|steps| - 1], steps[|steps| - 1];
      FaultFreeKeepsOrders(s, front, d);
      match last
      case Publish(w, a) => PublisherFrames(Run(s, front).value, w, a);
      case Retry(w, a) =>
        RetrierFrames(Run(s, front).value, w, a);
        RetrierGrows(Run(s, front).value, w, a);
      case Consume(w, a) =>
        ConsumerFrames(Run(s, front).value, w, a);
        ConsumerGrows(Run(s, front).value, w, a);
      case _ =>
    }
  }

  lemma StepIsByFirst(s: State, step: Step)
    requires Single(s) && Next(s, step).Some?
    ensures ByFirst(step) && Single(Next(s, step).value)
  {
    match step
    case Publish(w, a) => PublisherFrames(s, w, a);
    case Retry(w, a) => RetrierFrames(s, w, a);
    case Consume(w, a) => ConsumerFrames(s, w, a);
    case Replay(w, a) => ReplayerFrames(s, w, a);
    case _ =>
  }

  lemma OneMoreByFirst(front: seq<Step>, last: Step)
    requires AllByFirst(front) && ByFirst(last)
    ensures AllByFirst(front + [last])
  {}

  lemma {:induction false} RunIsByFirst(s: State, steps: seq<Step>)
    requires Single(s) && Run(s, steps).Some?
    ensures AllByFirst(steps) && Single(Run(s, steps).value)
  {
    if |steps| > 0 {
      var front, last := steps[..|steps| - 1], steps[|steps| - 1];
      RunIsByFirst(s, front);
      StepIsByFirst(Run(s, front).value, last);
      OneMoreByFirst(front, last);
      assert steps == front + [last];
    }
  }

  /** What a drained system has credited, for every fault-free run of the first workers to the end: every
      CONFIRMED order that was not lost, no order that was not CONFIRMED, and no lost order, unless an event of
      another producer names it. */
  lemma DrainedCredits(s: State, r: State, drain: seq<Step>, id: OrderId, d: Duplicates)
    requires Reachable(s) && Repaired(s, r)
    requires AllByFirst(drain) && Run(r, drain).Some? && AllFaultFree(r, drain, d)
    requires Manned(Run(r, drain).value) && Finished(First(Run(r, drain).value))
    ensures var t := Run(r, drain).value; var confirmed := id < |s.orders| && s.orders[id].status == Confirmed;
            && t.orders == s.orders
            && (confirmed && !IsLost(s, id) ==> HasCredit(t.ledger, id))
            && (HasCredit(t.ledger, id) ==> confirmed)
            && (!NamedByOthers(s, id) ==> (HasCredit(t.ledger, id) <==> confirmed && !IsLost(s, id)))
  {
    var gone, t := Missing(s), Run(r, drain).value;
    FirstRuns(r, drain);
    FirstIsFaultFree(r, drain, d);
    RunStaysReady(First(r), gone, drain, d);
    FaultFreeKeepsOrders(r, drain, d);
    ReachableHasInv(s);
    if Awaiting(s, id) && !IsLost(s, id) {
      var row := TracedUnlessLost(s, id);
      RunKeepsOnItsWay(First(r), gone, drain, row, d);
      FinishedMeansCredited(First(t), gone, row);
      DrainKeepsRows(r, gone, drain, row, d);
    } else if HasCredit(s.ledger, id) {
      CreditsPersist(s.ledger, t.ledger, id);
    }
    if IsLost(s, id) && !NamedByOthers(s, id) {
      RunKeepsDoomed(First(r), gone, drain, id, d);
    }
  }

  lemma {:induction false} DrainKeepsRows(r: State, gone: set<nat>, drain: seq<Step>, row: nat, d: Duplicates)
    requires Manned(r) && Ready(First(r), gone) && row < |r.outbox|
    requires AllByFirst(drain) && Run(r, drain).Some? && AllFaultFree(r, drain, d)
    ensures var t := Run(r, drain).value; row < |t.outbox| && t.outbox[row].aggregateId == r.outbox[row].aggregateId
  {
    if |drain| > 0 {
      var front := drain[..|drain| - 1];
      DrainKeepsRows(r, gone, front, row, d);
      FirstRuns(r, front);
      FirstIsFaultFree(r, front, d);
      RunStaysReady(First(r), gone, front, d);
      StepGrows(Run(r, front).value, drain[|drain| - 1]);
    }
  }

  /** Recovery: from every reachable state, with any number of workers and whatever was refused before, the
      repair exists; after it every fault-free run of the first workers does a bounded amount of work, and
      one of them reaches the end, whether the handler's duplicate branch returns or throws. At the end no row
      is PENDING, and exactly the CONFIRMED orders that were not lost have their credit. */
  lemma RecoveryDrains(s: State, reset: bool, d: Duplicates) returns (repair: seq<Step>, r: State, drain: seq<Step>)
    requires Reachable(s) && Manned(s) && |s.replayers| > 0 && BatchesOpen(s.cfg)
    ensures AllByFirst(repair) && Run(s, repair) == Some(r) && Repaired(s, r) && ConsumerInRange(First(r))
    ensures AllByFirst(drain) && Run(r, drain).Some? && AllFaultFree(r, drain, d)
    ensures var t := Run(r, drain).value;
            && Manned(t) && Quiet(First(t)) && WorkDone(drain) <= Rank(First(r))
            && forall id: OrderId ::
                 var confirmed := id < |s.orders| && s.orders[id].status == Confirmed;
                 && (confirmed && !IsLost(s, id) ==> HasCredit(t.ledger, id))
                 && (!NamedByOthers(s, id) ==> (HasCredit(t.ledger, id) <==> confirmed && !IsLost(s, id)))
  {
    repair, r := Repair(s, reset);
    ReadyInRange(First(r));
    drain := DrainsToTheEnd(First(r), Missing(s), d);
    RunIsByFirst(First(r), drain);
    FirstRuns(r, drain);
    FirstIsFaultFree(r, drain, d);
    WorkIsBounded(First(r), Missing(s), drain, d);
    forall id: OrderId ensures
        var t := Run(r, drain).value; var confirmed := id < |s.orders| && s.orders[id].status == Confirmed;
        && (confirmed && !IsLost(s, id) ==> HasCredit(t.ledger, id))
        && (!NamedByOthers(s, id) ==> (HasCredit(t.ledger, id) <==> confirmed && !IsLost(s, id)))
    {
      DrainedCredits(s, r, drain, id, d);
    }
  }

  /** Every fault-free run after the repair, however scheduled, does at most as much work as the rank. */
  lemma RecoveryIsBounded(s: State, r: State, drain: seq<Step>, d: Duplicates)
    requires Repaired(s, r) && AllByFirst(drain) && Run(r, drain).Some? && AllFaultFree(r, drain, d)
    ensures ConsumerInRange(First(r)) && WorkDone(drain) <= Rank(First(r))
  {
    FirstRuns(r, drain);
    FirstIsFaultFree(r, drain, d);
    ReadyInRange(First(r));
    WorkIsBounded(First(r), Missing(s), drain, d);
  }

  /** And every fair one, with more rounds of the first workers than the rank, ends with nothing left and
      those credits, however it is scheduled. */
  lemma RecoveryFinishes(s: State, r: State, rounds: seq<seq<Step>>, t: State, id: OrderId, d: Duplicates)
    requires Reachable(s) && Repaired(s, r) && BatchesOpen(s.cfg) && ConsumerInRange(First(r))
    requires FairRun(First(r), rounds, t, d) && |rounds| > Rank(First(r))
    ensures Finished(t)
    ensures var confirmed := id < |s.orders| && s.orders[id].status == Confirmed;
            && (confirmed && !IsLost(s, id) ==> HasCredit(t.ledger, id))
            && (!NamedByOthers(s, id) ==> (HasCredit(t.ledger, id) <==> confirmed && !IsLost(s, id)))
  {
    FairRunsFinish(First(r), Missing(s), rounds, t, d);
    var drain := RoundsAreRun(First(r), rounds, t, d);
    RunIsByFirst(First(r), drain);
    FirstRuns(r, drain);
    FirstIsFaultFree(r, drain, d);
    DrainedCredits(s, r, drain, id, d);
  }
}
