/** Events of other producers, whose ids nobody keeps apart: exactly when a row can end PROCESSED although its
    own order has no credit. */
module ForeignEvents {
  import opened Domain
  import opened Pipeline
  import opened Invariants
  import opened Delivery

  /** Any step but a new foreign message: workers, replay tool, new orders, confirms and time. */
  predicate Internal(step: Step) {
    !step.Inject?
  }

  ghost predicate AllInternal(steps: seq<Step>) {
    forall k | 0 <= k < |steps| :: Internal(steps[k])
  }

  /** Some continuation without new foreign messages marks the row PROCESSED while its order stays without a credit. */
  ghost predicate CanMarkUncredited(s: State, i: nat) {
    exists steps :: AllInternal(steps) && Run(s, steps).Some? && MarkedUncredited(Run(s, steps).value, i)
  }

  predicate MarkedUncredited(t: State, i: nat) {
    i < |t.inbox| && t.inbox[i].status == Processed && !CreditedId(t.ledger, t.inbox[i].payload.orderId)
  }

  /** Some consumer can still come to the message: it is not past it, or finds it again after a restart. */
  predicate InReach(s: State, k: nat) {
    exists w | 0 <= w < |s.consumers| :: s.consumers[w].at <= k || s.committed <= k
  }

  /** The order is CONFIRMED; or it is CREATED or yet to be created, and there is an API to confirm it. */
  predicate CanBeCredited(s: State, id: OrderId) {
    if id < |s.orders| && s.orders[id].status != Created then s.orders[id].status == Confirmed else |s.requests| > 0
  }

  predicate NamesOther(topic: seq<Message>, source: SourceId, id: Option<OrderId>, k: nat) {
    k < |topic| && topic[k].Event? && topic[k].source == source && topic[k].payload.orderId != id
  }

  /** The message has the id and names another order, which can be credited. */
  predicate Misleads(s: State, source: SourceId, id: Option<OrderId>, k: nat) {
    && NamesOther(s.topic, source, id, k)
    && s.topic[k].payload.orderId.Some? && CanBeCredited(s, s.topic[k].payload.orderId.value)
  }

  ghost predicate Misleading(s: State, source: SourceId, id: Option<OrderId>) {
    exists k: nat :: Misleads(s, source, id, k) && InReach(s, k)
  }

  // ---------------------------------------------------------------- only if

  /** As long as no misleading message is in reach, the row is PROCESSED only with its order's credit. */
  ghost predicate Sound(s: State, i: nat) {
    && i < |s.inbox| && s.inbox[i].source.Foreign?
    && !Misleading(s, s.inbox[i].source, s.inbox[i].payload.orderId)
    && !MarkedUncredited(s, i)
  }

  lemma CreditedIsCreditable(s: State, id: Option<OrderId>)
    requires LedgerOk(s.orders, s.ledger) && CreditedId(s.ledger, id)
    ensures Creditable(s.orders, id)
  {
    var e :| 0 <= e < |s.ledger| && s.ledger[e].orderId == id.value && s.ledger[e].kind == Credit;
    assert EntryOk(s.orders, s.ledger[e]);
  }

  /** Reach never grows, and new messages are the publishers' own. */
  lemma ReachShrinks(s: State, step: Step, k: nat)
    requires Internal(step) && Next(s, step).Some? && InReach(Next(s, step).value, k)
    ensures InReach(s, k)
  {
    var t := Next(s, step).value;
    var v :| 0 <= v < |t.consumers| && (t.consumers[v].at <= k || t.committed <= k);
    if step.Consume? {
      ConsumerReach(s, step.w, step.c, v, k);
    } else {
      OthersLeaveConsumers(s, step);
      assert t.consumers[v] == s.consumers[v];
    }
  }

  lemma ConsumerReach(s: State, w: nat, a: ConsumerAction, v: nat, k: nat)
    requires ConsumerNext(s, w, a).Some?
    requires var t := ConsumerNext(s, w, a).value; v < |t.consumers| && (t.consumers[v].at <= k || t.committed <= k)
    ensures InReach(s, k)
  {
    ConsumerFrames(s, w, a);
    var t := ConsumerNext(s, w, a).value;
    if v != w {
      assert t.consumers[v] == s.consumers[v];
    }
    assert s.consumers[w].at <= k || s.committed <= k || s.consumers[v].at <= k;
  }

  lemma TopicAddsOwn(s: State, step: Step)
    requires Internal(step) && Next(s, step).Some?
    ensures var t := Next(s, step).value;
            && s.topic <= t.topic
            && forall k | |s.topic| <= k < |t.topic| :: t.topic[k].Event? && t.topic[k].source.Own?
  {
    match step
    case Publish(w, a) => PublisherFrames(s, w, a);
    case Retry(w, a) => RetrierFrames(s, w, a);
    case Replay(w, a) => ReplayerFrames(s, w, a);
    case Consume(w, a) => ConsumerFrames(s, w, a);
    case _ =>
  }

  /** An order that can be credited after a step could be before it. */
  lemma CouldBeCredited(s: State, step: Step, id: OrderId)
    requires RequestsOk(s) && Next(s, step).Some? && CanBeCredited(Next(s, step).value, id)
    ensures CanBeCredited(s, id)
  {
    match step
    case Publish(w, a) => PublisherFrames(s, w, a);
    case Retry(w, a) => RetrierFrames(s, w, a);
    case Replay(w, a) => ReplayerFrames(s, w, a);
    case Consume(w, a) => ConsumerFrames(s, w, a);
    case Confirm(w, a) => assert OrdersGrow(s.orders, Next(s, step).value.orders) by { RequestGrows(s, w, a); }
    case _ =>
  }

  lemma StepKeepsUnmisled(s: State, step: Step, source: SourceId, id: Option<OrderId>)
    requires RequestsOk(s) && Internal(step) && Next(s, step).Some? && source.Foreign? && !Misleading(s, source, id)
    ensures !Misleading(Next(s, step).value, source, id)
  {
    var t := Next(s, step).value;
    TopicAddsOwn(s, step);
    if k: nat :| Misleads(t, source, id, k) && InReach(t, k) {
      CouldBeCredited(s, step, t.topic[k].payload.orderId.value);
      assert Misleads(s, source, id, k);
      ReachShrinks(s, step, k);
    }
  }

  /** A row is marked PROCESSED by a retry loop that credited its order, or by a consumer that credited the
      order of a message with its id. */
  lemma MarkMeansCredit(s: State, step: Step, i: nat)
    requires Inv(s) && Internal(step) && Next(s, step).Some? && Sound(s, i)
    requires i < |Next(s, step).value.inbox| && Next(s, step).value.inbox[i].status == Processed
    ensures CreditedId(s.ledger, s.inbox[i].payload.orderId)
  {
    match step
    case Publish(w, a) => PublisherFrames(s, w, a);
    case Retry(w, a) =>
      RetrierFrames(s, w, a);
      assert RetrierOk(s.inbox, s.ledger, s.retriers[w]);
    case Replay(w, a) => ReplayerFrames(s, w, a);
    case Consume(w, a) => ConsumerMarkMeansCredit(s, w, a, i);
    case _ =>
  }

  lemma ConsumerMarkMeansCredit(s: State, w: nat, a: ConsumerAction, i: nat)
    requires Inv(s) && ConsumerNext(s, w, a).Some? && Sound(s, i)
    requires i < |ConsumerNext(s, w, a).value.inbox| && ConsumerNext(s, w, a).value.inbox[i].status == Processed
    ensures CreditedId(s.ledger, s.inbox[i].payload.orderId)
  {
    assert ConsumerOk(s.topic, s.inbox, s.ledger, s.consumers[w]);
    if s.inbox[i].status != Processed {
      var at, named := s.consumers[w].at, s.topic[s.consumers[w].at].payload.orderId;
      CreditedIsCreditable(s, named);
      if named != s.inbox[i].payload.orderId {
        assert Misleads(s, s.inbox[i].source, s.inbox[i].payload.orderId, at);
      }
    }
  }

  lemma StepKeepsSound(s: State, step: Step, i: nat)
    requires Inv(s) && Internal(step) && Next(s, step).Some? && Sound(s, i)
    ensures Sound(Next(s, step).value, i)
  {
    var t := Next(s, step).value;
    StepGrows(s, step);
    StepKeepsUnmisled(s, step, s.inbox[i].source, s.inbox[i].payload.orderId);
    if t.inbox[i].status == Processed {
      MarkMeansCredit(s, step, i);
      CreditsPersist(s.ledger, t.ledger, s.inbox[i].payload.orderId.value);
    }
  }

  lemma {:induction false} RunKeepsSound(s: State, steps: seq<Step>, i: nat)
    requires Inv(s) && AllInternal(steps) && Run(s, steps).Some? && Sound(s, i)
    ensures Sound(Run(s, steps).value, i)
  {
    if |steps| > 0 {
      var front := steps[..|steps| - 1];
      RunKeepsSound(s, front, i);
      RunKeepsInv(s, front);
      StepKeepsSound(Run(s, front).value, steps[|steps| - 1], i);
    }
  }

  // ---------------------------------------------------------------- if

  lemma Joined(s: State, a: seq<Step>, t: State, b: seq<Step>, u: State)
    requires AllInternal(a) && AllInternal(b) && Run(s, a) == Some(t) && Run(t, b) == Some(u)
    ensures AllInternal(a + b) && Run(s, a + b) == Some(u)
  {
    RunConcat(s, a, b);
  }

  lemma One(s: State, step: Step, t: State)
    requires Internal(step) && Next(s, step) == Some(t)
    ensures AllInternal([step]) && Run(s, [step]) == Some(t)
  {
    RunOne(s, step);
  }

  /** A consumer whose upserts are refused passes over messages without any effect. */
  lemma {:induction false} WalkTo(s: State, w: nat, k: nat) returns (steps: seq<Step>)
    requires w < |s.consumers| && s.consumers[w].ConAt? && s.consumers[w].at <= k <= |s.topic|
    ensures AllInternal(steps) && Run(s, steps) == Some(WithConsumer(s, w, ConAt(k)))
    decreases k - s.consumers[w].at
  {
    var at := s.consumers[w].at;
    if at == k {
      steps := [];
      assert s.consumers[w := ConAt(k)] == s.consumers;
    } else {
      var t := WithConsumer(s, w, ConAt(at + 1));
      One(s, Consume(w, ConStore(Refused)), t);
      var rest := WalkTo(t, w, k);
      Joined(s, [Consume(w, ConStore(Refused))], t, rest, WithConsumer(t, w, ConAt(k)));
      steps := [Consume(w, ConStore(Refused))] + rest;
      assert WithConsumer(t, w, ConAt(k)) == WithConsumer(s, w, ConAt(k));
    }
  }

  /** It comes to a message in reach without any effect. */
  lemma Arrive(s: State, w: nat, k: nat) returns (steps: seq<Step>, c: Consumer)
    requires ConsumersOk(s) && w < |s.consumers| && k < |s.topic| && (s.consumers[w].at <= k || s.committed <= k)
    ensures AllInternal(steps) && Run(s, steps) == Some(WithConsumer(s, w, c))
    ensures c == ConAt(k) || (c == s.consumers[w] && c.at == k)
  {
    var was := s.consumers[w];
    assert ConsumerOk(s.topic, s.inbox, s.ledger, was);
    if was.at == k {
      steps, c := [], was;
      assert s.consumers[w := was] == s.consumers;
    } else {
      c := ConAt(k);
      if was.ConAt? && was.at <= k {
        steps := WalkTo(s, w, k);
      } else {
        var step, next := LeavePlace(s, w, k);
        var t := WithConsumer(s, w, ConAt(next));
        One(s, step, t);
        var rest := WalkTo(t, w, k);
        assert WithConsumer(t, w, ConAt(k)) == WithConsumer(s, w, ConAt(k));
        Joined(s, [step], t, rest, WithConsumer(s, w, ConAt(k)));
        steps := [step] + rest;
      }
    }
  }

  lemma LeavePlace(s: State, w: nat, k: nat) returns (step: Step, next: nat)
    requires w < |s.consumers| && (s.consumers[w].at < k || s.committed <= k)
    requires ConsumerOk(s.topic, s.inbox, s.ledger, s.consumers[w])
    requires !(s.consumers[w].ConAt? && s.consumers[w].at <= k)
    ensures Internal(step) && next <= k && Next(s, step) == Some(WithConsumer(s, w, ConAt(next)))
  {
    if s.committed <= k {
      step, next := Consume(w, ConRestart), s.committed;
    } else if s.consumers[w].ConStored? {
      step, next := Consume(w, ConProcess(Refused, Rule(0, None))), s.consumers[w].at + 1;
    } else {
      step, next := Consume(w, ConMark(Refused)), s.consumers[w].at + 1;
    }
  }

  /** On the message, it stores, credits the other order, and marks the row. */
  lemma MarkMisled(s: State, w: nat, k: nat, i: nat) returns (steps: seq<Step>)
    requires Inv(s) && w < |s.consumers| && s.consumers[w].at == k && i < |s.inbox|
    requires NamesOther(s.topic, s.inbox[i].source, s.inbox[i].payload.orderId, k)
    requires Creditable(s.orders, s.topic[k].payload.orderId)
    requires !CreditedId(s.ledger, s.inbox[i].payload.orderId)
    ensures AllInternal(steps) && Run(s, steps).Some? && MarkedUncredited(Run(s, steps).value, i)
    decreases match s.consumers[w] case ConAt(_) => 2 case ConStored(_, _) => 1 case _ => 0
  {
    assert ConsumerOk(s.topic, s.inbox, s.ledger, s.consumers[w]);
    var source := s.inbox[i].source;
    assert RowFor(s.inbox, source) == i;
    match s.consumers[w]
    case ConAt(_) =>
      var t := WithConsumer(s, w, ConStored(k, i));
      One(s, Consume(w, ConStore(Ok)), t);
      StepKeepsInv(s, Consume(w, ConStore(Ok)));
      var rest := MarkMisled(t, w, k, i);
      Joined(s, [Consume(w, ConStore(Ok))], t, rest, Run(t, rest).value);
      steps := [Consume(w, ConStore(Ok))] + rest;
    case ConStored(_, _) =>
      var process := Consume(w, ConProcess(Ok, Rule(0, None)));
      var t := AfterFastPath(s, w, k, i, Ok, Rule(0, None));
      One(s, process, t);
      StepKeepsInv(s, process);
      var rest := MarkMisled(t, w, k, i);
      Joined(s, [process], t, rest, Run(t, rest).value);
      steps := [process] + rest;
    case ConCredited(_, _) =>
      steps := [Consume(w, ConMark(Ok))];
      One(s, Consume(w, ConMark(Ok)), AfterConsumerMark(s, w, k, i, Ok));
  }

  /** The tables and places that confirming an order leaves alone. */
  predicate SameElsewhere(s: State, t: State) {
    && t.topic == s.topic && t.committed == s.committed && t.consumers == s.consumers
    && t.inbox == s.inbox && t.ledger == s.ledger && |t.requests| == |s.requests|
  }

  lemma CreateUpTo(s: State, id: OrderId) returns (steps: seq<Step>, t: State)
    ensures AllInternal(steps) && Run(s, steps) == Some(t) && SameElsewhere(s, t) && s.orders <= t.orders
    ensures id < |t.orders| && forall j | |s.orders| <= j < |t.orders| :: t.orders[j].status == Created
    decreases id + 1 - |s.orders|
  {
    if id < |s.orders| {
      steps, t := [], s;
    } else {
      var create := Create("user", "merchant", 0, "SGD");
      var u := Next(s, create).value;
      One(s, create, u);
      var rest;
      rest, t := CreateUpTo(u, id);
      Joined(s, [create], u, rest, t);
      steps := [create] + rest;
    }
  }

  lemma FreeRequest(s: State) returns (steps: seq<Step>, t: State)
    requires |s.requests| > 0
    ensures AllInternal(steps) && Run(s, steps) == Some(t) && SameElsewhere(s, t)
    ensures t.orders == s.orders && t.requests[0] == ReqIdle
  {
    if s.requests[0].ReqIdle? {
      steps, t := [], s;
    } else {
      steps, t := [Confirm(0, ReqAbort)], WithRequest(s, 0, ReqIdle);
      One(s, Confirm(0, ReqAbort), t);
    }
  }

  /** An order that can be credited is CONFIRMED, if need be after it is created. */
  lemma ConfirmNamed(s: State, id: OrderId) returns (steps: seq<Step>, t: State)
    requires CanBeCredited(s, id)
    ensures AllInternal(steps) && Run(s, steps) == Some(t) && SameElsewhere(s, t) && Creditable(t.orders, Some(id))
  {
    if Creditable(s.orders, Some(id)) {
      steps, t := [], s;
    } else {
      var created, c := CreateUpTo(s, id);
      var freed, f := FreeRequest(c);
      Joined(s, created, c, freed, f);
      var confirm := Confirm(0, ReqConfirmAtomically(id));
      t := ConfirmedWithOutbox(f, id);
      One(f, confirm, t);
      Joined(s, created + freed, f, [confirm], t);
      steps := created + freed + [confirm];
    }
  }

  lemma MisledCanBeMarked(s: State, i: nat, k: nat)
    requires Inv(s) && i < |s.inbox| && !CreditedId(s.ledger, s.inbox[i].payload.orderId)
    requires Misleads(s, s.inbox[i].source, s.inbox[i].payload.orderId, k) && InReach(s, k)
    ensures CanMarkUncredited(s, i)
  {
    var confirmed, c := ConfirmNamed(s, s.topic[k].payload.orderId.value);
    RunKeepsInv(s, confirmed);
    var w :| 0 <= w < |s.consumers| && (s.consumers[w].at <= k || s.committed <= k);
    var marked, t := ArriveAndMark(c, w, k, i);
    Joined(s, confirmed, c, marked, t);
  }

  lemma ArriveAndMark(s: State, w: nat, k: nat, i: nat) returns (steps: seq<Step>, t: State)
    requires Inv(s) && i < |s.inbox| && !CreditedId(s.ledger, s.inbox[i].payload.orderId)
    requires NamesOther(s.topic, s.inbox[i].source, s.inbox[i].payload.orderId, k)
    requires Creditable(s.orders, s.topic[k].payload.orderId)
    requires w < |s.consumers| && (s.consumers[w].at <= k || s.committed <= k)
    ensures AllInternal(steps) && Run(s, steps) == Some(t) && MarkedUncredited(t, i)
  {
    var there, c := Arrive(s, w, k);
    var u := WithConsumer(s, w, c);
    RunKeepsInv(s, there);
    var rest := MarkMisled(u, w, k, i);
    t := Run(u, rest).value;
    Joined(s, there, u, rest, t);
    steps := there + rest;
  }

  /** A foreign row whose order has no credit can still be marked PROCESSED without it, whatever orders are created
      and confirmed on the way, exactly when a message with its id that a consumer can still come to names another
      order that can be credited. */
  lemma MarkedUncreditedExactlyIfMisled(s: State, i: nat)
    requires Reachable(s) && i < |s.inbox| && s.inbox[i].source.Foreign?
    requires s.inbox[i].status != Processed && !CreditedId(s.ledger, s.inbox[i].payload.orderId)
    ensures CanMarkUncredited(s, i) <==> Misleading(s, s.inbox[i].source, s.inbox[i].payload.orderId)
  {
    ReachableHasInv(s);
    if k: nat :| Misleads(s, s.inbox[i].source, s.inbox[i].payload.orderId, k) && InReach(s, k) {
      MisledCanBeMarked(s, i, k);
    } else {
      forall steps | AllInternal(steps) && Run(s, steps).Some? ensures !MarkedUncredited(Run(s, steps).value, i) {
        RunKeepsSound(s, steps, i);
      }
    }
  }
}
