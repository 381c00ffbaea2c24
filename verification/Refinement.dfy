/** The pipeline refines an abstract ledger: an order is opened, confirmed, and credited at most once,
    with an amount that never changes again. */
module Refinement {
  import opened Domain
  import opened Cashback
  import opened Pipeline
  import opened Invariants

  datatype Phase = Open | Confirmed | Credited(cents: Cents) | Void

  datatype AbsOrder = AbsOrder(user: string, merchant: string, amount: Cents, currency: string, phase: Phase)

  /** The amount of the first credit for an order. */
  function CreditOf(ledger: seq<Entry>, id: OrderId): (c: Option<Cents>)
    ensures c.Some? <==> HasCredit(ledger, id)
  {
    var at := CreditAt(ledger, id);
    if at < |ledger| then Some(ledger[at].amount) else None
  }

  function PhaseOf(status: OrderStatus, credit: Option<Cents>): Phase {
    match status
    case Created => Open
    case Cancelled => Void
    case Confirmed => if credit.Some? then Credited(credit.value) else Phase.Confirmed
  }

  function AbstractOrder(o: Order, credit: Option<Cents>): AbsOrder {
    AbsOrder(o.user, o.merchant, o.amount, o.currency, PhaseOf(o.status, credit))
  }

  function Abs(s: State): seq<AbsOrder> {
    seq(|s.orders|, id requires 0 <= id < |s.orders| => AbstractOrder(s.orders[id], CreditOf(s.ledger, id)))
  }

  // ---------------------------------------------------------------- the abstract ledger

  ghost predicate Opens(a: seq<AbsOrder>, b: seq<AbsOrder>) {
    |b| == |a| + 1 && b[..|a|] == a && b[|a|].phase == Open
  }

  ghost predicate Confirms(a: seq<AbsOrder>, b: seq<AbsOrder>, id: OrderId) {
    id < |a| && a[id].phase == Open && b == a[id := a[id].(phase := Phase.Confirmed)]
  }

  ghost predicate Credits(a: seq<AbsOrder>, b: seq<AbsOrder>, id: OrderId, rule: Rule) {
    && id < |a| && a[id].phase == Phase.Confirmed
    && b == a[id := a[id].(phase := Credited(CashbackOf(a[id].amount, rule)))]
  }

  /** The only moves of the abstract ledger that a concrete step may make; all else is a stutter. */
  ghost predicate Allowed(step: Step, a: seq<AbsOrder>, b: seq<AbsOrder>) {
    || a == b
    || (step.Create? && Opens(a, b))
    || (step.Confirm? && exists id: OrderId :: Confirms(a, b, id))
    || ((step.Consume? || step.Retry?) && exists id: OrderId, rule: Rule :: Credits(a, b, id, rule))
  }

  // ---------------------------------------------------------------- refinement

  lemma PostedRefines(s: State, t: State, id: Option<OrderId>, rule: Rule)
    requires t.orders == s.orders && t.ledger == Posted(s.orders, s.ledger, id, rule)
    ensures Abs(s) == Abs(t) || exists k: OrderId, r: Rule :: Credits(Abs(s), Abs(t), k, r)
  {
    if Creditable(s.orders, id) && !HasCredit(s.ledger, id.value) {
      assert t.ledger[..|s.ledger|] == s.ledger;
      assert Abs(t) == Abs(s)[id.value := Abs(t)[id.value]];
      assert Credits(Abs(s), Abs(t), id.value, rule);
    }
  }

  lemma RetrierRefines(s: State, w: nat, a: RetrierAction)
    requires RetrierNext(s, w, a).Some?
    ensures Allowed(Retry(w, a), Abs(s), Abs(RetrierNext(s, w, a).value))
  {
    var t := RetrierNext(s, w, a).value;
    if t.ledger == s.ledger {
      RetrierFrames(s, w, a);
    } else {
      var rest := s.retriers[w].rest;
      PostedRefines(s, t, rest[0].payload.orderId, a.rule);
    }
  }

  lemma ConsumerRefines(s: State, w: nat, a: ConsumerAction)
    requires ConsumerNext(s, w, a).Some?
    ensures Allowed(Consume(w, a), Abs(s), Abs(ConsumerNext(s, w, a).value))
  {
    var t := ConsumerNext(s, w, a).value;
    if t.ledger == s.ledger {
      ConsumerFrames(s, w, a);
    } else {
      PostedRefines(s, t, s.topic[s.consumers[w].at].payload.orderId, a.rule);
    }
  }

  lemma ConfirmRefines(s: State, id: OrderId)
    requires LedgerOk(s.orders, s.ledger) && id < |s.orders| && s.orders[id].status != Cancelled
    ensures var t := ConfirmedWithOutbox(s, id); Abs(t) == Abs(s) || Confirms(Abs(s), Abs(t), id)
  {
    var t := ConfirmedWithOutbox(s, id);
    if s.orders[id].status == OrderStatus.Confirmed {
      assert t.orders == s.orders;
    } else {
      assert Abs(t) == Abs(s)[id := Abs(s)[id].(phase := Phase.Confirmed)];
    }
  }

  lemma RequestRefines(s: State, w: nat, a: RequestAction)
    requires Inv(s) && RequestNext(s, w, a).Some?
    ensures Allowed(Confirm(w, a), Abs(s), Abs(RequestNext(s, w, a).value))
  {
    var t := RequestNext(s, w, a).value;
    if t.orders != s.orders {
      var id := if s.requests[w].ReqConfirming? then s.requests[w].orderId else a.id;
      ConfirmRefines(s, id);
      assert Abs(t) == Abs(ConfirmedWithOutbox(s, id));
      assert Allowed(Confirm(w, a), Abs(s), Abs(t));
    }
  }

  lemma CreateRefines(s: State, step: Step)
    requires LedgerOk(s.orders, s.ledger) && step.Create?
    ensures Opens(Abs(s), Abs(Next(s, step).value))
  {
    var t := Next(s, step).value;
    assert Abs(t)[..|s.orders|] == Abs(s);
  }

  /** Every step of every process is a move of the abstract ledger or changes nothing there. */
  lemma StepRefines(s: State, step: Step)
    requires Inv(s) && Next(s, step).Some?
    ensures Allowed(step, Abs(s), Abs(Next(s, step).value))
  {
    match step
    case Publish(w, a) => PublisherFrames(s, w, a);
    case Retry(w, a) => RetrierRefines(s, w, a);
    case Consume(w, a) => ConsumerRefines(s, w, a);
    case Replay(w, a) => ReplayerFrames(s, w, a);
    case Confirm(w, a) => RequestRefines(s, w, a);
    case Create(_, _, _, _) => CreateRefines(s, step);
    case _ =>
  }

  ghost function AbsAfter(s: State, steps: seq<Step>): seq<AbsOrder>
    requires Run(s, steps).Some?
  {
    Abs(Run(s, steps).value)
  }

  lemma {:induction false} PrefixesRun(s: State, steps: seq<Step>, n: nat)
    requires Run(s, steps).Some? && n <= |steps|
    ensures Run(s, steps[..n]).Some?
  {
    if n < |steps| {
      PrefixesRun(s, steps[..|steps| - 1], n);
      assert steps[..|steps| - 1][..n] == steps[..n];
    } else {
      assert steps[..n] == steps;
    }
  }

  /** Whole runs: the k-th step of a run is an allowed move of the abstract ledger. */
  lemma RunRefines(s0: State, steps: seq<Step>, k: nat)
    requires Init(s0) && Run(s0, steps).Some? && k < |steps|
    ensures Run(s0, steps[..k]).Some? && Run(s0, steps[..k + 1]).Some?
    ensures Abs(s0) == []
    ensures Allowed(steps[k], AbsAfter(s0, steps[..k]), AbsAfter(s0, steps[..k + 1]))
  {
    PrefixesRun(s0, steps, k);
    PrefixesRun(s0, steps, k + 1);
    InitHasInv(s0);
    RunKeepsInv(s0, steps[..k]);
    assert steps[..k + 1] == steps[..k] + [steps[k]];
    RunAppend(s0, steps[..k], steps[k]);
    StepRefines(Run(s0, steps[..k]).value, steps[k]);
  }

  /** Once credited, an order keeps its credit and the amount, whatever happens later. */
  lemma {:induction false} CreditIsFrozen(s: State, steps: seq<Step>, id: OrderId)
    requires Inv(s) && Run(s, steps).Some?
    requires id < |s.orders| && Abs(s)[id].phase.Credited?
    ensures id < |Run(s, steps).value.orders| && Abs(Run(s, steps).value)[id] == Abs(s)[id]
  {
    if |steps| > 0 {
      var front := steps[..|steps| - 1];
      CreditIsFrozen(s, front, id);
      RunKeepsInv(s, front);
      StepRefines(Run(s, front).value, steps[|steps| - 1]);
    }
  }

  /** At most one credit per order, in every reachable state. */
  lemma CreditedAtMostOnce(s: State, i: nat, j: nat)
    requires Reachable(s) && i < |s.ledger| && j < |s.ledger|
    requires s.ledger[i].orderId == s.ledger[j].orderId
    ensures i == j
  {
    ReachableHasInv(s);
  }
}
