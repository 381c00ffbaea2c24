/** The two `processOrderConfirmed` handlers: the domain package's, which reads the rule table, and the
    worker's, which goes through the cache. */
module Handlers {
  import opened Domain
  import opened Cashback
  import opened Pipeline
  import opened RuleCache
  import opened RuleCoherence

  datatype Reply =
    | OrderNotFound
    | NotConfirmed(status: OrderStatus)
    | Handled(orderId: OrderId, credited: bool, entry: nat, amount: Cents, currency: string)

  /** The worker's handler with the rule that `getCashbackRule` returned. */
  function WorkerHandler(orders: seq<Order>, ledger: seq<Entry>, id: OrderId, rule: Rule): (Reply, seq<Entry>) {
    if id >= |orders| then (OrderNotFound, ledger)
    else if orders[id].status != Confirmed then (NotConfirmed(orders[id].status), ledger)
    else
      var o := orders[id];
      var product := o.amount * rule.rate;
      var capped := if rule.cap.Some? && product > rule.cap.value * UNIT then rule.cap.value * UNIT else product;
      var cashback := RoundHalfUp(capped);
      if HasCredit(ledger, id) then (Handled(id, false, CreditAt(ledger, id), cashback, o.currency), ledger)
      else (Handled(id, true, |ledger|, cashback, o.currency),
            ledger + [Entry(o.user, id, Credit, cashback, o.currency)])
  }

  /** The domain package's handler, which reads the merchant's row and defaults the rate only. */
  function DomainHandler(
    orders: seq<Order>, ledger: seq<Entry>, id: OrderId, rules: map<string, Rule>): (Reply, seq<Entry>) {
    if id >= |orders| then (OrderNotFound, ledger)
    else if orders[id].status != Confirmed then (NotConfirmed(orders[id].status), ledger)
    else
      var o := orders[id];
      var rate := if o.merchant in rules then rules[o.merchant].rate else 500;
      var product := o.amount * rate;
      var hasCap := o.merchant in rules && rules[o.merchant].cap.Some?;
      var cashback := RoundHalfUp(
        if hasCap && product > rules[o.merchant].cap.value * UNIT then rules[o.merchant].cap.value * UNIT else product);
      if HasCredit(ledger, id) then (Handled(id, false, CreditAt(ledger, id), cashback, o.currency), ledger)
      else (Handled(id, true, |ledger|, cashback, o.currency),
            ledger + [Entry(o.user, id, Credit, cashback, o.currency)])
  }

  function RowOf(rules: map<string, Rule>, merchant: string): Option<Rule> {
    if merchant in rules then Some(rules[merchant]) else None
  }

  /** With the snapshot of the merchant's row the two handlers do and reply the same. */
  lemma HandlersAgreeOnSnapshot(orders: seq<Order>, ledger: seq<Entry>, id: OrderId, rules: map<string, Rule>)
    requires id < |orders|
    ensures WorkerHandler(orders, ledger, id, Snapshot(RowOf(rules, orders[id].merchant)))
            == DomainHandler(orders, ledger, id, rules)
  {}

  /** What the handler replies: it fails for an order that is missing or not CONFIRMED; otherwise it reports the
      order's cashback and currency, whether this call credited it, and the entry, which is the new one or the
      order's earlier credit. */
  lemma HandlerReplies(orders: seq<Order>, ledger: seq<Entry>, id: OrderId, rule: Rule)
    ensures var (reply, after) := WorkerHandler(orders, ledger, id, rule);
            if id >= |orders| then reply == OrderNotFound && after == ledger
            else if orders[id].status != Confirmed then reply == NotConfirmed(orders[id].status) && after == ledger
            else
              && reply.Handled? && reply.orderId == id && reply.currency == orders[id].currency
              && reply.amount == CashbackOf(orders[id].amount, rule)
              && (reply.credited <==> |after| == |ledger| + 1) && (!reply.credited <==> after == ledger)
              && (reply.credited <==>
                    forall i | 0 <= i < |ledger| :: !(ledger[i].orderId == id && ledger[i].kind == Credit))
              && reply.entry < |after| && after[reply.entry].orderId == id && after[reply.entry].kind == Credit
              && (reply.credited ==> reply.entry == |ledger| && after[reply.entry].amount == reply.amount)
  {}

  /** The handler's effect is the pipeline's, and it fails exactly when the order cannot be credited. */
  lemma HandlerPosts(orders: seq<Order>, ledger: seq<Entry>, id: OrderId, rule: Rule)
    ensures WorkerHandler(orders, ledger, id, rule).1 == Posted(orders, ledger, Some(id), rule)
    ensures WorkerHandler(orders, ledger, id, rule).0.Handled? <==> Creditable(orders, Some(id))
    ensures var (reply, after) := WorkerHandler(orders, ledger, id, rule);
            reply.Handled? ==>
              reply.entry < |after| && after[reply.entry].orderId == id && after[reply.entry].kind == Credit
  {}

  /** With any rule that the merchant's cache ever returned, the worker's handler does and replies what
      the domain handler does on the rule table of some time within the staleness bound. */
  lemma CachedHandlerAgreesWithDirect(
    s: Shared, steps: seq<CacheStep>, i: nat, ttl: nat, merchant: string,
    orders: seq<Order>, ledger: seq<Entry>, id: OrderId)
    requires CacheInit(s) && CacheRun(s, steps).Some? && i < |CacheRun(s, steps).value.answers|
    requires TtlAtMost(s.limits, ttl) && id < |orders| && orders[id].merchant == merchant
    ensures var t := CacheRun(s, steps).value; var a := t.answers[i];
            exists u, row :: && a.at - MaxAge(a, ttl) <= u <= a.at && InForce(t.history, u, row)
                             && forall rules: map<string, Rule> | RowOf(rules, merchant) == row ::
                                  WorkerHandler(orders, ledger, id, a.rule) == DomainHandler(orders, ledger, id, rules)
  {
    StalenessIsBounded(s, steps, i, ttl);
    var t := CacheRun(s, steps).value;
    var a := t.answers[i];
    var u, row :| a.at - MaxAge(a, ttl) <= u <= a.at && InForce(t.history, u, row) && Snapshot(row) == a.rule;
    forall rules: map<string, Rule> | RowOf(rules, merchant) == row
      ensures WorkerHandler(orders, ledger, id, a.rule) == DomainHandler(orders, ledger, id, rules)
    {
      HandlersAgreeOnSnapshot(orders, ledger, id, rules);
    }
  }

  lemma EmptyIsCoherent(s: Shared)
    requires Visible(s).None? && forall w | 0 <= w < |s.readers| :: s.readers[w] == Idle
    ensures Coherent(s)
  {}

  /** With a fresh cache the handlers are identical: until the next upsert, whatever rule the cache returns
      makes the worker's handler do and reply what the domain handler does on the rule table as it is. */
  lemma FreshCacheAgreesWithDirect(
    s: Shared, steps: seq<CacheStep>, i: nat, rules: map<string, Rule>,
    orders: seq<Order>, ledger: seq<Entry>, id: OrderId)
    requires Coherent(s) && NoUpserts(steps) && CacheRun(s, steps).Some?
    requires |s.answers| <= i < |CacheRun(s, steps).value.answers|
    requires id < |orders| && RowOf(rules, orders[id].merchant) == Current(s)
    ensures WorkerHandler(orders, ledger, id, CacheRun(s, steps).value.answers[i].rule)
            == DomainHandler(orders, ledger, id, rules)
  {
    CoherentAnswersAreCurrent(s, steps);
    HandlersAgreeOnSnapshot(orders, ledger, id, rules);
  }

  /** So they are from a cache without a live entry, once the calls of before are over. */
  lemma EmptyCacheAgreesWithDirect(
    s: Shared, steps: seq<CacheStep>, i: nat, rules: map<string, Rule>,
    orders: seq<Order>, ledger: seq<Entry>, id: OrderId)
    requires Visible(s).None? && forall w | 0 <= w < |s.readers| :: s.readers[w] == Idle
    requires NoUpserts(steps) && CacheRun(s, steps).Some? && |s.answers| <= i < |CacheRun(s, steps).value.answers|
    requires id < |orders| && RowOf(rules, orders[id].merchant) == Current(s)
    ensures WorkerHandler(orders, ledger, id, CacheRun(s, steps).value.answers[i].rule)
            == DomainHandler(orders, ledger, id, rules)
  {
    EmptyIsCoherent(s);
    FreshCacheAgreesWithDirect(s, steps, i, rules, orders, ledger, id);
  }
}
