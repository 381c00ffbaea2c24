/** A user's cashback balance: the grouped query and its fold against the direct signed sum, and what
    the pipeline makes of that sum. */
module Balance {
  import opened Domain
  import opened Cashback
  import opened Pipeline
  import opened Invariants
  import opened Refinement

  predicate Counts(e: Entry, user: string, currency: string, kind: EntryType) {
    e.user == user && e.currency == currency && e.kind == kind
  }

  function KindSum(entries: seq<Entry>, user: string, currency: string, kind: EntryType): nat {
    if |entries| == 0 then 0
    else KindSum(entries[..|entries| - 1], user, currency, kind)
         + if Counts(entries[|entries| - 1], user, currency, kind) then entries[|entries| - 1].amount else 0
  }

  function Sign(kind: EntryType): int {
    if kind == Credit then 1 else -1
  }

  /** The user's entries in a currency, added up one by one with their signs. */
  function SignedSum(entries: seq<Entry>, user: string, currency: string): int {
    if |entries| == 0 then 0
    else
      var last := entries[|entries| - 1];
      SignedSum(entries[..|entries| - 1], user, currency)
      + if last.user == user && last.currency == currency then Sign(last.kind) * last.amount else 0
  }

  lemma {:induction false} SignedSumSplits(entries: seq<Entry>, user: string, currency: string)
    ensures SignedSum(entries, user, currency)
            == KindSum(entries, user, currency, Credit) - KindSum(entries, user, currency, Debit)
  {
    if |entries| > 0 {
      SignedSumSplits(entries[..|entries| - 1], user, currency);
    }
  }

  // ---------------------------------------------------------------- groupBy and the fold

  datatype Group = Group(currency: string, kind: EntryType, sum: nat)

  predicate HasEntry(entries: seq<Entry>, user: string, currency: string, kind: EntryType) {
    exists i | 0 <= i < |entries| :: Counts(entries[i], user, currency, kind)
  }

  predicate HasGroup(groups: seq<Group>, currency: string, kind: EntryType) {
    exists i | 0 <= i < |groups| :: groups[i].currency == currency && groups[i].kind == kind
  }

  /** What `groupBy` by currency and type with a sum of amounts returns, in any order. */
  ghost predicate IsGrouping(groups: seq<Group>, entries: seq<Entry>, user: string) {
    && (forall i, j | 0 <= i < j < |groups| ::
          groups[i].currency != groups[j].currency || groups[i].kind != groups[j].kind)
    && (forall i | 0 <= i < |groups| ::
          && groups[i].sum == KindSum(entries, user, groups[i].currency, groups[i].kind)
          && HasEntry(entries, user, groups[i].currency, groups[i].kind))
    && (forall c, k :: HasEntry(entries, user, c, k) ==> HasGroup(groups, c, k))
  }

  function FoldSum(groups: seq<Group>, currency: string): int {
    if |groups| == 0 then 0
    else FoldSum(groups[..|groups| - 1], currency)
         + if groups[|groups| - 1].currency == currency
           then Sign(groups[|groups| - 1].kind) * groups[|groups| - 1].sum else 0
  }

  function GroupSum(groups: seq<Group>, currency: string, kind: EntryType): nat {
    if |groups| == 0 then 0
    else
      var last := groups[|groups| - 1];
      if last.currency == currency && last.kind == kind then last.sum
      else GroupSum(groups[..|groups| - 1], currency, kind)
  }

  lemma {:induction false} FoldSplitsByKind(groups: seq<Group>, currency: string)
    requires forall i, j | 0 <= i < j < |groups| ::
               groups[i].currency != groups[j].currency || groups[i].kind != groups[j].kind
    ensures FoldSum(groups, currency) == GroupSum(groups, currency, Credit) - GroupSum(groups, currency, Debit)
  {
    if |groups| > 0 {
      var front := groups[..|groups| - 1];
      FoldSplitsByKind(front, currency);
      GroupSumAt(front, currency, Credit);
      GroupSumAt(front, currency, Debit);
    }
  }

  lemma {:induction false} GroupSumAt(groups: seq<Group>, currency: string, kind: EntryType)
    ensures !HasGroup(groups, currency, kind) ==> GroupSum(groups, currency, kind) == 0
    ensures HasGroup(groups, currency, kind) ==>
              exists i :: 0 <= i < |groups| && groups[i].currency == currency && groups[i].kind == kind
                          && GroupSum(groups, currency, kind) == groups[i].sum
  {
    if |groups| > 0 {
      var front := groups[..|groups| - 1];
      GroupSumAt(front, currency, kind);
      if HasGroup(groups, currency, kind) && !HasGroup(front, currency, kind) {
        assert groups[|groups| - 1].currency == currency && groups[|groups| - 1].kind == kind;
      }
    }
  }

  lemma {:induction false} NoEntriesNoSum(entries: seq<Entry>, user: string, currency: string, kind: EntryType)
    requires !HasEntry(entries, user, currency, kind)
    ensures KindSum(entries, user, currency, kind) == 0
  {
    if |entries| > 0 {
      var front := entries[..|entries| - 1];
      assert forall i | 0 <= i < |front| :: front[i] == entries[i];
      NoEntriesNoSum(front, user, currency, kind);
    }
  }

  lemma GroupSumIsKindSum(groups: seq<Group>, entries: seq<Entry>, user: string, currency: string, kind: EntryType)
    requires IsGrouping(groups, entries, user)
    ensures GroupSum(groups, currency, kind) == KindSum(entries, user, currency, kind)
  {
    GroupSumAt(groups, currency, kind);
    if !HasGroup(groups, currency, kind) {
      assert !HasEntry(entries, user, currency, kind);
      NoEntriesNoSum(entries, user, currency, kind);
    }
  }

  /** Folding the signed groups, in whatever order they come, is the direct signed sum. */
  lemma FoldIsSignedSum(groups: seq<Group>, entries: seq<Entry>, user: string, currency: string)
    requires IsGrouping(groups, entries, user)
    ensures FoldSum(groups, currency) == SignedSum(entries, user, currency)
  {
    SignedSumSplits(entries, user, currency);
    FoldSplitsByKind(groups, currency);
    GroupSumIsKindSum(groups, entries, user, currency, Credit);
    GroupSumIsKindSum(groups, entries, user, currency, Debit);
  }

  /** The endpoint's loop over the grouped rows. */
  method FoldGroups(groups: seq<Group>) returns (byCurrency: map<string, int>)
    ensures forall c :: c in byCurrency <==> exists i :: 0 <= i < |groups| && groups[i].currency == c
    ensures forall c | c in byCurrency :: byCurrency[c] == FoldSum(groups, c)
  {
    byCurrency := map[];
    for i := 0 to |groups|
      invariant forall c :: c in byCurrency <==> exists j :: 0 <= j < i && groups[j].currency == c
      invariant forall c :: FoldSum(groups[..i], c) == if c in byCurrency then byCurrency[c] else 0
    {
      var r := groups[i];
      assert groups[..i + 1][..i] == groups[..i];
      var before := if r.currency in byCurrency then byCurrency[r.currency] else 0;
      byCurrency := byCurrency[r.currency := before + Sign(r.kind) * r.sum];
    }
    assert groups[..|groups|] == groups;
  }

  /** The endpoint reports the balance in the first currency of the groups, or 0 SGD without entries. */
  method GetBalance(groups: seq<Group>, ghost entries: seq<Entry>, user: string)
    returns (currency: string, balance: int)
    requires IsGrouping(groups, entries, user)
    ensures balance == SignedSum(entries, user, currency)
    ensures |groups| > 0 ==> currency == groups[0].currency
    ensures (exists i :: 0 <= i < |entries| && entries[i].user == user) ==>
              HasEntry(entries, user, currency, Credit) || HasEntry(entries, user, currency, Debit)
    ensures !(exists i :: 0 <= i < |entries| && entries[i].user == user) ==> currency == "SGD" && balance == 0
  {
    var byCurrency := FoldGroups(groups);
    if |groups| > 0 {
      currency := groups[0].currency;
      assert HasEntry(entries, user, currency, groups[0].kind);
      balance := byCurrency[currency];
      FoldIsSignedSum(groups, entries, user, currency);
    } else {
      currency, balance := "SGD", 0;
      FoldIsSignedSum(groups, entries, user, currency);
      forall i | 0 <= i < |entries| ensures entries[i].user != user {
        var e := entries[i];
        assert Counts(e, user, e.currency, e.kind) ==> HasEntry(entries, user, e.currency, e.kind);
        assert !HasGroup(groups, e.currency, e.kind);
      }
    }
  }

  // ---------------------------------------------------------------- balances along runs

  predicate Belongs(o: Order, user: string, currency: string) {
    o.user == user && o.currency == currency
  }

  function CreditOr0(ledger: seq<Entry>, id: OrderId): nat {
    var c := CreditOf(ledger, id);
    if c.Some? then c.value else 0
  }

  /** The credits of the user's first n orders in a currency. */
  function CreditedTotal(orders: seq<Order>, ledger: seq<Entry>, user: string, currency: string, n: nat): nat
    requires n <= |orders|
  {
    if n == 0 then 0
    else CreditedTotal(orders, ledger, user, currency, n - 1)
         + if Belongs(orders[n - 1], user, currency) then CreditOr0(ledger, n - 1) else 0
  }

  function ConfirmedTotal(orders: seq<Order>, user: string, currency: string, n: nat): nat
    requires n <= |orders|
  {
    if n == 0 then 0
    else ConfirmedTotal(orders, user, currency, n - 1)
         + if Belongs(orders[n - 1], user, currency) && orders[n - 1].status == OrderStatus.Confirmed
           then orders[n - 1].amount else 0
  }

  /** One more credit adds its amount to exactly one order's term. */
  lemma {:induction false} OneMoreCredit(
    orders: seq<Order>, ledger: seq<Entry>, e: Entry, user: string, currency: string, n: nat)
    requires n <= |orders| && e.kind == Credit && e.orderId < |orders| && !HasCredit(ledger, e.orderId)
    requires e.user == orders[e.orderId].user && e.currency == orders[e.orderId].currency
    ensures CreditedTotal(orders, ledger + [e], user, currency, n)
            == CreditedTotal(orders, ledger, user, currency, n)
               + if e.orderId < n && Counts(e, user, currency, Credit) then e.amount else 0
  {
    if n > 0 {
      OneMoreCredit(orders, ledger, e, user, currency, n - 1);
      assert (ledger + [e])[..|ledger|] == ledger;
    }
  }

  lemma {:induction false} NoCreditsNoTotal(orders: seq<Order>, user: string, currency: string, n: nat)
    requires n <= |orders|
    ensures CreditedTotal(orders, [], user, currency, n) == 0
  {
    if n > 0 { NoCreditsNoTotal(orders, user, currency, n - 1); }
  }

  lemma {:induction false} LedgerIsSumOfCredits(orders: seq<Order>, ledger: seq<Entry>, user: string, currency: string)
    requires LedgerOk(orders, ledger)
    ensures SignedSum(ledger, user, currency) == CreditedTotal(orders, ledger, user, currency, |orders|)
  {
    if |ledger| == 0 {
      NoCreditsNoTotal(orders, user, currency, |orders|);
    } else {
      var front, last := ledger[..|ledger| - 1], ledger[|ledger| - 1];
      assert ledger == front + [last];
      assert EntryOk(orders, last);
      assert forall i | 0 <= i < |front| :: front[i] == ledger[i];
      LedgerIsSumOfCredits(orders, front, user, currency);
      OneMoreCredit(orders, front, last, user, currency, |orders|);
    }
  }

  /** Along every run a user's balance is the sum of the credits of that user's orders. */
  lemma BalanceIsSumOfCreditedOrders(s: State, user: string, currency: string)
    requires Reachable(s)
    ensures SignedSum(s.ledger, user, currency) == CreditedTotal(s.orders, s.ledger, user, currency, |s.orders|)
  {
    ReachableHasInv(s);
    LedgerIsSumOfCredits(s.orders, s.ledger, user, currency);
  }

  lemma {:induction false} CreditComesFromEntry(ledger: seq<Entry>, id: OrderId)
    requires HasCredit(ledger, id)
    ensures exists i :: 0 <= i < |ledger| && ledger[i].orderId == id && ledger[i].kind == Credit
                        && CreditOf(ledger, id) == Some(ledger[i].amount)
  {
    if |ledger| > 0 && HasCredit(ledger[..|ledger| - 1], id) {
      CreditComesFromEntry(ledger[..|ledger| - 1], id);
    }
  }

  lemma CreditWithinOrder(orders: seq<Order>, ledger: seq<Entry>, id: OrderId)
    requires LedgerOk(orders, ledger) && id < |orders|
    ensures CreditOr0(ledger, id) <= if orders[id].status == OrderStatus.Confirmed then orders[id].amount else 0
  {
    if HasCredit(ledger, id) {
      CreditComesFromEntry(ledger, id);
      var i :| 0 <= i < |ledger| && ledger[i].orderId == id && CreditOf(ledger, id) == Some(ledger[i].amount);
      assert EntryOk(orders, ledger[i]);
      var rule: Rule :| ledger[i].amount == CashbackOf(orders[id].amount, rule);
      CashbackIsBounded(orders[id].amount, rule);
    }
  }

  lemma {:induction false} CreditsWithinOrders(
    orders: seq<Order>, ledger: seq<Entry>, user: string, currency: string, n: nat)
    requires LedgerOk(orders, ledger) && n <= |orders|
    ensures CreditedTotal(orders, ledger, user, currency, n) <= ConfirmedTotal(orders, user, currency, n)
  {
    if n > 0 {
      CreditsWithinOrders(orders, ledger, user, currency, n - 1);
      CreditWithinOrder(orders, ledger, n - 1);
    }
  }

  /** In every reachable state a user's balance in a currency lies between zero and the total of the
      user's CONFIRMED orders in it. */
  lemma BalanceWithinConfirmedOrders(s: State, user: string, currency: string)
    requires Reachable(s)
    ensures 0 <= SignedSum(s.ledger, user, currency) <= ConfirmedTotal(s.orders, user, currency, |s.orders|)
  {
    ReachableHasInv(s);
    BalanceIsSumOfCreditedOrders(s, user, currency);
    CreditsWithinOrders(s.orders, s.ledger, user, currency, |s.orders|);
  }

  lemma PostedMovesBalance(
    orders: seq<Order>, ledger: seq<Entry>, id: Option<OrderId>, rule: Rule, user: string, currency: string)
    ensures var after := Posted(orders, ledger, id, rule);
            SignedSum(after, user, currency) == SignedSum(ledger, user, currency)
              + if Creditable(orders, id) && !HasCredit(ledger, id.value) && Belongs(orders[id.value], user, currency)
                then CashbackOf(orders[id.value].amount, rule) else 0
  {
    var after := Posted(orders, ledger, id, rule);
    if after != ledger {
      assert after[..|ledger|] == ledger;
    }
  }

  /** A step that moves some balance is the first credit of a confirmed order, by a consumer or a
      retry loop, and moves the balance of the order's own user and currency by its cashback. */
  lemma OnlyFirstCreditsMoveBalances(s: State, step: Step, user: string, currency: string)
    requires Next(s, step).Some?
    requires SignedSum(Next(s, step).value.ledger, user, currency) != SignedSum(s.ledger, user, currency)
    ensures step.Consume? || step.Retry?
    ensures exists id: OrderId, rule: Rule ::
              && Creditable(s.orders, Some(id)) && !HasCredit(s.ledger, id)
              && Belongs(s.orders[id], user, currency)
              && Next(s, step).value.ledger == s.ledger + [CreditFor(s.orders, id, rule)]
              && SignedSum(Next(s, step).value.ledger, user, currency)
                 == SignedSum(s.ledger, user, currency) + CashbackOf(s.orders[id].amount, rule)
  {
    match step
    case Consume(w, a) =>
      var id := s.topic[s.consumers[w].at].payload.orderId;
      PostedMovesBalance(s.orders, s.ledger, id, a.rule, user, currency);
    case Retry(w, a) =>
      var id := s.retriers[w].rest[0].payload.orderId;
      PostedMovesBalance(s.orders, s.ledger, id, a.rule, user, currency);
    case Publish(w, a) => PublisherFrames(s, w, a);
    case Replay(w, a) => ReplayerFrames(s, w, a);
    case _ =>
  }
}
