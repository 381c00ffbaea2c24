/** Keyed requests: what the Idempotency-Key table promises over every sequence of requests that do not
    overlap, some of which may die between their effect and the saved response. Module Overlap has the ones that
    do. */
module Idempotency {
  import opened Domain
  import opened Pipeline

  datatype OrderBody = OrderBody(user: string, merchant: string, amount: Cents, currency: string)

  datatype Request =
    | CreateOrder(key: Option<string>, body: OrderBody)
    | ConfirmOrder(key: Option<string>, id: OrderId)

  datatype Reply =
    | OrderCreated(id: OrderId, body: OrderBody)
    | OrderConfirmed(id: OrderId, outboxEventId: Option<nat>)
    | Rejected
    | KeyReused

  /** The scope a key is unique in. */
  datatype Scope = CreateScope | ConfirmScope(id: OrderId)

  /** The request hash, taken to be injective: method and path follow from the scope. */
  datatype Hash = Hash(scope: Scope, body: Option<OrderBody>)

  datatype SavedReply = SavedReply(hash: Hash, reply: Reply)

  datatype Api = Api(orders: seq<Order>, outbox: seq<OutboxRow>, keys: map<(string, Scope), SavedReply>, now: int)

  function ScopeOf(r: Request): Scope {
    if r.CreateOrder? then CreateScope else ConfirmScope(r.id)
  }

  /** Confirm hashes a null body, create its order. */
  function HashOf(r: Request): Hash {
    Hash(ScopeOf(r), if r.CreateOrder? then Some(r.body) else None)
  }

  /** The effect of a request that no saved reply answers, and its reply. */
  function Effect(a: Api, r: Request): (Api, Reply) {
    match r
    case CreateOrder(_, b) =>
      (a.(orders := a.orders + [Order(b.user, b.merchant, b.amount, b.currency, Created)]), OrderCreated(|a.orders|, b))
    case ConfirmOrder(_, id) =>
      if id >= |a.orders| || a.orders[id].status == Cancelled then (a, Rejected)
      else if a.orders[id].status == Confirmed then (a, OrderConfirmed(id, None))
      else
        var o := a.orders[id].(status := Confirmed);
        var row := OutboxRow(id, PayloadOf(id, o), Waiting, 0, a.now, a.now);
        (a.(orders := a.orders[id := o], outbox := a.outbox + [row]),
         OrderConfirmed(id, Some(|a.outbox|)))
  }

  /** One request from start to end; `dies` when the process stops before the reply is saved. A rejected
      request throws before saving. */
  function Serve(a: Api, r: Request, dies: bool): (Api, Reply) {
    if r.key.None? then Effect(a, r)
    else
      var slot := (r.key.value, ScopeOf(r));
      if slot in a.keys then
        (a, if a.keys[slot].hash == HashOf(r) then a.keys[slot].reply else KeyReused)
      else
        var (b, reply) := Effect(a, r);
        if dies || reply.Rejected? then (b, reply)
        else (b.(keys := b.keys[slot := SavedReply(HashOf(r), reply)]), reply)
  }

  datatype Served = Served(request: Request, dies: bool)

  function After(a: Api, log: seq<Served>): Api {
    if |log| == 0 then a
    else Serve(After(a, log[..|log| - 1]), log[|log| - 1].request, log[|log| - 1].dies).0
  }

  function ReplyAt(a: Api, log: seq<Served>, i: nat): Reply
    requires i < |log|
  {
    Serve(After(a, log[..i]), log[i].request, log[i].dies).1
  }

  // ---------------------------------------------------------------- the key table

  predicate KeyedBy(r: Request, key: string, scope: Scope) {
    r.key == Some(key) && ScopeOf(r) == scope
  }

  /** A saved reply is never replaced or removed. */
  lemma {:induction false} SavedReplyStays(a: Api, log: seq<Served>, slot: (string, Scope))
    requires slot in a.keys
    ensures slot in After(a, log).keys && After(a, log).keys[slot] == a.keys[slot]
  {
    if |log| > 0 {
      SavedReplyStays(a, log[..|log| - 1], slot);
    }
  }

  lemma {:induction false} AfterSplits(a: Api, log: seq<Served>, i: nat)
    requires i <= |log|
    ensures After(a, log) == After(After(a, log[..i]), log[i..])
  {
    if i < |log| {
      var front := log[..|log| - 1];
      AfterSplits(a, front, i);
      assert front[..i] == log[..i];
      assert log[i..][..|log[i..]| - 1] == front[i..];
    } else {
      assert log[..i] == log;
    }
  }

  /** A request that completed with a reply fixes that reply for its key and scope. */
  lemma CompletedIsSaved(a: Api, r: Request)
    requires r.key.Some? && !Serve(a, r, false).1.Rejected? && !Serve(a, r, false).1.KeyReused?
    ensures var slot := (r.key.value, ScopeOf(r)); var (b, reply) := Serve(a, r, false);
            slot in b.keys && b.keys[slot] == SavedReply(HashOf(r), reply)
  {}

  /** Once a keyed request has completed, every later one with its key and scope changes nothing: it gets
      a conflict if it is a create with another body, and the identical reply otherwise. */
  lemma LaterRequestsReplay(a: Api, log: seq<Served>, i: nat, j: nat)
    requires i < j < |log| && log[i].request.key.Some? && !log[i].dies
    requires !ReplyAt(a, log, i).Rejected? && !ReplyAt(a, log, i).KeyReused?
    requires KeyedBy(log[j].request, log[i].request.key.value, ScopeOf(log[i].request))
    ensures After(a, log[..j + 1]) == After(a, log[..j])
    ensures var q, r := log[i].request, log[j].request;
            ReplyAt(a, log, j) ==
            if q.CreateOrder? && r.CreateOrder? && r.body != q.body then KeyReused else ReplyAt(a, log, i)
  {
    var slot := (log[i].request.key.value, ScopeOf(log[i].request));
    assert log[..i + 1][..i] == log[..i];
    CompletedIsSaved(After(a, log[..i]), log[i].request);
    AfterSplits(a, log[..j], i + 1);
    assert log[..j][..i + 1] == log[..i + 1];
    SavedReplyStays(After(a, log[..i + 1]), log[..j][i + 1..], slot);
    assert log[..j + 1][..j] == log[..j];
  }

  // ---------------------------------------------------------------- what the requests do

  /** A create inserts one CREATED order with the body's data and replies with its id and data. */
  lemma CreateInserts(a: Api, key: Option<string>, body: OrderBody, dies: bool)
    requires key.None? || (key.value, CreateScope) !in a.keys
    ensures var (b, reply) := Serve(a, CreateOrder(key, body), dies);
            && reply == OrderCreated(|a.orders|, body) && b.outbox == a.outbox
            && b.orders == a.orders + [Order(body.user, body.merchant, body.amount, body.currency, Created)]
            && (key.None? || dies ==> b.keys == a.keys)
  {}

  /** Two creates with one key: the second inserts nothing; it gets the first reply for the same body, and a
      conflict for any other. */
  lemma SecondCreate(a: Api, key: string, one: OrderBody, two: OrderBody, dies: bool)
    requires (key, CreateScope) !in a.keys
    ensures var (b, first) := Serve(a, CreateOrder(Some(key), one), false);
            var (c, second) := Serve(b, CreateOrder(Some(key), two), dies);
            c == b && second == if one == two then first else KeyReused
  {}

  /** The added row announces the order with its own data. */
  predicate AnnouncesOrder(row: OutboxRow, id: OrderId, o: Order, now: int) {
    && row.aggregateId == id && row.payload.orderId == Some(id) && row.payload.user == o.user
    && row.payload.merchant == o.merchant && row.payload.amount == o.amount && row.payload.currency == o.currency
    && row.status == Waiting && row.attempts == 0 && row.availableAt == now && row.createdAt == now
  }

  /** What a confirm that no saved reply answers does: it is rejected exactly for an order that is missing or
      CANCELLED; for a CREATED order it sets the status, adds the row and replies with its position; an order
      that is CONFIRMED stays as it is and the reply has no event id. */
  predicate ConfirmsOrder(a: Api, b: Api, id: OrderId, reply: Reply) {
    if id >= |a.orders| || a.orders[id].status == Cancelled then
      reply == Rejected && b.orders == a.orders && b.outbox == a.outbox
    else if a.orders[id].status == Confirmed then
      reply == OrderConfirmed(id, None) && b.orders == a.orders && b.outbox == a.outbox
    else
      && reply == OrderConfirmed(id, Some(|a.outbox|))
      && b.orders == a.orders[id := a.orders[id].(status := Confirmed)]
      && |b.outbox| == |a.outbox| + 1 && b.outbox[..|a.outbox|] == a.outbox
      && AnnouncesOrder(b.outbox[|a.outbox|], id, a.orders[id], a.now)
  }

  lemma ConfirmReplies(a: Api, key: Option<string>, id: OrderId, dies: bool)
    requires key.None? || (key.value, ConfirmScope(id)) !in a.keys
    ensures var (b, reply) := Serve(a, ConfirmOrder(key, id), dies);
            ConfirmsOrder(a, b, id, reply) && (key.None? || dies || reply.Rejected? ==> b.keys == a.keys)
  {}

  /** A request adds at most the saved reply of its own key and scope. */
  lemma OnlyOwnSlot(a: Api, r: Request, dies: bool, slot: (string, Scope))
    requires r.key != Some(slot.0) || ScopeOf(r) != slot.1
    ensures var b := Serve(a, r, dies).0;
            (slot in b.keys <==> slot in a.keys) && (slot in a.keys ==> b.keys[slot] == a.keys[slot])
  {}

  /** So a confirm without a key can be repeated: the second one changes nothing and has no event id. */
  lemma SecondConfirm(a: Api, id: OrderId)
    requires id < |a.orders| && a.orders[id].status != Cancelled
    ensures var (b, first) := Serve(a, ConfirmOrder(None, id), false);
            Serve(b, ConfirmOrder(None, id), false) == (b, OrderConfirmed(id, None))
  {}

  // ---------------------------------------------------------------- orders per key

  /** Requests with the key that inserted an order. */
  function Creations(a: Api, log: seq<Served>, key: string): nat {
    if |log| == 0 then 0
    else
      var front, last := log[..|log| - 1], log[|log| - 1];
      Creations(a, front, key)
      + if KeyedBy(last.request, key, CreateScope) && |After(a, log).orders| > |After(a, front).orders| then 1 else 0
  }

  /** Requests with the key that died after inserting their order. */
  function Deaths(a: Api, log: seq<Served>, key: string): nat {
    if |log| == 0 then 0
    else
      var front, last := log[..|log| - 1], log[|log| - 1];
      Deaths(a, front, key)
      + if KeyedBy(last.request, key, CreateScope) && last.dies
        && |After(a, log).orders| > |After(a, front).orders| then 1 else 0
  }

  /** A key has created one order if its reply is saved, none otherwise, plus one for each death between
      the insert and the saved reply. */
  lemma {:induction false} OrdersPerKey(a: Api, log: seq<Served>, key: string)
    requires (key, CreateScope) !in a.keys
    ensures Creations(a, log, key) ==
            (if (key, CreateScope) in After(a, log).keys then 1 else 0) + Deaths(a, log, key)
  {
    if |log| > 0 {
      OrdersPerKey(a, log[..|log| - 1], key);
    }
  }

  ghost predicate NobodyDies(log: seq<Served>) {
    forall i | 0 <= i < |log| :: !log[i].dies
  }

  lemma {:induction false} NoDeaths(a: Api, log: seq<Served>, key: string)
    requires NobodyDies(log)
    ensures Deaths(a, log, key) == 0
  {
    if |log| > 0 { NoDeaths(a, log[..|log| - 1], key); }
  }

  /** Over completed requests each key creates at most one order. */
  lemma OneOrderPerKey(a: Api, log: seq<Served>, key: string)
    requires (key, CreateScope) !in a.keys && NobodyDies(log)
    ensures Creations(a, log, key) <= 1
  {
    OrdersPerKey(a, log, key);
    NoDeaths(a, log, key);
  }

  // ---------------------------------------------------------------- confirm

  /** What is saved under a confirm scope has that scope's hash. */
  ghost predicate ConfirmHashesMatch(a: Api) {
    forall slot | slot in a.keys && slot.1.ConfirmScope? :: a.keys[slot].hash == Hash(slot.1, None)
                                                            && !a.keys[slot].reply.KeyReused?
  }

  lemma {:induction false} ConfirmHashesAlwaysMatch(a: Api, log: seq<Served>)
    requires ConfirmHashesMatch(a)
    ensures ConfirmHashesMatch(After(a, log))
  {
    if |log| > 0 { ConfirmHashesAlwaysMatch(a, log[..|log| - 1]); }
  }

  /** The scope of a confirm determines its hash, so a confirm is never told that its key was reused. */
  lemma ConfirmNeverConflicts(a: Api, log: seq<Served>, i: nat)
    requires a.keys == map[] && i < |log| && log[i].request.ConfirmOrder?
    ensures !ReplyAt(a, log, i).KeyReused?
  {
    ConfirmHashesAlwaysMatch(a, log[..i]);
  }

  /** The texts the service builds keep the scopes apart: the confirm scope determines the order id. */
  function ConfirmScopeText(id: string): string {
    "POST:/orders/" + id + "/confirm"
  }

  lemma ScopeTextsAreDistinct(id: string, other: string)
    ensures ConfirmScopeText(id) != "POST:/orders"
    ensures ConfirmScopeText(id) == ConfirmScopeText(other) <==> id == other
  {
    var a, b := ConfirmScopeText(id), ConfirmScopeText(other);
    assert a[13..|a| - 8] == id;
    assert b[13..|b| - 8] == other;
  }

  /** An unkeyed or first confirm is the pipeline's atomic confirm step. */
  lemma ConfirmIsPipelineStep(s: State, w: nat, keys: map<(string, Scope), SavedReply>, id: OrderId)
    requires w < |s.requests| && s.requests[w] == ReqIdle
    ensures var t := Next(s, Confirm(w, ReqConfirmAtomically(id)));
            var (b, reply) := Effect(Api(s.orders, s.outbox, keys, s.now), ConfirmOrder(None, id));
            && t.Some? && t.value.orders == b.orders && t.value.outbox == b.outbox
            && (reply.OrderConfirmed? && reply.outboxEventId.Some? <==> t.value != s)
  {
    var t := Next(s, Confirm(w, ReqConfirmAtomically(id)));
    if id < |s.orders| && s.orders[id].status == Created {
      assert |t.value.outbox| == |s.outbox| + 1;
    }
  }

  // ---------------------------------------------------------------- the controller

  class OrdersController {
    var orders: seq<Order>
    var outbox: seq<OutboxRow>
    var keys: map<(string, Scope), SavedReply>
    var now: int

    function View(): Api
      reads this
    {
      Api(orders, outbox, keys, now)
    }

    /** The insert behind `create`. */
    method Insert(body: OrderBody) returns (id: OrderId)
      modifies this`orders
      ensures id == old(|orders|)
      ensures orders == old(orders) + [Order(body.user, body.merchant, body.amount, body.currency, Created)]
    {
      id := |orders|;
      orders := orders + [Order(body.user, body.merchant, body.amount, body.currency, Created)];
    }

    /** The confirm transaction: the status update and the outbox row, or neither. */
    method ConfirmAndOutbox(id: OrderId) returns (reply: Reply)
      modifies this`orders, this`outbox
      ensures (View(), reply) == Effect(old(View()), ConfirmOrder(None, id))
      ensures ConfirmsOrder(old(View()), View(), id, reply)
      ensures reply.Rejected? <==> id >= old(|orders|) || old(orders[id]).status == Cancelled
    {
      if id >= |orders| {
        return Rejected;
      }
      if orders[id].status == Cancelled {
        return Rejected;
      }
      if orders[id].status == Confirmed {
        return OrderConfirmed(id, None);
      }
      var confirmed := orders[id].(status := Confirmed);
      orders := orders[id := confirmed];
      outbox := outbox + [OutboxRow(id, PayloadOf(id, confirmed), Waiting, 0, now, now)];
      reply := OrderConfirmed(id, Some(|outbox| - 1));
    }

    /** `POST /orders`: with a key, a saved reply is replayed or the reuse refused; otherwise the order is
        inserted and, with a key, the reply saved unless the process stops first. */
    method Create(key: Option<string>, body: OrderBody, dies: bool) returns (reply: Reply)
      modifies this
      ensures (View(), reply) == Serve(old(View()), CreateOrder(key, body), dies)
      ensures key.None? || (key.value, CreateScope) !in old(keys) ==>
                && reply == OrderCreated(old(|orders|), body) && outbox == old(outbox)
                && orders == old(orders) + [Order(body.user, body.merchant, body.amount, body.currency, Created)]
      ensures key.Some? && (key.value, CreateScope) in old(keys) ==>
                && View() == old(View())
                && forall k, b | old(keys)[(key.value, CreateScope)].hash == HashOf(CreateOrder(k, b)) ::
                     reply == if b == body then old(keys)[(key.value, CreateScope)].reply else KeyReused
    {
      if key.Some? {
        var hash := HashOf(CreateOrder(key, body));
        var slot := (key.value, CreateScope);
        if slot in keys {
          return if keys[slot].hash != hash then KeyReused else keys[slot].reply;
        }
        var id := Insert(body);
        reply := OrderCreated(id, body);
        if !dies {
          keys := keys[slot := SavedReply(hash, reply)];
        }
      } else {
        var id := Insert(body);
        reply := OrderCreated(id, body);
      }
    }

    /** `POST /orders/:id/confirm`. */
    method Confirm(key: Option<string>, id: OrderId, dies: bool) returns (reply: Reply)
      modifies this
      ensures (View(), reply) == Serve(old(View()), ConfirmOrder(key, id), dies)
      ensures key.None? || (key.value, ConfirmScope(id)) !in old(keys) ==>
                ConfirmsOrder(old(View()), View(), id, reply)
      ensures key.Some? && (key.value, ConfirmScope(id)) in old(keys) ==> View() == old(View())
    {
      if key.Some? {
        var hash := HashOf(ConfirmOrder(key, id));
        var slot := (key.value, ConfirmScope(id));
        if slot in keys {
          return if keys[slot].hash != hash then KeyReused else keys[slot].reply;
        }
        reply := ConfirmAndOutbox(id);
        if !dies && !reply.Rejected? {
          keys := keys[slot := SavedReply(hash, reply)];
        }
      } else {
        reply := ConfirmAndOutbox(id);
      }
    }
  }
}
