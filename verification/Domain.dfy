/** The rows, messages and parameters that the API and the workers share. Money is in cents, rates
    are in ten-thousandths, time is in milliseconds. */
module Domain {

  datatype Option<+T> = None | Some(value: T)

  type OrderId = nat
  type Cents = nat
  type Rate = r: nat | r <= 10000

  datatype OrderStatus = Created | Confirmed | Cancelled

  datatype Order = Order(user: string, merchant: string, amount: Cents, currency: string, status: OrderStatus)

  datatype EntryType = Credit | Debit

  datatype Entry = Entry(user: string, orderId: OrderId, kind: EntryType, amount: Cents, currency: string)

  /** A merchant's cashback rule. */
  datatype Rule = Rule(rate: Rate, cap: Option<Cents>)

  /** The JSON body of an event. Only `orderId` is ever read back, and another producer may omit it. */
  datatype Payload = Payload(orderId: Option<OrderId>, user: string, merchant: string, amount: Cents, currency: string)

  datatype OutboxStatus = Waiting | Sent | Abandoned

  /** An outbox row; its id is its position, so ids follow creation order. `Waiting` is PENDING and
      `Abandoned` is FAILED. */
  datatype OutboxRow = OutboxRow(aggregateId: OrderId, payload: Payload, status: OutboxStatus,
                                 attempts: nat, availableAt: int, createdAt: int)

  /** The event id on a message: the id of an outbox row, or the id another producer chose. */
  datatype SourceId = Own(row: nat) | Foreign(name: string)

  /** A message on the event topic. `Ignored` is one that is not JSON or not an OrderConfirmed event. */
  datatype Message = Event(source: SourceId, payload: Payload) | Ignored

  datatype InboxStatus = Pending | Processed | Failed

  /** An inbox row; its id is its position. */
  datatype InboxRow = InboxRow(source: SourceId, payload: Payload, status: InboxStatus,
                               attempts: nat, availableAt: int, createdAt: int)

  datatype DlqMessage = DlqMessage(source: SourceId, payload: Payload, attempts: nat)

  datatype Config = Config(maxAttempts: nat, publishBatch: nat, retryBatch: nat)

  /** The payload that confirming an order writes to the outbox. */
  function PayloadOf(id: OrderId, o: Order): Payload {
    Payload(Some(id), o.user, o.merchant, o.amount, o.currency)
  }

  /** `findMany` with `orderBy: createdAt asc` and `take: limit`: the first `limit` positions that
      are eligible. */
  function Oldest(eligible: seq<bool>, limit: nat): (picked: seq<nat>)
    ensures |picked| <= limit
    ensures forall i | 0 <= i < |picked| :: picked[i] < |eligible| && eligible[picked[i]]
    ensures forall i, j | 0 <= i < j < |picked| :: picked[i] < picked[j]
  {
    if |eligible| == 0 then []
    else
      var last := |eligible| - 1;
      var before := Oldest(eligible[..last], limit);
      if eligible[last] && |before| < limit then before + [last] else before
  }

  /** An eligible position is passed over only for a full batch of older ones. */
  lemma {:induction false} OldestLeavesOut(eligible: seq<bool>, limit: nat, x: nat)
    requires x < |eligible| && eligible[x] && x !in Oldest(eligible, limit)
    ensures |Oldest(eligible, limit)| == limit
    ensures forall i | 0 <= i < limit :: Oldest(eligible, limit)[i] < x
  {
    var last := |eligible| - 1;
    var before := Oldest(eligible[..last], limit);
    if x < last {
      assert forall i | 0 <= i < |before| :: before[i] in Oldest(eligible, limit);
      OldestLeavesOut(eligible[..last], limit, x);
    } else {
      assert |before| >= limit;
    }
  }

  function Pow2(n: nat): (p: nat)
    ensures p >= 1
  {
    if n == 0 then 1 else 2 * Pow2(n - 1)
  }

  /** The exponential backoff of both loops, in milliseconds. */
  function BackoffMs(attempts: nat): (ms: nat)
    ensures 1000 <= ms <= 30000
  {
    if 1000 * Pow2(attempts) < 30000 then 1000 * Pow2(attempts) else 30000
  }
}
