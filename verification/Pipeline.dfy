/** The cashback pipeline as a labelled transition system. Every process may stop, or let any other
    process run, between two awaited calls; each awaited call is one step. A call to the database or
    the broker is `Ok`, `Lost` (it took effect but the caller saw an error) or `Refused` (an error
    and no effect). */
module Pipeline {
  import opened Domain
  import opened Cashback

  datatype Outcome = Ok | Lost | Refused

  /** What a loop remembers of a row it fetched: the row's id and payload at that time. */
  datatype Job = Job(id: nat, payload: Payload)

  /** Where one publisher stands in `publishOnce`. */
  datatype Publisher =
    | PubIdle
    | PubBatch(rest: seq<Job>)
    | PubClaimed(job: Job, rest: seq<Job>)
    | PubSent(job: Job, rest: seq<Job>)
    | PubFailing(job: Job, rest: seq<Job>)
    | PubSettling(job: Job, attempts: nat, rest: seq<Job>)

  /** Where one retry loop stands. */
  datatype Retrier =
    | RetIdle
    | RetBatch(rest: seq<Job>)
    | RetCredited(job: Job, rest: seq<Job>)
    | RetFailing(job: Job, rest: seq<Job>)
    | RetSettling(job: Job, attempts: nat, rest: seq<Job>)
    | RetDeadLetter(job: Job, attempts: nat, rest: seq<Job>)

  /** Where one consumer stands; `at` is the offset of the message it is on. */
  datatype Consumer =
    | ConAt(at: nat)
    | ConStored(at: nat, row: nat)
    | ConCredited(at: nat, row: nat)

  /** A row the replay tool fetched, with the attempts it saw. */
  datatype Saved = Saved(id: nat, attempts: nat)

  datatype Replayer =
    | RepIdle
    | RepInbox(rows: seq<Saved>, reset: bool)
    | RepOutbox(rows: seq<Saved>, reset: bool)

  /** A confirm request whose transaction has read the order in status CREATED. */
  datatype Request = ReqIdle | ReqConfirming(orderId: OrderId)

  datatype State = State(
    cfg: Config, now: int,
    orders: seq<Order>, ledger: seq<Entry>,
    outbox: seq<OutboxRow>, inbox: seq<InboxRow>,
    topic: seq<Message>, committed: nat, dlq: seq<DlqMessage>,
    publishers: seq<Publisher>, retriers: seq<Retrier>, consumers: seq<Consumer>,
    replayers: seq<Replayer>, requests: seq<Request>)

  datatype PublisherAction = PubPoll | PubFinish | PubClaim(o: Outcome) | PubSend(o: Outcome)
                           | PubMark(o: Outcome) | PubRefresh(o: Outcome) | PubSettle(o: Outcome) | PubCrash

  datatype RetrierAction = RetPoll | RetFinish | RetProcess(o: Outcome, rule: Rule) | RetMark(o: Outcome)
                         | RetCount(o: Outcome) | RetSettle(o: Outcome) | RetSend(o: Outcome) | RetCrash

  datatype ConsumerAction = ConStore(o: Outcome) | ConProcess(o: Outcome, rule: Rule) | ConMark(o: Outcome)
                          | ConCommit | ConRestart

  datatype InboxFilter = BySource(source: SourceId) | ByStatus(status: InboxStatus)

  datatype ReplayerAction = RepFetchInbox(filter: InboxFilter, limit: nat, reset: bool)
                          | RepFetchOutbox(status: OutboxStatus, limit: nat, reset: bool)
                          | RepReset(o: Outcome) | RepFinish | RepCrash

  datatype RequestAction = ReqConfirmAtomically(id: OrderId) | ReqRead(id: OrderId) | ReqWrite(o: Outcome) | ReqAbort

  datatype Step =
    | Publish(w: nat, p: PublisherAction)
    | Retry(w: nat, r: RetrierAction)
    | Consume(w: nat, c: ConsumerAction)
    | Replay(w: nat, y: ReplayerAction)
    | Confirm(w: nat, q: RequestAction)
    | Create(user: string, merchant: string, amount: Cents, currency: string)
    | Inject(m: Message)
    | Tick(ms: nat)

  // ---------------------------------------------------------------- the handler

  predicate HasCredit(ledger: seq<Entry>, id: OrderId) {
    exists i | 0 <= i < |ledger| :: ledger[i].orderId == id && ledger[i].kind == Credit
  }

  /** The position of the order's first credit, or the length of the ledger. */
  function CreditAt(ledger: seq<Entry>, id: OrderId): (at: nat)
    ensures at <= |ledger|
    ensures at < |ledger| ==> ledger[at].orderId == id && ledger[at].kind == Credit
    ensures at < |ledger| <==> HasCredit(ledger, id)
    ensures forall i | 0 <= i < at :: !(ledger[i].orderId == id && ledger[i].kind == Credit)
  {
    if |ledger| == 0 then 0
    else
      var last := |ledger| - 1;
      var before := CreditAt(ledger[..last], id);
      if before < last then before
      else if ledger[last].orderId == id && ledger[last].kind == Credit then last
      else |ledger|
  }

  predicate Creditable(orders: seq<Order>, id: Option<OrderId>) {
    id.Some? && id.value < |orders| && orders[id.value].status == Confirmed
  }

  function CreditFor(orders: seq<Order>, id: OrderId, rule: Rule): Entry
    requires id < |orders|
  {
    var o := orders[id];
    Entry(o.user, id, Credit, CashbackOf(o.amount, rule), o.currency)
  }

  /** The ledger after `processOrderConfirmed`: the guards of the handler, then an insert that the
      unique index on (orderId, type) turns into nothing for an order that has its credit. */
  function Posted(orders: seq<Order>, ledger: seq<Entry>, id: Option<OrderId>, rule: Rule): seq<Entry> {
    if Creditable(orders, id) && !HasCredit(ledger, id.value)
    then ledger + [CreditFor(orders, id.value, rule)]
    else ledger
  }

  // ---------------------------------------------------------------- polling

  function JobsOf(ids: seq<nat>, payloads: seq<Payload>): seq<Job>
    requires forall i | 0 <= i < |ids| :: ids[i] < |payloads|
  {
    seq(|ids|, i requires 0 <= i < |ids| => Job(ids[i], payloads[ids[i]]))
  }

  function DueOutbox(s: State): seq<bool> {
    seq(|s.outbox|, i requires 0 <= i < |s.outbox| => s.outbox[i].status == Waiting && s.outbox[i].availableAt <= s.now)
  }

  function DueInbox(s: State): seq<bool> {
    seq(|s.inbox|, i requires 0 <= i < |s.inbox| => s.inbox[i].status == Pending && s.inbox[i].availableAt <= s.now)
  }

  function OutboxPayloads(s: State): seq<Payload> {
    seq(|s.outbox|, i requires 0 <= i < |s.outbox| => s.outbox[i].payload)
  }

  function InboxPayloads(s: State): seq<Payload> {
    seq(|s.inbox|, i requires 0 <= i < |s.inbox| => s.inbox[i].payload)
  }

  function OutboxBatch(s: State): seq<Job> {
    JobsOf(Oldest(DueOutbox(s), s.cfg.publishBatch), OutboxPayloads(s))
  }

  function InboxBatch(s: State): seq<Job> {
    JobsOf(Oldest(DueInbox(s), s.cfg.retryBatch), InboxPayloads(s))
  }

  // ---------------------------------------------------------------- the publisher

  function WithPublisher(s: State, w: nat, p: Publisher): State
    requires w < |s.publishers|
  {
    s.(publishers := s.publishers[w := p])
  }

  /** Every payload the outbox holds is an OrderConfirmed event, so it is published as one. */
  function MessageOf(job: Job): Message {
    Event(Own(job.id), job.payload)
  }

  function Claimed(row: OutboxRow): OutboxRow {
    if row.status == Waiting then row.(attempts := row.attempts + 1) else row
  }

  function PublishSettled(row: OutboxRow, attempts: nat, cfg: Config, now: int): OutboxRow {
    if attempts >= cfg.maxAttempts then row.(status := Abandoned)
    else row.(status := Waiting, availableAt := now + BackoffMs(attempts))
  }

  function SetOutbox(s: State, id: nat, row: OutboxRow): State
    requires id < |s.outbox|
  {
    s.(outbox := s.outbox[id := row])
  }

  /** `updateMany` on the row while it is PENDING; a row that is not is skipped. */
  function AfterClaim(s: State, w: nat, job: Job, rest: seq<Job>, o: Outcome): State
    requires w < |s.publishers| && job.id < |s.outbox|
  {
    var row := s.outbox[job.id];
    var t := if o.Refused? then s else SetOutbox(s, job.id, Claimed(row));
    WithPublisher(t, w, if !o.Ok? then PubFailing(job, rest)
                        else if row.status == Waiting then PubClaimed(job, rest)
                        else PubBatch(rest))
  }

  function AfterSend(s: State, w: nat, job: Job, rest: seq<Job>, o: Outcome): State
    requires w < |s.publishers|
  {
    var t := if o.Refused? then s else s.(topic := s.topic + [MessageOf(job)]);
    WithPublisher(t, w, if o.Ok? then PubSent(job, rest) else PubFailing(job, rest))
  }

  function AfterMarkSent(s: State, w: nat, job: Job, rest: seq<Job>, o: Outcome): State
    requires w < |s.publishers| && job.id < |s.outbox|
  {
    var t := if o.Refused? then s else SetOutbox(s, job.id, s.outbox[job.id].(status := Sent));
    WithPublisher(t, w, if o.Ok? then PubBatch(rest) else PubFailing(job, rest))
  }

  /** The row is read again; an error here leaves `publishOnce`. */
  function AfterRefresh(s: State, w: nat, job: Job, rest: seq<Job>, o: Outcome): State
    requires w < |s.publishers| && job.id < |s.outbox|
  {
    WithPublisher(s, w, if o.Ok? then PubSettling(job, s.outbox[job.id].attempts, rest) else PubIdle)
  }

  /** FAILED or back to PENDING with a delay, whatever the row's status is by now. */
  function AfterPublishSettle(s: State, w: nat, job: Job, attempts: nat, rest: seq<Job>, o: Outcome): State
    requires w < |s.publishers| && job.id < |s.outbox|
  {
    var t := if o.Refused? then s
             else SetOutbox(s, job.id, PublishSettled(s.outbox[job.id], attempts, s.cfg, s.now));
    WithPublisher(t, w, if o.Ok? then PubBatch(rest) else PubIdle)
  }

  function PublisherNext(s: State, w: nat, a: PublisherAction): Option<State> {
    if w >= |s.publishers| then None
    else if a == PubCrash then Some(WithPublisher(s, w, PubIdle))
    else
      match s.publishers[w]
      case PubIdle =>
        if a == PubPoll then Some(WithPublisher(s, w, PubBatch(OutboxBatch(s)))) else None
      case PubBatch(rest) =>
        if |rest| == 0 then
          if a == PubFinish then Some(WithPublisher(s, w, PubIdle)) else None
        else if a.PubClaim? && rest[0].id < |s.outbox| then Some(AfterClaim(s, w, rest[0], rest[1..], a.o))
        else None
      case PubClaimed(job, rest) =>
        if a.PubSend? then Some(AfterSend(s, w, job, rest, a.o)) else None
      case PubSent(job, rest) =>
        if a.PubMark? && job.id < |s.outbox| then Some(AfterMarkSent(s, w, job, rest, a.o)) else None
      case PubFailing(job, rest) =>
        if a.PubRefresh? && job.id < |s.outbox| then Some(AfterRefresh(s, w, job, rest, a.o)) else None
      case PubSettling(job, attempts, rest) =>
        if a.PubSettle? && job.id < |s.outbox| then Some(AfterPublishSettle(s, w, job, attempts, rest, a.o))
        else None
  }

  // ---------------------------------------------------------------- the retry loop

  function WithRetrier(s: State, w: nat, r: Retrier): State
    requires w < |s.retriers|
  {
    s.(retriers := s.retriers[w := r])
  }

  function SetInbox(s: State, id: nat, row: InboxRow): State
    requires id < |s.inbox|
  {
    s.(inbox := s.inbox[id := row])
  }

  function RetrySettled(row: InboxRow, attempts: nat, cfg: Config, now: int): InboxRow {
    if attempts >= cfg.maxAttempts then row.(status := Failed)
    else row.(availableAt := now + BackoffMs(attempts))
  }

  /** The handler runs as one transaction; a payload without an order id throws before it. */
  function AfterRetryProcess(s: State, w: nat, job: Job, rest: seq<Job>, o: Outcome, rule: Rule): State
    requires w < |s.retriers|
  {
    var t := if o.Refused? then s else s.(ledger := Posted(s.orders, s.ledger, job.payload.orderId, rule));
    WithRetrier(t, w, if o.Ok? && Creditable(s.orders, job.payload.orderId) then RetCredited(job, rest)
                      else RetFailing(job, rest))
  }

  function AfterRetryMark(s: State, w: nat, job: Job, rest: seq<Job>, o: Outcome): State
    requires w < |s.retriers| && job.id < |s.inbox|
  {
    var t := if o.Refused? then s else SetInbox(s, job.id, s.inbox[job.id].(status := Processed));
    WithRetrier(t, w, if o.Ok? then RetBatch(rest) else RetFailing(job, rest))
  }

  /** The attempt is counted; an error from here on leaves the loop and ends the process. */
  function AfterCount(s: State, w: nat, job: Job, rest: seq<Job>, o: Outcome): State
    requires w < |s.retriers| && job.id < |s.inbox|
  {
    var n := s.inbox[job.id].attempts + 1;
    var t := if o.Refused? then s else SetInbox(s, job.id, s.inbox[job.id].(attempts := n));
    WithRetrier(t, w, if o.Ok? then RetSettling(job, n, rest) else RetIdle)
  }

  function AfterRetrySettle(s: State, w: nat, job: Job, attempts: nat, rest: seq<Job>, o: Outcome): State
    requires w < |s.retriers| && job.id < |s.inbox|
  {
    var t := if o.Refused? then s
             else SetInbox(s, job.id, RetrySettled(s.inbox[job.id], attempts, s.cfg, s.now));
    WithRetrier(t, w, if !o.Ok? then RetIdle
                      else if attempts >= s.cfg.maxAttempts then RetDeadLetter(job, attempts, rest)
                      else RetBatch(rest))
  }

  function AfterDeadLetter(s: State, w: nat, job: Job, attempts: nat, rest: seq<Job>, o: Outcome): State
    requires w < |s.retriers| && job.id < |s.inbox|
  {
    var row := s.inbox[job.id];
    var t := if o.Refused? then s else s.(dlq := s.dlq + [DlqMessage(row.source, row.payload, attempts)]);
    WithRetrier(t, w, if o.Ok? then RetBatch(rest) else RetIdle)
  }

  function RetrierNext(s: State, w: nat, a: RetrierAction): Option<State> {
    if w >= |s.retriers| then None
    else if a == RetCrash then Some(WithRetrier(s, w, RetIdle))
    else
      match s.retriers[w]
      case RetIdle =>
        if a == RetPoll then Some(WithRetrier(s, w, RetBatch(InboxBatch(s)))) else None
      case RetBatch(rest) =>
        if |rest| == 0 then
          if a == RetFinish then Some(WithRetrier(s, w, RetIdle)) else None
        else if a.RetProcess? then Some(AfterRetryProcess(s, w, rest[0], rest[1..], a.o, a.rule))
        else None
      case RetCredited(job, rest) =>
        if a.RetMark? && job.id < |s.inbox| then Some(AfterRetryMark(s, w, job, rest, a.o)) else None
      case RetFailing(job, rest) =>
        if a.RetCount? && job.id < |s.inbox| then Some(AfterCount(s, w, job, rest, a.o)) else None
      case RetSettling(job, attempts, rest) =>
        if a.RetSettle? && job.id < |s.inbox| then Some(AfterRetrySettle(s, w, job, attempts, rest, a.o)) else None
      case RetDeadLetter(job, attempts, rest) =>
        if a.RetSend? && job.id < |s.inbox| then Some(AfterDeadLetter(s, w, job, attempts, rest, a.o)) else None
  }

  // ---------------------------------------------------------------- the consumer

  function WithConsumer(s: State, w: nat, c: Consumer): State
    requires w < |s.consumers|
  {
    s.(consumers := s.consumers[w := c])
  }

  /** The position of the row for a source id, or the table's length when there is none. */
  function RowFor(inbox: seq<InboxRow>, source: SourceId): (row: nat)
    ensures row <= |inbox|
    ensures row < |inbox| ==> inbox[row].source == source
    ensures row == |inbox| ==> forall i | 0 <= i < |inbox| :: inbox[i].source != source
  {
    if |inbox| == 0 then 0
    else
      var before := RowFor(inbox[..|inbox| - 1], source);
      if before < |inbox| - 1 || inbox[|inbox| - 1].source == source then before else |inbox|
  }

  /** The upsert with an empty update: an existing row is left as it is. */
  function Stored(inbox: seq<InboxRow>, source: SourceId, payload: Payload, now: int): seq<InboxRow> {
    if RowFor(inbox, source) < |inbox| then inbox
    else inbox + [InboxRow(source, payload, Pending, 0, now, now)]
  }

  /** The inbox upsert. A message that is not an OrderConfirmed event is passed over, and so is one
      whose upsert throws: the handler swallows the error. */
  function AfterStore(s: State, w: nat, at: nat, o: Outcome): State
    requires w < |s.consumers| && at < |s.topic|
  {
    match s.topic[at]
    case Ignored => WithConsumer(s, w, ConAt(at + 1))
    case Event(source, payload) =>
      var t := if o.Refused? then s else s.(inbox := Stored(s.inbox, source, payload, s.now));
      WithConsumer(t, w, if o.Ok? then ConStored(at, RowFor(s.inbox, source)) else ConAt(at + 1))
  }

  /** The fast path processes the order the message names, not the one the row names. */
  function AfterFastPath(s: State, w: nat, at: nat, row: nat, o: Outcome, rule: Rule): State
    requires w < |s.consumers| && at < |s.topic| && s.topic[at].Event?
  {
    var id := s.topic[at].payload.orderId;
    var t := if o.Refused? then s else s.(ledger := Posted(s.orders, s.ledger, id, rule));
    WithConsumer(t, w, if o.Ok? && Creditable(s.orders, id) then ConCredited(at, row) else ConAt(at + 1))
  }

  function AfterConsumerMark(s: State, w: nat, at: nat, row: nat, o: Outcome): State
    requires w < |s.consumers| && row < |s.inbox|
  {
    var t := if o.Refused? then s else SetInbox(s, row, s.inbox[row].(status := Processed));
    WithConsumer(t, w, ConAt(at + 1))
  }

  function ConsumerNext(s: State, w: nat, a: ConsumerAction): Option<State> {
    if w >= |s.consumers| then None
    else if a == ConRestart then Some(WithConsumer(s, w, ConAt(s.committed)))
    else
      match s.consumers[w]
      case ConAt(at) =>
        if a == ConCommit then Some(s.(committed := at))
        else if a.ConStore? && at < |s.topic| then Some(AfterStore(s, w, at, a.o))
        else None
      case ConStored(at, row) =>
        if a.ConProcess? && at < |s.topic| && s.topic[at].Event? then Some(AfterFastPath(s, w, at, row, a.o, a.rule))
        else None
      case ConCredited(at, row) =>
        if a.ConMark? && row < |s.inbox| then Some(AfterConsumerMark(s, w, at, row, a.o)) else None
  }

  // ---------------------------------------------------------------- the replay tool

  function WithReplayer(s: State, w: nat, y: Replayer): State
    requires w < |s.replayers|
  {
    s.(replayers := s.replayers[w := y])
  }

  predicate Matches(row: InboxRow, f: InboxFilter) {
    match f
    case BySource(source) => row.source == source
    case ByStatus(status) => row.status == status
  }

  function Matching(inbox: seq<InboxRow>, f: InboxFilter): seq<bool> {
    seq(|inbox|, i requires 0 <= i < |inbox| => Matches(inbox[i], f))
  }

  function WithStatus(outbox: seq<OutboxRow>, status: OutboxStatus): seq<bool> {
    seq(|outbox|, i requires 0 <= i < |outbox| => outbox[i].status == status)
  }

  ghost predicate Covers(rows: seq<Saved>, i: nat) {
    exists k :: 0 <= k < |rows| && rows[k].id == i
  }

  /** `findMany` of the replay tool: the oldest matching rows, with the attempts they have now. */
  function FetchedInbox(inbox: seq<InboxRow>, f: InboxFilter, limit: nat): (rows: seq<Saved>)
    ensures |rows| <= limit
    ensures forall k | 0 <= k < |rows| :: rows[k].id < |inbox| && rows[k].attempts == inbox[rows[k].id].attempts
    ensures f.BySource? ==> forall k | 0 <= k < |rows| :: inbox[rows[k].id].source == f.source
    ensures f.ByStatus? ==> forall k | 0 <= k < |rows| :: inbox[rows[k].id].status == f.status
    ensures forall j, k | 0 <= j < k < |rows| :: rows[j].id < rows[k].id
  {
    var ids := Oldest(Matching(inbox, f), limit);
    seq(|ids|, k requires 0 <= k < |ids| => Saved(ids[k], inbox[ids[k]].attempts))
  }

  /** A matching row is left out only for a full batch of older ones. */
  lemma FetchedInboxLeavesOut(inbox: seq<InboxRow>, f: InboxFilter, limit: nat, i: nat)
    requires i < |inbox| && (f.BySource? ==> inbox[i].source == f.source)
    requires f.ByStatus? ==> inbox[i].status == f.status
    ensures var rows := FetchedInbox(inbox, f, limit);
            Covers(rows, i) || (|rows| == limit && forall k | 0 <= k < |rows| :: rows[k].id < i)
  {
    var eligible := Matching(inbox, f);
    var ids := Oldest(eligible, limit);
    assert eligible[i];
    if i in ids {
      var k :| 0 <= k < |ids| && ids[k] == i;
      assert FetchedInbox(inbox, f, limit)[k].id == i;
    } else {
      OldestLeavesOut(eligible, limit, i);
    }
  }

  /** `findMany` of the replay tool: the oldest matching rows, with the attempts they have now. */
  function FetchedOutbox(outbox: seq<OutboxRow>, status: OutboxStatus, limit: nat): (rows: seq<Saved>)
    ensures |rows| <= limit
    ensures forall k | 0 <= k < |rows| ::
              rows[k].id < |outbox| && outbox[rows[k].id].status == status
                && rows[k].attempts == outbox[rows[k].id].attempts
    ensures forall j, k | 0 <= j < k < |rows| :: rows[j].id < rows[k].id
  {
    var ids := Oldest(WithStatus(outbox, status), limit);
    seq(|ids|, k requires 0 <= k < |ids| => Saved(ids[k], outbox[ids[k]].attempts))
  }

  /** A matching row is left out only for a full batch of older ones. */
  lemma FetchedOutboxLeavesOut(outbox: seq<OutboxRow>, status: OutboxStatus, limit: nat, i: nat)
    requires i < |outbox| && outbox[i].status == status
    ensures var rows := FetchedOutbox(outbox, status, limit);
            Covers(rows, i) || (|rows| == limit && forall k | 0 <= k < |rows| :: rows[k].id < i)
  {
    var eligible := WithStatus(outbox, status);
    var ids := Oldest(eligible, limit);
    assert eligible[i];
    if i in ids {
      var k :| 0 <= k < |ids| && ids[k] == i;
      assert FetchedOutbox(outbox, status, limit)[k].id == i;
    } else {
      OldestLeavesOut(eligible, limit, i);
    }
  }

  function ReplayedInbox(row: InboxRow, saved: Saved, reset: bool, now: int): InboxRow {
    row.(status := Pending, availableAt := now, attempts := if reset then 0 else saved.attempts)
  }

  function ReplayedOutbox(row: OutboxRow, saved: Saved, reset: bool, now: int): OutboxRow {
    row.(status := Waiting, availableAt := now, attempts := if reset then 0 else saved.attempts)
  }

  function AfterInboxReset(s: State, w: nat, rows: seq<Saved>, reset: bool, o: Outcome): State
    requires w < |s.replayers| && |rows| > 0 && rows[0].id < |s.inbox|
  {
    var t := if o.Refused? then s
             else SetInbox(s, rows[0].id, ReplayedInbox(s.inbox[rows[0].id], rows[0], reset, s.now));
    WithReplayer(t, w, if o.Ok? then RepInbox(rows[1..], reset) else RepIdle)
  }

  function AfterOutboxReset(s: State, w: nat, rows: seq<Saved>, reset: bool, o: Outcome): State
    requires w < |s.replayers| && |rows| > 0 && rows[0].id < |s.outbox|
  {
    var t := if o.Refused? then s
             else SetOutbox(s, rows[0].id, ReplayedOutbox(s.outbox[rows[0].id], rows[0], reset, s.now));
    WithReplayer(t, w, if o.Ok? then RepOutbox(rows[1..], reset) else RepIdle)
  }

  function ReplayerNext(s: State, w: nat, a: ReplayerAction): Option<State> {
    if w >= |s.replayers| then None
    else if a == RepCrash then Some(WithReplayer(s, w, RepIdle))
    else
      match s.replayers[w]
      case RepIdle =>
        (match a
         case RepFetchInbox(f, limit, reset) =>
           Some(WithReplayer(s, w, RepInbox(FetchedInbox(s.inbox, f, limit), reset)))
         case RepFetchOutbox(st, limit, reset) =>
           Some(WithReplayer(s, w, RepOutbox(FetchedOutbox(s.outbox, st, limit), reset)))
         case _ => None)
      case RepInbox(rows, reset) =>
        if |rows| == 0 then
          if a == RepFinish then Some(WithReplayer(s, w, RepIdle)) else None
        else if a.RepReset? && rows[0].id < |s.inbox| then Some(AfterInboxReset(s, w, rows, reset, a.o))
        else None
      case RepOutbox(rows, reset) =>
        if |rows| == 0 then
          if a == RepFinish then Some(WithReplayer(s, w, RepIdle)) else None
        else if a.RepReset? && rows[0].id < |s.outbox| then Some(AfterOutboxReset(s, w, rows, reset, a.o))
        else None
  }

  // ---------------------------------------------------------------- the API

  function WithRequest(s: State, w: nat, q: Request): State
    requires w < |s.requests|
  {
    s.(requests := s.requests[w := q])
  }

  /** The two writes of a confirm transaction: the order's status and the outbox row. */
  function ConfirmedWithOutbox(s: State, id: OrderId): State
    requires id < |s.orders|
  {
    var o := s.orders[id].(status := Confirmed);
    s.(orders := s.orders[id := o],
       outbox := s.outbox + [OutboxRow(id, PayloadOf(id, o), Waiting, 0, s.now, s.now)])
  }

  /** `ReqConfirmAtomically` is a confirm that no other confirm overlaps. `ReqRead` and `ReqWrite`
      are the read and the commit of one that others may overlap. */
  function RequestNext(s: State, w: nat, a: RequestAction): Option<State> {
    if w >= |s.requests| then None else
    match s.requests[w]
    case ReqIdle =>
      (match a
       case ReqConfirmAtomically(id) =>
         if id < |s.orders| && s.orders[id].status == Created then Some(ConfirmedWithOutbox(s, id)) else Some(s)
       case ReqRead(id) =>
         if id < |s.orders| && s.orders[id].status == Created
         then Some(WithRequest(s, w, ReqConfirming(id))) else Some(s)
       case _ => None)
    case ReqConfirming(id) =>
      if a == ReqAbort then Some(WithRequest(s, w, ReqIdle))
      else if !a.ReqWrite? || id >= |s.orders| then None
      else
        var t := if a.o.Refused? then s else ConfirmedWithOutbox(s, id);
        Some(WithRequest(t, w, ReqIdle))
  }

  // ---------------------------------------------------------------- runs

  function Next(s: State, step: Step): Option<State> {
    match step
    case Publish(w, a) => PublisherNext(s, w, a)
    case Retry(w, a) => RetrierNext(s, w, a)
    case Consume(w, a) => ConsumerNext(s, w, a)
    case Replay(w, a) => ReplayerNext(s, w, a)
    case Confirm(w, a) => RequestNext(s, w, a)
    case Create(user, merchant, amount, currency) =>
      Some(s.(orders := s.orders + [Order(user, merchant, amount, currency, Created)]))
    case Inject(m) =>
      if m.Event? && m.source.Own? then None else Some(s.(topic := s.topic + [m]))
    case Tick(ms) => Some(s.(now := s.now + ms))
  }

  function Run(s: State, steps: seq<Step>): Option<State> {
    if |steps| == 0 then Some(s)
    else
      var before := Run(s, steps[..|steps| - 1]);
      if before.None? then None else Next(before.value, steps[|steps| - 1])
  }

  /** Empty tables and idle processes, any number of each. */
  ghost predicate Init(s: State) {
    && s.orders == [] && s.ledger == [] && s.outbox == [] && s.inbox == []
    && s.topic == [] && s.committed == 0 && s.dlq == []
    && (forall w | 0 <= w < |s.publishers| :: s.publishers[w] == PubIdle)
    && (forall w | 0 <= w < |s.retriers| :: s.retriers[w] == RetIdle)
    && (forall w | 0 <= w < |s.consumers| :: s.consumers[w] == ConAt(0))
    && (forall w | 0 <= w < |s.replayers| :: s.replayers[w] == RepIdle)
    && (forall w | 0 <= w < |s.requests| :: s.requests[w] == ReqIdle)
  }

  lemma RunAppend(s: State, steps: seq<Step>, step: Step)
    ensures Run(s, steps + [step]) ==
            if Run(s, steps).None? then None else Next(Run(s, steps).value, step)
  {
    assert (steps + [step])[..|steps|] == steps;
  }

  lemma RunOne(s: State, step: Step)
    ensures Run(s, [step]) == Next(s, step)
  {
    RunAppend(s, [], step);
    assert [] + [step] == [step];
  }

  lemma RunExtends(s: State, steps: seq<Step>, t: State, step: Step)
    requires Run(s, steps) == Some(t)
    ensures Run(s, steps + [step]) == Next(t, step)
  {
    RunAppend(s, steps, step);
  }

  lemma {:induction false} RunConcat(s: State, a: seq<Step>, b: seq<Step>)
    ensures Run(s, a + b) == if Run(s, a).None? then None else Run(Run(s, a).value, b)
  {
    if |b| == 0 {
      assert a + b == a;
    } else {
      var front := b[..|b| - 1];
      assert a + b == (a + front) + [b[|b| - 1]];
      RunConcat(s, a, front);
      RunAppend(s, a + front, b[|b| - 1]);
    }
  }

  lemma RunPrepend(s: State, step: Step, rest: seq<Step>)
    requires Next(s, step).Some?
    ensures Run(s, [step] + rest) == Run(Next(s, step).value, rest)
  {
    RunAppend(s, [], step);
    assert [] + [step] == [step];
    RunConcat(s, [step], rest);
  }
}
