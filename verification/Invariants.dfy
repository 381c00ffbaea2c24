/** What every step of the pipeline keeps, whoever takes it and whatever fails. */
module Invariants {
  import opened Domain
  import opened Cashback
  import opened Pipeline

  // ---------------------------------------------------------------- how tables may change

  predicate OrderAges(a: Order, b: Order) {
    b == a || (a.status == Created && b == a.(status := Confirmed))
  }

  ghost predicate OrdersGrow(a: seq<Order>, b: seq<Order>) {
    |a| <= |b| && forall i | 0 <= i < |a| :: OrderAges(a[i], b[i])
  }

  ghost predicate OutboxGrows(a: seq<OutboxRow>, b: seq<OutboxRow>) {
    |a| <= |b| && forall i | 0 <= i < |a| :: b[i].aggregateId == a[i].aggregateId && b[i].payload == a[i].payload
  }

  ghost predicate InboxGrows(a: seq<InboxRow>, b: seq<InboxRow>) {
    |a| <= |b| && forall i | 0 <= i < |a| :: b[i].source == a[i].source && b[i].payload == a[i].payload
  }

  /** Rows are never deleted, logs are append-only, and only statuses, attempts and times change. */
  ghost predicate Grows(s: State, t: State) {
    && t.cfg == s.cfg && s.now <= t.now
    && |t.publishers| == |s.publishers| && |t.retriers| == |s.retriers| && |t.consumers| == |s.consumers|
    && OrdersGrow(s.orders, t.orders)
    && OutboxGrows(s.outbox, t.outbox)
    && InboxGrows(s.inbox, t.inbox)
    && s.ledger <= t.ledger
    && s.topic <= t.topic
    && s.dlq <= t.dlq
  }

  // ---------------------------------------------------------------- the invariants

  /** A credit belongs to a CONFIRMED order, carries its user and currency, and is its cashback
      under some rule. */
  ghost predicate EntryOk(orders: seq<Order>, e: Entry) {
    && e.kind == Credit
    && e.orderId < |orders| && orders[e.orderId].status == Confirmed
    && e.user == orders[e.orderId].user && e.currency == orders[e.orderId].currency
    && exists rule: Rule :: e.amount == CashbackOf(orders[e.orderId].amount, rule)
  }

  ghost predicate LedgerOk(orders: seq<Order>, ledger: seq<Entry>) {
    && (forall i | 0 <= i < |ledger| :: EntryOk(orders, ledger[i]))
    && (forall i, j | 0 <= i < j < |ledger| :: ledger[i].orderId != ledger[j].orderId)
  }

  /** Every outbox row announces its own CONFIRMED order with that order's data. */
  ghost predicate OutboxOk(orders: seq<Order>, outbox: seq<OutboxRow>) {
    forall i | 0 <= i < |outbox| ::
      && outbox[i].aggregateId < |orders| && orders[outbox[i].aggregateId].status == Confirmed
      && outbox[i].payload == PayloadOf(outbox[i].aggregateId, orders[outbox[i].aggregateId])
  }

  ghost predicate HasOutboxRow(outbox: seq<OutboxRow>, id: OrderId) {
    exists i :: 0 <= i < |outbox| && outbox[i].aggregateId == id
  }

  ghost predicate ConfirmedHaveRows(orders: seq<Order>, outbox: seq<OutboxRow>) {
    forall id | 0 <= id < |orders| && orders[id].status == Confirmed :: HasOutboxRow(outbox, id)
  }

  predicate IsCopy(topic: seq<Message>, at: nat, row: nat) {
    at < |topic| && topic[at].Event? && topic[at].source == Own(row)
  }

  ghost predicate Published(topic: seq<Message>, row: nat) {
    exists at: nat :: IsCopy(topic, at, row)
  }

  /** A message that carries an outbox id carries that row's payload. */
  ghost predicate TopicOk(outbox: seq<OutboxRow>, topic: seq<Message>) {
    forall at | 0 <= at < |topic| && topic[at].Event? && topic[at].source.Own? ::
      topic[at].source.row < |outbox| && topic[at].payload == outbox[topic[at].source.row].payload
  }

  ghost predicate SentOk(outbox: seq<OutboxRow>, topic: seq<Message>) {
    forall i | 0 <= i < |outbox| && outbox[i].status == Sent :: Published(topic, i)
  }

  predicate OutboxJobOk(outbox: seq<OutboxRow>, job: Job) {
    job.id < |outbox| && job.payload == outbox[job.id].payload
  }

  ghost predicate OutboxJobsOk(outbox: seq<OutboxRow>, jobs: seq<Job>) {
    forall i | 0 <= i < |jobs| :: OutboxJobOk(outbox, jobs[i])
  }

  ghost predicate PublisherOk(outbox: seq<OutboxRow>, topic: seq<Message>, p: Publisher) {
    match p
    case PubIdle => true
    case PubBatch(rest) => OutboxJobsOk(outbox, rest)
    case PubClaimed(job, rest) => OutboxJobOk(outbox, job) && OutboxJobsOk(outbox, rest)
    case PubSent(job, rest) => OutboxJobOk(outbox, job) && OutboxJobsOk(outbox, rest) && Published(topic, job.id)
    case PubFailing(job, rest) => OutboxJobOk(outbox, job) && OutboxJobsOk(outbox, rest)
    case PubSettling(job, _, rest) => OutboxJobOk(outbox, job) && OutboxJobsOk(outbox, rest)
  }

  ghost predicate PublishersOk(s: State) {
    forall w | 0 <= w < |s.publishers| :: PublisherOk(s.outbox, s.topic, s.publishers[w])
  }

  /** One row per source id; a row that stems from the outbox repeats the outbox payload. */
  ghost predicate InboxOk(outbox: seq<OutboxRow>, inbox: seq<InboxRow>) {
    && (forall i, j | 0 <= i < j < |inbox| :: inbox[i].source != inbox[j].source)
    && (forall i | 0 <= i < |inbox| && inbox[i].source.Own? ::
          inbox[i].source.row < |outbox| && inbox[i].payload == outbox[inbox[i].source.row].payload)
  }

  predicate CreditedId(ledger: seq<Entry>, id: Option<OrderId>) {
    id.Some? && HasCredit(ledger, id.value)
  }

  predicate InboxJobOk(inbox: seq<InboxRow>, job: Job) {
    job.id < |inbox| && job.payload == inbox[job.id].payload
  }

  ghost predicate InboxJobsOk(inbox: seq<InboxRow>, jobs: seq<Job>) {
    forall i | 0 <= i < |jobs| :: InboxJobOk(inbox, jobs[i])
  }

  ghost predicate RetrierOk(inbox: seq<InboxRow>, ledger: seq<Entry>, r: Retrier) {
    match r
    case RetIdle => true
    case RetBatch(rest) => InboxJobsOk(inbox, rest)
    case RetCredited(job, rest) =>
      InboxJobOk(inbox, job) && InboxJobsOk(inbox, rest) && CreditedId(ledger, job.payload.orderId)
    case RetFailing(job, rest) => InboxJobOk(inbox, job) && InboxJobsOk(inbox, rest)
    case RetSettling(job, _, rest) => InboxJobOk(inbox, job) && InboxJobsOk(inbox, rest)
    case RetDeadLetter(job, _, rest) => InboxJobOk(inbox, job) && InboxJobsOk(inbox, rest)
  }

  ghost predicate RetriersOk(s: State) {
    forall w | 0 <= w < |s.retriers| :: RetrierOk(s.inbox, s.ledger, s.retriers[w])
  }

  predicate OnMessageOf(topic: seq<Message>, inbox: seq<InboxRow>, at: nat, row: nat) {
    at < |topic| && row < |inbox| && topic[at].Event? && topic[at].source == inbox[row].source
  }

  ghost predicate ConsumerOk(topic: seq<Message>, inbox: seq<InboxRow>, ledger: seq<Entry>, c: Consumer) {
    match c
    case ConAt(at) => at <= |topic|
    case ConStored(at, row) => OnMessageOf(topic, inbox, at, row)
    case ConCredited(at, row) =>
      OnMessageOf(topic, inbox, at, row) && CreditedId(ledger, topic[at].payload.orderId)
  }

  ghost predicate ConsumersOk(s: State) {
    && s.committed <= |s.topic|
    && forall w | 0 <= w < |s.consumers| :: ConsumerOk(s.topic, s.inbox, s.ledger, s.consumers[w])
  }

  /** The row's own order, or the order in some message with the row's source id, has its credit. */
  ghost predicate Justified(topic: seq<Message>, ledger: seq<Entry>, row: InboxRow) {
    || CreditedId(ledger, row.payload.orderId)
    || exists at :: 0 <= at < |topic| && topic[at].Event? && topic[at].source == row.source
                    && CreditedId(ledger, topic[at].payload.orderId)
  }

  ghost predicate ProcessedOk(topic: seq<Message>, inbox: seq<InboxRow>, ledger: seq<Entry>) {
    forall i | 0 <= i < |inbox| && inbox[i].status == Processed :: Justified(topic, ledger, inbox[i])
  }

  ghost predicate Inv(s: State) {
    && LedgerOk(s.orders, s.ledger)
    && OutboxOk(s.orders, s.outbox)
    && ConfirmedHaveRows(s.orders, s.outbox)
    && TopicOk(s.outbox, s.topic)
    && SentOk(s.outbox, s.topic)
    && PublishersOk(s)
    && InboxOk(s.outbox, s.inbox)
    && RetriersOk(s)
    && ConsumersOk(s)
    && ProcessedOk(s.topic, s.inbox, s.ledger)
    && RequestsOk(s)
  }

  /** A confirm in flight is for an order that is not cancelled. */
  ghost predicate RequestsOk(s: State) {
    forall w | 0 <= w < |s.requests| && s.requests[w].ReqConfirming? ::
      s.requests[w].orderId < |s.orders| && s.orders[s.requests[w].orderId].status != Cancelled
  }

  // ---------------------------------------------------------------- every step only grows

  lemma PublisherGrows(s: State, w: nat, a: PublisherAction)
    requires PublisherNext(s, w, a).Some?
    ensures Grows(s, PublisherNext(s, w, a).value)
  {}

  lemma RetrierGrows(s: State, w: nat, a: RetrierAction)
    requires RetrierNext(s, w, a).Some?
    ensures Grows(s, RetrierNext(s, w, a).value)
  {}

  lemma ConsumerGrows(s: State, w: nat, a: ConsumerAction)
    requires ConsumerNext(s, w, a).Some?
    ensures Grows(s, ConsumerNext(s, w, a).value)
  {}

  lemma ReplayerGrows(s: State, w: nat, a: ReplayerAction)
    requires ReplayerNext(s, w, a).Some?
    ensures Grows(s, ReplayerNext(s, w, a).value)
  {}

  lemma RequestGrows(s: State, w: nat, a: RequestAction)
    requires RequestsOk(s) && RequestNext(s, w, a).Some?
    ensures Grows(s, RequestNext(s, w, a).value)
  {}

  lemma StepGrows(s: State, step: Step)
    requires RequestsOk(s)
    requires Next(s, step).Some?
    ensures Grows(s, Next(s, step).value)
  {
    match step
    case Publish(w, a) => PublisherGrows(s, w, a);
    case Retry(w, a) => RetrierGrows(s, w, a);
    case Consume(w, a) => ConsumerGrows(s, w, a);
    case Replay(w, a) => ReplayerGrows(s, w, a);
    case Confirm(w, a) => RequestGrows(s, w, a);
    case Create(_, _, _, _) =>
    case Inject(m) =>
    case Tick(ms) =>
  }

  lemma CreditsPersist(a: seq<Entry>, b: seq<Entry>, id: OrderId)
    requires a <= b && HasCredit(a, id)
    ensures HasCredit(b, id)
  {
    var i :| 0 <= i < |a| && a[i].orderId == id && a[i].kind == Credit;
    assert b[i] == a[i];
  }

  lemma PublishedPersists(a: seq<Message>, b: seq<Message>, row: nat)
    requires a <= b && Published(a, row)
    ensures Published(b, row)
  {
    var at: nat :| IsCopy(a, at, row);
    assert IsCopy(b, at, row);
  }

  lemma JustifiedPersists(
    topic: seq<Message>, topic': seq<Message>, a: seq<Entry>, b: seq<Entry>, row: InboxRow, row': InboxRow)
    requires topic <= topic' && a <= b && Justified(topic, a, row)
    requires row'.source == row.source && row'.payload == row.payload
    ensures Justified(topic', b, row')
  {
    if CreditedId(a, row.payload.orderId) {
      CreditsPersist(a, b, row.payload.orderId.value);
    } else {
      var at :| 0 <= at < |topic| && topic[at].Event? && topic[at].source == row.source
        && CreditedId(a, topic[at].payload.orderId);
      CreditsPersist(a, b, topic[at].payload.orderId.value);
      assert topic'[at] == topic[at];
    }
  }

  // ---------------------------------------------------------------- the ledger

  lemma PostedHasCredit(orders: seq<Order>, ledger: seq<Entry>, id: Option<OrderId>, rule: Rule)
    requires Creditable(orders, id)
    ensures HasCredit(Posted(orders, ledger, id, rule), id.value)
  {
    if !HasCredit(ledger, id.value) {
      var after := Posted(orders, ledger, id, rule);
      assert after[|ledger|] == CreditFor(orders, id.value, rule);
    }
  }

  lemma PostedKeepsLedgerOk(orders: seq<Order>, ledger: seq<Entry>, id: Option<OrderId>, rule: Rule)
    requires LedgerOk(orders, ledger)
    ensures LedgerOk(orders, Posted(orders, ledger, id, rule))
  {
    if Creditable(orders, id) && !HasCredit(ledger, id.value) {
      var after := Posted(orders, ledger, id, rule);
      assert EntryOk(orders, after[|ledger|]);
      forall i | 0 <= i < |ledger| ensures ledger[i].orderId != id.value {
        assert EntryOk(orders, ledger[i]);
      }
    }
  }

  lemma OrdersGrowKeepsLedgerOk(a: seq<Order>, b: seq<Order>, ledger: seq<Entry>)
    requires OrdersGrow(a, b) && LedgerOk(a, ledger)
    ensures LedgerOk(b, ledger)
  {
    forall i | 0 <= i < |ledger| ensures EntryOk(b, ledger[i]) {
      assert EntryOk(a, ledger[i]);
      assert OrderAges(a[ledger[i].orderId], b[ledger[i].orderId]);
    }
  }

  // ---------------------------------------------------------------- what growth keeps

  lemma GrowthKeepsPublisher(s: State, t: State, p: Publisher)
    requires Grows(s, t) && PublisherOk(s.outbox, s.topic, p)
    ensures PublisherOk(t.outbox, t.topic, p)
  {
    if p.PubSent? {
      PublishedPersists(s.topic, t.topic, p.job.id);
    }
  }

  lemma GrowthKeepsRetrier(s: State, t: State, r: Retrier)
    requires Grows(s, t) && RetrierOk(s.inbox, s.ledger, r)
    ensures RetrierOk(t.inbox, t.ledger, r)
  {
    if r.RetCredited? {
      CreditsPersist(s.ledger, t.ledger, r.job.payload.orderId.value);
    }
  }

  lemma GrowthKeepsConsumer(s: State, t: State, c: Consumer)
    requires Grows(s, t) && ConsumerOk(s.topic, s.inbox, s.ledger, c)
    ensures ConsumerOk(t.topic, t.inbox, t.ledger, c)
  {
    if c.ConCredited? {
      CreditsPersist(s.ledger, t.ledger, s.topic[c.at].payload.orderId.value);
    }
  }

  lemma GrowthKeepsTopic(s: State, t: State)
    requires Grows(s, t) && TopicOk(s.outbox, s.topic)
    ensures TopicOk(t.outbox, s.topic)
  {}

  lemma GrowthKeepsConfirmedRows(orders: seq<Order>, a: seq<OutboxRow>, b: seq<OutboxRow>)
    requires OutboxGrows(a, b) && ConfirmedHaveRows(orders, a)
    ensures ConfirmedHaveRows(orders, b)
  {
    forall id | 0 <= id < |orders| && orders[id].status == Confirmed ensures HasOutboxRow(b, id) {
      var i :| 0 <= i < |a| && a[i].aggregateId == id;
      assert b[i].aggregateId == id;
    }
  }

  /** Inbox rows whose payloads and sources stay, with no new PROCESSED row, stay justified. */
  lemma GrowthKeepsProcessed(s: State, t: State)
    requires Grows(s, t) && ProcessedOk(s.topic, s.inbox, s.ledger)
    requires forall i | 0 <= i < |t.inbox| && t.inbox[i].status == Processed ::
               (i < |s.inbox| && s.inbox[i].status == Processed) || Justified(t.topic, t.ledger, t.inbox[i])
    ensures ProcessedOk(t.topic, t.inbox, t.ledger)
  {
    forall i | 0 <= i < |t.inbox| && t.inbox[i].status == Processed ensures Justified(t.topic, t.ledger, t.inbox[i]) {
      if i < |s.inbox| && s.inbox[i].status == Processed {
        JustifiedPersists(s.topic, t.topic, s.ledger, t.ledger, s.inbox[i], t.inbox[i]);
      }
    }
  }

  lemma GrowthKeepsSent(s: State, t: State)
    requires Grows(s, t) && SentOk(s.outbox, s.topic)
    requires forall i | 0 <= i < |t.outbox| && t.outbox[i].status == Sent ::
               (i < |s.outbox| && s.outbox[i].status == Sent) || Published(t.topic, i)
    ensures SentOk(t.outbox, t.topic)
  {
    forall i | 0 <= i < |t.outbox| && t.outbox[i].status == Sent ensures Published(t.topic, i) {
      if i < |s.outbox| && s.outbox[i].status == Sent {
        PublishedPersists(s.topic, t.topic, i);
      }
    }
  }

  lemma GrowthKeepsInbox(s: State, t: State)
    requires Grows(s, t) && InboxOk(s.outbox, s.inbox) && |t.inbox| == |s.inbox|
    ensures InboxOk(t.outbox, t.inbox)
  {}

  // ---------------------------------------------------------------- publisher steps

  /** What the publisher's own place must satisfy after a step, and which rows may turn SENT. */
  lemma PublisherPlace(s: State, w: nat, a: PublisherAction)
    requires PublishersOk(s) && PublisherNext(s, w, a).Some?
    ensures var t := PublisherNext(s, w, a).value; PublisherOk(t.outbox, t.topic, t.publishers[w])
  {
    var t := PublisherNext(s, w, a).value;
    PublisherGrows(s, w, a);
    assert PublisherOk(s.outbox, s.topic, s.publishers[w]);
    match s.publishers[w]
    case PubClaimed(job, rest) =>
      if a.PubSend? && !a.o.Refused? {
        assert IsCopy(t.topic, |s.topic|, job.id);
      }
    case _ =>
  }

  /** Only a row whose event was sent becomes SENT. */
  lemma PublisherMarks(s: State, w: nat, a: PublisherAction)
    requires PublishersOk(s) && PublisherNext(s, w, a).Some?
    ensures var t := PublisherNext(s, w, a).value;
            |t.outbox| == |s.outbox| &&
            forall i | 0 <= i < |t.outbox| && t.outbox[i].status == Sent ::
              s.outbox[i].status == Sent || Published(t.topic, i)
  {
    assert PublisherOk(s.outbox, s.topic, s.publishers[w]);
  }

  lemma PublisherTopic(s: State, w: nat, a: PublisherAction)
    requires PublishersOk(s) && TopicOk(s.outbox, s.topic) && PublisherNext(s, w, a).Some?
    ensures var t := PublisherNext(s, w, a).value; TopicOk(t.outbox, t.topic)
  {
    var t := PublisherNext(s, w, a).value;
    PublisherGrows(s, w, a);
    GrowthKeepsTopic(s, t);
    assert PublisherOk(s.outbox, s.topic, s.publishers[w]);
  }

  /** A publisher step leaves everything but the outbox, the topic and its own place alone. */
  predicate PublisherFrame(s: State, t: State, w: nat) {
    && t.orders == s.orders && t.ledger == s.ledger && t.inbox == s.inbox && t.committed == s.committed
    && t.dlq == s.dlq && t.retriers == s.retriers && t.consumers == s.consumers
    && t.replayers == s.replayers && t.requests == s.requests && t.now == s.now
    && |t.outbox| == |s.outbox| && |t.publishers| == |s.publishers|
    && forall v | 0 <= v < |s.publishers| && v != w :: t.publishers[v] == s.publishers[v]
  }

  lemma PublisherFrames(s: State, w: nat, a: PublisherAction)
    requires PublisherNext(s, w, a).Some?
    ensures PublisherFrame(s, PublisherNext(s, w, a).value, w)
  {}

  lemma PublisherKeeps(s: State, w: nat, a: PublisherAction)
    requires Inv(s) && PublisherNext(s, w, a).Some?
    ensures Inv(PublisherNext(s, w, a).value)
  {
    var t := PublisherNext(s, w, a).value;
    PublisherGrows(s, w, a);
    PublisherFrames(s, w, a);
    PublisherPlace(s, w, a);
    PublisherMarks(s, w, a);
    PublisherTopic(s, w, a);
    FramedByPublisher(s, t, w);
  }

  lemma FramedByPublisher(s: State, t: State, w: nat)
    requires Inv(s) && Grows(s, t) && PublisherFrame(s, t, w) && w < |s.publishers|
    requires TopicOk(t.outbox, t.topic)
    requires PublisherOk(t.outbox, t.topic, t.publishers[w])
    requires forall i | 0 <= i < |t.outbox| && t.outbox[i].status == Sent ::
               s.outbox[i].status == Sent || Published(t.topic, i)
    ensures Inv(t)
  {
    GrowthKeepsSent(s, t);
    GrowthKeepsInbox(s, t);
    GrowthKeepsProcessed(s, t);
    GrowthKeepsConfirmedRows(s.orders, s.outbox, t.outbox);
    forall v | 0 <= v < |t.publishers| ensures PublisherOk(t.outbox, t.topic, t.publishers[v]) {
      if v != w { GrowthKeepsPublisher(s, t, s.publishers[v]); }
    }
    ConsumersPersist(s, t);
  }

  lemma ConsumersPersist(s: State, t: State)
    requires ConsumersOk(s) && Grows(s, t) && t.consumers == s.consumers && t.committed == s.committed
    ensures ConsumersOk(t)
  {
    forall v | 0 <= v < |t.consumers| ensures ConsumerOk(t.topic, t.inbox, t.ledger, t.consumers[v]) {
      GrowthKeepsConsumer(s, t, s.consumers[v]);
    }
  }

  lemma RetriersPersist(s: State, t: State)
    requires RetriersOk(s) && Grows(s, t) && t.retriers == s.retriers
    ensures RetriersOk(t)
  {
    forall v | 0 <= v < |t.retriers| ensures RetrierOk(t.inbox, t.ledger, t.retriers[v]) {
      GrowthKeepsRetrier(s, t, s.retriers[v]);
    }
  }

  lemma PublishersPersist(s: State, t: State)
    requires PublishersOk(s) && Grows(s, t) && t.publishers == s.publishers
    ensures PublishersOk(t)
  {
    forall v | 0 <= v < |t.publishers| ensures PublisherOk(t.outbox, t.topic, t.publishers[v]) {
      GrowthKeepsPublisher(s, t, s.publishers[v]);
    }
  }

  // ---------------------------------------------------------------- retry loop steps

  predicate RetrierFrame(s: State, t: State, w: nat) {
    && t.orders == s.orders && t.outbox == s.outbox && t.topic == s.topic && t.committed == s.committed
    && t.publishers == s.publishers && t.consumers == s.consumers
    && t.replayers == s.replayers && t.requests == s.requests && t.now == s.now
    && |t.inbox| == |s.inbox| && |t.retriers| == |s.retriers|
    && forall v | 0 <= v < |s.retriers| && v != w :: t.retriers[v] == s.retriers[v]
  }

  lemma RetrierFrames(s: State, w: nat, a: RetrierAction)
    requires RetrierNext(s, w, a).Some?
    ensures RetrierFrame(s, RetrierNext(s, w, a).value, w)
  {}

  lemma RetrierLedger(s: State, w: nat, a: RetrierAction)
    requires LedgerOk(s.orders, s.ledger) && RetrierNext(s, w, a).Some?
    ensures var t := RetrierNext(s, w, a).value; LedgerOk(t.orders, t.ledger)
  {
    match s.retriers[w]
    case RetBatch(rest) =>
      if a.RetProcess? && |rest| > 0 { PostedKeepsLedgerOk(s.orders, s.ledger, rest[0].payload.orderId, a.rule); }
    case _ =>
  }

  lemma ProcessPlace(s: State, w: nat, rest: seq<Job>, o: Outcome, rule: Rule)
    requires w < |s.retriers| && |rest| > 0 && InboxJobsOk(s.inbox, rest)
    ensures var t := AfterRetryProcess(s, w, rest[0], rest[1..], o, rule); RetrierOk(t.inbox, t.ledger, t.retriers[w])
  {
    if Creditable(s.orders, rest[0].payload.orderId) {
      PostedHasCredit(s.orders, s.ledger, rest[0].payload.orderId, rule);
    }
  }

  lemma RetrierPlace(s: State, w: nat, a: RetrierAction)
    requires RetriersOk(s) && RetrierNext(s, w, a).Some?
    ensures var t := RetrierNext(s, w, a).value; RetrierOk(t.inbox, t.ledger, t.retriers[w])
  {
    assert RetrierOk(s.inbox, s.ledger, s.retriers[w]);
    match s.retriers[w]
    case RetBatch(rest) =>
      if a.RetProcess? && |rest| > 0 { ProcessPlace(s, w, rest, a.o, a.rule); }
    case _ =>
  }

  lemma RetrierProcessed(s: State, w: nat, a: RetrierAction)
    requires RetriersOk(s) && RetrierNext(s, w, a).Some?
    ensures var t := RetrierNext(s, w, a).value;
            forall i | 0 <= i < |t.inbox| && t.inbox[i].status == Processed ::
              s.inbox[i].status == Processed || Justified(t.topic, t.ledger, t.inbox[i])
  {
    assert RetrierOk(s.inbox, s.ledger, s.retriers[w]);
  }

  lemma RetrierKeeps(s: State, w: nat, a: RetrierAction)
    requires Inv(s) && RetrierNext(s, w, a).Some?
    ensures Inv(RetrierNext(s, w, a).value)
  {
    var t := RetrierNext(s, w, a).value;
    RetrierGrows(s, w, a);
    RetrierFrames(s, w, a);
    RetrierLedger(s, w, a);
    RetrierPlace(s, w, a);
    RetrierProcessed(s, w, a);
    FramedByRetrier(s, t, w);
  }

  lemma FramedByRetrier(s: State, t: State, w: nat)
    requires Inv(s) && Grows(s, t) && RetrierFrame(s, t, w) && w < |s.retriers|
    requires LedgerOk(t.orders, t.ledger)
    requires RetrierOk(t.inbox, t.ledger, t.retriers[w])
    requires forall i | 0 <= i < |t.inbox| && t.inbox[i].status == Processed ::
               s.inbox[i].status == Processed || Justified(t.topic, t.ledger, t.inbox[i])
    ensures Inv(t)
  {
    GrowthKeepsInbox(s, t);
    GrowthKeepsProcessed(s, t);
    PublishersPersist(s, t);
    forall v | 0 <= v < |t.retriers| ensures RetrierOk(t.inbox, t.ledger, t.retriers[v]) {
      if v != w { GrowthKeepsRetrier(s, t, s.retriers[v]); }
    }
    ConsumersPersist(s, t);
  }

  // ---------------------------------------------------------------- consumer steps

  predicate ConsumerFrame(s: State, t: State, w: nat) {
    && t.orders == s.orders && t.outbox == s.outbox && t.topic == s.topic && t.dlq == s.dlq
    && t.publishers == s.publishers && t.retriers == s.retriers
    && t.replayers == s.replayers && t.requests == s.requests && t.now == s.now
    && |t.consumers| == |s.consumers|
    && forall v | 0 <= v < |s.consumers| && v != w :: t.consumers[v] == s.consumers[v]
  }

  lemma ConsumerFrames(s: State, w: nat, a: ConsumerAction)
    requires ConsumerNext(s, w, a).Some?
    ensures ConsumerFrame(s, ConsumerNext(s, w, a).value, w)
  {}

  lemma ConsumerLedger(s: State, w: nat, a: ConsumerAction)
    requires LedgerOk(s.orders, s.ledger) && ConsumerNext(s, w, a).Some?
    ensures var t := ConsumerNext(s, w, a).value; LedgerOk(t.orders, t.ledger)
  {
    match s.consumers[w]
    case ConStored(at, row) =>
      if a.ConProcess? { PostedKeepsLedgerOk(s.orders, s.ledger, s.topic[at].payload.orderId, a.rule); }
    case _ =>
  }

  lemma StoredKeepsInbox(s: State, at: nat, now: int)
    requires InboxOk(s.outbox, s.inbox) && TopicOk(s.outbox, s.topic)
    requires at < |s.topic| && s.topic[at].Event?
    ensures InboxOk(s.outbox, Stored(s.inbox, s.topic[at].source, s.topic[at].payload, now))
  {}

  lemma ConsumerInbox(s: State, w: nat, a: ConsumerAction)
    requires InboxOk(s.outbox, s.inbox) && TopicOk(s.outbox, s.topic) && ConsumerNext(s, w, a).Some?
    ensures var t := ConsumerNext(s, w, a).value; InboxOk(t.outbox, t.inbox)
  {
    match s.consumers[w]
    case ConAt(at) =>
      if a.ConStore? && s.topic[at].Event? { StoredKeepsInbox(s, at, s.now); }
    case _ =>
  }

  lemma ConsumerPlace(s: State, w: nat, a: ConsumerAction)
    requires ConsumersOk(s) && ConsumerNext(s, w, a).Some?
    ensures var t := ConsumerNext(s, w, a).value;
            ConsumerOk(t.topic, t.inbox, t.ledger, t.consumers[w]) && t.committed <= |t.topic|
  {
    assert ConsumerOk(s.topic, s.inbox, s.ledger, s.consumers[w]);
    match s.consumers[w]
    case ConStored(at, row) =>
      if a.ConProcess? && Creditable(s.orders, s.topic[at].payload.orderId) {
        PostedHasCredit(s.orders, s.ledger, s.topic[at].payload.orderId, a.rule);
      }
    case _ =>
  }

  lemma ConsumerProcessed(s: State, w: nat, a: ConsumerAction)
    requires ConsumersOk(s) && ConsumerNext(s, w, a).Some?
    ensures var t := ConsumerNext(s, w, a).value;
            forall i | 0 <= i < |t.inbox| && t.inbox[i].status == Processed ::
              (i < |s.inbox| && s.inbox[i].status == Processed) || Justified(t.topic, t.ledger, t.inbox[i])
  {
    assert ConsumerOk(s.topic, s.inbox, s.ledger, s.consumers[w]);
  }

  lemma ConsumerKeeps(s: State, w: nat, a: ConsumerAction)
    requires Inv(s) && ConsumerNext(s, w, a).Some?
    ensures Inv(ConsumerNext(s, w, a).value)
  {
    var t := ConsumerNext(s, w, a).value;
    ConsumerGrows(s, w, a);
    ConsumerFrames(s, w, a);
    ConsumerLedger(s, w, a);
    ConsumerInbox(s, w, a);
    ConsumerPlace(s, w, a);
    ConsumerProcessed(s, w, a);
    FramedByConsumer(s, t, w);
  }

  lemma FramedByConsumer(s: State, t: State, w: nat)
    requires Inv(s) && Grows(s, t) && ConsumerFrame(s, t, w) && w < |s.consumers|
    requires LedgerOk(t.orders, t.ledger) && InboxOk(t.outbox, t.inbox)
    requires ConsumerOk(t.topic, t.inbox, t.ledger, t.consumers[w]) && t.committed <= |t.topic|
    requires forall i | 0 <= i < |t.inbox| && t.inbox[i].status == Processed ::
               (i < |s.inbox| && s.inbox[i].status == Processed) || Justified(t.topic, t.ledger, t.inbox[i])
    ensures Inv(t)
  {
    GrowthKeepsProcessed(s, t);
    PublishersPersist(s, t);
    RetriersPersist(s, t);
    forall v | 0 <= v < |t.consumers| ensures ConsumerOk(t.topic, t.inbox, t.ledger, t.consumers[v]) {
      if v != w { GrowthKeepsConsumer(s, t, s.consumers[v]); }
    }
  }

  // ---------------------------------------------------------------- replay steps

  predicate ReplayerFrame(s: State, t: State) {
    && t.orders == s.orders && t.ledger == s.ledger && t.topic == s.topic && t.dlq == s.dlq
    && t.committed == s.committed && t.publishers == s.publishers && t.retriers == s.retriers
    && t.consumers == s.consumers && t.requests == s.requests && t.now == s.now
    && |t.outbox| == |s.outbox| && |t.inbox| == |s.inbox|
    && (forall i | 0 <= i < |t.outbox| && t.outbox[i].status == Sent :: s.outbox[i].status == Sent)
    && (forall i | 0 <= i < |t.inbox| && t.inbox[i].status == Processed :: s.inbox[i].status == Processed)
  }

  lemma ReplayerFrames(s: State, w: nat, a: ReplayerAction)
    requires ReplayerNext(s, w, a).Some?
    ensures ReplayerFrame(s, ReplayerNext(s, w, a).value)
  {}

  lemma ReplayerKeeps(s: State, w: nat, a: ReplayerAction)
    requires Inv(s) && ReplayerNext(s, w, a).Some?
    ensures Inv(ReplayerNext(s, w, a).value)
  {
    ReplayerGrows(s, w, a);
    ReplayerFrames(s, w, a);
    FramedByReplayer(s, ReplayerNext(s, w, a).value);
  }

  lemma FramedByReplayer(s: State, t: State)
    requires Inv(s) && Grows(s, t) && ReplayerFrame(s, t)
    ensures Inv(t)
  {
    GrowthKeepsSent(s, t);
    GrowthKeepsInbox(s, t);
    GrowthKeepsProcessed(s, t);
    GrowthKeepsTopic(s, t);
    GrowthKeepsConfirmedRows(s.orders, s.outbox, t.outbox);
    PublishersPersist(s, t);
    RetriersPersist(s, t);
    ConsumersPersist(s, t);
  }

  // ---------------------------------------------------------------- API and environment steps

  lemma ConfirmKeepsOutbox(s: State, id: OrderId)
    requires OutboxOk(s.orders, s.outbox) && ConfirmedHaveRows(s.orders, s.outbox)
    requires id < |s.orders|
    ensures var t := ConfirmedWithOutbox(s, id);
            OutboxOk(t.orders, t.outbox) && ConfirmedHaveRows(t.orders, t.outbox)
  {
    var t := ConfirmedWithOutbox(s, id);
    assert t.outbox[|s.outbox|].aggregateId == id;
    forall k | 0 <= k < |t.orders| && t.orders[k].status == Confirmed ensures HasOutboxRow(t.outbox, k) {
      if k != id {
        var i :| 0 <= i < |s.outbox| && s.outbox[i].aggregateId == k;
        assert t.outbox[i].aggregateId == k;
      }
    }
  }

  predicate ApiFrame(s: State, t: State) {
    && t.ledger == s.ledger && t.inbox == s.inbox && t.dlq == s.dlq && t.committed == s.committed
    && t.publishers == s.publishers && t.retriers == s.retriers && t.consumers == s.consumers
    && (forall i | 0 <= i < |t.outbox| && t.outbox[i].status == Sent :: i < |s.outbox| && s.outbox[i].status == Sent)
    && (t.topic == s.topic || (|t.topic| == |s.topic| + 1
        && (t.topic[|s.topic|].Event? ==> t.topic[|s.topic|].source.Foreign?)))
  }

  lemma FramedByApi(s: State, t: State)
    requires Inv(s) && Grows(s, t) && ApiFrame(s, t)
    requires OutboxOk(t.orders, t.outbox) && ConfirmedHaveRows(t.orders, t.outbox) && RequestsOk(t)
    ensures Inv(t)
  {
    OrdersGrowKeepsLedgerOk(s.orders, t.orders, s.ledger);
    GrowthKeepsSent(s, t);
    GrowthKeepsInbox(s, t);
    GrowthKeepsProcessed(s, t);
    GrowthKeepsTopic(s, t);
    PublishersPersist(s, t);
    RetriersPersist(s, t);
    ConsumersPersist(s, t);
  }

  lemma RequestKeeps(s: State, w: nat, a: RequestAction)
    requires Inv(s) && RequestNext(s, w, a).Some?
    ensures Inv(RequestNext(s, w, a).value)
  {
    var t := RequestNext(s, w, a).value;
    RequestGrows(s, w, a);
    if a.ReqConfirmAtomically? && a.id < |s.orders| { ConfirmKeepsOutbox(s, a.id); }
    if s.requests[w].ReqConfirming? { ConfirmKeepsOutbox(s, s.requests[w].orderId); }
    FramedByApi(s, t);
  }

  lemma EnvironmentKeeps(s: State, step: Step)
    requires Inv(s) && (step.Create? || step.Inject? || step.Tick?) && Next(s, step).Some?
    ensures Inv(Next(s, step).value)
  {
    var t := Next(s, step).value;
    StepGrows(s, step);
    FramedByApi(s, t);
  }

  // ---------------------------------------------------------------- over whole runs

  lemma StepKeepsInv(s: State, step: Step)
    requires Inv(s) && Next(s, step).Some?
    ensures Inv(Next(s, step).value)
  {
    match step
    case Publish(w, a) => PublisherKeeps(s, w, a);
    case Retry(w, a) => RetrierKeeps(s, w, a);
    case Consume(w, a) => ConsumerKeeps(s, w, a);
    case Replay(w, a) => ReplayerKeeps(s, w, a);
    case Confirm(w, a) => RequestKeeps(s, w, a);
    case _ => EnvironmentKeeps(s, step);
  }

  /** The invariant holds in every state of every run, from any state where it holds. */
  lemma {:induction false} RunKeepsInv(s: State, steps: seq<Step>)
    requires Inv(s) && Run(s, steps).Some?
    ensures Inv(Run(s, steps).value)
  {
    if |steps| > 0 {
      RunKeepsInv(s, steps[..|steps| - 1]);
      StepKeepsInv(Run(s, steps[..|steps| - 1]).value, steps[|steps| - 1]);
    }
  }

  lemma InitHasInv(s: State)
    requires Init(s)
    ensures Inv(s)
  {}

  lemma {:induction false} RunKeepsWorkers(s0: State, steps: seq<Step>)
    requires Inv(s0) && Run(s0, steps).Some?
    ensures var s := Run(s0, steps).value;
            |s.publishers| == |s0.publishers| && |s.retriers| == |s0.retriers| && |s.consumers| == |s0.consumers|
            && s.cfg == s0.cfg
  {
    if |steps| > 0 {
      var front := steps[..|steps| - 1];
      RunKeepsWorkers(s0, front);
      RunKeepsInv(s0, front);
      StepGrows(Run(s0, front).value, steps[|steps| - 1]);
    }
  }

  lemma {:induction false} RunGrowsInbox(s: State, steps: seq<Step>)
    requires Inv(s) && Run(s, steps).Some?
    ensures InboxGrows(s.inbox, Run(s, steps).value.inbox)
  {
    if |steps| > 0 {
      var front := steps[..|steps| - 1];
      RunGrowsInbox(s, front);
      RunKeepsInv(s, front);
      StepGrows(Run(s, front).value, steps[|steps| - 1]);
    }
  }

  ghost predicate Reachable(s: State) {
    exists s0: State, steps: seq<Step> :: Init(s0) && Run(s0, steps) == Some(s)
  }

  lemma ReachableHasInv(s: State)
    requires Reachable(s)
    ensures Inv(s)
  {
    var s0: State, steps: seq<Step> :| Init(s0) && Run(s0, steps) == Some(s);
    InitHasInv(s0);
    RunKeepsInv(s0, steps);
  }
}
