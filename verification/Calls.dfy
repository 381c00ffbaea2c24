/** What each awaited call writes, row by row, and where its process goes on: the queries, updates and sends
    of the source, stated on the fields of the rows. */
module Calls {
  import opened Domain
  import opened Cashback
  import opened Pipeline

  /** Everything but the places of the processes. */
  predicate SameTables(s: State, t: State) {
    && t.cfg == s.cfg && t.now == s.now && t.orders == s.orders && t.ledger == s.ledger && t.outbox == s.outbox
    && t.inbox == s.inbox && t.topic == s.topic && t.committed == s.committed && t.dlq == s.dlq
  }

  /** How the step's call ends, if it makes one that can fail. */
  function OutcomeOf(step: Step): Option<Outcome> {
    match step
    case Publish(_, a) =>
      (match a
       case PubClaim(o) => Some(o)
       case PubSend(o) => Some(o)
       case PubMark(o) => Some(o)
       case PubRefresh(o) => Some(o)
       case PubSettle(o) => Some(o)
       case _ => None)
    case Retry(_, a) =>
      (match a
       case RetProcess(o, _) => Some(o)
       case RetMark(o) => Some(o)
       case RetCount(o) => Some(o)
       case RetSettle(o) => Some(o)
       case RetSend(o) => Some(o)
       case _ => None)
    case Consume(_, a) =>
      (match a
       case ConStore(o) => Some(o)
       case ConProcess(o, _) => Some(o)
       case ConMark(o) => Some(o)
       case _ => None)
    case Replay(_, RepReset(o)) => Some(o)
    case Confirm(_, ReqWrite(o)) => Some(o)
    case _ => None
  }

  /** The same call with an acknowledged outcome. */
  function Acknowledged(step: Step): Step {
    match step
    case Publish(w, a) =>
      Publish(w, match a
                 case PubClaim(_) => PubClaim(Ok)
                 case PubSend(_) => PubSend(Ok)
                 case PubMark(_) => PubMark(Ok)
                 case PubRefresh(_) => PubRefresh(Ok)
                 case PubSettle(_) => PubSettle(Ok)
                 case _ => a)
    case Retry(w, a) =>
      Retry(w, match a
               case RetProcess(_, rule) => RetProcess(Ok, rule)
               case RetMark(_) => RetMark(Ok)
               case RetCount(_) => RetCount(Ok)
               case RetSettle(_) => RetSettle(Ok)
               case RetSend(_) => RetSend(Ok)
               case _ => a)
    case Consume(w, a) =>
      Consume(w, match a
                 case ConStore(_) => ConStore(Ok)
                 case ConProcess(_, rule) => ConProcess(Ok, rule)
                 case ConMark(_) => ConMark(Ok)
                 case _ => a)
    case Replay(w, RepReset(_)) => Replay(w, RepReset(Ok))
    case Confirm(w, ReqWrite(_)) => Confirm(w, ReqWrite(Ok))
    case _ => step
  }

  // ---------------------------------------------------------------- outcomes

  /** A refused call writes nothing. */
  lemma RefusedWritesNothing(s: State, step: Step)
    requires Next(s, step).Some? && OutcomeOf(step) == Some(Refused)
    ensures SameTables(s, Next(s, step).value)
  {}

  lemma LostByPublisher(s: State, w: nat, a: PublisherAction)
    requires PublisherNext(s, w, a).Some? && OutcomeOf(Publish(w, a)) == Some(Lost)
    ensures Next(s, Acknowledged(Publish(w, a))).Some?
    ensures SameTables(PublisherNext(s, w, a).value, Next(s, Acknowledged(Publish(w, a))).value)
  {}

  lemma LostByRetrier(s: State, w: nat, a: RetrierAction)
    requires RetrierNext(s, w, a).Some? && OutcomeOf(Retry(w, a)) == Some(Lost)
    ensures Next(s, Acknowledged(Retry(w, a))).Some?
    ensures SameTables(RetrierNext(s, w, a).value, Next(s, Acknowledged(Retry(w, a))).value)
  {}

  lemma LostByConsumer(s: State, w: nat, a: ConsumerAction)
    requires ConsumerNext(s, w, a).Some? && OutcomeOf(Consume(w, a)) == Some(Lost)
    ensures Next(s, Acknowledged(Consume(w, a))).Some?
    ensures SameTables(ConsumerNext(s, w, a).value, Next(s, Acknowledged(Consume(w, a))).value)
  {}

  /** A call whose reply is lost writes what it writes when it is acknowledged. */
  lemma LostWritesTheSame(s: State, step: Step)
    requires Next(s, step).Some? && OutcomeOf(step) == Some(Lost)
    ensures Next(s, Acknowledged(step)).Some?
    ensures SameTables(Next(s, step).value, Next(s, Acknowledged(step)).value)
  {
    match step
    case Publish(w, a) => LostByPublisher(s, w, a);
    case Retry(w, a) => LostByRetrier(s, w, a);
    case Consume(w, a) => LostByConsumer(s, w, a);
    case _ =>
  }

  /** Polls, fetches, reads, stops and the ends of rounds write nothing. */
  lemma ReadsWriteNothing(s: State, step: Step)
    requires Next(s, step).Some? && OutcomeOf(step).None?
    requires step.Publish? || step.Retry? || step.Replay? || (step.Consume? && step.c == ConRestart)
             || (step.Confirm? && !step.q.ReqConfirmAtomically?)
    ensures SameTables(s, Next(s, step).value)
  {}

  // ---------------------------------------------------------------- the publisher

  /** The claim raises the attempts of a row that is PENDING; any other row is passed over. */
  lemma ClaimWrites(s: State, w: nat, job: Job, rest: seq<Job>)
    requires w < |s.publishers| && s.publishers[w] == PubBatch([job] + rest) && job.id < |s.outbox|
    ensures var t := Next(s, Publish(w, PubClaim(Ok))); var e := s.outbox[job.id];
            t == Some(if e.status == Waiting
                      then s.(outbox := s.outbox[job.id := e.(attempts := e.attempts + 1)],
                              publishers := s.publishers[w := PubClaimed(job, rest)])
                      else s.(publishers := s.publishers[w := PubBatch(rest)]))
  {
    assert ([job] + rest)[1..] == rest;
    assert s.outbox[job.id := s.outbox[job.id]] == s.outbox;
  }

  /** The send appends the event, with the row's id and the payload of the batch. */
  lemma SendWrites(s: State, w: nat, job: Job, rest: seq<Job>)
    requires w < |s.publishers| && s.publishers[w] == PubClaimed(job, rest)
    ensures Next(s, Publish(w, PubSend(Ok)))
            == Some(s.(topic := s.topic + [Event(Own(job.id), job.payload)],
                       publishers := s.publishers[w := PubSent(job, rest)]))
  {}

  /** The mark sets the status, whatever it was. */
  lemma MarkSentWrites(s: State, w: nat, job: Job, rest: seq<Job>)
    requires w < |s.publishers| && s.publishers[w] == PubSent(job, rest) && job.id < |s.outbox|
    ensures Next(s, Publish(w, PubMark(Ok)))
            == Some(s.(outbox := s.outbox[job.id := s.outbox[job.id].(status := Sent)],
                       publishers := s.publishers[w := PubBatch(rest)]))
  {}

  /** The catch branch reads the attempts again, then gives up at the maximum and puts the row off below it. */
  lemma SettleWrites(s: State, w: nat, job: Job, rest: seq<Job>)
    requires w < |s.publishers| && s.publishers[w] == PubFailing(job, rest) && job.id < |s.outbox|
    ensures var e := s.outbox[job.id];
            var reread := s.(publishers := s.publishers[w := PubSettling(job, e.attempts, rest)]);
            var settled := if e.attempts >= s.cfg.maxAttempts then e.(status := Abandoned)
                           else e.(status := Waiting, availableAt := s.now + BackoffMs(e.attempts));
            && Next(s, Publish(w, PubRefresh(Ok))) == Some(reread)
            && Next(reread, Publish(w, PubSettle(Ok)))
               == Some(s.(outbox := s.outbox[job.id := settled], publishers := s.publishers[w := PubBatch(rest)]))
  {
    assert s.publishers[w := PubSettling(job, s.outbox[job.id].attempts, rest)][w := PubBatch(rest)]
        == s.publishers[w := PubBatch(rest)];
  }

  /** An error before the catch branch leads to it, and one inside it ends the pass. */
  lemma PublisherErrors(s: State, w: nat, a: PublisherAction)
    requires PublisherNext(s, w, a).Some? && OutcomeOf(Publish(w, a)).Some? && OutcomeOf(Publish(w, a)) != Some(Ok)
    ensures var p, t := s.publishers[w], PublisherNext(s, w, a).value;
            && (p.PubBatch? ==> t.publishers == s.publishers[w := PubFailing(p.rest[0], p.rest[1..])])
            && (p.PubClaimed? || p.PubSent? ==> t.publishers == s.publishers[w := PubFailing(p.job, p.rest)])
            && (p.PubFailing? || p.PubSettling? ==> t.publishers == s.publishers[w := PubIdle])
  {}

  /** The order of the calls of `publishOnce`. */
  lemma PublisherOrder(s: State, w: nat, a: PublisherAction)
    requires PublisherNext(s, w, a).Some? && a != PubCrash
    ensures match s.publishers[w]
            case PubIdle => a == PubPoll
            case PubBatch(rest) => if |rest| == 0 then a == PubFinish else a.PubClaim?
            case PubClaimed(_, _) => a.PubSend?
            case PubSent(_, _) => a.PubMark?
            case PubFailing(_, _) => a.PubRefresh?
            case PubSettling(_, _, _) => a.PubSettle?
  {}

  // ---------------------------------------------------------------- the handler

  /** The order of the payload is credited if it is CONFIRMED and has no credit yet, with its own user and
      currency and the cashback of its own amount. */
  ghost predicate CreditsOnce(s: State, id: Option<OrderId>, rule: Rule, after: seq<Entry>) {
    if id.Some? && id.value < |s.orders| && s.orders[id.value].status == Confirmed
       && forall i | 0 <= i < |s.ledger| :: s.ledger[i].orderId == id.value ==> s.ledger[i].kind == Debit
    then
      var o := s.orders[id.value];
      after == s.ledger + [Entry(o.user, id.value, Credit, CashbackOf(o.amount, rule), o.currency)]
    else after == s.ledger
  }

  ghost predicate ReturnsFor(s: State, id: Option<OrderId>) {
    id.Some? && id.value < |s.orders| && s.orders[id.value].status == Confirmed
  }

  // ---------------------------------------------------------------- the retry loop

  /** The handler runs on the fetched payload; it returns for a CONFIRMED order and throws for any other. */
  lemma TryWrites(s: State, w: nat, job: Job, rest: seq<Job>, rule: Rule)
    requires w < |s.retriers| && s.retriers[w] == RetBatch([job] + rest)
    ensures var t := Next(s, Retry(w, RetProcess(Ok, rule))); var id := job.payload.orderId;
            && t.Some? && CreditsOnce(s, id, rule, t.value.ledger)
            && t.value == s.(ledger := t.value.ledger,
                             retriers := s.retriers[w := if ReturnsFor(s, id) then RetCredited(job, rest)
                                                         else RetFailing(job, rest)])
  {
    assert ([job] + rest)[1..] == rest;
  }

  lemma MarkProcessedWrites(s: State, w: nat, job: Job, rest: seq<Job>)
    requires w < |s.retriers| && s.retriers[w] == RetCredited(job, rest) && job.id < |s.inbox|
    ensures Next(s, Retry(w, RetMark(Ok)))
            == Some(s.(inbox := s.inbox[job.id := s.inbox[job.id].(status := Processed)],
                       retriers := s.retriers[w := RetBatch(rest)]))
  {}

  /** The catch branch counts the attempt first; the count decides between giving up with a letter and putting
      the row off. The status stays as it is below the maximum. */
  lemma CountWrites(s: State, w: nat, job: Job, rest: seq<Job>)
    requires w < |s.retriers| && s.retriers[w] == RetFailing(job, rest) && job.id < |s.inbox|
    ensures var n := s.inbox[job.id].attempts + 1;
            Next(s, Retry(w, RetCount(Ok)))
            == Some(s.(inbox := s.inbox[job.id := s.inbox[job.id].(attempts := n)],
                       retriers := s.retriers[w := RetSettling(job, n, rest)]))
  {}

  lemma PutOffWrites(s: State, w: nat, job: Job, n: nat, rest: seq<Job>)
    requires w < |s.retriers| && s.retriers[w] == RetSettling(job, n, rest) && job.id < |s.inbox|
    ensures var e := s.inbox[job.id];
            Next(s, Retry(w, RetSettle(Ok)))
            == Some(if n >= s.cfg.maxAttempts
                    then s.(inbox := s.inbox[job.id := e.(status := Failed)],
                            retriers := s.retriers[w := RetDeadLetter(job, n, rest)])
                    else s.(inbox := s.inbox[job.id := e.(availableAt := s.now + BackoffMs(n))],
                            retriers := s.retriers[w := RetBatch(rest)]))
  {}

  /** The letter has the row's source id and payload and the counted attempts. */
  lemma LetterWrites(s: State, w: nat, job: Job, n: nat, rest: seq<Job>)
    requires w < |s.retriers| && s.retriers[w] == RetDeadLetter(job, n, rest) && job.id < |s.inbox|
    ensures Next(s, Retry(w, RetSend(Ok)))
            == Some(s.(dlq := s.dlq + [DlqMessage(s.inbox[job.id].source, s.inbox[job.id].payload, n)],
                       retriers := s.retriers[w := RetBatch(rest)]))
  {}

  /** An error of the handler or the mark leads to the catch branch, and one inside it ends the loop. */
  lemma RetrierErrors(s: State, w: nat, a: RetrierAction)
    requires RetrierNext(s, w, a).Some? && OutcomeOf(Retry(w, a)).Some? && OutcomeOf(Retry(w, a)) != Some(Ok)
    ensures var r, t := s.retriers[w], RetrierNext(s, w, a).value;
            && (r.RetBatch? ==> t.retriers == s.retriers[w := RetFailing(r.rest[0], r.rest[1..])])
            && (r.RetCredited? ==> t.retriers == s.retriers[w := RetFailing(r.job, r.rest)])
            && (r.RetFailing? || r.RetSettling? || r.RetDeadLetter? ==> t.retriers == s.retriers[w := RetIdle])
  {}

  /** The order of the calls of `retryInboxLoop`. */
  lemma RetrierOrder(s: State, w: nat, a: RetrierAction)
    requires RetrierNext(s, w, a).Some? && a != RetCrash
    ensures match s.retriers[w]
            case RetIdle => a == RetPoll
            case RetBatch(rest) => if |rest| == 0 then a == RetFinish else a.RetProcess?
            case RetCredited(_, _) => a.RetMark?
            case RetFailing(_, _) => a.RetCount?
            case RetSettling(_, _, _) => a.RetSettle?
            case RetDeadLetter(_, _, _) => a.RetSend?
  {}

  // ---------------------------------------------------------------- the consumer

  /** The upsert creates a PENDING row with the message's id and payload, no attempts and due now, unless there
      is a row with the id, which it leaves alone. The consumer goes on with that row. */
  lemma StoreWrites(s: State, w: nat, at: nat)
    requires w < |s.consumers| && s.consumers[w] == ConAt(at) && at < |s.topic| && s.topic[at].Event?
    ensures var m := s.topic[at]; var t := Next(s, Consume(w, ConStore(Ok))); var row := RowFor(s.inbox, m.source);
            t == Some(s.(inbox := if row < |s.inbox| then s.inbox
                                  else s.inbox + [InboxRow(m.source, m.payload, Pending, 0, s.now, s.now)],
                         consumers := s.consumers[w := ConStored(at, row)]))
  {}

  lemma IgnoredIsPassed(s: State, w: nat, at: nat, o: Outcome)
    requires w < |s.consumers| && s.consumers[w] == ConAt(at) && at < |s.topic| && s.topic[at].Ignored?
    ensures Next(s, Consume(w, ConStore(o))) == Some(s.(consumers := s.consumers[w := ConAt(at + 1)]))
  {}

  /** The fast path runs the handler on the message's payload; if it throws, the consumer moves on. */
  lemma FastPathWrites(s: State, w: nat, at: nat, row: nat, rule: Rule)
    requires w < |s.consumers| && s.consumers[w] == ConStored(at, row) && at < |s.topic| && s.topic[at].Event?
    ensures var t := Next(s, Consume(w, ConProcess(Ok, rule))); var id := s.topic[at].payload.orderId;
            && t.Some? && CreditsOnce(s, id, rule, t.value.ledger)
            && t.value == s.(ledger := t.value.ledger,
                             consumers := s.consumers[w := if ReturnsFor(s, id) then ConCredited(at, row)
                                                           else ConAt(at + 1)])
  {}

  lemma MarkConsumedWrites(s: State, w: nat, at: nat, row: nat)
    requires w < |s.consumers| && s.consumers[w] == ConCredited(at, row) && row < |s.inbox|
    ensures Next(s, Consume(w, ConMark(Ok)))
            == Some(s.(inbox := s.inbox[row := s.inbox[row].(status := Processed)],
                       consumers := s.consumers[w := ConAt(at + 1)]))
  {}

  /** The handler never throws: any error leads behind the message. */
  lemma ConsumerErrors(s: State, w: nat, a: ConsumerAction)
    requires ConsumerNext(s, w, a).Some? && OutcomeOf(Consume(w, a)).Some? && OutcomeOf(Consume(w, a)) != Some(Ok)
    ensures ConsumerNext(s, w, a).value.consumers == s.consumers[w := ConAt(s.consumers[w].at + 1)]
  {}

  /** Offsets are committed between messages only; a restarted consumer goes on from the committed one. */
  lemma CommitWrites(s: State, w: nat)
    requires w < |s.consumers|
    ensures Next(s, Consume(w, ConCommit))
            == if s.consumers[w].ConAt? then Some(s.(committed := s.consumers[w].at)) else None
    ensures Next(s, Consume(w, ConRestart)) == Some(s.(consumers := s.consumers[w := ConAt(s.committed)]))
  {}

  /** The order of the calls of the message handler. */
  lemma ConsumerOrder(s: State, w: nat, a: ConsumerAction)
    requires ConsumerNext(s, w, a).Some? && a != ConRestart
    ensures match s.consumers[w]
            case ConAt(_) => a.ConStore? || a == ConCommit
            case ConStored(_, _) => a.ConProcess?
            case ConCredited(_, _) => a.ConMark?
  {}

  // ---------------------------------------------------------------- the replay tool

  /** A fetch starts the tool on the rows it finds, with the flag it was called with. */
  lemma FetchReads(s: State, w: nat, f: InboxFilter, status: OutboxStatus, limit: nat, reset: bool)
    requires w < |s.replayers| && s.replayers[w] == RepIdle
    ensures Next(s, Replay(w, RepFetchInbox(f, limit, reset)))
            == Some(s.(replayers := s.replayers[w := RepInbox(FetchedInbox(s.inbox, f, limit), reset)]))
    ensures Next(s, Replay(w, RepFetchOutbox(status, limit, reset)))
            == Some(s.(replayers := s.replayers[w := RepOutbox(FetchedOutbox(s.outbox, status, limit), reset)]))
  {}

  /** A reset row is PENDING and due now, with no attempts or those it had when it was fetched, and it keeps
      everything else. */
  lemma InboxResetWrites(s: State, w: nat, r: Saved, rest: seq<Saved>, reset: bool)
    requires w < |s.replayers| && s.replayers[w] == RepInbox([r] + rest, reset) && r.id < |s.inbox|
    ensures var e := s.inbox[r.id]; var n := if reset then 0 else r.attempts;
            Next(s, Replay(w, RepReset(Ok)))
            == Some(s.(inbox := s.inbox[r.id := InboxRow(e.source, e.payload, Pending, n, s.now, e.createdAt)],
                       replayers := s.replayers[w := RepInbox(rest, reset)]))
  {
    assert ([r] + rest)[1..] == rest;
  }

  lemma OutboxResetWrites(s: State, w: nat, r: Saved, rest: seq<Saved>, reset: bool)
    requires w < |s.replayers| && s.replayers[w] == RepOutbox([r] + rest, reset) && r.id < |s.outbox|
    ensures var e := s.outbox[r.id]; var n := if reset then 0 else r.attempts;
            Next(s, Replay(w, RepReset(Ok)))
            == Some(s.(outbox := s.outbox[r.id := OutboxRow(e.aggregateId, e.payload, Waiting, n, s.now, e.createdAt)],
                       replayers := s.replayers[w := RepOutbox(rest, reset)]))
  {
    assert ([r] + rest)[1..] == rest;
  }

  /** A failed update ends the tool. */
  lemma ReplayErrors(s: State, w: nat, o: Outcome)
    requires ReplayerNext(s, w, RepReset(o)).Some? && o != Ok
    ensures ReplayerNext(s, w, RepReset(o)).value.replayers == s.replayers[w := RepIdle]
  {}

  // ---------------------------------------------------------------- the API

  /** A confirm of a CREATED order sets its status and adds one PENDING outbox row, due now, whose payload has
      the order's id, user, merchant, amount and currency. Any other order is left alone. */
  lemma ConfirmWrites(s: State, w: nat, id: OrderId)
    requires w < |s.requests| && s.requests[w] == ReqIdle
    ensures var t := Next(s, Confirm(w, ReqConfirmAtomically(id)));
            t == Some(if id < |s.orders| && s.orders[id].status == Created then
                        var o := s.orders[id];
                        var payload := Payload(Some(id), o.user, o.merchant, o.amount, o.currency);
                        s.(orders := s.orders[id := Order(o.user, o.merchant, o.amount, o.currency, Confirmed)],
                           outbox := s.outbox + [OutboxRow(id, payload, Waiting, 0, s.now, s.now)])
                      else s)
  {}

  /** A confirm in two steps: the read finds the order CREATED or ends, and the commit writes the same
      whatever became of the order in between. */
  lemma OverlappedConfirmWrites(s: State, w: nat, id: OrderId)
    requires w < |s.requests| && id < |s.orders|
    ensures s.requests[w] == ReqIdle ==>
              Next(s, Confirm(w, ReqRead(id)))
              == Some(if s.orders[id].status == Created then s.(requests := s.requests[w := ReqConfirming(id)]) else s)
    ensures s.requests[w] == ReqConfirming(id) ==>
              var o := s.orders[id];
              var payload := Payload(Some(id), o.user, o.merchant, o.amount, o.currency);
              Next(s, Confirm(w, ReqWrite(Ok)))
              == Some(s.(orders := s.orders[id := Order(o.user, o.merchant, o.amount, o.currency, Confirmed)],
                         outbox := s.outbox + [OutboxRow(id, payload, Waiting, 0, s.now, s.now)],
                         requests := s.requests[w := ReqIdle]))
  {}

  /** Other producers append to the topic, but not under the id of an outbox row. */
  lemma OutsideWrites(s: State, m: Message, ms: nat)
    ensures Next(s, Inject(m)) == if m.Event? && m.source.Own? then None else Some(s.(topic := s.topic + [m]))
    ensures Next(s, Tick(ms)) == Some(s.(now := s.now + ms))
  {}

  /** A create inserts one CREATED order with the data of the request. */
  lemma CreateWrites(s: State, user: string, merchant: string, amount: Cents, currency: string)
    ensures Next(s, Create(user, merchant, amount, currency))
            == Some(s.(orders := s.orders + [Order(user, merchant, amount, currency, Created)]))
  {}

  // ---------------------------------------------------------------- stops and ends

  /** A process that stops, or whose batch is used up, is idle afterwards. */
  lemma StopsEndRounds(s: State, w: nat)
    ensures w < |s.publishers| ==>
              Next(s, Publish(w, PubCrash)) == Some(s.(publishers := s.publishers[w := PubIdle]))
    ensures w < |s.retriers| ==> Next(s, Retry(w, RetCrash)) == Some(s.(retriers := s.retriers[w := RetIdle]))
    ensures w < |s.replayers| ==> Next(s, Replay(w, RepCrash)) == Some(s.(replayers := s.replayers[w := RepIdle]))
    ensures w < |s.publishers| && s.publishers[w] == PubBatch([]) ==>
              Next(s, Publish(w, PubFinish)) == Some(s.(publishers := s.publishers[w := PubIdle]))
    ensures w < |s.retriers| && s.retriers[w] == RetBatch([]) ==>
              Next(s, Retry(w, RetFinish)) == Some(s.(retriers := s.retriers[w := RetIdle]))
    ensures w < |s.requests| && s.requests[w].ReqConfirming? ==>
              Next(s, Confirm(w, ReqAbort)) == Some(s.(requests := s.requests[w := ReqIdle]))
  {}

  // ---------------------------------------------------------------- polls

  ghost predicate HasJob(jobs: seq<Job>, job: Job) {
    exists k :: 0 <= k < |jobs| && jobs[k] == job
  }

  /** A poll takes rows that are PENDING and due, with their payloads, oldest first and at most a batch; it
      leaves a due row out only for a full batch of older ones. */
  lemma PollReadsOutbox(s: State, w: nat, i: nat)
    requires w < |s.publishers| && s.publishers[w] == PubIdle
    ensures var t := Next(s, Publish(w, PubPoll));
            && t.Some? && t.value.publishers[w].PubBatch?
            && var batch := t.value.publishers[w].rest;
            && t.value == s.(publishers := s.publishers[w := PubBatch(batch)]) && |batch| <= s.cfg.publishBatch
            && (forall j, k | 0 <= j < k < |batch| :: batch[j].id < batch[k].id)
            && (forall k | 0 <= k < |batch| ::
                  && batch[k].id < |s.outbox| && s.outbox[batch[k].id].status == Waiting
                  && s.outbox[batch[k].id].availableAt <= s.now && batch[k].payload == s.outbox[batch[k].id].payload)
            && (i < |s.outbox| && s.outbox[i].status == Waiting && s.outbox[i].availableAt <= s.now ==>
                  || HasJob(batch, Job(i, s.outbox[i].payload))
                  || (|batch| == s.cfg.publishBatch && forall k | 0 <= k < |batch| :: batch[k].id < i))
  {
    var ids := Oldest(DueOutbox(s), s.cfg.publishBatch);
    var batch := OutboxBatch(s);
    if i < |s.outbox| && DueOutbox(s)[i] {
      if i in ids {
        var k :| 0 <= k < |ids| && ids[k] == i;
        assert batch[k] == Job(i, s.outbox[i].payload);
      } else {
        OldestLeavesOut(DueOutbox(s), s.cfg.publishBatch, i);
      }
    }
  }

  lemma PollReadsInbox(s: State, w: nat, i: nat)
    requires w < |s.retriers| && s.retriers[w] == RetIdle
    ensures var t := Next(s, Retry(w, RetPoll));
            && t.Some? && t.value.retriers[w].RetBatch?
            && var batch := t.value.retriers[w].rest;
            && t.value == s.(retriers := s.retriers[w := RetBatch(batch)]) && |batch| <= s.cfg.retryBatch
            && (forall j, k | 0 <= j < k < |batch| :: batch[j].id < batch[k].id)
            && (forall k | 0 <= k < |batch| ::
                  && batch[k].id < |s.inbox| && s.inbox[batch[k].id].status == Pending
                  && s.inbox[batch[k].id].availableAt <= s.now && batch[k].payload == s.inbox[batch[k].id].payload)
            && (i < |s.inbox| && s.inbox[i].status == Pending && s.inbox[i].availableAt <= s.now ==>
                  || HasJob(batch, Job(i, s.inbox[i].payload))
                  || (|batch| == s.cfg.retryBatch && forall k | 0 <= k < |batch| :: batch[k].id < i))
  {
    var ids := Oldest(DueInbox(s), s.cfg.retryBatch);
    var batch := InboxBatch(s);
    if i < |s.inbox| && DueInbox(s)[i] {
      if i in ids {
        var k :| 0 <= k < |ids| && ids[k] == i;
        assert batch[k] == Job(i, s.inbox[i].payload);
      } else {
        OldestLeavesOut(DueInbox(s), s.cfg.retryBatch, i);
      }
    }
  }
}
