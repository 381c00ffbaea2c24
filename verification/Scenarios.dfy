/** Short concrete runs that show where stronger claims fail. */
module Scenarios {
  import opened Domain
  import opened Pipeline
  import opened Invariants
  import opened RetryBudget
  import opened DeadLetters
  import opened LetterGaps
  import opened ConfirmOutbox
  import opened Delivery

  const TEN_EUROS := Create("u", "m", 1000, "EUR")
  const FLAT := Rule(500, None)

  /** An empty system with one consumer and one replay tool, and the given numbers of the others. */
  function Empty(maxAttempts: nat, pubs: nat, rets: nat, reqs: nat): State {
    State(Config(maxAttempts, 1, 1), 0, [], [], [], [], [], 0, [],
          seq(pubs, _ => PubIdle), seq(rets, _ => RetIdle), [ConAt(0)], [RepIdle], seq(reqs, _ => ReqIdle))
  }

  lemma Take(s0: State, steps: seq<Step>, s: State, step: Step) returns (more: seq<Step>, t: State)
    requires Run(s0, steps) == Some(s) && Next(s, step).Some?
    ensures more == steps + [step] && Next(s, step) == Some(t) && Run(s0, more) == Some(t)
  {
    RunExtends(s0, steps, s, step);
    more, t := steps + [step], Next(s, step).value;
  }

  /** Two requests have read the order in status CREATED. */
  function BothRead(): State {
    Empty(5, 0, 0, 2).(orders := [Order("u", "m", 1000, "EUR", Created)],
                       requests := [ReqConfirming(0), ReqConfirming(0)])
  }

  lemma ReadBoth() returns (steps: seq<Step>)
    ensures Run(Empty(5, 0, 0, 2), steps) == Some(BothRead())
  {
    var s0, s := Empty(5, 0, 0, 2), *;
    steps, s := Take(s0, [], s0, TEN_EUROS);
    steps, s := Take(s0, steps, s, Confirm(0, ReqRead(0)));
    steps, s := Take(s0, steps, s, Confirm(1, ReqRead(0)));
    assert s.orders == BothRead().orders && s.requests == BothRead().requests;
  }

  lemma WriteBoth() returns (steps: seq<Step>, t: State)
    ensures Run(BothRead(), steps) == Some(t) && IsConfirmed(t, 0) && RowsOf(t.outbox, 0) == 2
  {
    var s0 := BothRead();
    steps, t := Take(s0, [], s0, Confirm(0, ReqWrite(Ok)));
    steps, t := Take(s0, steps, t, Confirm(1, ReqWrite(Ok)));
    assert |t.outbox| == 2 && t.outbox[0].aggregateId == 0 && t.outbox[1].aggregateId == 0;
    assert RowsOf(t.outbox[..1], 0) == 1;
  }

  /** Two confirms that both read CREATED leave two outbox rows for one order. */
  lemma OverlappingConfirmsAnnounceTwice() returns (s0: State, steps: seq<Step>)
    ensures Init(s0) && Run(s0, steps).Some?
    ensures IsConfirmed(Run(s0, steps).value, 0) && RowsOf(Run(s0, steps).value.outbox, 0) == 2
    ensures StaleCommits(s0, steps, 0) == 1
  {
    s0 := Empty(5, 0, 0, 2);
    var both := ReadBoth();
    var writes, t := WriteBoth();
    RunConcat(s0, both, writes);
    steps := both + writes;
    RowsPerOrder(s0, steps, 0);
  }

  const BROKEN := Payload(None, "u", "m", 1000, "EUR")

  /** A message without an order id has just been stored. */
  function BrokenStored(rets: nat): State {
    Empty(1, 0, rets, 0).(topic := [Event(Foreign("x"), BROKEN)], consumers := [ConStored(0, 0)],
                          inbox := [InboxRow(Foreign("x"), BROKEN, Pending, 0, 0, 0)])
  }

  lemma StoreBroken(rets: nat) returns (steps: seq<Step>)
    ensures Run(Empty(1, 0, rets, 0), steps) == Some(BrokenStored(rets))
    ensures forall k | 0 <= k < |steps| :: !steps[k].Replay?
  {
    var s0, s := Empty(1, 0, rets, 0), *;
    steps, s := Take(s0, [], s0, Inject(Event(Foreign("x"), BROKEN)));
    steps, s := Take(s0, steps, s, Consume(0, ConStore(Ok)));
    assert s.topic == [Event(Foreign("x"), BROKEN)] && s.inbox == BrokenStored(rets).inbox;
    assert s.consumers == [ConStored(0, 0)];
  }

  /** The loop polls the stored row, fails, counts, and writes FAILED. */
  lemma FailBroken() returns (steps: seq<Step>, s: State)
    ensures Run(BrokenStored(1), steps) == Some(s) && AboutToSend(s, 0, 0)
    ensures s == BrokenStored(1).(retriers := s.retriers, inbox := s.inbox) && |s.inbox| == 1
    ensures s.inbox[0].source == Foreign("x")
  {
    var s0 := BrokenStored(1);
    BatchHead(s0, 0);
    steps := PollAndCount(s0, 0);
    steps, s := Take(s0, steps, Run(s0, steps).value, Retry(0, RetSettle(Ok)));
  }

  lemma FetchesTheRow(inbox: seq<InboxRow>)
    requires |inbox| == 1
    ensures FetchedInbox(inbox, BySource(inbox[0].source), 1) == [Saved(0, inbox[0].attempts)]
  {
    var eligible := Matching(inbox, BySource(inbox[0].source));
    assert eligible[0];
    if 0 !in Oldest(eligible, 1) {
      OldestLeavesOut(eligible, 1, 0);
    }
  }

  lemma ReplayFirst(s: State) returns (steps: seq<Step>, t: State)
    requires s.replayers == [RepIdle] && |s.inbox| == 1
    ensures Run(s, steps) == Some(t)
    ensures t.retriers == s.retriers && |t.inbox| == 1 && t.inbox[0].status == Pending
  {
    var fetch := RepFetchInbox(BySource(s.inbox[0].source), 1, false);
    FetchesTheRow(s.inbox);
    var fetched := WithReplayer(s, 0, RepInbox([Saved(0, s.inbox[0].attempts)], false));
    RunExtends(s, [], s, Replay(0, fetch));
    RunExtends(s, [] + [Replay(0, fetch)], fetched, Replay(0, RepReset(Ok)));
    steps := [] + [Replay(0, fetch)] + [Replay(0, RepReset(Ok))];
    t := AfterInboxReset(fetched, 0, fetched.replayers[0].rows, false, Ok);
  }

  /** The row is replayed between its FAILED write and the send of its letter. */
  lemma FailAndReplay() returns (steps: seq<Step>, t: State)
    ensures Run(BrokenStored(1), steps) == Some(t) && AboutToSend(t, 0, 0) && t.inbox[0].status == Pending
  {
    var failed, s := FailBroken();
    var reset;
    reset, t := ReplayFirst(s);
    RunConcat(BrokenStored(1), failed, reset);
    steps := failed + reset;
  }

  /** A row can be replayed between its FAILED write and its letter; by module LetterGaps two letters can
      then follow that one replay. */
  lemma ReplayBeforeSend() returns (past: seq<Step>, s: State)
    ensures Init(Empty(1, 0, 1, 0)) && Run(Empty(1, 0, 1, 0), past) == Some(s) && AboutToSend(s, 0, 0)
    ensures Next(s, Retry(0, RetSend(Ok))).Some? && |Next(s, Retry(0, RetSend(Ok))).value.inbox| > 0
    ensures CanSendAgain(Next(s, Retry(0, RetSend(Ok))).value, 0)
  {
    past, s := ReachPendingSend();
    SecondLetterExactlyWhen(Empty(1, 0, 1, 0), past, 0, 0, Ok);
  }

  lemma ReachPendingSend() returns (past: seq<Step>, s: State)
    ensures Run(Empty(1, 0, 1, 0), past) == Some(s) && AboutToSend(s, 0, 0) && s.inbox[0].status == Pending
  {
    var stored := StoreBroken(1);
    var more;
    more, s := FailAndReplay();
    RunConcat(Empty(1, 0, 1, 0), stored, more);
    past := stored + more;
  }

  /** Two loops poll the same row. */
  lemma PollTwice() returns (steps: seq<Step>, s: State)
    ensures Run(Empty(1, 0, 2, 0), steps) == Some(s) && forall k | 0 <= k < |steps| :: !steps[k].Replay?
    ensures |s.retriers| == 2 && InHand(s.retriers[0], 0) && InHand(s.retriers[1], 0)
    ensures |s.inbox| == 1 && s.inbox[0].source == Foreign("x") && s.inbox[0].attempts == 0
    ensures s.cfg.maxAttempts == 1 && s.dlq == []
  {
    var s0 := Empty(1, 0, 2, 0);
    steps := StoreBroken(2);
    s := BrokenStored(2);
    BatchHead(s, 0);
    var first := s;
    steps, s := Take(s0, steps, s, Retry(0, RetPoll));
    assert s.retriers[0] == RetBatch(InboxBatch(first));
    var second := s;
    assert InboxBatch(second) == InboxBatch(first);
    steps, s := Take(s0, steps, s, Retry(1, RetPoll));
  }

  /** With a maximum of one attempt, a loop that holds the row writes FAILED and sends. */
  lemma OneLetter(s: State, w: nat) returns (steps: seq<Step>, t: State)
    requires Inv(s) && AllDistinct(s) && w < |s.retriers| && InHand(s.retriers[w], 0)
    requires |s.inbox| == 1 && s.cfg.maxAttempts == 1
    ensures OnlyRetries(steps) && Run(s, steps) == Some(t)
    ensures InDlq(t.dlq, Some(s.inbox[0].source)) > InDlq(s.dlq, Some(s.inbox[0].source))
    ensures |t.retriers| == |s.retriers| && t.retriers == s.retriers[w := t.retriers[w]]
    ensures t.cfg == s.cfg && |t.inbox| == 1 && t.inbox[0].source == s.inbox[0].source
    ensures t.inbox[0].attempts == s.inbox[0].attempts + 1
  {
    var counted, c := CountRow(s, w, 0);
    LettersOnlyAdd(s.dlq, c.dlq, Some(s.inbox[0].source));
    var sent;
    sent, t := SettleAndSend(c, w, 0);
    Joined(s, counted, c, sent, t);
    steps := counted + sent;
  }

  lemma TwoLetters(s: State) returns (steps: seq<Step>, t: State)
    requires Inv(s) && AllDistinct(s) && |s.retriers| == 2 && InHand(s.retriers[0], 0) && InHand(s.retriers[1], 0)
    requires |s.inbox| == 1 && s.cfg.maxAttempts == 1
    ensures OnlyRetries(steps) && Run(s, steps) == Some(t) && |t.inbox| == 1 && t.inbox[0].source == s.inbox[0].source
    ensures InDlq(t.dlq, Some(s.inbox[0].source)) >= InDlq(s.dlq, Some(s.inbox[0].source)) + 2
    ensures t.inbox[0].attempts == s.inbox[0].attempts + 2
  {
    var first, c := OneLetter(s, 0);
    RunKeepsInv(s, first);
    RunKeepsAllDistinct(s, first);
    var second;
    second, t := OneLetter(c, 1);
    Joined(s, first, c, second, t);
    steps := first + second;
  }

  lemma PollAndSendTwice() returns (steps: seq<Step>, t: State)
    ensures Run(Empty(1, 0, 2, 0), steps) == Some(t) && ReplaysOf(Empty(1, 0, 2, 0), steps, 0) == 0
    ensures |t.inbox| == 1 && t.inbox[0].source == Foreign("x") && t.inbox[0].attempts == 2
    ensures InDlq(t.dlq, Some(Foreign("x"))) >= 2
  {
    var s0 := Empty(1, 0, 2, 0);
    var polls, s := PollTwice();
    ReachableIsDistinct(s0, polls);
    var sends;
    sends, t := TwoLetters(s);
    RunConcat(s0, polls, sends);
    steps := polls + sends;
    NothingReplayed(s0, steps, 0);
  }

  /** Two loops that poll one row send two letters for its event without any replay, after two attempts where
      one is the maximum: as many of both as there can be. */
  lemma TwoLoopsSendTwice() returns (s0: State, steps: seq<Step>, t: State)
    ensures Init(s0) && |s0.retriers| == 2 && s0.cfg.maxAttempts == 1
    ensures Run(s0, steps) == Some(t) && ReplaysOf(s0, steps, 0) == 0
    ensures |t.inbox| == 1 && t.inbox[0].source == Foreign("x") && t.inbox[0].attempts == 2
    ensures InDlq(t.dlq, Some(Foreign("x"))) == 2
  {
    s0 := Empty(1, 0, 2, 0);
    steps, t := PollAndSendTwice();
    assert RowFor(t.inbox, Foreign("x")) == 0;
    DeadLettersPerEvent(s0, steps, Foreign("x"));
  }

  /** One order, just confirmed. */
  function Announced(pubs: nat): State {
    var o := Order("u", "m", 1000, "EUR", Confirmed);
    Empty(5, pubs, 0, 1).(orders := [o], outbox := [OutboxRow(0, PayloadOf(0, o), Waiting, 0, 0, 0)])
  }

  lemma Announce(pubs: nat) returns (steps: seq<Step>)
    ensures Run(Empty(5, pubs, 0, 1), steps) == Some(Announced(pubs))
  {
    var s0, s := Empty(5, pubs, 0, 1), *;
    steps, s := Take(s0, [], s0, TEN_EUROS);
    steps, s := Take(s0, steps, s, Confirm(0, ReqConfirmAtomically(0)));
    assert s.orders == Announced(pubs).orders && s.outbox == Announced(pubs).outbox;
  }

  /** Two messages with one id that name no order and order 0. */
  lemma ReuseId() returns (s: State)
    ensures Reachable(s) && s.consumers == [ConAt(0)] && s.inbox == [] && |s.topic| == 2
            && Creditable(s.orders, Some(0))
    ensures s.topic[0] == Event(Foreign("x"), BROKEN)
    ensures s.topic[1].Event? && s.topic[1].source == Foreign("x") && s.topic[1].payload.orderId == Some(0)
  {
    var steps := Announce(0);
    s := Announced(0);
    steps, s := Take(Empty(5, 0, 0, 1), steps, s, Inject(Event(Foreign("x"), BROKEN)));
    steps, s := Take(Empty(5, 0, 0, 1), steps, s, Inject(Event(Foreign("x"), PayloadOf(0, s.orders[0]))));
  }

  /** Another producer reuses an id: the row keeps the first payload, the fast path credits the order of the
      second, and the row ends PROCESSED although its own payload names no order. */
  lemma ReusedIdMarksTheWrongRow() returns (s: State)
    ensures Reachable(s) && |s.inbox| == 1 && s.inbox[0].status == Processed
    ensures !Creditable(s.orders, s.inbox[0].payload.orderId)
  {
    var r := ReuseId();
    var s0: State, steps: seq<Step> :| Init(s0) && Run(s0, steps) == Some(r);
    var more;
    more, s := ConsumeBoth(r);
    RunConcat(s0, steps, more);
  }

  lemma ConsumeBoth(s: State) returns (steps: seq<Step>, t: State)
    requires s.consumers == [ConAt(0)] && s.inbox == [] && |s.topic| == 2 && Creditable(s.orders, Some(0))
    requires s.topic[0] == Event(Foreign("x"), BROKEN)
    requires s.topic[1].Event? && s.topic[1].source == Foreign("x") && s.topic[1].payload.orderId == Some(0)
    ensures Run(s, steps) == Some(t) && t.orders == s.orders
    ensures |t.inbox| == 1 && t.inbox[0].status == Processed && t.inbox[0].payload == BROKEN
  {
    var first, m := ConsumeFirst(s);
    var second;
    second, t := ConsumeSecond(m);
    RunConcat(s, first, second);
    steps := first + second;
  }

  lemma ConsumeFirst(s: State) returns (steps: seq<Step>, t: State)
    requires s.consumers == [ConAt(0)] && s.inbox == [] && |s.topic| == 2
    requires s.topic[0] == Event(Foreign("x"), BROKEN)
    ensures Run(s, steps) == Some(t) && t == s.(consumers := [ConAt(1)], inbox := t.inbox)
    ensures |t.inbox| == 1 && t.inbox[0].source == Foreign("x") && t.inbox[0].payload == BROKEN
  {
    steps, t := Take(s, [], s, Consume(0, ConStore(Ok)));
    steps, t := Take(s, steps, t, Consume(0, ConProcess(Ok, FLAT)));
  }

  lemma ConsumeSecond(s: State) returns (steps: seq<Step>, t: State)
    requires s.consumers == [ConAt(1)] && |s.topic| == 2 && Creditable(s.orders, Some(0))
    requires s.topic[1].Event? && s.topic[1].source == Foreign("x") && s.topic[1].payload.orderId == Some(0)
    requires |s.inbox| == 1 && s.inbox[0].source == Foreign("x") && s.inbox[0].payload == BROKEN
    ensures Run(s, steps) == Some(t) && t.orders == s.orders
    ensures |t.inbox| == 1 && t.inbox[0].status == Processed && t.inbox[0].payload == BROKEN
  {
    steps, t := Take(s, [], s, Consume(0, ConStore(Ok)));
    assert RowFor(s.inbox, Foreign("x")) == 0;
    steps, t := Take(s, steps, t, Consume(0, ConProcess(Ok, FLAT)));
    steps, t := Take(s, steps, t, Consume(0, ConMark(Ok)));
  }

  lemma PollsTheRow(s: State)
    requires |s.outbox| == 1 && s.outbox[0].status == Waiting && s.outbox[0].availableAt <= s.now
             && s.cfg.publishBatch == 1
    ensures OutboxBatch(s) == [Job(0, s.outbox[0].payload)]
  {
    assert DueOutbox(s)[0];
    if 0 !in Oldest(DueOutbox(s), 1) {
      OldestLeavesOut(DueOutbox(s), 1, 0);
    }
  }

  lemma SendFirst(s: State) returns (steps: seq<Step>, t: State)
    requires |s.outbox| == 1 && s.outbox[0].status == Waiting
    requires |s.publishers| > 0 && s.publishers[0] == PubBatch([Job(0, s.outbox[0].payload)])
    ensures Run(s, steps) == Some(t) && t == s.(publishers := t.publishers, outbox := t.outbox, topic := t.topic)
    ensures t.topic == s.topic + [Event(Own(0), s.outbox[0].payload)] && t.publishers == s.publishers[0 := PubBatch([])]
    ensures t.outbox == [s.outbox[0].(status := Sent, attempts := s.outbox[0].attempts + 1)]
  {
    var job := Job(0, s.outbox[0].payload);
    assert s.publishers[0].rest[1..] == [];
    var s1 := AfterClaim(s, 0, job, [], Ok);
    var s2 := AfterSend(s1, 0, job, [], Ok);
    RunExtends(s, [], s, Publish(0, PubClaim(Ok)));
    RunExtends(s, [] + [Publish(0, PubClaim(Ok))], s1, Publish(0, PubSend(Ok)));
    steps := [] + [Publish(0, PubClaim(Ok))] + [Publish(0, PubSend(Ok))];
    steps, t := Take(s, steps, s2, Publish(0, PubMark(Ok)));
  }

  /** The consumer's upsert fails once and the offset moves on: the order is confirmed, has no credit, and
      nothing is left that could lead to one. */
  lemma SwallowedUpsertLosesOrder() returns (s0: State, steps: seq<Step>)
    ensures Init(s0) && Run(s0, steps).Some? && Swallowed(s0, steps) != {}
    ensures Awaiting(Run(s0, steps).value, 0) && !Traceable(Run(s0, steps).value, 0)
  {
    s0 := Empty(5, 1, 0, 1);
    steps := Announce(1);
    var a := Announced(1);
    PollsTheRow(a);
    var s;
    steps, s := Take(s0, steps, a, Publish(0, PubPoll));
    var sent, t := SendFirst(s);
    RunConcat(s0, steps, sent);
    var lost, u := LoseMessage(t);
    RunConcat(s0, steps + sent, lost);
    steps := steps + sent + lost;
    MissingWasSwallowed(s0, steps);
    if Missing(u) == {} {
      NoSilentLoss(u, 0);
    }
  }

  lemma LoseMessage(s: State) returns (steps: seq<Step>, t: State)
    requires s.consumers == [ConAt(0)] && |s.topic| == 1 && s.topic[0].Event?
    requires |s.outbox| == 1 && s.outbox[0].status == Sent && s.inbox == []
    ensures Run(s, steps) == Some(t) && t.orders == s.orders && t.ledger == s.ledger && !Traceable(t, 0)
  {
    steps, t := Take(s, [], s, Consume(0, ConStore(Refused)));
    steps, t := Take(s, steps, t, Consume(0, ConCommit));
    NothingLeft(t);
  }

  lemma NothingLeft(s: State)
    requires |s.outbox| == 1 && s.outbox[0].status == Sent && s.inbox == [] && s.committed == |s.topic|
    ensures !Traceable(s, 0)
  {}

  /** The claim is not exclusive: a second publisher that claimed the row before it was SENT, and then fails
      to send, makes the sent row PENDING again. */
  lemma SentRowGoesBack() returns (s0: State, past: seq<Step>, more: seq<Step>)
    ensures Init(s0) && Run(s0, past).Some? && Run(Run(s0, past).value, more).Some?
    ensures var s := Run(s0, past).value; var t := Run(s, more).value;
            && |s.outbox| == 1 && s.outbox[0].status == Sent
            && |t.outbox| == 1 && t.outbox[0].status == Waiting && t.topic == s.topic
  {
    s0 := Empty(5, 2, 0, 1);
    past := Announce(2);
    var a := Announced(2);
    PollsTheRow(a);
    var s;
    past, s := Take(s0, past, a, Publish(0, PubPoll));
    PollsTheRow(s);
    past, s := Take(s0, past, s, Publish(1, PubPoll));
    past, s := Take(s0, past, s, Publish(1, PubClaim(Ok)));
    var sent, t := SendFirst(s);
    RunConcat(s0, past, sent);
    past := past + sent;
    more := FailToSend(t);
  }

  lemma FailToSend(s: State) returns (steps: seq<Step>)
    requires |s.publishers| == 2 && s.publishers[1].PubClaimed? && s.publishers[1].job.id == 0
    requires |s.outbox| == 1 && s.outbox[0].attempts < s.cfg.maxAttempts
    ensures Run(s, steps).Some?
    ensures var t := Run(s, steps).value; |t.outbox| == 1 && t.outbox[0].status == Waiting && t.topic == s.topic
  {
    var t;
    steps, t := Take(s, [], s, Publish(1, PubSend(Refused)));
    steps, t := Take(s, steps, t, Publish(1, PubRefresh(Ok)));
    steps, t := Take(s, steps, t, Publish(1, PubSettle(Ok)));
  }
}
