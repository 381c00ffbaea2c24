/** When an event can get another dead letter without a replay, with any number of retry loops. */
module LetterGaps {
  import opened Domain
  import opened Pipeline
  import opened Invariants
  import opened RetryBudget
  import opened DeadLetters

  ghost predicate OnlyRetries(steps: seq<Step>) {
    forall k | 0 <= k < |steps| :: steps[k].Retry? || steps[k].Tick?
  }

  lemma Joined(s: State, a: seq<Step>, t: State, b: seq<Step>, u: State)
    requires OnlyRetries(a) && OnlyRetries(b) && Run(s, a) == Some(t) && Run(t, b) == Some(u)
    ensures OnlyRetries(a + b) && Run(s, a + b) == Some(u)
  {
    RunConcat(s, a, b);
  }

  lemma {:induction false} NothingReplayed(s: State, steps: seq<Step>, row: nat)
    requires forall k | 0 <= k < |steps| :: !steps[k].Replay?
    ensures ReplaysOf(s, steps, row) == 0
  {
    if |steps| > 0 {
      NothingReplayed(s, steps[..|steps| - 1], row);
    }
  }

  lemma {:induction false} LettersOnlyAdd(a: seq<DlqMessage>, b: seq<DlqMessage>, pick: Option<SourceId>)
    requires a <= b
    ensures InDlq(a, pick) <= InDlq(b, pick)
  {
    if |a| < |b| {
      LettersOnlyAdd(a, b[..|b| - 1], pick);
    } else {
      assert a == b;
    }
  }

  lemma OneMore(dlq: seq<DlqMessage>, letter: DlqMessage)
    ensures InDlq(dlq + [letter], Some(letter.source)) == InDlq(dlq, Some(letter.source)) + 1
  {
    assert (dlq + [letter])[..|dlq|] == dlq;
  }

  predicate GainsLetter(s: State, t: State, source: SourceId) {
    InDlq(t.dlq, Some(source)) > InDlq(s.dlq, Some(source))
  }

  predicate Due(s: State, row: nat) {
    row < |s.inbox| && s.inbox[row].status == Pending && s.inbox[row].availableAt <= s.now
  }

  /** The first retry loop is idle and takes batches. */
  predicate LoopIdle(s: State) {
    |s.retriers| > 0 && s.retriers[0] == RetIdle && s.cfg.retryBatch > 0
  }

  /** The first job of a batch is the oldest due row. */
  lemma BatchHead(s: State, row: nat)
    requires LoopIdle(s) && Due(s, row)
    ensures |InboxBatch(s)| > 0 && InboxBatch(s)[0].id <= row && Due(s, InboxBatch(s)[0].id)
    ensures forall i: nat | i < InboxBatch(s)[0].id :: !Due(s, i)
  {
    var due := DueInbox(s);
    var ids := Oldest(due, s.cfg.retryBatch);
    assert due[row];
    if row !in ids {
      OldestLeavesOut(due, s.cfg.retryBatch, row);
    }
    assert |ids| > 0;
    assert InboxBatch(s)[0].id == ids[0];
    forall i: nat | Due(s, i) ensures ids[0] <= i {
      assert due[i];
      if i in ids {
        var k :| 0 <= k < |ids| && ids[k] == i;
      } else {
        OldestLeavesOut(due, s.cfg.retryBatch, i);
      }
    }
  }

  function FailedOnce(row: InboxRow, cfg: Config, now: int): InboxRow {
    RetrySettled(row.(attempts := row.attempts + 1), row.attempts + 1, cfg, now)
  }

  /** The loop polls, the handler fails on the first row of the batch, and the attempt is counted. */
  lemma PollAndCount(s: State, h: nat) returns (steps: seq<Step>)
    requires LoopIdle(s) && |InboxBatch(s)| > 0 && InboxBatch(s)[0].id == h && h < |s.inbox|
    ensures OnlyRetries(steps) && Run(s, steps).Some?
    ensures var n := s.inbox[h].attempts + 1;
            Run(s, steps).value == WithRetrier(SetInbox(s, h, s.inbox[h].(attempts := n)), 0,
                                               RetSettling(InboxBatch(s)[0], n, InboxBatch(s)[1..]))
  {
    var batch := InboxBatch(s);
    var fails := RetProcess(Refused, Rule(0, None));
    var s1 := WithRetrier(s, 0, RetBatch(batch));
    var s2 := WithRetrier(s1, 0, RetFailing(batch[0], batch[1..]));
    RunExtends(s, [], s, Retry(0, RetPoll));
    RunExtends(s, [Retry(0, RetPoll)], s1, Retry(0, fails));
    RunExtends(s, [Retry(0, RetPoll)] + [Retry(0, fails)], s2, Retry(0, RetCount(Ok)));
    assert [] + [Retry(0, RetPoll)] == [Retry(0, RetPoll)];
    steps := [Retry(0, RetPoll)] + [Retry(0, fails)] + [Retry(0, RetCount(Ok))];
  }

  /** A round in which the first row of the batch fails, its letter is sent if it is due one, and the loop
      then stops. */
  lemma FailHead(s: State, h: nat) returns (steps: seq<Step>, t: State)
    requires LoopIdle(s) && |InboxBatch(s)| > 0 && InboxBatch(s)[0].id == h && h < |s.inbox|
    ensures OnlyRetries(steps) && Run(s, steps) == Some(t)
    ensures && LoopIdle(t) && t.now == s.now && t.cfg == s.cfg
            && t.inbox == s.inbox[h := FailedOnce(s.inbox[h], s.cfg, s.now)]
            && s.dlq <= t.dlq && (s.inbox[h].attempts + 1 >= s.cfg.maxAttempts ==> GainsLetter(s, t, s.inbox[h].source))
  {
    var settled, u := PollAndSettle(s, h);
    var sent;
    sent, t := SendAndStop(u);
    Joined(s, settled, u, sent, t);
    steps := settled + sent;
  }

  lemma PollAndSettle(s: State, h: nat) returns (steps: seq<Step>, t: State)
    requires LoopIdle(s) && |InboxBatch(s)| > 0 && InboxBatch(s)[0].id == h && h < |s.inbox|
    ensures OnlyRetries(steps) && Run(s, steps) == Some(t)
    ensures t == s.(retriers := t.retriers, inbox := s.inbox[h := FailedOnce(s.inbox[h], s.cfg, s.now)])
    ensures |t.retriers| == |s.retriers|
    ensures t.inbox[h].source == s.inbox[h].source
    ensures var r := t.retriers[0]; var n := s.inbox[h].attempts + 1;
            if n >= s.cfg.maxAttempts then r.RetDeadLetter? && r.job.id == h && r.attempts == n else r.RetBatch?
  {
    var counted := PollAndCount(s, h);
    var c := Run(s, counted).value;
    var r := c.retriers[0];
    RunExtends(s, counted, c, Retry(0, RetSettle(Ok)));
    steps, t := counted + [Retry(0, RetSettle(Ok))], AfterRetrySettle(c, 0, r.job, r.attempts, r.rest, Ok);
  }

  lemma SendAndStop(s: State) returns (steps: seq<Step>, t: State)
    requires |s.retriers| > 0
    requires s.retriers[0].RetBatch? || (s.retriers[0].RetDeadLetter? && s.retriers[0].job.id < |s.inbox|)
    ensures OnlyRetries(steps) && Run(s, steps) == Some(t)
    ensures t == s.(retriers := t.retriers, dlq := t.dlq) && |t.retriers| == |s.retriers| && t.retriers[0] == RetIdle
    ensures s.dlq <= t.dlq && (s.retriers[0].RetDeadLetter? ==> GainsLetter(s, t, s.inbox[s.retriers[0].job.id].source))
  {
    var r := s.retriers[0];
    if r.RetBatch? {
      steps, t := [] + [Retry(0, RetCrash)], WithRetrier(s, 0, RetIdle);
      RunExtends(s, [], s, Retry(0, RetCrash));
    } else {
      var sent := AfterDeadLetter(s, 0, r.job, r.attempts, r.rest, Ok);
      OneMore(s.dlq, DlqMessage(s.inbox[r.job.id].source, s.inbox[r.job.id].payload, r.attempts));
      RunExtends(s, [], s, Retry(0, RetSend(Ok)));
      RunExtends(s, [] + [Retry(0, RetSend(Ok))], sent, Retry(0, RetCrash));
      steps, t := [] + [Retry(0, RetSend(Ok))] + [Retry(0, RetCrash)], WithRetrier(sent, 0, RetIdle);
    }
  }

  /** Rounds in which older rows fail make way for the row itself, which then fails once. */
  lemma FailRow(s: State, row: nat, lo: nat) returns (steps: seq<Step>, t: State)
    requires LoopIdle(s) && Due(s, row) && lo <= row && forall i: nat | i < lo :: !Due(s, i)
    ensures OnlyRetries(steps) && Run(s, steps) == Some(t)
    ensures var source := s.inbox[row].source;
            && LoopIdle(t) && t.now == s.now && t.cfg == s.cfg && |t.inbox| == |s.inbox|
            && t.inbox[row] == FailedOnce(s.inbox[row], s.cfg, s.now) && s.dlq <= t.dlq
            && (s.inbox[row].attempts + 1 >= s.cfg.maxAttempts ==> GainsLetter(s, t, source))
    decreases row - lo
  {
    BatchHead(s, row);
    var h := InboxBatch(s)[0].id;
    steps, t := FailHead(s, h);
    if h != row {
      forall i: nat | i < h + 1 ensures !Due(t, i) {
        assert i < h ==> !Due(s, i);
      }
      LettersOnlyAdd(s.dlq, t.dlq, Some(s.inbox[row].source));
      var more, u := FailRow(t, row, h + 1);
      Joined(s, steps, t, more, u);
      steps, t := steps + more, u;
    }
  }

  lemma StepFirst(s: State, step: Step, later: State, rest: seq<Step>, t: State)
    requires (step.Tick? || step.Retry?) && OnlyRetries(rest)
    requires Next(s, step) == Some(later) && Run(later, rest) == Some(t)
    ensures OnlyRetries([step] + rest) && Run(s, [step] + rest) == Some(t)
  {
    RunPrepend(s, step, rest);
  }

  /** The time until a row is due. */
  function WaitFor(row: InboxRow, now: int): nat {
    if row.availableAt > now then row.availableAt - now else 0
  }

  /** A row that is PENDING fails once more after waiting for its time. */
  lemma WaitAndFail(s: State, row: nat) returns (steps: seq<Step>, t: State)
    requires LoopIdle(s) && row < |s.inbox| && s.inbox[row].status == Pending
    ensures OnlyRetries(steps) && Run(s, steps) == Some(t)
    ensures var source := s.inbox[row].source; var n := s.inbox[row].attempts + 1;
            && LoopIdle(t) && t.cfg == s.cfg && row < |t.inbox| && t.inbox[row].source == source
            && s.dlq <= t.dlq
            && if n >= s.cfg.maxAttempts then GainsLetter(s, t, source)
               else t.inbox[row].status == Pending && t.inbox[row].attempts == n
  {
    var wait := WaitFor(s.inbox[row], s.now);
    var rounds;
    rounds, t := FailRow(s.(now := s.now + wait), row, 0);
    StepFirst(s, Tick(wait), s.(now := s.now + wait), rounds, t);
    steps := [Tick(wait)] + rounds;
  }

  /** So it can fail until its letter is sent. */
  lemma FailUntilLetter(s: State, row: nat) returns (steps: seq<Step>, t: State)
    requires LoopIdle(s) && row < |s.inbox| && s.inbox[row].status == Pending
    ensures OnlyRetries(steps) && Run(s, steps) == Some(t)
    ensures GainsLetter(s, t, s.inbox[row].source)
    decreases s.cfg.maxAttempts - s.inbox[row].attempts
  {
    steps, t := WaitAndFail(s, row);
    if s.inbox[row].attempts + 1 < s.cfg.maxAttempts {
      LettersOnlyAdd(s.dlq, t.dlq, Some(s.inbox[row].source));
      var more, u := FailUntilLetter(t, row);
      Joined(s, steps, t, more, u);
      steps, t := steps + more, u;
    }
  }

  /** Some continuation without a replay of the row sends another letter for its event. */
  ghost predicate CanSendAgain(t: State, row: nat)
    requires row < |t.inbox|
  {
    exists steps :: && Run(t, steps).Some? && ReplaysOf(t, steps, row) == 0
                    && GainsLetter(t, Run(t, steps).value, t.inbox[row].source)
  }

  // ---------------------------------------------------------------- no letter can follow

  lemma {:induction false} SomeHand(rs: seq<Retrier>, row: nat) returns (w: nat)
    requires Hands(rs, row) > 0
    ensures w < |rs| && InHand(rs[w], row)
  {
    w := |rs| - 1;
    if !InHand(rs[w], row) {
      w := SomeHand(rs[..w], row);
    }
  }

  /** The loop has written FAILED to the row, or is about to. */
  predicate Dooms(r: Retrier, row: nat, cfg: Config) {
    (r.RetDeadLetter? && r.job.id == row) || AboutToFail(r, row, cfg)
  }

  predicate CanBePolled(s: State, row: nat)
    requires row < |s.inbox|
  {
    s.inbox[row].status == Pending && |s.retriers| > 0 && s.cfg.retryBatch > 0
  }

  /** The row can be polled, or a loop is past its last attempt, or the loops that hold the row have enough
      attempts between them. */
  predicate Exhaustible(s: State, row: nat)
    requires row < |s.inbox|
  {
    || CanBePolled(s, row)
    || (exists w | 0 <= w < |s.retriers| :: Dooms(s.retriers[w], row, s.cfg))
    || (Hands(s.retriers, row) > 0 && s.inbox[row].attempts + Hands(s.retriers, row) >= s.cfg.maxAttempts)
  }

  lemma NotPolled(s: State, row: nat)
    requires row < |s.inbox| && |s.retriers| > 0 && !CanBePolled(s, row)
    ensures !Holds(InboxBatch(s), row)
  {
    BatchIsDistinct(s);
  }

  lemma SparesHands(s: State, w: nat, row: nat)
    requires row < |s.inbox| && w < |s.retriers| && InHand(s.retriers[w], row) && !Exhaustible(s, row)
    ensures s.inbox[row].attempts + 1 < s.cfg.maxAttempts
  {
    HandsUpdate(s.retriers, w, RetIdle, row);
  }

  /** One step of a loop neither dooms such a row nor leaves it more hands than attempts. */
  lemma LoopStaysSpent(s: State, w: nat, a: RetrierAction, row: nat)
    requires AllDistinct(s) && row < |s.inbox| && !Exhaustible(s, row) && RetrierNext(s, w, a).Some?
    ensures var t := RetrierNext(s, w, a).value; var e, f := s.inbox[row], t.inbox[row];
            && !Dooms(t.retriers[w], row, s.cfg)
            && (f.status == e.status || f.status == Processed)
            && (InHand(t.retriers[w], row) ==> InHand(s.retriers[w], row))
            && (f.attempts == e.attempts
                || (f.attempts == e.attempts + 1 && InHand(s.retriers[w], row) && !InHand(t.retriers[w], row)))
  {
    var r := s.retriers[w];
    assert !Dooms(r, row, s.cfg) && Distinct(r);
    match r
    case RetIdle => NotPolled(s, row);
    case RetBatch(rest) => if |rest| > 0 { HeadAndRest(rest, row); }
    case RetFailing(job, rest) => if job.id == row { SparesHands(s, w, row); }
    case _ =>
  }

  lemma LoopSendsOther(s: State, w: nat, a: RetrierAction, row: nat)
    requires InboxOk(s.outbox, s.inbox) && row < |s.inbox| && RetrierNext(s, w, a).Some?
    requires !Dooms(s.retriers[w], row, s.cfg)
    ensures InDlq(RetrierNext(s, w, a).value.dlq, Some(s.inbox[row].source)) == InDlq(s.dlq, Some(s.inbox[row].source))
  {
    var t := RetrierNext(s, w, a).value;
    if s.retriers[w].RetDeadLetter? && a.RetSend? && a.o != Refused {
      assert t.dlq[..|t.dlq| - 1] == s.dlq;
    } else {
      assert t.dlq == s.dlq;
    }
  }

  lemma RetrierStaysSpent(s: State, w: nat, a: RetrierAction, row: nat)
    requires InboxOk(s.outbox, s.inbox) && AllDistinct(s) && row < |s.inbox| && !Exhaustible(s, row)
    requires RetrierNext(s, w, a).Some?
    ensures var t := RetrierNext(s, w, a).value;
            && row < |t.inbox| && !Exhaustible(t, row)
            && InDlq(t.dlq, Some(s.inbox[row].source)) == InDlq(s.dlq, Some(s.inbox[row].source))
  {
    var t := RetrierNext(s, w, a).value;
    RetrierFrames(s, w, a);
    RetrierGrows(s, w, a);
    LoopStaysSpent(s, w, a, row);
    LoopSendsOther(s, w, a, row);
    assert t.retriers == s.retriers[w := t.retriers[w]];
    HandsUpdate(s.retriers, w, t.retriers[w], row);
  }

  lemma OthersStaySpent(s: State, step: Step, row: nat)
    requires RequestsOk(s) && row < |s.inbox| && !Exhaustible(s, row) && Next(s, step).Some?
    requires !step.Retry? && !Replays(s, step, row)
    ensures var t := Next(s, step).value; row < |t.inbox| && !Exhaustible(t, row) && t.dlq == s.dlq
  {
    OthersLeaveDlq(s, step);
    OthersLeaveRetriers(s, step);
    RowKeptByOthers(s, step, row);
  }

  lemma RowKeptByOthers(s: State, step: Step, row: nat)
    requires row < |s.inbox| && Next(s, step).Some? && !step.Retry? && !Replays(s, step, row)
    ensures var t := Next(s, step).value;
            && row < |t.inbox| && t.inbox[row].attempts == s.inbox[row].attempts
            && (t.inbox[row].status == s.inbox[row].status || t.inbox[row].status == Processed)
  {
    match step
    case Replay(w, a) => ReplayerFrames(s, w, a);
    case _ => OthersLeaveRows(s, step);
  }

  lemma StepStaysSpent(s: State, step: Step, t: State, row: nat)
    requires Inv(s) && AllDistinct(s) && row < |s.inbox| && !Exhaustible(s, row)
    requires Next(s, step) == Some(t) && !Replays(s, step, row)
    ensures row < |t.inbox| && t.inbox[row].source == s.inbox[row].source && !Exhaustible(t, row)
    ensures InDlq(t.dlq, Some(s.inbox[row].source)) == InDlq(s.dlq, Some(s.inbox[row].source))
  {
    StepGrows(s, step);
    match step
    case Retry(w, a) => RetrierStaysSpent(s, w, a, row);
    case _ => OthersStaySpent(s, step, row);
  }

  lemma {:induction false} SpentSendsNothing(s: State, steps: seq<Step>, t: State, row: nat)
    requires Inv(s) && AllDistinct(s) && row < |s.inbox| && !Exhaustible(s, row)
    requires Run(s, steps) == Some(t) && ReplaysOf(s, steps, row) == 0
    ensures row < |t.inbox| && t.inbox[row].source == s.inbox[row].source && !Exhaustible(t, row)
    ensures InDlq(t.dlq, Some(s.inbox[row].source)) == InDlq(s.dlq, Some(s.inbox[row].source))
  {
    if |steps| > 0 {
      var front := steps[..|steps| - 1];
      var at := Run(s, front).value;
      SpentSendsNothing(s, front, at, row);
      RunKeepsInv(s, front);
      RunKeepsAllDistinct(s, front);
      StepStaysSpent(at, steps[|steps| - 1], t, row);
    }
  }

  // ---------------------------------------------------------------- a letter can follow

  lemma SendsAgain(s: State, row: nat, steps: seq<Step>, t: State)
    requires row < |s.inbox| && OnlyRetries(steps) && Run(s, steps) == Some(t)
    requires GainsLetter(s, t, s.inbox[row].source)
    ensures CanSendAgain(s, row)
  {
    NothingReplayed(s, steps, row);
  }

  lemma PendingCanSendAgain(s: State, row: nat)
    requires row < |s.inbox| && CanBePolled(s, row)
    ensures CanSendAgain(s, row)
  {
    var idle := WithRetrier(s, 0, RetIdle);
    var rounds, t := FailUntilLetter(idle, row);
    StepFirst(s, Retry(0, RetCrash), idle, rounds, t);
    SendsAgain(s, row, [Retry(0, RetCrash)] + rounds, t);
  }

  /** A loop past the row's last attempt settles it, if that is still to do, and sends the letter. */
  lemma SettleAndSend(s: State, w: nat, row: nat) returns (steps: seq<Step>, t: State)
    requires row < |s.inbox| && w < |s.retriers| && Dooms(s.retriers[w], row, s.cfg)
    ensures OnlyRetries(steps) && Run(s, steps) == Some(t)
    ensures GainsLetter(s, t, s.inbox[row].source)
    ensures |t.retriers| == |s.retriers| && t.retriers == s.retriers[w := t.retriers[w]]
    ensures t.cfg == s.cfg && |t.inbox| == |s.inbox|
    ensures t.inbox[row].source == s.inbox[row].source && t.inbox[row].attempts == s.inbox[row].attempts
    decreases s.retriers[w].RetSettling?
  {
    var r := s.retriers[w];
    if r.RetDeadLetter? {
      t := AfterDeadLetter(s, w, r.job, r.attempts, r.rest, Ok);
      OneMore(s.dlq, DlqMessage(s.inbox[row].source, s.inbox[row].payload, r.attempts));
      steps := [Retry(w, RetSend(Ok))];
      RunOne(s, Retry(w, RetSend(Ok)));
    } else {
      var settled := AfterRetrySettle(s, w, r.job, r.attempts, r.rest, Ok);
      var sent;
      sent, t := SettleAndSend(settled, w, row);
      StepFirst(s, Retry(w, RetSettle(Ok)), settled, sent, t);
      steps := [Retry(w, RetSettle(Ok))] + sent;
    }
  }

  /** Steps a loop can still take in its round. */
  function StepsLeft(r: Retrier): nat {
    match r
    case RetIdle => 0
    case RetBatch(rest) => 5 * |rest|
    case RetCredited(_, rest) => 5 * |rest| + 4
    case RetFailing(_, rest) => 5 * |rest| + 3
    case RetSettling(_, _, rest) => 5 * |rest| + 2
    case RetDeadLetter(_, _, rest) => 5 * |rest| + 1
  }

  predicate CountedNow(r: Retrier, row: nat, attempts: nat) {
    r.RetSettling? && r.job.id == row && r.attempts == attempts
  }

  /** What leads a loop on to the row it holds: earlier rows fail, and so does this one. */
  function Onwards(r: Retrier): RetrierAction {
    match r
    case RetIdle => RetPoll
    case RetBatch(_) => RetProcess(Refused, Rule(0, None))
    case RetCredited(_, _) => RetMark(Refused)
    case RetFailing(_, _) => RetCount(Ok)
    case RetSettling(_, _, _) => RetSettle(Ok)
    case RetDeadLetter(_, _, _) => RetSend(Ok)
  }

  lemma StepOnwards(s: State, w: nat, row: nat) returns (t: State)
    requires w < |s.retriers| && RetrierOk(s.inbox, s.ledger, s.retriers[w]) && Distinct(s.retriers[w])
    requires row < |s.inbox| && InHand(s.retriers[w], row)
    ensures Next(s, Retry(w, Onwards(s.retriers[w]))) == Some(t)
    ensures |t.retriers| == |s.retriers| && t.retriers == s.retriers[w := t.retriers[w]]
    ensures t.cfg == s.cfg && |t.inbox| == |s.inbox|
    ensures t.inbox[row].source == s.inbox[row].source && s.dlq <= t.dlq
    ensures || (t.inbox[row].attempts == s.inbox[row].attempts && InHand(t.retriers[w], row)
                && StepsLeft(t.retriers[w]) < StepsLeft(s.retriers[w]))
            || (t.inbox[row].attempts == s.inbox[row].attempts + 1 && !InHand(t.retriers[w], row)
                && CountedNow(t.retriers[w], row, t.inbox[row].attempts))
  {
    match s.retriers[w]
    case RetBatch(rest) =>
      HeadAndRest(rest, row);
      t := AfterRetryProcess(s, w, rest[0], rest[1..], Refused, Rule(0, None));
    case RetCredited(job, rest) => t := AfterRetryMark(s, w, job, rest, Refused);
    case RetFailing(job, rest) => t := AfterCount(s, w, job, rest, Ok);
    case RetSettling(job, attempts, rest) => t := AfterRetrySettle(s, w, job, attempts, rest, Ok);
    case RetDeadLetter(job, attempts, rest) => t := AfterDeadLetter(s, w, job, attempts, rest, Ok);
  }

  /** A loop that holds the row gets to it, fails on it and counts the attempt. */
  lemma CountRow(s: State, w: nat, row: nat) returns (steps: seq<Step>, t: State)
    requires Inv(s) && AllDistinct(s) && w < |s.retriers| && row < |s.inbox| && InHand(s.retriers[w], row)
    ensures OnlyRetries(steps) && Run(s, steps) == Some(t)
    ensures |t.retriers| == |s.retriers| && t.retriers == s.retriers[w := t.retriers[w]]
    ensures t.cfg == s.cfg && |t.inbox| == |s.inbox|
    ensures t.inbox[row].source == s.inbox[row].source && s.dlq <= t.dlq
    ensures t.inbox[row].attempts == s.inbox[row].attempts + 1
    ensures !InHand(t.retriers[w], row) && CountedNow(t.retriers[w], row, t.inbox[row].attempts)
    decreases StepsLeft(s.retriers[w])
  {
    assert RetrierOk(s.inbox, s.ledger, s.retriers[w]) && Distinct(s.retriers[w]);
    var step := Retry(w, Onwards(s.retriers[w]));
    t := StepOnwards(s, w, row);
    steps := [step];
    RunOne(s, step);
    if InHand(t.retriers[w], row) {
      StepKeepsInv(s, step);
      RetrierKeepsDistinct(s, w, step.r);
      var more, u := CountRow(t, w, row);
      StepFirst(s, step, t, more, u);
      steps, t := [step] + more, u;
    }
  }

  /** The loops that hold the row count their attempts one after the other until one is the last. */
  lemma CountUntilLetter(s: State, row: nat) returns (steps: seq<Step>, t: State)
    requires Inv(s) && AllDistinct(s) && row < |s.inbox|
    requires Hands(s.retriers, row) > 0 && s.inbox[row].attempts + Hands(s.retriers, row) >= s.cfg.maxAttempts
    ensures OnlyRetries(steps) && Run(s, steps) == Some(t)
    ensures GainsLetter(s, t, s.inbox[row].source)
    decreases Hands(s.retriers, row)
  {
    var w := SomeHand(s.retriers, row);
    steps, t := CountRow(s, w, row);
    HandsUpdate(s.retriers, w, t.retriers[w], row);
    LettersOnlyAdd(s.dlq, t.dlq, Some(s.inbox[row].source));
    var more, u;
    if t.inbox[row].attempts >= t.cfg.maxAttempts {
      more, u := SettleAndSend(t, w, row);
    } else {
      RunKeepsInv(s, steps);
      RunKeepsAllDistinct(s, steps);
      more, u := CountUntilLetter(t, row);
    }
    Joined(s, steps, t, more, u);
    steps, t := steps + more, u;
  }

  lemma ExhaustibleCanSend(s: State, row: nat)
    requires Inv(s) && AllDistinct(s) && row < |s.inbox| && Exhaustible(s, row)
    ensures CanSendAgain(s, row)
  {
    if CanBePolled(s, row) {
      PendingCanSendAgain(s, row);
    } else {
      var steps, t;
      if w: nat :| w < |s.retriers| && Dooms(s.retriers[w], row, s.cfg) {
        steps, t := SettleAndSend(s, w, row);
      } else {
        steps, t := CountUntilLetter(s, row);
      }
      SendsAgain(s, row, steps, t);
    }
  }

  lemma SpentCannotSend(s: State, row: nat)
    requires Inv(s) && AllDistinct(s) && row < |s.inbox| && !Exhaustible(s, row)
    ensures !CanSendAgain(s, row)
  {
    forall steps | Run(s, steps).Some? && ReplaysOf(s, steps, row) == 0
      ensures !GainsLetter(s, Run(s, steps).value, s.inbox[row].source)
    {
      SpentSendsNothing(s, steps, Run(s, steps).value, row);
    }
  }

  // ---------------------------------------------------------------- exactly when

  /** In every reachable state, with any number of retry loops, a letter for an event can follow without a
      replay of its row exactly when the row is PENDING and there is a loop that takes batches, or some loop
      has written FAILED or is about to, or the loops that hold the row have enough attempts between them. */
  lemma LetterExactlyWhenExhaustible(s0: State, past: seq<Step>, row: nat)
    requires Init(s0) && Run(s0, past).Some? && row < |Run(s0, past).value.inbox|
    ensures CanSendAgain(Run(s0, past).value, row) <==> Exhaustible(Run(s0, past).value, row)
  {
    var s := Run(s0, past).value;
    ReachableIsDistinct(s0, past);
    if Exhaustible(s, row) {
      ExhaustibleCanSend(s, row);
    } else {
      SpentCannotSend(s, row);
    }
  }

  predicate AboutToSend(s: State, w: nat, row: nat) {
    w < |s.retriers| && s.retriers[w].RetDeadLetter? && s.retriers[w].job.id == row && row < |s.inbox|
  }

  /** So after a row's letter is sent, acknowledged or not, a second one can follow without a replay in
      between exactly under that condition; and with one retry loop exactly when the row is PENDING at the
      send, that is, when it was replayed between its FAILED write and the send. */
  lemma SecondLetterExactlyWhen(s0: State, past: seq<Step>, w: nat, row: nat, o: Outcome)
    requires Init(s0) && s0.cfg.retryBatch > 0 && Run(s0, past).Some? && AboutToSend(Run(s0, past).value, w, row)
    requires o != Refused
    ensures var sent := Next(Run(s0, past).value, Retry(w, RetSend(o)));
            && sent.Some? && row < |sent.value.inbox|
            && (CanSendAgain(sent.value, row) <==> Exhaustible(sent.value, row))
            && (|s0.retriers| == 1 ==> (CanSendAgain(sent.value, row) <==> sent.value.inbox[row].status == Pending))
  {
    var s := Run(s0, past).value;
    var r := s.retriers[w];
    var t := AfterDeadLetter(s, w, r.job, r.attempts, r.rest, o);
    RunExtends(s0, past, s, Retry(w, RetSend(o)));
    LetterExactlyWhenExhaustible(s0, past + [Retry(w, RetSend(o))], row);
    ReachableIsDistinct(s0, past);
    if |s0.retriers| == 1 {
      assert Distinct(r);
      assert t.retriers == [t.retriers[0]] && Hands(t.retriers[..0], row) == 0;
    }
  }

  /** Only a replay makes a row PENDING again after its FAILED write. */
  lemma PendingOnlyByReplay(s0: State, before: seq<Step>, write: Step, between: seq<Step>, row: nat)
    requires Init(s0) && Run(s0, before).Some? && Next(Run(s0, before).value, write).Some?
    requires var s := Run(s0, before).value; var t := Next(s, write).value;
             && row < |s.inbox| && WritesFailed(s, write, Some(s.inbox[row].source))
             && Run(t, between).Some? && row < |Run(t, between).value.inbox|
             && Run(t, between).value.inbox[row].status == Pending
    ensures ReplaysOf(Next(Run(s0, before).value, write).value, between, row) > 0
  {
    var s := Run(s0, before).value;
    ReachableIsDistinct(s0, before);
    FailedWriteDisengages(s, write.w, write.r, row);
    if ReplaysOf(Next(s, write).value, between, row) == 0 {
      StaysSettledUntilReplayed(Next(s, write).value, between, row);
    }
  }

  lemma {:induction false} StaysSettledUntilReplayed(s: State, steps: seq<Step>, row: nat)
    requires row < |s.inbox| && s.inbox[row].status != Pending && Run(s, steps).Some? && ReplaysOf(s, steps, row) == 0
    ensures row < |Run(s, steps).value.inbox| && Run(s, steps).value.inbox[row].status != Pending
  {
    if |steps| > 0 {
      var front := steps[..|steps| - 1];
      StaysSettledUntilReplayed(s, front, row);
      StaysSettled(Run(s, front).value, steps[|steps| - 1], row);
    }
  }
}
