/** Accounting for the dead-letter topic: what each FAILED write of a retry loop leads to, and how often
    the same event can get there. */
module DeadLetters {
  import opened Domain
  import opened Pipeline
  import opened Invariants
  import opened RetryBudget

  /** Selects the events to count: all of them, or those with one source id. */
  predicate Picked(pick: Option<SourceId>, source: SourceId) {
    pick.None? || pick.value == source
  }

  predicate LoopOn(s: State, w: nat, pick: Option<SourceId>) {
    w < |s.retriers| && (s.retriers[w].RetSettling? || s.retriers[w].RetDeadLetter?)
    && s.retriers[w].job.id < |s.inbox| && Picked(pick, s.inbox[s.retriers[w].job.id].source)
  }

  /** The step writes FAILED to a row, whether or not the loop learns of it. */
  predicate WritesFailed(s: State, step: Step, pick: Option<SourceId>) {
    && step.Retry? && LoopOn(s, step.w, pick) && s.retriers[step.w].RetSettling?
    && step.r.RetSettle? && step.r.o != Refused && s.retriers[step.w].attempts >= s.cfg.maxAttempts
  }

  /** The loop ends after a FAILED write and before the row's message is on the dead-letter topic. */
  predicate StopsBeforeSend(s: State, step: Step, pick: Option<SourceId>) {
    && step.Retry? && LoopOn(s, step.w, pick)
    && var r := s.retriers[step.w];
    || (r.RetSettling? && step.r == RetSettle(Lost) && r.attempts >= s.cfg.maxAttempts)
    || (r.RetDeadLetter? && (step.r == RetCrash || step.r == RetSend(Refused)))
  }

  function FailedWrites(s: State, steps: seq<Step>, pick: Option<SourceId>): nat {
    if |steps| == 0 then 0
    else
      var at := Run(s, steps[..|steps| - 1]);
      FailedWrites(s, steps[..|steps| - 1], pick)
      + if at.Some? && WritesFailed(at.value, steps[|steps| - 1], pick) then 1 else 0
  }

  function StopsBetween(s: State, steps: seq<Step>, pick: Option<SourceId>): nat {
    if |steps| == 0 then 0
    else
      var at := Run(s, steps[..|steps| - 1]);
      StopsBetween(s, steps[..|steps| - 1], pick)
      + if at.Some? && StopsBeforeSend(at.value, steps[|steps| - 1], pick) then 1 else 0
  }

  function InDlq(dlq: seq<DlqMessage>, pick: Option<SourceId>): nat {
    if |dlq| == 0 then 0
    else InDlq(dlq[..|dlq| - 1], pick) + if Picked(pick, dlq[|dlq| - 1].source) then 1 else 0
  }

  predicate Sending(r: Retrier, inbox: seq<InboxRow>, pick: Option<SourceId>) {
    r.RetDeadLetter? && r.job.id < |inbox| && Picked(pick, inbox[r.job.id].source)
  }

  /** The loops that have written FAILED and have yet to send. */
  function InFlight(retriers: seq<Retrier>, inbox: seq<InboxRow>, pick: Option<SourceId>): nat {
    if |retriers| == 0 then 0
    else InFlight(retriers[..|retriers| - 1], inbox, pick)
         + if Sending(retriers[|retriers| - 1], inbox, pick) then 1 else 0
  }

  /** The letters sent and those about to be. */
  function Letters(s: State, pick: Option<SourceId>): nat {
    InDlq(s.dlq, pick) + InFlight(s.retriers, s.inbox, pick)
  }

  lemma {:induction false} InFlightUpdate(
    rs: seq<Retrier>, w: nat, r: Retrier, inbox: seq<InboxRow>, pick: Option<SourceId>)
    requires w < |rs|
    ensures InFlight(rs[w := r], inbox, pick) + (if Sending(rs[w], inbox, pick) then 1 else 0)
            == InFlight(rs, inbox, pick) + (if Sending(r, inbox, pick) then 1 else 0)
  {
    var last := |rs| - 1;
    if w == last {
      assert rs[w := r][..last] == rs[..last];
    } else {
      assert rs[w := r][..last] == rs[..last][w := r];
      InFlightUpdate(rs[..last], w, r, inbox, pick);
    }
  }

  /** Loops only hold rows that exist, and sources never change, so growth of the inbox changes no count. */
  lemma {:induction false} InFlightGrows(rs: seq<Retrier>, a: seq<InboxRow>, b: seq<InboxRow>, pick: Option<SourceId>)
    requires InboxGrows(a, b)
    requires forall w | 0 <= w < |rs| && rs[w].RetDeadLetter? :: rs[w].job.id < |a|
    ensures InFlight(rs, a, pick) == InFlight(rs, b, pick)
  {
    if |rs| > 0 {
      InFlightGrows(rs[..|rs| - 1], a, b, pick);
    }
  }

  lemma RowsOfLoopsExist(s: State)
    requires RetriersOk(s)
    ensures forall w | 0 <= w < |s.retriers| && s.retriers[w].RetDeadLetter? :: s.retriers[w].job.id < |s.inbox|
    ensures forall w | 0 <= w < |s.retriers| && s.retriers[w].RetSettling? :: s.retriers[w].job.id < |s.inbox|
  {
    forall w | 0 <= w < |s.retriers| ensures RetrierOk(s.inbox, s.ledger, s.retriers[w]) {}
  }

  lemma RetrierBalance(s: State, w: nat, a: RetrierAction, pick: Option<SourceId>)
    requires RetriersOk(s) && RetrierNext(s, w, a).Some?
    ensures var t := RetrierNext(s, w, a).value;
            (if WritesFailed(s, Retry(w, a), pick) then 1 else 0) + Letters(s, pick)
            == (if StopsBeforeSend(s, Retry(w, a), pick) then 1 else 0) + Letters(t, pick)
  {
    var t := RetrierNext(s, w, a).value;
    RetrierGrows(s, w, a);
    RetrierFrames(s, w, a);
    RowsOfLoopsExist(s);
    InFlightGrows(s.retriers, s.inbox, t.inbox, pick);
    assert t.retriers == s.retriers[w := t.retriers[w]];
    InFlightUpdate(s.retriers, w, t.retriers[w], t.inbox, pick);
    if s.retriers[w].RetDeadLetter? && a.RetSend? && a.o != Refused {
      assert t.dlq[..|t.dlq| - 1] == s.dlq;
    } else {
      assert t.dlq == s.dlq;
    }
  }

  lemma OthersLeaveDlq(s: State, step: Step)
    requires RequestsOk(s) && Next(s, step).Some? && !step.Retry?
    ensures Next(s, step).value.dlq == s.dlq && Next(s, step).value.retriers == s.retriers
    ensures InboxGrows(s.inbox, Next(s, step).value.inbox)
  {
    StepGrows(s, step);
    match step
    case Publish(w, a) => PublisherFrames(s, w, a);
    case Consume(w, a) => ConsumerFrames(s, w, a);
    case Replay(w, a) => ReplayerFrames(s, w, a);
    case _ =>
  }

  lemma StepBalance(s: State, step: Step, pick: Option<SourceId>)
    requires RetriersOk(s) && RequestsOk(s) && Next(s, step).Some?
    ensures var t := Next(s, step).value;
            (if WritesFailed(s, step, pick) then 1 else 0) + Letters(s, pick)
            == (if StopsBeforeSend(s, step, pick) then 1 else 0) + Letters(t, pick)
  {
    match step
    case Retry(w, a) => RetrierBalance(s, w, a, pick);
    case _ =>
      OthersLeaveDlq(s, step);
      RowsOfLoopsExist(s);
      InFlightGrows(s.retriers, s.inbox, Next(s, step).value.inbox, pick);
  }

  lemma {:induction false} NoneInFlight(rs: seq<Retrier>, inbox: seq<InboxRow>, pick: Option<SourceId>)
    requires forall w | 0 <= w < |rs| :: rs[w] == RetIdle
    ensures InFlight(rs, inbox, pick) == 0
  {
    if |rs| > 0 { NoneInFlight(rs[..|rs| - 1], inbox, pick); }
  }

  lemma {:induction false} LettersBalance(s: State, steps: seq<Step>, pick: Option<SourceId>)
    requires Inv(s) && Run(s, steps).Some?
    ensures var t := Run(s, steps).value;
            FailedWrites(s, steps, pick) + Letters(s, pick) == StopsBetween(s, steps, pick) + Letters(t, pick)
  {
    if |steps| > 0 {
      var front := steps[..|steps| - 1];
      LettersBalance(s, front, pick);
      RunKeepsInv(s, front);
      StepBalance(Run(s, front).value, steps[|steps| - 1], pick);
    }
  }

  /** Every FAILED write ends in a dead letter, a stop before the send, or a loop about to send. This
      holds for all events together and for each source id, with any number of loops. */
  lemma DlqAccounting(s0: State, steps: seq<Step>, pick: Option<SourceId>)
    requires Init(s0) && Run(s0, steps).Some?
    ensures var s := Run(s0, steps).value;
            FailedWrites(s0, steps, pick)
            == InDlq(s.dlq, pick) + StopsBetween(s0, steps, pick) + InFlight(s.retriers, s.inbox, pick)
  {
    InitHasInv(s0);
    NoneInFlight(s0.retriers, s0.inbox, pick);
    LettersBalance(s0, steps, pick);
  }

  // ---------------------------------------------------------------- dead letters carry exhausted rows

  ghost predicate Exhausted(s: State) {
    && (forall i | 0 <= i < |s.dlq| :: s.dlq[i].attempts >= s.cfg.maxAttempts && s.dlq[i].attempts >= 1)
    && (forall w | 0 <= w < |s.retriers| :: LetterExhausted(s.retriers[w], s.cfg))
  }

  predicate LetterExhausted(r: Retrier, cfg: Config) {
    && (r.RetDeadLetter? ==> r.attempts >= cfg.maxAttempts && r.attempts >= 1)
    && (r.RetSettling? ==> r.attempts >= 1)
  }

  lemma StepKeepsExhausted(s: State, step: Step)
    requires RequestsOk(s) && Exhausted(s) && Next(s, step).Some?
    ensures Exhausted(Next(s, step).value)
  {
    match step
    case Retry(w, a) => RetrierKeepsExhausted(s, w, a);
    case _ =>
      StepGrows(s, step);
      OthersLeaveDlq(s, step);
  }

  lemma RetrierKeepsExhausted(s: State, w: nat, a: RetrierAction)
    requires Exhausted(s) && RetrierNext(s, w, a).Some?
    ensures Exhausted(RetrierNext(s, w, a).value)
  {
    var t := RetrierNext(s, w, a).value;
    RetrierFrames(s, w, a);
    assert LetterExhausted(s.retriers[w], s.cfg);
    assert LetterExhausted(t.retriers[w], s.cfg);
    assert t.cfg == s.cfg;
  }

  /** Every dead letter reports at least the maximum number of attempts. */
  lemma {:induction false} LettersAreExhausted(s0: State, steps: seq<Step>)
    requires Init(s0) && Run(s0, steps).Some?
    ensures Exhausted(Run(s0, steps).value)
  {
    if |steps| > 0 {
      var front := steps[..|steps| - 1];
      LettersAreExhausted(s0, front);
      InitHasInv(s0);
      RunKeepsInv(s0, front);
      StepKeepsExhausted(Run(s0, front).value, steps[|steps| - 1]);
    }
  }

  // ---------------------------------------------------------------- FAILED writes between replays

  /** The loop may still write FAILED to the row without polling it again. */
  predicate Engaged(r: Retrier, row: nat) {
    InHand(r, row) || (r.RetSettling? && r.job.id == row)
  }

  function Engagements(retriers: seq<Retrier>, row: nat): (n: nat)
    ensures n <= |retriers|
  {
    if |retriers| == 0 then 0
    else Engagements(retriers[..|retriers| - 1], row) + if Engaged(retriers[|retriers| - 1], row) then 1 else 0
  }

  lemma {:induction false} EngagementsUpdate(rs: seq<Retrier>, w: nat, r: Retrier, row: nat)
    requires w < |rs|
    ensures Engagements(rs[w := r], row) + (if Engaged(rs[w], row) then 1 else 0)
            == Engagements(rs, row) + (if Engaged(r, row) then 1 else 0)
  {
    var last := |rs| - 1;
    if w == last {
      assert rs[w := r][..last] == rs[..last];
    } else {
      assert rs[w := r][..last] == rs[..last][w := r];
      EngagementsUpdate(rs[..last], w, r, row);
    }
  }

  lemma {:induction false} OneIsNotEngaged(rs: seq<Retrier>, w: nat, row: nat)
    requires w < |rs| && !Engaged(rs[w], row)
    ensures Engagements(rs, row) < |rs|
  {
    if w < |rs| - 1 { OneIsNotEngaged(rs[..|rs| - 1], w, row); }
  }

  /** How many FAILED writes the row can still get before it is replayed: one from each loop while it is
      absent or PENDING, and otherwise one from each loop engaged with it. */
  function Chances(s: State, row: nat): (n: nat)
    ensures n <= |s.retriers|
  {
    if row >= |s.inbox| || s.inbox[row].status == Pending then |s.retriers| else Engagements(s.retriers, row)
  }

  /** No loop takes such a row up again. */
  lemma NotTakenUp(s: State, w: nat, a: RetrierAction, row: nat)
    requires RetrierNext(s, w, a).Some? && row < |s.inbox| && s.inbox[row].status != Pending
    ensures Engaged(RetrierNext(s, w, a).value.retriers[w], row) ==> Engaged(s.retriers[w], row)
  {
    match s.retriers[w]
    case RetIdle => BatchIsDistinct(s);
    case RetBatch(rest) => if |rest| > 0 { HeadAndRest(rest, row); }
    case _ =>
  }

  lemma FailedWriteDisengages(s: State, w: nat, a: RetrierAction, row: nat)
    requires AllDistinct(s) && InboxOk(s.outbox, s.inbox) && row < |s.inbox| && RetrierNext(s, w, a).Some?
    requires WritesFailed(s, Retry(w, a), Some(s.inbox[row].source))
    ensures var t := RetrierNext(s, w, a).value;
            && Engaged(s.retriers[w], row) && !Engaged(t.retriers[w], row)
            && row < |t.inbox| && t.inbox[row].status == Failed
  {
    assert Distinct(s.retriers[w]);
    assert s.inbox[s.retriers[w].job.id].source == s.inbox[row].source;
  }

  lemma RetrierSpendsChances(s: State, w: nat, a: RetrierAction, row: nat)
    requires AllDistinct(s) && InboxOk(s.outbox, s.inbox) && row < |s.inbox| && RetrierNext(s, w, a).Some?
    ensures Chances(RetrierNext(s, w, a).value, row)
            + (if WritesFailed(s, Retry(w, a), Some(s.inbox[row].source)) then 1 else 0) <= Chances(s, row)
  {
    var t := RetrierNext(s, w, a).value;
    RetrierFrames(s, w, a);
    assert t.retriers == s.retriers[w := t.retriers[w]];
    EngagementsUpdate(s.retriers, w, t.retriers[w], row);
    if WritesFailed(s, Retry(w, a), Some(s.inbox[row].source)) {
      FailedWriteDisengages(s, w, a, row);
      OneIsNotEngaged(t.retriers, w, row);
    }
    if s.inbox[row].status != Pending {
      StaysSettled(s, Retry(w, a), row);
      NotTakenUp(s, w, a, row);
    }
  }

  lemma StepSpendsChances(s: State, step: Step, row: nat)
    requires AllDistinct(s) && InboxOk(s.outbox, s.inbox) && row < |s.inbox| && Next(s, step).Some?
    requires !Replays(s, step, row)
    ensures Chances(Next(s, step).value, row)
            + (if WritesFailed(s, step, Some(s.inbox[row].source)) then 1 else 0) <= Chances(s, row)
  {
    if step.Retry? {
      RetrierSpendsChances(s, step.w, step.r, row);
    } else {
      OthersLeaveRetriers(s, step);
      if s.inbox[row].status != Pending {
        StaysSettled(s, step, row);
      }
    }
  }

  /** The position is that of the event's row, or free while the event has none. */
  ghost predicate IsRowOf(inbox: seq<InboxRow>, source: SourceId, row: nat) {
    && (row < |inbox| ==> inbox[row].source == source)
    && forall i | 0 <= i < |inbox| && inbox[i].source == source :: i == row
  }

  lemma StepWithinChances(s: State, step: Step, t: State, source: SourceId, row: nat)
    requires RequestsOk(s) && InboxOk(s.outbox, s.inbox) && AllDistinct(s)
    requires Next(s, step) == Some(t) && IsRowOf(t.inbox, source, row)
    ensures IsRowOf(s.inbox, source, row) && |t.retriers| == |s.retriers|
    ensures (if WritesFailed(s, step, Some(source)) then 1 else 0) + Chances(t, row)
            <= Chances(s, row) + if Replays(s, step, row) then |s.retriers| else 0
  {
    StepGrows(s, step);
    if row < |s.inbox| && !Replays(s, step, row) {
      StepSpendsChances(s, step, row);
    }
  }

  /** The FAILED writes of the event, and those left, are within those there were and those replays allow. */
  predicate Within(s: State, steps: seq<Step>, source: SourceId, row: nat, before: nat, left: nat) {
    FailedWrites(s, steps, Some(source)) + left <= before + Allowance(s, steps, row)
  }

  lemma OneMoreWithin(
    s: State, steps: seq<Step>, at: State, source: SourceId, row: nat, before: nat, middle: nat, left: nat)
    requires |steps| > 0 && Run(s, steps[..|steps| - 1]) == Some(at) && |at.retriers| == |s.retriers|
    requires Within(s, steps[..|steps| - 1], source, row, before, middle)
    requires (if WritesFailed(at, steps[|steps| - 1], Some(source)) then 1 else 0) + left
             <= middle + if Replays(at, steps[|steps| - 1], row) then |at.retriers| else 0
    ensures Within(s, steps, source, row, before, left)
  {}

  /** From any state, an event gets no more FAILED writes than its row has chances, plus one per loop for
      each replay of the row. */
  lemma {:induction false} FailedWritesWithinChances(s: State, steps: seq<Step>, t: State, source: SourceId, row: nat)
    requires Inv(s) && AllDistinct(s) && Run(s, steps) == Some(t) && IsRowOf(t.inbox, source, row)
    ensures IsRowOf(s.inbox, source, row) && |t.retriers| == |s.retriers|
    ensures Within(s, steps, source, row, Chances(s, row), Chances(t, row))
  {
    if |steps| > 0 {
      var front, last := steps[..|steps| - 1], steps[|steps| - 1];
      var at := Run(s, front).value;
      RunKeepsInv(s, front);
      RunKeepsAllDistinct(s, front);
      StepWithinChances(at, last, t, source, row);
      FailedWritesWithinChances(s, front, at, source, row);
      OneMoreWithin(s, steps, at, source, row, Chances(s, row), Chances(at, row), Chances(t, row));
    }
  }

  lemma RowStaysItsOwn(s: State, steps: seq<Step>, t: State, row: nat)
    requires Inv(s) && row < |s.inbox| && Run(s, steps) == Some(t)
    ensures IsRowOf(t.inbox, s.inbox[row].source, row) && row < |t.inbox|
  {
    RunKeepsInv(s, steps);
    RunGrowsInbox(s, steps);
  }

  lemma ReachableIsDistinct(s0: State, steps: seq<Step>)
    requires Init(s0) && Run(s0, steps).Some?
    ensures Inv(Run(s0, steps).value) && AllDistinct(Run(s0, steps).value)
    ensures |Run(s0, steps).value.retriers| == |s0.retriers| && Run(s0, steps).value.cfg == s0.cfg
  {
    InitHasInv(s0);
    RunKeepsInv(s0, steps);
    RunKeepsAllDistinct(s0, steps);
    RunKeepsWorkers(s0, steps);
  }

  /** After a FAILED write to a row, at most one more for each other loop that is engaged with it follows
      before it is replayed, and each replay allows one per loop. */
  lemma FailedWritesAfterOne(s0: State, before: seq<Step>, first: Step, between: seq<Step>, row: nat)
    requires Init(s0) && Run(s0, before).Some? && Next(Run(s0, before).value, first).Some?
    requires var s := Run(s0, before).value;
             && row < |s.inbox| && WritesFailed(s, first, Some(s.inbox[row].source))
             && Run(Next(s, first).value, between).Some?
    ensures var s := Run(s0, before).value; var t := Next(s, first).value;
            && FailedWrites(t, between, Some(s.inbox[row].source))
               <= Engagements(t.retriers, row) + |s0.retriers| * ReplaysOf(t, between, row)
            && Engagements(t.retriers, row) < |s0.retriers|
  {
    var s := Run(s0, before).value;
    var t := Next(s, first).value;
    ReachableIsDistinct(s0, before);
    FailedWriteDisengages(s, first.w, first.r, row);
    OneIsNotEngaged(t.retriers, first.w, row);
    StepKeepsInv(s, first);
    StepGrows(s, first);
    RetrierKeepsDistinct(s, first.w, first.r);
    RowStaysItsOwn(t, between, Run(t, between).value, row);
    FailedWritesWithinChances(t, between, Run(t, between).value, s.inbox[row].source, row);
    AllowanceIsProduct(t, between, row);
  }

  lemma WriteTakesChance(u: State, second: Step, row: nat)
    requires AllDistinct(u) && InboxOk(u.outbox, u.inbox) && row < |u.inbox| && Next(u, second).Some?
    requires WritesFailed(u, second, Some(u.inbox[row].source))
    ensures Chances(u, row) > 0
  {
    RetrierSpendsChances(u, second.w, second.r, row);
  }

  lemma NoReplaysNoAllowance(s: State, steps: seq<Step>, row: nat)
    requires ReplaysOf(s, steps, row) == 0
    ensures Allowance(s, steps, row) == 0
  {
    AllowanceIsProduct(s, steps, row);
  }

  lemma ChancesComeFromReplays(t: State, between: seq<Step>, u: State, row: nat)
    requires Inv(t) && AllDistinct(t) && row < |t.inbox| && Chances(t, row) == 0 && Run(t, between) == Some(u)
    requires ReplaysOf(t, between, row) == 0
    ensures Chances(u, row) == 0
  {
    RowStaysItsOwn(t, between, u, row);
    FailedWritesWithinChances(t, between, u, t.inbox[row].source, row);
    NoReplaysNoAllowance(t, between, row);
  }

  lemma WriteNeedsReplay(t: State, between: seq<Step>, u: State, second: Step, row: nat)
    requires Inv(t) && AllDistinct(t) && row < |t.inbox| && Chances(t, row) == 0
    requires Run(t, between) == Some(u) && Next(u, second).Some? && WritesFailed(u, second, Some(t.inbox[row].source))
    ensures ReplaysOf(t, between, row) > 0
  {
    RowStaysItsOwn(t, between, u, row);
    RunKeepsInv(t, between);
    RunKeepsAllDistinct(t, between);
    WriteTakesChance(u, second, row);
    if ReplaysOf(t, between, row) == 0 {
      ChancesComeFromReplays(t, between, u, row);
    }
  }

  /** So with one retry loop, two FAILED writes to a row have a replay of that row between them; and so they
      have with any number, if no other loop was engaged with the row. */
  lemma ReplayBetweenFailedWrites(s0: State, before: seq<Step>, first: Step, between: seq<Step>, second: Step, row: nat)
    requires Init(s0) && Run(s0, before).Some? && Next(Run(s0, before).value, first).Some?
    requires var s := Run(s0, before).value; var t := Next(s, first).value;
             && row < |s.inbox| && WritesFailed(s, first, Some(s.inbox[row].source))
             && (|s0.retriers| == 1 || Engagements(t.retriers, row) == 0)
             && Run(t, between).Some? && Next(Run(t, between).value, second).Some?
             && WritesFailed(Run(t, between).value, second, Some(s.inbox[row].source))
    ensures ReplaysOf(Next(Run(s0, before).value, first).value, between, row) > 0
  {
    var s := Run(s0, before).value;
    var t := Next(s, first).value;
    ReachableIsDistinct(s0, before);
    StepKeepsInv(s, first);
    StepGrows(s, first);
    RetrierKeepsDistinct(s, first.w, first.r);
    FailedWriteDisengages(s, first.w, first.r, row);
    OneIsNotEngaged(t.retriers, first.w, row);
    WriteNeedsReplay(t, between, Run(t, between).value, second, row);
  }

  lemma LettersWithinWrites(s0: State, steps: seq<Step>, pick: Option<SourceId>)
    requires Init(s0) && Run(s0, steps).Some?
    ensures InDlq(Run(s0, steps).value.dlq, pick) <= FailedWrites(s0, steps, pick)
  {
    DlqAccounting(s0, steps, pick);
  }

  lemma WritesPerEvent(s0: State, steps: seq<Step>, s: State, source: SourceId)
    requires Init(s0) && Run(s0, steps) == Some(s)
    ensures FailedWrites(s0, steps, Some(source)) <= |s0.retriers| + Allowance(s0, steps, RowFor(s.inbox, source))
  {
    var row := RowFor(s.inbox, source);
    ReachableIsDistinct(s0, steps);
    ReachableIsDistinct(s0, []);
    FailedWritesWithinChances(s0, steps, s, source, row);
  }

  /** An event has at most one dead letter for each loop, and for each replay of its row one more for each
      loop. */
  lemma DeadLettersPerEvent(s0: State, steps: seq<Step>, source: SourceId)
    requires Init(s0) && Run(s0, steps).Some?
    ensures var s := Run(s0, steps).value;
            InDlq(s.dlq, Some(source)) <= |s0.retriers| * (ReplaysOf(s0, steps, RowFor(s.inbox, source)) + 1)
  {
    var row := RowFor(Run(s0, steps).value.inbox, source);
    WritesPerEvent(s0, steps, Run(s0, steps).value, source);
    LettersWithinWrites(s0, steps, Some(source));
    AllowanceIsProduct(s0, steps, row);
    OneMoreFactor(|s0.retriers|, ReplaysOf(s0, steps, row));
  }
}
