/** When rows are due, exactly: every time a row is stored, put off or replayed sets its due time, and nothing
    else does. */
module DueTimes {
  import opened Domain
  import opened Pipeline
  import opened Invariants
  import opened RetryBudget
  import opened RetrySchedule
  import opened PublishSchedule

  /** The delay after a number of attempts, in milliseconds. */
  function Delay(attempts: nat): nat {
    if attempts <= 4 then [1000, 2000, 4000, 8000, 16000][attempts] else 30000
  }

  lemma BackoffTable(attempts: nat)
    ensures BackoffMs(attempts) == Delay(attempts)
  {
    if attempts >= 5 {
      BackoffIsMonotone(attempts, attempts);
    } else {
      assert Pow2(1) == 2 && Pow2(2) == 4 && Pow2(3) == 8 && Pow2(4) == 16;
    }
  }

  // ---------------------------------------------------------------- what puts a row off

  /** A retry loop puts the row off, whether or not it learns that the update took effect. */
  predicate PutsOff(s: State, step: Step, row: nat) {
    && step.Retry? && step.w < |s.retriers| && Settling(s.retriers[step.w], row)
    && step.r.RetSettle? && step.r.o != Refused && s.retriers[step.w].attempts < s.cfg.maxAttempts
  }

  predicate PutsOffOutbox(s: State, step: Step, row: nat) {
    && step.Publish? && step.w < |s.publishers| && s.publishers[step.w].PubSettling?
    && s.publishers[step.w].job.id == row
    && step.p.PubSettle? && step.p.o != Refused && s.publishers[step.w].attempts < s.cfg.maxAttempts
  }

  /** The row is due exactly the scheduled delay for the counted attempts after it is put off. */
  lemma PutOffByDelay(s: State, step: Step, row: nat)
    requires PutsOff(s, step, row) && Next(s, step).Some?
    ensures var t := Next(s, step).value; var n := s.retriers[step.w].attempts;
            row < |t.inbox| && t.inbox[row] == s.inbox[row].(availableAt := s.now + Delay(n))
  {
    BackoffTable(s.retriers[step.w].attempts);
  }

  lemma OutboxPutOffByDelay(s: State, step: Step, row: nat)
    requires PutsOffOutbox(s, step, row) && Next(s, step).Some?
    ensures var t := Next(s, step).value; var n := s.publishers[step.w].attempts;
            row < |t.outbox| && t.outbox[row] == s.outbox[row].(status := Waiting, availableAt := s.now + Delay(n))
  {
    BackoffTable(s.publishers[step.w].attempts);
  }

  // ---------------------------------------------------------------- the due time over a run

  /** The time the row's history sets: by the last time it was put off, replayed, or stored. */
  function LastDue(s0: State, steps: seq<Step>, row: nat): int {
    if |steps| == 0 then s0.now
    else
      var at, last := Run(s0, steps[..|steps| - 1]), steps[|steps| - 1];
      if at.None? then s0.now
      else if row >= |at.value.inbox| || Replays(at.value, last, row) then at.value.now
      else if PutsOff(at.value, last, row) then at.value.now + Delay(at.value.retriers[last.w].attempts)
      else LastDue(s0, steps[..|steps| - 1], row)
  }

  function LastDueOutbox(s0: State, steps: seq<Step>, row: nat): int {
    if |steps| == 0 then s0.now
    else
      var at, last := Run(s0, steps[..|steps| - 1]), steps[|steps| - 1];
      if at.None? then s0.now
      else if row >= |at.value.outbox| || ReplaysOutbox(at.value, last, row) then at.value.now
      else if PutsOffOutbox(at.value, last, row) then at.value.now + Delay(at.value.publishers[last.w].attempts)
      else LastDueOutbox(s0, steps[..|steps| - 1], row)
  }

  lemma StepSetsDue(s: State, step: Step, t: State, row: nat)
    requires Next(s, step) == Some(t) && row < |t.inbox|
    ensures t.inbox[row].availableAt ==
            if row >= |s.inbox| || Replays(s, step, row) then s.now
            else if PutsOff(s, step, row) then s.now + Delay(s.retriers[step.w].attempts)
            else s.inbox[row].availableAt
  {
    match step
    case Retry(w, a) =>
      RetrierFrames(s, w, a);
      if PutsOff(s, step, row) { PutOffByDelay(s, step, row); }
    case Replay(w, a) => ReplayerFrames(s, w, a);
    case _ => OthersLeaveRows(s, step);
  }

  lemma StepSetsOutboxDue(s: State, step: Step, t: State, row: nat)
    requires Next(s, step) == Some(t) && row < |t.outbox|
    ensures t.outbox[row].availableAt ==
            if row >= |s.outbox| || ReplaysOutbox(s, step, row) then s.now
            else if PutsOffOutbox(s, step, row) then s.now + Delay(s.publishers[step.w].attempts)
            else s.outbox[row].availableAt
  {
    match step
    case Publish(w, a) =>
      PublisherFrames(s, w, a);
      if PutsOffOutbox(s, step, row) { OutboxPutOffByDelay(s, step, row); }
    case Retry(w, a) => RetrierFrames(s, w, a);
    case Consume(w, a) => ConsumerFrames(s, w, a);
    case Replay(w, a) => ReplayerFrames(s, w, a);
    case _ =>
  }

  /** In every run, with any number of loops, stops and replays, an inbox row is due exactly when its history
      says. */
  lemma {:induction false} DueExactly(s0: State, steps: seq<Step>, t: State, row: nat)
    requires Init(s0) && Run(s0, steps) == Some(t) && row < |t.inbox|
    ensures t.inbox[row].availableAt == LastDue(s0, steps, row)
  {
    if |steps| > 0 {
      var front := steps[..|steps| - 1];
      var at := Run(s0, front).value;
      StepSetsDue(at, steps[|steps| - 1], t, row);
      if row < |at.inbox| {
        DueExactly(s0, front, at, row);
      }
    }
  }

  /** And so is an outbox row, with any number of publishers. */
  lemma {:induction false} OutboxDueExactly(s0: State, steps: seq<Step>, t: State, row: nat)
    requires Init(s0) && Run(s0, steps) == Some(t) && row < |t.outbox|
    ensures t.outbox[row].availableAt == LastDueOutbox(s0, steps, row)
  {
    if |steps| > 0 {
      var front := steps[..|steps| - 1];
      var at := Run(s0, front).value;
      StepSetsOutboxDue(at, steps[|steps| - 1], t, row);
      if row < |at.outbox| {
        OutboxDueExactly(s0, front, at, row);
      }
    }
  }

  // ---------------------------------------------------------------- no row waits longer than the cap

  ghost predicate DueWithin(s: State, ms: nat) {
    && (forall i | 0 <= i < |s.inbox| :: s.inbox[i].availableAt <= s.now + ms)
    && (forall i | 0 <= i < |s.outbox| :: s.outbox[i].availableAt <= s.now + ms)
  }

  lemma StepKeepsDueWithin(s: State, step: Step, t: State)
    requires RequestsOk(s) && DueWithin(s, 30000) && Next(s, step) == Some(t)
    ensures DueWithin(t, 30000)
  {
    StepGrows(s, step);
    forall i | 0 <= i < |t.inbox| ensures t.inbox[i].availableAt <= t.now + 30000 {
      StepSetsDue(s, step, t, i);
    }
    forall i | 0 <= i < |t.outbox| ensures t.outbox[i].availableAt <= t.now + 30000 {
      StepSetsOutboxDue(s, step, t, i);
    }
  }

  lemma {:induction false} RunKeepsDueWithin(s0: State, steps: seq<Step>, t: State)
    requires Init(s0) && Run(s0, steps) == Some(t)
    ensures DueWithin(t, 30000)
  {
    if |steps| > 0 {
      var front := steps[..|steps| - 1];
      var at := Run(s0, front).value;
      RunKeepsDueWithin(s0, front, at);
      InitHasInv(s0);
      RunKeepsInv(s0, front);
      StepKeepsDueWithin(at, steps[|steps| - 1], t);
    }
  }

  /** In every reachable state every row is due within thirty seconds. */
  lemma ReachableIsDueSoon(s: State)
    requires Reachable(s)
    ensures DueWithin(s, 30000)
  {
    var s0: State, steps: seq<Step> :| Init(s0) && Run(s0, steps) == Some(s);
    RunKeepsDueWithin(s0, steps, s);
  }

  // ---------------------------------------------------------------- the closed form, from both sides

  /** How late the loop comes to put the row off. */
  function LateBy(s: State, step: Step, row: nat): int {
    if PutsOff(s, step, row) && row < |s.inbox| then s.now - s.inbox[row].availableAt else 0
  }

  function Lateness(s0: State, steps: seq<Step>, row: nat): int {
    if |steps| == 0 then 0
    else
      var at := Run(s0, steps[..|steps| - 1]);
      Lateness(s0, steps[..|steps| - 1], row) + if at.Some? then LateBy(at.value, steps[|steps| - 1], row) else 0
  }

  /** A PENDING row's due time is the scheduled one plus the lateness so far. */
  predicate RowExactlyOnTime(e: InboxRow, r: Retrier, row: nat, late: int) {
    if Settling(r, row)
    then e.attempts == r.attempts && r.attempts >= 1
         && (e.status == Pending ==> e.availableAt == e.createdAt + Waits(r.attempts - 1) + late)
    else e.status == Pending ==> e.availableAt == e.createdAt + Waits(e.attempts) + late
  }

  ghost predicate ExactlyOnTime(s: State, row: nat, late: int) {
    && |s.retriers| == 1 && Distinct(s.retriers[0])
    && if row < |s.inbox| then RowExactlyOnTime(s.inbox[row], s.retriers[0], row, late) else late == 0
  }

  lemma SettleKeepsExact(s: State, job: Job, n: nat, rest: seq<Job>, o: Outcome, row: nat, late: int)
    requires ExactlyOnTime(s, row, late) && s.retriers[0] == RetSettling(job, n, rest) && job.id < |s.inbox|
    requires job.id == row ==> o != Refused
    ensures ExactlyOnTime(AfterRetrySettle(s, 0, job, n, rest, o), row, late + LateBy(s, Retry(0, RetSettle(o)), row))
  {
    if job.id == row {
      assert Waits(n) == Waits(n - 1) + BackoffMs(n);
    }
  }

  lemma RetrierKeepsExact(s: State, a: RetrierAction, row: nat, late: int)
    requires ExactlyOnTime(s, row, late) && RetrierNext(s, 0, a).Some?
    requires !StopsOn(s, Retry(0, a), row)
    ensures ExactlyOnTime(RetrierNext(s, 0, a).value, row, late + LateBy(s, Retry(0, a), row))
  {
    match s.retriers[0]
    case RetIdle => BatchIsDistinct(s);
    case RetBatch(rest) => if |rest| > 0 { HeadAndRest(rest, row); }
    case RetSettling(job, n, rest) => if a.RetSettle? { SettleKeepsExact(s, job, n, rest, a.o, row, late); }
    case _ =>
  }

  lemma ReplayerKeepsExact(s: State, w: nat, a: ReplayerAction, row: nat, late: int)
    requires ExactlyOnTime(s, row, late) && ReplayerNext(s, w, a).Some? && !Replays(s, Replay(w, a), row)
    ensures ExactlyOnTime(ReplayerNext(s, w, a).value, row, late)
  {
    ReplayerFrames(s, w, a);
  }

  lemma OthersKeepExact(s: State, step: Step, t: State, row: nat, late: int)
    requires ExactlyOnTime(s, row, late) && RetriersOk(s) && Next(s, step) == Some(t)
    requires !step.Retry? && !step.Replay?
    ensures ExactlyOnTime(t, row, late)
  {
    OthersLeaveRows(s, step);
    if row >= |s.inbox| {
      assert RetrierOk(s.inbox, s.ledger, s.retriers[0]);
    }
  }

  lemma StepKeepsExact(s: State, step: Step, t: State, row: nat, late: int)
    requires ExactlyOnTime(s, row, late) && RetriersOk(s) && Next(s, step) == Some(t)
    requires !StopsOn(s, step, row) && !Replays(s, step, row)
    ensures ExactlyOnTime(t, row, late + LateBy(s, step, row))
  {
    match step
    case Retry(_, a) => RetrierKeepsExact(s, a, row, late);
    case Replay(w, a) => ReplayerKeepsExact(s, w, a, row, late);
    case _ => OthersKeepExact(s, step, t, row, late);
  }

  ghost predicate Undisturbed(s0: State, steps: seq<Step>, row: nat) {
    StopsOf(s0, steps, row) == 0 && ReplaysOf(s0, steps, row) == 0
  }

  lemma UndisturbedStep(s0: State, steps: seq<Step>, at: State, row: nat)
    requires |steps| > 0 && Run(s0, steps[..|steps| - 1]) == Some(at) && Undisturbed(s0, steps, row)
    ensures Undisturbed(s0, steps[..|steps| - 1], row)
    ensures !StopsOn(at, steps[|steps| - 1], row) && !Replays(at, steps[|steps| - 1], row)
  {}

  lemma {:induction false} RunKeepsExact(s0: State, steps: seq<Step>, t: State, row: nat)
    requires Init(s0) && |s0.retriers| == 1 && Run(s0, steps) == Some(t) && Undisturbed(s0, steps, row)
    ensures ExactlyOnTime(t, row, Lateness(s0, steps, row))
  {
    if |steps| > 0 {
      var front := steps[..|steps| - 1];
      var at := Run(s0, front).value;
      UndisturbedStep(s0, steps, at, row);
      RunKeepsExact(s0, front, at, row);
      InitHasInv(s0);
      RunKeepsInv(s0, front);
      StepKeepsExact(at, steps[|steps| - 1], t, row, Lateness(s0, front, row));
    }
  }

  /** In a run with one loop, a PENDING row that was neither replayed nor hit by a stop, and that the loop is
      not about to settle, is due for its n-th attempt exactly at the closed form after it was stored, plus what
      the loop was late for the attempts before. */
  lemma DueOnSchedule(s0: State, steps: seq<Step>, row: nat, n: nat)
    requires Init(s0) && |s0.retriers| == 1 && Run(s0, steps).Some?
    requires Undisturbed(s0, steps, row) && n >= 1
    requires var s := Run(s0, steps).value;
             && row < |s.inbox| && s.inbox[row].status == Pending && s.inbox[row].attempts == n - 1
             && forall w | 0 <= w < |s.retriers| :: !Settling(s.retriers[w], row)
    ensures var e := Run(s0, steps).value.inbox[row];
            e.availableAt == e.createdAt + EarliestAttempt(n) + Lateness(s0, steps, row)
  {
    RunKeepsExact(s0, steps, Run(s0, steps).value, row);
    WaitsInClosedForm(n);
  }
}
