/** When an inbox row's attempts can happen: the delays the retry loop adds up over a run. */
module RetrySchedule {
  import opened Domain
  import opened Pipeline
  import opened Invariants
  import opened RetryBudget

  /** The delays scheduled after attempts 1 to n, summed. */
  function Waits(n: nat): nat {
    if n == 0 then 0 else Waits(n - 1) + BackoffMs(n)
  }

  /** When the n-th attempt may start, in closed form: 1000 * (2^n - 2) ms after the row was stored up to
      the fifth, and 30 s more for each one after that. */
  function EarliestAttempt(n: nat): int {
    if n <= 5 then 1000 * (Pow2(n) - 2) else 30000 + 30000 * (n - 5)
  }

  /** The first delay is one second, and each is twice the one before it, up to thirty seconds. */
  lemma BackoffDoubles(n: nat)
    ensures BackoffMs(0) == 1000
    ensures BackoffMs(n + 1) == if 2 * BackoffMs(n) < 30000 then 2 * BackoffMs(n) else 30000
  {}

  lemma Pow2Grows(n: nat)
    requires n >= 5
    ensures Pow2(n) >= 32
  {
    if n > 5 { Pow2Grows(n - 1); }
  }

  lemma BackoffIsMonotone(m: nat, n: nat)
    requires m <= n
    ensures BackoffMs(m) <= BackoffMs(n)
    ensures n >= 5 ==> BackoffMs(n) == 30000
  {
    if n >= 5 {
      Pow2Grows(n);
    } else {
      assert Pow2(1) == 2 && Pow2(2) == 4 && Pow2(3) == 8 && Pow2(4) == 16;
    }
  }

  lemma {:induction false} WaitsInClosedForm(n: nat)
    requires n >= 1
    ensures Waits(n - 1) == EarliestAttempt(n)
  {
    if n == 1 {
      assert Pow2(1) == 2;
    } else {
      WaitsInClosedForm(n - 1);
      if n <= 5 {
        assert Pow2(2) == 4 && Pow2(3) == 8 && Pow2(4) == 16 && Pow2(5) == 32;
      } else {
        BackoffIsMonotone(n - 1, n - 1);
        assert Pow2(5) == 32;
      }
    }
  }

  // ---------------------------------------------------------------- the invariant

  predicate Settling(r: Retrier, row: nat) {
    r.RetSettling? && r.job.id == row
  }

  /** A row that waits is not due before its attempts' delays are over; the loop holds none early. */
  predicate RowOnTime(e: InboxRow, r: Retrier, row: nat, now: int) {
    && (e.status == Pending && !Settling(r, row) ==> e.availableAt >= e.createdAt + Waits(e.attempts))
    && (InHand(r, row) ==> now >= e.createdAt + Waits(e.attempts))
    && (Settling(r, row) ==> e.attempts == r.attempts && r.attempts >= 1
                             && now >= e.createdAt + Waits(r.attempts - 1))
  }

  ghost predicate OnTime(s: State, row: nat) {
    && |s.retriers| == 1
    && Distinct(s.retriers[0])
    && (row < |s.inbox| ==> RowOnTime(s.inbox[row], s.retriers[0], row, s.now))
  }

  lemma ProcessKeepsTime(s: State, rest: seq<Job>, o: Outcome, rule: Rule, row: nat)
    requires OnTime(s, row) && s.retriers[0] == RetBatch(rest) && |rest| > 0
    ensures OnTime(AfterRetryProcess(s, 0, rest[0], rest[1..], o, rule), row)
  {
    HeadAndRest(rest, row);
  }

  lemma CountKeepsTime(s: State, job: Job, rest: seq<Job>, o: Outcome, row: nat)
    requires OnTime(s, row) && s.retriers[0] == RetFailing(job, rest) && job.id < |s.inbox|
    requires job.id == row ==> o != Lost
    ensures OnTime(AfterCount(s, 0, job, rest, o), row)
  {}

  lemma SettleKeepsTime(s: State, job: Job, attempts: nat, rest: seq<Job>, o: Outcome, row: nat)
    requires OnTime(s, row) && s.retriers[0] == RetSettling(job, attempts, rest) && job.id < |s.inbox|
    requires job.id == row ==> o != Refused
    ensures OnTime(AfterRetrySettle(s, 0, job, attempts, rest, o), row)
  {}

  lemma RetrierKeepsTime(s: State, a: RetrierAction, row: nat)
    requires OnTime(s, row) && RetrierNext(s, 0, a).Some? && !StopsOn(s, Retry(0, a), row)
    ensures OnTime(RetrierNext(s, 0, a).value, row)
  {
    match s.retriers[0]
    case RetIdle => BatchIsDistinct(s);
    case RetBatch(rest) => if |rest| > 0 && a.RetProcess? { ProcessKeepsTime(s, rest, a.o, a.rule, row); }
    case RetFailing(job, rest) => if a.RetCount? { CountKeepsTime(s, job, rest, a.o, row); }
    case RetSettling(job, attempts, rest) => if a.RetSettle? { SettleKeepsTime(s, job, attempts, rest, a.o, row); }
    case _ =>
  }

  lemma ReplayerKeepsTime(s: State, w: nat, a: ReplayerAction, row: nat)
    requires OnTime(s, row) && ReplayerNext(s, w, a).Some? && !Replays(s, Replay(w, a), row)
    ensures OnTime(ReplayerNext(s, w, a).value, row)
  {
    ReplayerFrames(s, w, a);
  }

  lemma StepKeepsTime(s: State, step: Step, row: nat)
    requires RetriersOk(s) && RequestsOk(s) && OnTime(s, row) && Next(s, step).Some?
    requires !StopsOn(s, step, row) && !Replays(s, step, row)
    ensures OnTime(Next(s, step).value, row)
  {
    match step
    case Retry(w, a) => RetrierKeepsTime(s, a, row);
    case Replay(w, a) => ReplayerKeepsTime(s, w, a, row);
    case _ =>
      OthersLeaveRows(s, step);
      StepGrows(s, step);
      assert RetrierOk(s.inbox, s.ledger, s.retriers[0]);
  }

  lemma {:induction false} RunKeepsTime(s0: State, steps: seq<Step>, row: nat)
    requires Init(s0) && |s0.retriers| == 1 && Run(s0, steps).Some?
    requires StopsOf(s0, steps, row) == 0 && ReplaysOf(s0, steps, row) == 0
    ensures OnTime(Run(s0, steps).value, row)
  {
    if |steps| > 0 {
      var front := steps[..|steps| - 1];
      RunKeepsTime(s0, front, row);
      InitHasInv(s0);
      RunKeepsInv(s0, front);
      StepKeepsTime(Run(s0, front).value, steps[|steps| - 1], row);
    }
  }

  /** The loop starts an attempt on the row. */
  predicate StartsAttempt(s: State, step: Step, row: nat) {
    && step.Retry? && step.w < |s.retriers| && step.r.RetProcess?
    && s.retriers[step.w].RetBatch? && |s.retriers[step.w].rest| > 0
    && s.retriers[step.w].rest[0].id == row
  }

  lemma AttemptIsOnTime(s: State, step: Step, row: nat)
    requires OnTime(s, row) && StartsAttempt(s, step, row) && row < |s.inbox|
    ensures s.now >= s.inbox[row].createdAt + Waits(s.inbox[row].attempts)
  {
    HeadAndRest(s.retriers[0].rest, row);
  }

  /** In a run with one retry loop, the n-th attempt on a row that was neither replayed nor hit by a
      stop starts no earlier than the schedule's closed form after the row was stored. */
  lemma AttemptsFollowSchedule(s0: State, steps: seq<Step>, step: Step, row: nat, n: nat)
    requires Init(s0) && |s0.retriers| == 1 && Run(s0, steps).Some?
    requires StopsOf(s0, steps, row) == 0 && ReplaysOf(s0, steps, row) == 0
    requires StartsAttempt(Run(s0, steps).value, step, row) && n >= 1
    requires row < |Run(s0, steps).value.inbox| && Run(s0, steps).value.inbox[row].attempts == n - 1
    ensures var s := Run(s0, steps).value; s.now >= s.inbox[row].createdAt + EarliestAttempt(n)
  {
    RunKeepsTime(s0, steps, row);
    AttemptIsOnTime(Run(s0, steps).value, step, row);
    WaitsInClosedForm(n);
  }
}
