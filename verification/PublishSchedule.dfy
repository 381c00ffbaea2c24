/** When an outbox row's claims can happen: the delays the publisher adds up over a run. */
module PublishSchedule {
  import opened Domain
  import opened Pipeline
  import opened Invariants
  import opened RetryBudget
  import opened RetrySchedule
  import opened PublisherFairness

  /** The publisher stops between claiming the row and recording what follows from it. */
  predicate PublishStopsOn(s: State, step: Step, row: nat) {
    && step.Publish? && step.w < |s.publishers| && Working(s.publishers[step.w], row)
    && (step.p == PubCrash || (step.p.PubRefresh? && step.p.o != Ok) || step.p == PubSettle(Refused))
  }

  /** The replay tool resets the row. */
  predicate ReplaysOutbox(s: State, step: Step, row: nat) {
    && step.Replay? && step.w < |s.replayers| && step.y.RepReset? && step.y.o != Refused
    && s.replayers[step.w].RepOutbox?
    && |s.replayers[step.w].rows| > 0 && s.replayers[step.w].rows[0].id == row
  }

  predicate Disturbs(s: State, step: Step, row: nat) {
    PublishStopsOn(s, step, row) || ReplaysOutbox(s, step, row)
  }

  predicate Calm(s: State, steps: seq<Step>, row: nat) {
    |steps| == 0 ||
    var at := Run(s, steps[..|steps| - 1]);
    && Calm(s, steps[..|steps| - 1], row)
    && (at.Some? ==> !Disturbs(at.value, steps[|steps| - 1], row))
  }

  // ---------------------------------------------------------------- the invariant

  ghost predicate DistinctRows(p: Publisher) {
    match p
    case PubIdle => true
    case PubBatch(rest) => DistinctJobs(rest)
    case PubClaimed(job, rest) => DistinctJobs(rest) && !Holds(rest, job.id)
    case PubSent(job, rest) => DistinctJobs(rest) && !Holds(rest, job.id)
    case PubFailing(job, rest) => DistinctJobs(rest) && !Holds(rest, job.id)
    case PubSettling(job, _, rest) => DistinctJobs(rest) && !Holds(rest, job.id)
  }

  function Before(attempts: nat): nat {
    if attempts == 0 then 0 else attempts - 1
  }

  /** A row that waits is not due before its attempts' delays are over; the publisher holds none early. */
  predicate RowInTime(e: OutboxRow, p: Publisher, row: nat, now: int) {
    && (e.status == OutboxStatus.Waiting && !Working(p, row) ==> e.availableAt >= e.createdAt + Waits(e.attempts))
    && (Ahead(p, row) ==> now >= e.createdAt + Waits(e.attempts))
    && (Working(p, row) ==> now >= e.createdAt + Waits(Before(e.attempts)))
    && (p.PubSettling? && p.job.id == row ==> p.attempts == e.attempts)
  }

  ghost predicate InTime(s: State, row: nat) {
    && |s.publishers| == 1
    && DistinctRows(s.publishers[0])
    && (row < |s.outbox| ==> RowInTime(s.outbox[row], s.publishers[0], row, s.now))
  }

  lemma PolledInTime(s: State, row: nat)
    requires InTime(s, row) && s.publishers[0] == PubIdle
    ensures DistinctJobs(OutboxBatch(s))
    ensures row < |s.outbox| && Holds(OutboxBatch(s), row) ==>
            s.now >= s.outbox[row].createdAt + Waits(s.outbox[row].attempts)
  {
    OutboxBatchIsQueue(s);
    var ids := Oldest(DueOutbox(s), s.cfg.publishBatch);
    assert forall i | 0 <= i < |ids| :: OutboxBatch(s)[i].id == ids[i] && DueOutbox(s)[ids[i]];
  }

  lemma ClaimKeepsTime(s: State, rest: seq<Job>, o: Outcome, row: nat)
    requires InTime(s, row) && s.publishers[0] == PubBatch(rest) && |rest| > 0 && rest[0].id < |s.outbox|
    ensures InTime(AfterClaim(s, 0, rest[0], rest[1..], o), row)
  {
    HeadAndRest(rest, row);
  }

  lemma SettleKeepsTime(s: State, job: Job, attempts: nat, rest: seq<Job>, o: Outcome, row: nat)
    requires InTime(s, row) && s.publishers[0] == PubSettling(job, attempts, rest) && job.id < |s.outbox|
    requires o != Refused
    ensures InTime(AfterPublishSettle(s, 0, job, attempts, rest, o), row)
  {}

  lemma PublisherKeepsTime(s: State, a: PublisherAction, row: nat)
    requires InTime(s, row) && PublisherNext(s, 0, a).Some? && !PublishStopsOn(s, Publish(0, a), row)
    ensures InTime(PublisherNext(s, 0, a).value, row)
  {
    match s.publishers[0]
    case PubIdle => PolledInTime(s, row);
    case PubBatch(rest) => if |rest| > 0 && a.PubClaim? { ClaimKeepsTime(s, rest, a.o, row); }
    case PubSettling(job, attempts, rest) =>
      if job.id == row && a.PubSettle? { SettleKeepsTime(s, job, attempts, rest, a.o, row); }
    case _ =>
  }

  lemma ReplayerKeepsTime(s: State, w: nat, a: ReplayerAction, row: nat)
    requires InTime(s, row) && ReplayerNext(s, w, a).Some? && !ReplaysOutbox(s, Replay(w, a), row)
    ensures InTime(ReplayerNext(s, w, a).value, row)
  {
    ReplayerFrames(s, w, a);
  }

  /** The others leave the publisher alone, append new rows, and time passes. */
  lemma OthersKeepTime(s: State, step: Step, row: nat)
    requires PublishersOk(s) && InTime(s, row) && Next(s, step).Some? && !step.Publish? && !ReplaysOutbox(s, step, row)
    ensures InTime(Next(s, step).value, row)
  {
    match step
    case Retry(w, a) => RetrierFrames(s, w, a);
    case Consume(w, a) => ConsumerFrames(s, w, a);
    case Replay(w, a) => ReplayerKeepsTime(s, w, a, row);
    case Confirm(w, a) => assert PublisherOk(s.outbox, s.topic, s.publishers[0]);
    case _ =>
  }

  lemma StepKeepsInTime(s: State, step: Step, row: nat)
    requires PublishersOk(s) && InTime(s, row) && Next(s, step).Some? && !Disturbs(s, step, row)
    ensures InTime(Next(s, step).value, row)
  {
    if step.Publish? {
      assert step.w == 0;
      PublisherKeepsTime(s, step.p, row);
    } else {
      OthersKeepTime(s, step, row);
    }
  }

  lemma {:induction false} RunKeepsInTime(s0: State, steps: seq<Step>, row: nat)
    requires Init(s0) && |s0.publishers| == 1 && Run(s0, steps).Some? && Calm(s0, steps, row)
    ensures InTime(Run(s0, steps).value, row)
  {
    if |steps| > 0 {
      var front, last := steps[..|steps| - 1], steps[|steps| - 1];
      RunKeepsInTime(s0, front, row);
      InitHasInv(s0);
      RunKeepsInv(s0, front);
      StepKeepsInTime(Run(s0, front).value, last, row);
    }
  }

  lemma ClaimIsInTime(s: State, step: Step, row: nat)
    requires InTime(s, row) && StartsPublish(s, step, row) && row < |s.outbox|
    ensures s.now >= s.outbox[row].createdAt + Waits(s.outbox[row].attempts)
  {
    HeadAndRest(s.publishers[0].rest, row);
  }

  /** In a run with one publisher, the n-th claim of a row that was neither replayed nor hit by a stop comes
      no earlier than the schedule's closed form after the row was written. */
  lemma ClaimsFollowSchedule(s0: State, steps: seq<Step>, step: Step, row: nat, n: nat)
    requires Init(s0) && |s0.publishers| == 1 && Run(s0, steps).Some? && Calm(s0, steps, row)
    requires StartsPublish(Run(s0, steps).value, step, row) && n >= 1
    requires row < |Run(s0, steps).value.outbox| && Run(s0, steps).value.outbox[row].attempts == n - 1
    ensures var s := Run(s0, steps).value; s.now >= s.outbox[row].createdAt + EarliestAttempt(n)
  {
    RunKeepsInTime(s0, steps, row);
    ClaimIsInTime(Run(s0, steps).value, step, row);
    WaitsInClosedForm(n);
  }
}
