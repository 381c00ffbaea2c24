/** Fair schedules of a repaired system: after enough rounds of every worker nothing is left to do. */
module FairDrain {
  import opened Domain
  import opened Pipeline
  import opened Invariants
  import opened RetryBudget
  import opened Fairness
  import opened PublisherFairness
  import opened Drain

  // ---------------------------------------------------------------- rounds

  predicate OutboxDue(s: State) {
    forall i | 0 <= i < |s.outbox| && s.outbox[i].status == OutboxStatus.Waiting :: s.outbox[i].availableAt <= s.now
  }

  predicate InboxDue(s: State) {
    forall i | 0 <= i < |s.inbox| && s.inbox[i].status == Pending :: s.inbox[i].availableAt <= s.now
  }

  /** The publisher has polled when no PENDING row had to wait. */
  predicate OutboxPolled(s: State, steps: seq<Step>) {
    |steps| > 0 &&
    var at := Run(s, steps[..|steps| - 1]);
    || OutboxPolled(s, steps[..|steps| - 1])
    || (steps[|steps| - 1] == Publish(0, PubPoll) && at.Some? && OutboxDue(at.value))
  }

  /** It has finished a pass after such a poll. */
  predicate PassDone(s: State, steps: seq<Step>) {
    |steps| > 0 &&
    (PassDone(s, steps[..|steps| - 1])
     || (steps[|steps| - 1] == Publish(0, PubFinish) && OutboxPolled(s, steps[..|steps| - 1])))
  }

  predicate InboxPolled(s: State, steps: seq<Step>) {
    |steps| > 0 &&
    var at := Run(s, steps[..|steps| - 1]);
    || InboxPolled(s, steps[..|steps| - 1])
    || (steps[|steps| - 1] == Retry(0, RetPoll) && at.Some? && InboxDue(at.value))
  }

  predicate RoundDone(s: State, steps: seq<Step>) {
    |steps| > 0 &&
    (RoundDone(s, steps[..|steps| - 1])
     || (steps[|steps| - 1] == Retry(0, RetFinish) && InboxPolled(s, steps[..|steps| - 1])))
  }

  /** The consumer has committed at the end of the topic. */
  predicate CaughtUp(s: State, steps: seq<Step>) {
    |steps| > 0 &&
    var at := Run(s, steps[..|steps| - 1]);
    || CaughtUp(s, steps[..|steps| - 1])
    || (steps[|steps| - 1] == Consume(0, ConCommit) && at.Some? && at.value.consumers == [ConAt(|at.value.topic|)])
  }

  /** A stretch without faults in which each worker comes around once. */
  predicate Round(s: State, steps: seq<Step>, d: Duplicates) {
    AllFaultFree(s, steps, d) && PassDone(s, steps) && RoundDone(s, steps) && CaughtUp(s, steps)
  }

  // ---------------------------------------------------------------- a round without work

  predicate NoneWaiting(outbox: seq<OutboxRow>) {
    forall i | 0 <= i < |outbox| :: outbox[i].status != OutboxStatus.Waiting
  }

  predicate NonePending(inbox: seq<InboxRow>) {
    forall i | 0 <= i < |inbox| :: inbox[i].status != Pending
  }

  predicate SameTables(s: State, t: State) {
    && t.cfg == s.cfg && t.outbox == s.outbox && t.inbox == s.inbox && t.topic == s.topic
    && t.consumers == s.consumers && Single(t)
  }

  /** A step without work polls, finishes, commits or waits. */
  lemma CalmStep(s: State, step: Step, t: State, d: Duplicates)
    requires Single(s) && Next(s, step) == Some(t) && FaultFree(s, step, d) && !IsWork(step)
    ensures SameTables(s, t)
    ensures t.committed == if step.Consume? && s.consumers[0].ConAt? then s.consumers[0].at else s.committed
  {
    if step.Consume? {
      assert step.w == 0 && s.consumers[0].ConAt?;
    }
  }

  predicate HasJobs(s: State) {
    Single(s) && s.publishers[0].PubBatch? && |s.publishers[0].rest| > 0
  }

  predicate HasRows(s: State) {
    Single(s) && s.retriers[0].RetBatch? && |s.retriers[0].rest| > 0
  }

  lemma PollFindsOutbox(s: State)
    requires Single(s) && BatchesOpen(s.cfg) && OutboxDue(s) && |OutboxBatch(s)| == 0
    ensures NoneWaiting(s.outbox)
  {
    forall i | 0 <= i < |s.outbox| ensures s.outbox[i].status != OutboxStatus.Waiting {
      if s.outbox[i].status == OutboxStatus.Waiting {
        assert DueOutbox(s)[i];
        OldestLeavesOut(DueOutbox(s), s.cfg.publishBatch, i);
      }
    }
  }

  lemma PollFindsInbox(s: State)
    requires Single(s) && BatchesOpen(s.cfg) && InboxDue(s) && |InboxBatch(s)| == 0
    ensures NonePending(s.inbox)
  {
    forall i | 0 <= i < |s.inbox| ensures s.inbox[i].status != Pending {
      if s.inbox[i].status == Pending {
        assert DueInbox(s)[i];
        OldestLeavesOut(DueInbox(s), s.cfg.retryBatch, i);
      }
    }
  }

  lemma CalmPublisher(s: State, step: Step, t: State, d: Duplicates)
    requires Single(s) && BatchesOpen(s.cfg) && Next(s, step) == Some(t) && FaultFree(s, step, d) && !IsWork(step)
    ensures HasJobs(s) ==> HasJobs(t) && step != Publish(0, PubFinish)
    ensures step == Publish(0, PubPoll) && OutboxDue(s) ==> NoneWaiting(s.outbox) || HasJobs(t)
  {
    CalmStep(s, step, t, d);
    if step == Publish(0, PubPoll) && OutboxDue(s) && |OutboxBatch(s)| == 0 {
      PollFindsOutbox(s);
    }
  }

  lemma CalmRetrier(s: State, step: Step, t: State, d: Duplicates)
    requires Single(s) && BatchesOpen(s.cfg) && Next(s, step) == Some(t) && FaultFree(s, step, d) && !IsWork(step)
    ensures HasRows(s) ==> HasRows(t) && step != Retry(0, RetFinish)
    ensures step == Retry(0, RetPoll) && InboxDue(s) ==> NonePending(s.inbox) || HasRows(t)
  {
    CalmStep(s, step, t, d);
    if step == Retry(0, RetPoll) && InboxDue(s) && |InboxBatch(s)| == 0 {
      PollFindsInbox(s);
    }
  }

  lemma {:induction false} CalmRunKeepsTables(s: State, steps: seq<Step>, t: State, d: Duplicates)
    requires Single(s) && Run(s, steps) == Some(t) && AllFaultFree(s, steps, d) && WorkDone(steps) == 0
    ensures SameTables(s, t)
  {
    if |steps| > 0 {
      var at := Run(s, steps[..|steps| - 1]).value;
      CalmRunKeepsTables(s, steps[..|steps| - 1], at, d);
      CalmStep(at, steps[|steps| - 1], t, d);
    }
  }

  /** A batch that a poll found cannot end without work, so a pass that ends found nothing. */
  lemma {:induction false} CalmPassFindsNothing(s: State, steps: seq<Step>, t: State, d: Duplicates)
    requires Single(s) && BatchesOpen(s.cfg) && Run(s, steps) == Some(t) && AllFaultFree(s, steps, d)
             && WorkDone(steps) == 0
    ensures OutboxPolled(s, steps) ==> NoneWaiting(s.outbox) || HasJobs(t)
    ensures PassDone(s, steps) ==> NoneWaiting(s.outbox)
  {
    if |steps| > 0 {
      var front := steps[..|steps| - 1];
      var at := Run(s, front).value;
      CalmPassFindsNothing(s, front, at, d);
      CalmRunKeepsTables(s, front, at, d);
      CalmPublisher(at, steps[|steps| - 1], t, d);
    }
  }

  lemma {:induction false} CalmRoundFindsNothing(s: State, steps: seq<Step>, t: State, d: Duplicates)
    requires Single(s) && BatchesOpen(s.cfg) && Run(s, steps) == Some(t) && AllFaultFree(s, steps, d)
             && WorkDone(steps) == 0
    ensures InboxPolled(s, steps) ==> NonePending(s.inbox) || HasRows(t)
    ensures RoundDone(s, steps) ==> NonePending(s.inbox)
  {
    if |steps| > 0 {
      var front := steps[..|steps| - 1];
      var at := Run(s, front).value;
      CalmRoundFindsNothing(s, front, at, d);
      CalmRunKeepsTables(s, front, at, d);
      CalmRetrier(at, steps[|steps| - 1], t, d);
    }
  }

  lemma {:induction false} CalmCommitStays(s: State, steps: seq<Step>, t: State, d: Duplicates)
    requires Single(s) && Run(s, steps) == Some(t) && AllFaultFree(s, steps, d) && WorkDone(steps) == 0
    requires CaughtUp(s, steps)
    ensures t.consumers == [ConAt(|t.topic|)] && t.committed == |t.topic|
  {
    var front := steps[..|steps| - 1];
    var at := Run(s, front).value;
    CalmRunKeepsTables(s, front, at, d);
    CalmStep(at, steps[|steps| - 1], t, d);
    if CaughtUp(s, front) {
      CalmCommitStays(s, front, at, d);
    }
  }

  /** A round without work finds nothing left to do. */
  lemma CalmRoundIsFinished(s: State, steps: seq<Step>, t: State, d: Duplicates)
    requires Single(s) && BatchesOpen(s.cfg) && Run(s, steps) == Some(t) && Round(s, steps, d) && WorkDone(steps) == 0
    ensures Finished(t)
  {
    CalmRunKeepsTables(s, steps, t, d);
    CalmPassFindsNothing(s, steps, t, d);
    CalmRoundFindsNothing(s, steps, t, d);
    CalmCommitStays(s, steps, t, d);
  }

  // ---------------------------------------------------------------- the end is stable

  lemma PublisherStaysFinished(s: State, a: PublisherAction, d: Duplicates)
    requires PublisherReady(s) && Single(s) && Finished(s) && PublisherNext(s, 0, a).Some?
    requires FaultFree(s, Publish(0, a), d)
    ensures Finished(PublisherNext(s, 0, a).value)
  {
    PublisherFrames(s, 0, a);
    match s.publishers[0]
    case PubBatch(rest) => assert |rest| > 0 ==> Holds(rest, rest[0].id);
    case _ =>
  }

  lemma RetrierStaysFinished(s: State, a: RetrierAction, d: Duplicates)
    requires Single(s) && Finished(s) && RetrierNext(s, 0, a).Some? && FaultFree(s, Retry(0, a), d)
    ensures Finished(RetrierNext(s, 0, a).value)
  {
    RetrierFrames(s, 0, a);
  }

  lemma ConsumerStaysFinished(s: State, a: ConsumerAction, d: Duplicates)
    requires Finished(s) && ConsumerNext(s, 0, a).Some? && FaultFree(s, Consume(0, a), d)
    ensures Finished(ConsumerNext(s, 0, a).value)
  {}

  lemma StepStaysFinished(s: State, gone: set<nat>, step: Step, d: Duplicates)
    requires Ready(s, gone) && Finished(s) && Next(s, step).Some? && FaultFree(s, step, d)
    ensures Finished(Next(s, step).value)
  {
    match step
    case Publish(w, a) => PublisherStaysFinished(s, a, d);
    case Retry(w, a) => RetrierStaysFinished(s, a, d);
    case Consume(w, a) => ConsumerStaysFinished(s, a, d);
    case _ =>
  }

  lemma {:induction false} RunStaysFinished(s: State, gone: set<nat>, steps: seq<Step>, d: Duplicates)
    requires Ready(s, gone) && Finished(s) && Run(s, steps).Some? && AllFaultFree(s, steps, d)
    ensures Finished(Run(s, steps).value)
  {
    if |steps| > 0 {
      var front := steps[..|steps| - 1];
      RunStaysFinished(s, gone, front, d);
      RunStaysReady(s, gone, front, d);
      StepStaysFinished(Run(s, front).value, gone, steps[|steps| - 1], d);
    }
  }

  // ---------------------------------------------------------------- fair runs

  /** A run of rounds, one after the other. */
  predicate FairRun(s: State, rounds: seq<seq<Step>>, t: State, d: Duplicates)
    decreases |rounds|
  {
    if |rounds| == 0 then t == s
    else
      var next := Run(s, rounds[0]);
      next.Some? && Round(s, rounds[0], d) && FairRun(next.value, rounds[1..], t, d)
  }

  /** A round does work, or finds that nothing is left. */
  lemma RoundAdvances(s: State, gone: set<nat>, steps: seq<Step>, t: State, d: Duplicates)
    requires Ready(s, gone) && ConsumerInRange(s) && BatchesOpen(s.cfg) && Run(s, steps) == Some(t)
             && Round(s, steps, d)
    ensures Ready(t, gone) && ConsumerInRange(t) && t.cfg == s.cfg
    ensures Rank(t) < Rank(s) || Finished(t)
    ensures Finished(s) ==> Finished(t)
  {
    RunStaysReady(s, gone, steps, d);
    WorkIsBounded(s, gone, steps, d);
    RunKeepsWorkers(s, steps);
    if Finished(s) {
      RunStaysFinished(s, gone, steps, d);
    } else if WorkDone(steps) == 0 {
      CalmRoundIsFinished(s, steps, t, d);
    }
  }

  /** Whatever the schedule, once a repaired system has run for more rounds than its rank, nothing is left
      to do, and so it stays. */
  lemma {:induction false} FairRunsFinish(s: State, gone: set<nat>, rounds: seq<seq<Step>>, t: State, d: Duplicates)
    requires Ready(s, gone) && ConsumerInRange(s) && BatchesOpen(s.cfg) && FairRun(s, rounds, t, d)
    requires |rounds| > Rank(s) || Finished(s)
    ensures Ready(t, gone) && Finished(t)
    decreases |rounds|
  {
    if |rounds| > 0 {
      var next := Run(s, rounds[0]).value;
      RoundAdvances(s, gone, rounds[0], next, d);
      FairRunsFinish(next, gone, rounds[1..], t, d);
    }
  }

  lemma {:induction false} FaultFreeConcat(s: State, a: seq<Step>, b: seq<Step>, d: Duplicates)
    requires Run(s, a).Some? && AllFaultFree(s, a, d) && AllFaultFree(Run(s, a).value, b, d)
    ensures AllFaultFree(s, a + b, d)
  {
    if |b| == 0 {
      assert a + b == a;
    } else {
      var front := b[..|b| - 1];
      FaultFreeConcat(s, a, front, d);
      RunConcat(s, a, front);
      assert (a + b)[..|a + b| - 1] == a + front;
    }
  }

  /** The rounds of a fair run are one fault-free run. */
  lemma {:induction false} RoundsAreRun(
    s: State, rounds: seq<seq<Step>>, t: State, d: Duplicates) returns (steps: seq<Step>)
    requires FairRun(s, rounds, t, d)
    ensures Run(s, steps) == Some(t) && AllFaultFree(s, steps, d)
    decreases |rounds|
  {
    if |rounds| == 0 {
      steps := [];
    } else {
      var next := Run(s, rounds[0]).value;
      var rest := RoundsAreRun(next, rounds[1..], t, d);
      RunConcat(s, rounds[0], rest);
      FaultFreeConcat(s, rounds[0], rest, d);
      steps := rounds[0] + rest;
    }
  }
}
