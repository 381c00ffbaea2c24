/** No starvation in the outbox: the same bound as for the inbox, for one publisher. */
module PublisherFairness {
  import opened Domain
  import opened Pipeline
  import opened Invariants
  import opened RetryBudget
  import opened Fairness

  /** The row the publisher is working on after its claim. */
  predicate Working(p: Publisher, row: nat) {
    && (p.PubClaimed? || p.PubSent? || p.PubFailing? || p.PubSettling?)
    && p.job.id == row
  }

  predicate Ahead(p: Publisher, row: nat) {
    match p
    case PubIdle => false
    case PubBatch(rest) => Holds(rest, row)
    case PubClaimed(_, rest) => Holds(rest, row)
    case PubSent(_, rest) => Holds(rest, row)
    case PubFailing(_, rest) => Holds(rest, row)
    case PubSettling(_, _, rest) => Holds(rest, row)
  }

  /** The row may come back to the queue: it is PENDING, or it failed and has yet to be settled. */
  predicate Live(s: State, p: Publisher, row: nat)
    requires row < |s.outbox|
  {
    || s.outbox[row].status == OutboxStatus.Waiting
    || ((p.PubFailing? || p.PubSettling?) && p.job.id == row)
  }

  predicate SpendsOn(s: State, p: Publisher, row: nat)
    requires row < |s.outbox|
  {
    Ahead(p, row) || (Working(p, row) && s.outbox[row].attempts >= s.cfg.maxAttempts)
  }

  function RowWorth(s: State, row: nat): nat
    requires row < |s.outbox| && |s.publishers| == 1
  {
    if Live(s, s.publishers[0], row)
    then Left(s.outbox[row].attempts, s.cfg) - if SpendsOn(s, s.publishers[0], row) then 1 else 0
    else 0
  }

  function RowWorths(s: State, x: nat): seq<nat>
    requires x <= |s.outbox| && |s.publishers| == 1
  {
    seq(x, i requires 0 <= i < x => RowWorth(s, i))
  }

  function LeftInOutbox(s: State, x: nat): seq<nat>
    requires x <= |s.outbox|
  {
    seq(x, i requires 0 <= i < x =>
      if s.outbox[i].status == OutboxStatus.Waiting then Left(s.outbox[i].attempts, s.cfg) else 0)
  }

  /** The attempts that PENDING rows older than `x` may still take. */
  function PublishesAhead(s: State, x: nat): nat
    requires x <= |s.outbox|
  {
    Total(LeftInOutbox(s, x))
  }

  ghost predicate Queue(s: State, rest: seq<Job>) {
    && DistinctJobs(rest)
    && forall i | 0 <= i < |rest| :: IsPending(s, rest[i].id)
  }

  predicate IsPending(s: State, row: nat) {
    row < |s.outbox| && s.outbox[row].status == OutboxStatus.Waiting
  }

  /** The rows still to come are distinct and PENDING; the attempts to settle by are those of the row. */
  ghost predicate Orderly(s: State) {
    && |s.publishers| == 1
    && match s.publishers[0]
       case PubIdle => true
       case PubBatch(rest) => Queue(s, rest)
       case PubClaimed(job, rest) => Queue(s, rest) && !Holds(rest, job.id) && IsPending(s, job.id)
       case PubSent(job, rest) => Queue(s, rest) && !Holds(rest, job.id) && IsPending(s, job.id)
       case PubFailing(job, rest) => Queue(s, rest) && !Holds(rest, job.id)
       case PubSettling(job, attempts, rest) =>
         Queue(s, rest) && !Holds(rest, job.id)
         && job.id < |s.outbox| && attempts == s.outbox[job.id].attempts
  }

  /** Rounds are not cut short, a claim is not refused before it is counted, and nobody replays. Sends
      and marks may fail in any way. */
  predicate Steady(step: Step) {
    && !step.Replay?
    && (step.Publish? ==>
          && step.p != PubCrash
          && (step.p.PubClaim? ==> step.p.o != Refused)
          && (step.p.PubRefresh? || step.p.PubSettle? ==> step.p.o == Ok))
  }

  predicate IsPublisherPoll(step: Step) {
    step.Publish? && step.p == PubPoll
  }

  lemma OutboxBatchIsQueue(s: State)
    ensures Queue(s, OutboxBatch(s))
  {
    var ids := Oldest(DueOutbox(s), s.cfg.publishBatch);
    assert forall i | 0 <= i < |ids| :: OutboxBatch(s)[i].id == ids[i];
  }

  lemma PublisherKeepsOrder(s: State, a: PublisherAction)
    requires Orderly(s) && PublisherNext(s, 0, a).Some? && Steady(Publish(0, a))
    ensures Orderly(PublisherNext(s, 0, a).value)
  {
    match s.publishers[0]
    case PubIdle => OutboxBatchIsQueue(s);
    case PubBatch(rest) => if |rest| > 0 { HeadAndRest(rest, rest[0].id); }
    case _ =>
  }

  lemma PublisherWorth(s: State, a: PublisherAction, i: nat)
    requires Orderly(s) && i < |s.outbox|
    requires PublisherNext(s, 0, a).Some? && Steady(Publish(0, a)) && a != PubPoll
    ensures RowWorth(PublisherNext(s, 0, a).value, i) <= RowWorth(s, i)
  {
    match s.publishers[0]
    case PubBatch(rest) => if |rest| > 0 { HeadAndRest(rest, i); }
    case _ =>
  }

  /** The others only append outbox rows. */
  lemma OthersLeaveOutbox(s: State, step: Step)
    requires Next(s, step).Some? && Steady(step) && !step.Publish?
    ensures Next(s, step).value.publishers == s.publishers && Next(s, step).value.cfg == s.cfg
    ensures s.outbox <= Next(s, step).value.outbox
  {
    match step
    case Retry(w, a) => RetrierFrames(s, w, a);
    case Consume(w, a) => ConsumerFrames(s, w, a);
    case _ =>
  }

  lemma OutboxBatchHolds(s: State, i: nat)
    ensures Holds(OutboxBatch(s), i) <==> i in Oldest(DueOutbox(s), s.cfg.publishBatch)
  {
    var ids := Oldest(DueOutbox(s), s.cfg.publishBatch);
    assert |OutboxBatch(s)| == |ids| && forall k | 0 <= k < |ids| :: OutboxBatch(s)[k].id == ids[k];
  }

  lemma PublisherPollDrops(s: State, x: nat)
    requires s.publishers == [PubIdle] && x < |s.outbox|
    requires DueOutbox(s)[x] && !Holds(OutboxBatch(s), x)
    ensures var t := PublisherNext(s, 0, PubPoll).value;
            Total(RowWorths(s, x)) == Total(RowWorths(t, x)) + s.cfg.publishBatch
  {
    var t := PublisherNext(s, 0, PubPoll).value;
    var ids := Oldest(DueOutbox(s), s.cfg.publishBatch);
    OutboxBatchHolds(s, x);
    OldestLeavesOut(DueOutbox(s), s.cfg.publishBatch, x);
    forall i | 0 <= i < x ensures RowWorths(s, x)[i] == RowWorths(t, x)[i] + if i in ids then 1 else 0 {
      OutboxBatchHolds(s, i);
    }
    TotalDrops(RowWorths(s, x), RowWorths(t, x), ids);
  }

  function PublisherPolls(steps: seq<Step>): nat {
    if |steps| == 0 then 0
    else PublisherPolls(steps[..|steps| - 1]) + if IsPublisherPoll(steps[|steps| - 1]) then 1 else 0
  }

  /** The publisher claims the row. */
  predicate StartsPublish(s: State, step: Step, row: nat) {
    && step.Publish? && step.w < |s.publishers| && step.p.PubClaim?
    && s.publishers[step.w].PubBatch? && |s.publishers[step.w].rest| > 0
    && s.publishers[step.w].rest[0].id == row
  }

  function ClaimsOn(s: State, steps: seq<Step>, row: nat): nat {
    if |steps| == 0 then 0
    else
      var at := Run(s, steps[..|steps| - 1]);
      ClaimsOn(s, steps[..|steps| - 1], row)
      + if at.Some? && StartsPublish(at.value, steps[|steps| - 1], row) then 1 else 0
  }

  predicate DueAtPublisherPolls(s: State, steps: seq<Step>, x: nat) {
    |steps| == 0 ||
    var at := Run(s, steps[..|steps| - 1]);
    && DueAtPublisherPolls(s, steps[..|steps| - 1], x)
    && Steady(steps[|steps| - 1])
    && (at.Some? && IsPublisherPoll(steps[|steps| - 1]) ==> x < |at.value.outbox| && DueOutbox(at.value)[x])
  }

  ghost predicate Queued(s: State, x: nat, polls: nat, ahead: nat) {
    && Orderly(s) && x < |s.outbox|
    && (Ahead(s.publishers[0], x) || Taken(polls, s.cfg.publishBatch) + Total(RowWorths(s, x)) <= ahead)
  }

  lemma RowWorthsShrink(s: State, step: Step, x: nat)
    requires Orderly(s) && x < |s.outbox|
    requires Next(s, step).Some? && Steady(step) && !IsPublisherPoll(step)
    ensures var t := Next(s, step).value;
            |t.publishers| == 1 && x < |t.outbox| && Total(RowWorths(t, x)) <= Total(RowWorths(s, x))
  {
    var t := Next(s, step).value;
    if step.Publish? {
      PublisherFrames(s, step.w, step.p);
      forall i | 0 <= i < x ensures RowWorths(t, x)[i] <= RowWorths(s, x)[i] { PublisherWorth(s, step.p, i); }
    } else {
      OthersLeaveOutbox(s, step);
      assert forall i | 0 <= i < x :: t.outbox[i] == s.outbox[i];
    }
    TotalIsMonotone(RowWorths(t, x), RowWorths(s, x));
  }

  lemma SteadyKeepsOrder(s: State, step: Step, x: nat)
    requires Orderly(s) && x < |s.outbox|
    requires Next(s, step).Some? && Steady(step) && !StartsPublish(s, step, x)
    ensures Orderly(Next(s, step).value)
    ensures Ahead(s.publishers[0], x) ==> Ahead(Next(s, step).value.publishers[0], x)
  {
    if step.Publish? {
      PublisherKeepsOrder(s, step.p);
      match s.publishers[0]
      case PubBatch(rest) => if |rest| > 0 { HeadAndRest(rest, x); }
      case _ =>
    } else {
      OthersLeaveOutbox(s, step);
    }
  }

  lemma StepKeepsQueued(s: State, step: Step, x: nat, polls: nat, ahead: nat)
    requires Queued(s, x, polls, ahead)
    requires Next(s, step).Some? && Steady(step) && !StartsPublish(s, step, x)
    requires IsPublisherPoll(step) ==> DueOutbox(s)[x]
    ensures Queued(Next(s, step).value, x, polls + if IsPublisherPoll(step) then 1 else 0, ahead)
    ensures Next(s, step).value.cfg == s.cfg
  {
    SteadyKeepsOrder(s, step, x);
    if !IsPublisherPoll(step) {
      RowWorthsShrink(s, step, x);
      if step.Publish? { PublisherFrames(s, step.w, step.p); } else { OthersLeaveOutbox(s, step); }
    } else if !Holds(OutboxBatch(s), x) {
      PublisherPollDrops(s, x);
    }
  }

  lemma IdleIsQueued(s: State, x: nat)
    requires s.publishers == [PubIdle] && x < |s.outbox|
    ensures Queued(s, x, 0, PublishesAhead(s, x))
  {
    assert RowWorths(s, x) == LeftInOutbox(s, x);
  }

  /** What such a run says about its last step and the run before it. */
  lemma LastOfQueued(s: State, front: seq<Step>, last: Step, x: nat)
    requires Run(s, front + [last]).Some? && DueAtPublisherPolls(s, front + [last], x)
             && ClaimsOn(s, front + [last], x) == 0
    ensures Run(s, front).Some? && Next(Run(s, front).value, last) == Run(s, front + [last])
    ensures DueAtPublisherPolls(s, front, x) && ClaimsOn(s, front, x) == 0
    ensures Steady(last) && !StartsPublish(Run(s, front).value, last, x)
    ensures IsPublisherPoll(last) ==> x < |Run(s, front).value.outbox| && DueOutbox(Run(s, front).value)[x]
  {
    assert (front + [last])[..|front|] == front;
  }

  lemma NextIsQueued(front: seq<Step>, at: State, last: Step, x: nat, ahead: nat)
    requires Queued(at, x, PublisherPolls(front), ahead)
    requires Next(at, last).Some? && Steady(last) && !StartsPublish(at, last, x)
    requires IsPublisherPoll(last) ==> x < |at.outbox| && DueOutbox(at)[x]
    ensures Queued(Next(at, last).value, x, PublisherPolls(front + [last]), ahead) && Next(at, last).value.cfg == at.cfg
  {
    assert (front + [last])[..|front|] == front;
    StepKeepsQueued(at, last, x, PublisherPolls(front), ahead);
  }

  lemma {:induction false} RunKeepsQueued(s: State, steps: seq<Step>, x: nat, ahead: nat)
    requires Queued(s, x, 0, ahead)
    requires Run(s, steps).Some? && DueAtPublisherPolls(s, steps, x) && ClaimsOn(s, steps, x) == 0
    ensures Queued(Run(s, steps).value, x, PublisherPolls(steps), ahead)
    ensures Run(s, steps).value.cfg == s.cfg
  {
    if |steps| > 0 {
      var front, last := steps[..|steps| - 1], steps[|steps| - 1];
      assert steps == front + [last];
      LastOfQueued(s, front, last, x);
      RunKeepsQueued(s, front, x, ahead);
      NextIsQueued(front, Run(s, front).value, last, x, ahead);
    }
  }

  /** With one publisher and no replay, an outbox row that is due at every poll is claimed once the
      publisher has completed more than (attempts ahead) / (batch size) rounds, even if sends fail. */
  lemma NoOutboxStarvation(s: State, steps: seq<Step>, x: nat)
    requires s.publishers == [PubIdle] && x < |s.outbox| && s.cfg.publishBatch > 0
    requires Run(s, steps).Some? && Run(s, steps).value.publishers == [PubIdle]
    requires DueAtPublisherPolls(s, steps, x)
    requires PublisherPolls(steps) >= PublishesAhead(s, x) / s.cfg.publishBatch + 1
    ensures ClaimsOn(s, steps, x) > 0
  {
    RoundsExceed(s.cfg.publishBatch, PublisherPolls(steps), PublishesAhead(s, x));
    if ClaimsOn(s, steps, x) == 0 {
      IdleIsQueued(s, x);
      RunKeepsQueued(s, steps, x, PublishesAhead(s, x));
    }
  }
}
