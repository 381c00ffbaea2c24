/** No starvation: oldest-first batches reach every row that stays due, although older rows come back
    after their delay. */
module Fairness {
  import opened Domain
  import opened Pipeline
  import opened Invariants
  import opened RetryBudget
  import opened RetrySchedule

  // ---------------------------------------------------------------- sums

  function Total(ws: seq<nat>): nat {
    if |ws| == 0 then 0 else Total(ws[..|ws| - 1]) + ws[|ws| - 1]
  }

  lemma {:induction false} TotalIsMonotone(a: seq<nat>, b: seq<nat>)
    requires |a| == |b| && forall i | 0 <= i < |a| :: a[i] <= b[i]
    ensures Total(a) <= Total(b)
  {
    if |a| > 0 { TotalIsMonotone(a[..|a| - 1], b[..|b| - 1]); }
  }

  /** Taking one from each of k distinct positions takes k from the total. */
  lemma {:induction false} TotalDrops(a: seq<nat>, b: seq<nat>, ids: seq<nat>)
    requires |a| == |b|
    requires forall i, j | 0 <= i < j < |ids| :: ids[i] < ids[j]
    requires forall i | 0 <= i < |ids| :: ids[i] < |a|
    requires forall i | 0 <= i < |a| :: a[i] == b[i] + if i in ids then 1 else 0
    ensures Total(a) == Total(b) + |ids|
  {
    if |a| > 0 {
      var n := |a| - 1;
      if |ids| > 0 && ids[|ids| - 1] == n {
        var front := ids[..|ids| - 1];
        forall i | 0 <= i < n ensures i in front <==> i in ids {
          assert i in ids ==> exists k :: 0 <= k < |ids| && ids[k] == i;
        }
        TotalDrops(a[..n], b[..n], front);
      } else {
        assert forall k | 0 <= k < |ids| :: ids[k] <= ids[|ids| - 1];
        TotalDrops(a[..n], b[..n], ids);
      }
    }
  }

  /** The attempts a row may still take before it leaves the queue. */
  function Left(attempts: nat, cfg: Config): nat {
    if attempts + 1 >= cfg.maxAttempts then 1 else cfg.maxAttempts - attempts
  }

  // ---------------------------------------------------------------- the retry loop

  /** The loop still has to spend an attempt on the row in this round. */
  predicate Owed(r: Retrier, row: nat, cfg: Config) {
    InHand(r, row) || AboutToFail(r, row, cfg)
  }

  function Worth(s: State, row: nat): nat
    requires row < |s.inbox| && |s.retriers| == 1
  {
    if s.inbox[row].status == Pending
    then Left(s.inbox[row].attempts, s.cfg) - if Owed(s.retriers[0], row, s.cfg) then 1 else 0
    else 0
  }

  function Worths(s: State, x: nat): seq<nat>
    requires x <= |s.inbox| && |s.retriers| == 1
  {
    seq(x, i requires 0 <= i < x => Worth(s, i))
  }

  /** The attempts that PENDING rows older than `x` may still take. */
  function AttemptsAhead(s: State, x: nat): nat
    requires x <= |s.inbox|
  {
    Total(LeftAhead(s, x))
  }

  function LeftAhead(s: State, x: nat): seq<nat>
    requires x <= |s.inbox|
  {
    seq(x, i requires 0 <= i < x => if s.inbox[i].status == Pending then Left(s.inbox[i].attempts, s.cfg) else 0)
  }

  /** The loop neither crashes nor leaves a round on a database or broker error, and nobody replays. */
  predicate Smooth(step: Step) {
    && !step.Replay?
    && (step.Retry? ==>
          && step.r != RetCrash
          && (step.r.RetCount? || step.r.RetSettle? || step.r.RetSend? ==> step.r.o == Ok))
  }

  predicate IsPoll(step: Step) {
    step.Retry? && step.r == RetPoll
  }

  predicate ToCome(r: Retrier, row: nat) {
    match r
    case RetIdle => false
    case RetBatch(rest) => Holds(rest, row)
    case RetCredited(_, rest) => Holds(rest, row)
    case RetFailing(_, rest) => Holds(rest, row)
    case RetSettling(_, _, rest) => Holds(rest, row)
    case RetDeadLetter(_, _, rest) => Holds(rest, row)
  }

  lemma RetrierWorth(s: State, a: RetrierAction, i: nat)
    requires |s.retriers| == 1 && Distinct(s.retriers[0]) && i < |s.inbox|
    requires RetrierNext(s, 0, a).Some? && Smooth(Retry(0, a)) && a != RetPoll
    ensures Worth(RetrierNext(s, 0, a).value, i) <= Worth(s, i)
  {
    match s.retriers[0]
    case RetBatch(rest) => if |rest| > 0 { HeadAndRest(rest, i); }
    case _ =>
  }

  lemma OthersWorth(s: State, step: Step, i: nat)
    requires |s.retriers| == 1 && i < |s.inbox| && Next(s, step).Some? && Smooth(step) && !step.Retry?
    ensures |Next(s, step).value.inbox| >= |s.inbox| && Worth(Next(s, step).value, i) <= Worth(s, i)
  {
    OthersLeaveRows(s, step);
  }

  lemma BatchHolds(s: State, i: nat)
    ensures Holds(InboxBatch(s), i) <==> i in Oldest(DueInbox(s), s.cfg.retryBatch)
  {
    var ids := Oldest(DueInbox(s), s.cfg.retryBatch);
    assert |InboxBatch(s)| == |ids| && forall k | 0 <= k < |ids| :: InboxBatch(s)[k].id == ids[k];
  }

  /** A poll that passes over a due row takes a full batch of older ones. */
  lemma PollDrops(s: State, x: nat)
    requires |s.retriers| == 1 && s.retriers[0] == RetIdle && x < |s.inbox|
    requires DueInbox(s)[x] && !Holds(InboxBatch(s), x)
    ensures var t := RetrierNext(s, 0, RetPoll).value;
            Total(Worths(s, x)) == Total(Worths(t, x)) + s.cfg.retryBatch
  {
    var t := RetrierNext(s, 0, RetPoll).value;
    var ids := Oldest(DueInbox(s), s.cfg.retryBatch);
    BatchHolds(s, x);
    OldestLeavesOut(DueInbox(s), s.cfg.retryBatch, x);
    forall i | 0 <= i < x ensures Worths(s, x)[i] == Worths(t, x)[i] + if i in ids then 1 else 0 {
      BatchHolds(s, i);
    }
    TotalDrops(Worths(s, x), Worths(t, x), ids);
  }

  function Polls(steps: seq<Step>): nat {
    if |steps| == 0 then 0 else Polls(steps[..|steps| - 1]) + if IsPoll(steps[|steps| - 1]) then 1 else 0
  }

  function AttemptsOn(s: State, steps: seq<Step>, row: nat): nat {
    if |steps| == 0 then 0
    else
      var at := Run(s, steps[..|steps| - 1]);
      AttemptsOn(s, steps[..|steps| - 1], row)
      + if at.Some? && StartsAttempt(at.value, steps[|steps| - 1], row) then 1 else 0
  }

  /** Every step is smooth and the row is due whenever the loop polls. */
  predicate DueAtPolls(s: State, steps: seq<Step>, x: nat) {
    |steps| == 0 ||
    var at := Run(s, steps[..|steps| - 1]);
    && DueAtPolls(s, steps[..|steps| - 1], x)
    && Smooth(steps[|steps| - 1])
    && (at.Some? && IsPoll(steps[|steps| - 1]) ==> x < |at.value.inbox| && DueInbox(at.value)[x])
  }

  /** The rows that full batches take in a number of polls. */
  function Taken(polls: nat, batch: nat): nat {
    if polls == 0 then 0 else Taken(polls - 1, batch) + batch
  }

  /** Until the row is attempted, either the loop is on its way to it or the polls have used up their
      share of the attempts ahead of it. */
  ghost predicate Waiting(s: State, x: nat, polls: nat, ahead: nat) {
    && |s.retriers| == 1 && Distinct(s.retriers[0]) && x < |s.inbox|
    && (ToCome(s.retriers[0], x) || Taken(polls, s.cfg.retryBatch) + Total(Worths(s, x)) <= ahead)
  }

  lemma WorthsShrink(s: State, step: Step, x: nat)
    requires |s.retriers| == 1 && Distinct(s.retriers[0]) && x < |s.inbox|
    requires Next(s, step).Some? && Smooth(step) && !IsPoll(step)
    ensures var t := Next(s, step).value;
            |t.retriers| == 1 && x < |t.inbox| && Total(Worths(t, x)) <= Total(Worths(s, x))
  {
    var t := Next(s, step).value;
    if step.Retry? {
      RetrierFrames(s, step.w, step.r);
      forall i | 0 <= i < x ensures Worths(t, x)[i] <= Worths(s, x)[i] { RetrierWorth(s, step.r, i); }
    } else {
      OthersLeaveRows(s, step);
      forall i | 0 <= i < x ensures Worths(t, x)[i] <= Worths(s, x)[i] { OthersWorth(s, step, i); }
    }
    TotalIsMonotone(Worths(t, x), Worths(s, x));
  }

  lemma SmoothKeepsDistinct(s: State, step: Step, x: nat)
    requires RetriersOk(s) && |s.retriers| == 1 && Distinct(s.retriers[0]) && x < |s.inbox|
    requires Next(s, step).Some? && Smooth(step) && !StartsAttempt(s, step, x)
    ensures var t := Next(s, step).value;
            && t.cfg == s.cfg && |t.retriers| == 1 && Distinct(t.retriers[0])
            && (ToCome(s.retriers[0], x) ==> ToCome(t.retriers[0], x))
  {
    if step.Retry? {
      RetrierFrames(s, step.w, step.r);
      match s.retriers[0]
      case RetIdle => BatchIsDistinct(s);
      case RetBatch(rest) => if |rest| > 0 { HeadAndRest(rest, x); }
      case _ =>
    } else {
      OthersLeaveRows(s, step);
    }
  }

  lemma StepKeepsWaiting(s: State, step: Step, x: nat, polls: nat, ahead: nat)
    requires RetriersOk(s) && Waiting(s, x, polls, ahead)
    requires Next(s, step).Some? && Smooth(step) && !StartsAttempt(s, step, x)
    requires IsPoll(step) ==> DueInbox(s)[x]
    ensures Waiting(Next(s, step).value, x, polls + if IsPoll(step) then 1 else 0, ahead)
    ensures Next(s, step).value.cfg == s.cfg
  {
    SmoothKeepsDistinct(s, step, x);
    if !IsPoll(step) {
      WorthsShrink(s, step, x);
    } else if !Holds(InboxBatch(s), x) {
      PollDrops(s, x);
    }
  }

  lemma IdleIsWaiting(s: State, x: nat)
    requires s.retriers == [RetIdle] && x < |s.inbox|
    ensures Waiting(s, x, 0, AttemptsAhead(s, x))
  {
    assert Worths(s, x) == LeftAhead(s, x);
  }

  /** What such a run says about its last step and the run before it. */
  lemma LastOfWaiting(s: State, front: seq<Step>, last: Step, x: nat)
    requires Run(s, front + [last]).Some? && DueAtPolls(s, front + [last], x) && AttemptsOn(s, front + [last], x) == 0
    ensures Run(s, front).Some? && Next(Run(s, front).value, last) == Run(s, front + [last])
    ensures DueAtPolls(s, front, x) && AttemptsOn(s, front, x) == 0
    ensures Smooth(last) && !StartsAttempt(Run(s, front).value, last, x)
    ensures IsPoll(last) ==> x < |Run(s, front).value.inbox| && DueInbox(Run(s, front).value)[x]
  {
    assert (front + [last])[..|front|] == front;
  }

  lemma NextIsWaiting(front: seq<Step>, at: State, last: Step, x: nat, ahead: nat)
    requires RetriersOk(at) && Waiting(at, x, Polls(front), ahead)
    requires Next(at, last).Some? && Smooth(last) && !StartsAttempt(at, last, x)
    requires IsPoll(last) ==> x < |at.inbox| && DueInbox(at)[x]
    ensures Waiting(Next(at, last).value, x, Polls(front + [last]), ahead) && Next(at, last).value.cfg == at.cfg
  {
    assert (front + [last])[..|front|] == front;
    StepKeepsWaiting(at, last, x, Polls(front), ahead);
  }

  lemma {:induction false} RunKeepsWaiting(s: State, steps: seq<Step>, t: State, x: nat, ahead: nat)
    requires Inv(s) && Waiting(s, x, 0, ahead)
    requires Run(s, steps) == Some(t) && DueAtPolls(s, steps, x) && AttemptsOn(s, steps, x) == 0
    ensures Waiting(t, x, Polls(steps), ahead) && t.cfg == s.cfg
  {
    if |steps| > 0 {
      var front, last := steps[..|steps| - 1], steps[|steps| - 1];
      assert steps == front + [last];
      LastOfWaiting(s, front, last, x);
      RunKeepsWaiting(s, front, Run(s, front).value, x, ahead);
      RunKeepsInv(s, front);
      NextIsWaiting(front, Run(s, front).value, last, x, ahead);
    }
  }

  lemma {:induction false} TakenIsProduct(polls: nat, batch: nat)
    ensures Taken(polls, batch) == batch * polls
  {
    if polls > 0 { TakenIsProduct(polls - 1, batch); }
  }

  lemma RoundsExceed(b: nat, m: nat, p: nat)
    requires b > 0 && m >= p / b + 1
    ensures Taken(m, b) > p
  {
    TakenIsProduct(m, b);
    assert b * m >= b * (p / b + 1);
  }

  /** With one retry loop and no replay, a row that is due at every poll is attempted once the loop has
      completed more than (attempts ahead) / (batch size) rounds, whatever the consumers do. */
  lemma NoStarvation(s: State, steps: seq<Step>, x: nat)
    requires Inv(s) && s.retriers == [RetIdle] && x < |s.inbox| && s.cfg.retryBatch > 0
    requires Run(s, steps).Some? && Run(s, steps).value.retriers == [RetIdle] && DueAtPolls(s, steps, x)
    requires Polls(steps) >= AttemptsAhead(s, x) / s.cfg.retryBatch + 1
    ensures AttemptsOn(s, steps, x) > 0
  {
    RoundsExceed(s.cfg.retryBatch, Polls(steps), AttemptsAhead(s, x));
    if AttemptsOn(s, steps, x) == 0 {
      IdleIsWaiting(s, x);
      RunKeepsWaiting(s, steps, Run(s, steps).value, x, AttemptsAhead(s, x));
    }
  }
}
