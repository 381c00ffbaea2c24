/** The attempt budget of an inbox row over whole runs: what further loops, stops and replays can add to it. */
module RetryBudget {
  import opened Domain
  import opened Pipeline
  import opened Invariants

  // ---------------------------------------------------------------- counting over a run

  /** The loop stops between counting an attempt on the row and recording what follows from it. */
  predicate StopsOn(s: State, step: Step, row: nat) {
    && step.Retry? && step.w < |s.retriers|
    && var r := s.retriers[step.w];
    || (r.RetSettling? && r.job.id == row && (step.r == RetCrash || step.r == RetSettle(Refused)))
    || (r.RetFailing? && r.job.id == row && step.r == RetCount(Lost))
  }

  /** The replay tool resets the row. */
  predicate Replays(s: State, step: Step, row: nat) {
    && step.Replay? && step.w < |s.replayers| && step.y.RepReset? && step.y.o != Refused
    && s.replayers[step.w].RepInbox?
    && |s.replayers[step.w].rows| > 0 && s.replayers[step.w].rows[0].id == row
  }

  function StopsOf(s: State, steps: seq<Step>, row: nat): nat {
    if |steps| == 0 then 0
    else
      var at := Run(s, steps[..|steps| - 1]);
      StopsOf(s, steps[..|steps| - 1], row)
      + if at.Some? && StopsOn(at.value, steps[|steps| - 1], row) then 1 else 0
  }

  /** The number of resets of the row by the replay tool. */
  function ReplaysOf(s: State, steps: seq<Step>, row: nat): nat {
    if |steps| == 0 then 0
    else
      var at := Run(s, steps[..|steps| - 1]);
      ReplaysOf(s, steps[..|steps| - 1], row)
      + if at.Some? && Replays(at.value, steps[|steps| - 1], row) then 1 else 0
  }

  /** What the replays of the row allow: one FAILED write for each loop. */
  function Allowance(s: State, steps: seq<Step>, row: nat): nat {
    if |steps| == 0 then 0
    else
      var at := Run(s, steps[..|steps| - 1]);
      Allowance(s, steps[..|steps| - 1], row)
      + if at.Some? && Replays(at.value, steps[|steps| - 1], row) then |s.retriers| else 0
  }

  lemma OneMoreFactor(n: nat, k: nat)
    ensures n * (k + 1) == n * k + n
  {}

  lemma {:induction false} AllowanceIsProduct(s: State, steps: seq<Step>, row: nat)
    ensures Allowance(s, steps, row) == |s.retriers| * ReplaysOf(s, steps, row)
  {
    if |steps| > 0 {
      AllowanceIsProduct(s, steps[..|steps| - 1], row);
      OneMoreFactor(|s.retriers|, ReplaysOf(s, steps[..|steps| - 1], row));
    }
  }

  function Budget(cfg: Config): nat {
    if cfg.maxAttempts == 0 then 1 else cfg.maxAttempts
  }

  // ---------------------------------------------------------------- what a loop holds

  predicate Holds(jobs: seq<Job>, row: nat) {
    exists i | 0 <= i < |jobs| :: jobs[i].id == row
  }

  /** The loop will count one more attempt on the row in this round. */
  predicate InHand(r: Retrier, row: nat) {
    match r
    case RetIdle => false
    case RetBatch(rest) => Holds(rest, row)
    case RetCredited(job, rest) => job.id == row || Holds(rest, row)
    case RetFailing(job, rest) => job.id == row || Holds(rest, row)
    case RetSettling(_, _, rest) => Holds(rest, row)
    case RetDeadLetter(_, _, rest) => Holds(rest, row)
  }

  ghost predicate DistinctJobs(jobs: seq<Job>) {
    forall i, j | 0 <= i < j < |jobs| :: jobs[i].id != jobs[j].id
  }

  /** The rows of a batch are distinct, and the current one is not among those still to come. */
  ghost predicate Distinct(r: Retrier) {
    match r
    case RetIdle => true
    case RetBatch(rest) => DistinctJobs(rest)
    case RetCredited(job, rest) => DistinctJobs(rest) && !Holds(rest, job.id)
    case RetFailing(job, rest) => DistinctJobs(rest) && !Holds(rest, job.id)
    case RetSettling(job, _, rest) => DistinctJobs(rest) && !Holds(rest, job.id)
    case RetDeadLetter(job, _, rest) => DistinctJobs(rest) && !Holds(rest, job.id)
  }

  predicate AboutToFail(r: Retrier, row: nat, cfg: Config) {
    r.RetSettling? && r.job.id == row && r.attempts >= cfg.maxAttempts
  }

  // ---------------------------------------------------------------- rows are held once

  lemma BatchIsDistinct(s: State)
    ensures DistinctJobs(InboxBatch(s))
    ensures forall row: nat | Holds(InboxBatch(s), row) :: row < |s.inbox| && s.inbox[row].status == Pending
                                                           && s.inbox[row].availableAt <= s.now
  {
    var ids := Oldest(DueInbox(s), s.cfg.retryBatch);
    assert forall i | 0 <= i < |ids| :: InboxBatch(s)[i].id == ids[i];
  }

  lemma HeadAndRest(jobs: seq<Job>, row: nat)
    requires |jobs| > 0
    ensures Holds(jobs, row) <==> jobs[0].id == row || Holds(jobs[1..], row)
    ensures DistinctJobs(jobs) ==> DistinctJobs(jobs[1..]) && !Holds(jobs[1..], jobs[0].id)
  {
    if Holds(jobs, row) && jobs[0].id != row {
      var i :| 0 <= i < |jobs| && jobs[i].id == row;
      assert jobs[1..][i - 1].id == row;
    }
  }

  /** No loop holds a row twice. */
  ghost predicate AllDistinct(s: State) {
    forall w | 0 <= w < |s.retriers| :: Distinct(s.retriers[w])
  }

  lemma RetrierKeepsDistinct(s: State, w: nat, a: RetrierAction)
    requires AllDistinct(s) && RetrierNext(s, w, a).Some?
    ensures AllDistinct(RetrierNext(s, w, a).value)
  {
    var t := RetrierNext(s, w, a).value;
    RetrierFrames(s, w, a);
    match s.retriers[w]
    case RetIdle => BatchIsDistinct(s);
    case RetBatch(rest) => if |rest| > 0 { HeadAndRest(rest, rest[0].id); }
    case _ =>
  }

  lemma OthersLeaveRetriers(s: State, step: Step)
    requires Next(s, step).Some? && !step.Retry?
    ensures Next(s, step).value.retriers == s.retriers && Next(s, step).value.cfg == s.cfg
  {
    match step
    case Publish(w, a) => PublisherFrames(s, w, a);
    case Consume(w, a) => ConsumerFrames(s, w, a);
    case Replay(w, a) => ReplayerFrames(s, w, a);
    case _ =>
  }

  lemma {:induction false} RunKeepsAllDistinct(s: State, steps: seq<Step>)
    requires AllDistinct(s) && Run(s, steps).Some?
    ensures AllDistinct(Run(s, steps).value)
  {
    if |steps| > 0 {
      var front, last := steps[..|steps| - 1], steps[|steps| - 1];
      RunKeepsAllDistinct(s, front);
      if last.Retry? {
        RetrierKeepsDistinct(Run(s, front).value, last.w, last.r);
      } else {
        OthersLeaveRetriers(Run(s, front).value, last);
      }
    }
  }

  /** No other process makes a row PENDING or touches its attempts, except to create it. */
  lemma OthersLeaveRows(s: State, step: Step)
    requires Next(s, step).Some? && !step.Retry? && !step.Replay?
    ensures var t := Next(s, step).value;
            && t.cfg == s.cfg && t.retriers == s.retriers && t.replayers == s.replayers && |s.inbox| <= |t.inbox|
            && (forall i | 0 <= i < |s.inbox| :: t.inbox[i].attempts == s.inbox[i].attempts
                  && t.inbox[i].availableAt == s.inbox[i].availableAt && t.inbox[i].createdAt == s.inbox[i].createdAt
                  && (t.inbox[i].status == s.inbox[i].status || t.inbox[i].status == Processed))
            && (forall i | |s.inbox| <= i < |t.inbox| ::
                  t.inbox[i].attempts == 0 && t.inbox[i].availableAt == t.inbox[i].createdAt == s.now)
  {
    match step
    case Publish(w, a) => PublisherFrames(s, w, a);
    case Consume(w, a) => ConsumerFrames(s, w, a);
    case _ =>
  }

  /** A row that is not PENDING stays so until it is replayed. */
  lemma StaysSettled(s: State, step: Step, row: nat)
    requires Next(s, step).Some? && !Replays(s, step, row) && row < |s.inbox| && s.inbox[row].status != Pending
    ensures row < |Next(s, step).value.inbox| && Next(s, step).value.inbox[row].status != Pending
  {
    match step
    case Retry(w, a) => RetrierFrames(s, w, a);
    case Replay(w, a) => ReplayerFrames(s, w, a);
    case _ => OthersLeaveRows(s, step);
  }

  // ---------------------------------------------------------------- the invariant

  /** The loops that hold the row. */
  function Hands(retriers: seq<Retrier>, row: nat): nat {
    if |retriers| == 0 then 0
    else Hands(retriers[..|retriers| - 1], row) + if InHand(retriers[|retriers| - 1], row) then 1 else 0
  }

  lemma {:induction false} HandsUpdate(rs: seq<Retrier>, w: nat, r: Retrier, row: nat)
    requires w < |rs|
    ensures Hands(rs[w := r], row) + (if InHand(rs[w], row) then 1 else 0)
            == Hands(rs, row) + (if InHand(r, row) then 1 else 0)
  {
    var last := |rs| - 1;
    if w == last {
      assert rs[w := r][..last] == rs[..last];
    } else {
      assert rs[w := r][..last] == rs[..last][w := r];
      HandsUpdate(rs[..last], w, r, row);
    }
  }

  /** The loops that have counted a last attempt on the row and have yet to write FAILED. */
  function Failing(retriers: seq<Retrier>, row: nat, cfg: Config): nat {
    if |retriers| == 0 then 0
    else Failing(retriers[..|retriers| - 1], row, cfg)
         + if AboutToFail(retriers[|retriers| - 1], row, cfg) then 1 else 0
  }

  lemma {:induction false} FailingUpdate(rs: seq<Retrier>, w: nat, r: Retrier, row: nat, cfg: Config)
    requires w < |rs|
    ensures Failing(rs[w := r], row, cfg) + (if AboutToFail(rs[w], row, cfg) then 1 else 0)
            == Failing(rs, row, cfg) + (if AboutToFail(r, row, cfg) then 1 else 0)
  {
    var last := |rs| - 1;
    if w == last {
      assert rs[w := r][..last] == rs[..last];
    } else {
      assert rs[w := r][..last] == rs[..last][w := r];
      FailingUpdate(rs[..last], w, r, row, cfg);
    }
  }

  lemma {:induction false} HandsOrFailing(rs: seq<Retrier>, row: nat, cfg: Config)
    requires forall w | 0 <= w < |rs| :: Distinct(rs[w])
    ensures Hands(rs, row) + Failing(rs, row, cfg) <= |rs|
  {
    if |rs| > 0 {
      assert Distinct(rs[|rs| - 1]);
      HandsOrFailing(rs[..|rs| - 1], row, cfg);
    }
  }

  predicate SavedWithin(y: Replayer, row: nat, bound: nat) {
    y.RepInbox? ==> forall i | 0 <= i < |y.rows| && y.rows[i].id == row :: y.rows[i].attempts <= bound
  }

  /** With `extra` allowed, a PENDING row is below its maximum but for the loops that are about to fail it, and
      any other row has an attempt left for each loop that holds it. */
  predicate RowWithin(e: InboxRow, retriers: seq<Retrier>, row: nat, cfg: Config, extra: nat) {
    if e.status == Pending then e.attempts < Budget(cfg) + extra + Failing(retriers, row, cfg)
    else e.attempts + Hands(retriers, row) < Budget(cfg) + extra + |retriers|
  }

  ghost predicate WithinBudget(s: State, row: nat, extra: nat) {
    && AllDistinct(s)
    && (forall w | 0 <= w < |s.replayers| :: SavedWithin(s.replayers[w], row, Budget(s.cfg) - 1 + extra + |s.retriers|))
    && (row < |s.inbox| ==> RowWithin(s.inbox[row], s.retriers, row, s.cfg, extra))
  }

  lemma WithinBound(s: State, row: nat, extra: nat)
    requires WithinBudget(s, row, extra) && row < |s.inbox|
    ensures s.inbox[row].attempts < Budget(s.cfg) + extra + |s.retriers|
  {
    HandsOrFailing(s.retriers, row, s.cfg);
  }

  /** What one step of a loop does to the row's attempts and to its own hold on the row. */
  lemma LoopStep(s: State, w: nat, a: RetrierAction, row: nat)
    requires AllDistinct(s) && row < |s.inbox| && RetrierNext(s, w, a).Some?
    ensures var t := RetrierNext(s, w, a).value;
            var e, f := s.inbox[row], t.inbox[row];
            var r, q := s.retriers[w], t.retriers[w];
            && (f.status == Pending ==>
                  && e.status == Pending
                  && (f.attempts < Budget(s.cfg)
                      || f.attempts + (if AboutToFail(r, row, s.cfg) then 1 else 0)
                         <= e.attempts + (if AboutToFail(q, row, s.cfg) then 1 else 0)
                            + (if StopsOn(s, Retry(w, a), row) then 1 else 0)))
            && (f.status != Pending && e.status == Pending ==>
                  f.attempts == e.attempts && (InHand(q, row) ==> InHand(r, row)))
            && (e.status != Pending ==>
                  f.status != Pending && f.attempts + (if InHand(q, row) then 1 else 0)
                                         <= e.attempts + (if InHand(r, row) then 1 else 0))
  {
    assert Distinct(s.retriers[w]);
    match s.retriers[w]
    case RetIdle => BatchIsDistinct(s);
    case RetBatch(rest) => if |rest| > 0 { HeadAndRest(rest, row); }
    case _ =>
  }

  lemma RetrierKeepsBudget(s: State, w: nat, a: RetrierAction, row: nat, extra: nat)
    requires WithinBudget(s, row, extra) && RetrierNext(s, w, a).Some?
    ensures WithinBudget(RetrierNext(s, w, a).value, row, extra + if StopsOn(s, Retry(w, a), row) then 1 else 0)
  {
    var t := RetrierNext(s, w, a).value;
    RetrierFrames(s, w, a);
    RetrierGrows(s, w, a);
    RetrierKeepsDistinct(s, w, a);
    if row < |s.inbox| {
      LoopStep(s, w, a, row);
      assert t.retriers == s.retriers[w := t.retriers[w]];
      HandsUpdate(s.retriers, w, t.retriers[w], row);
      FailingUpdate(s.retriers, w, t.retriers[w], row, s.cfg);
      HandsOrFailing(s.retriers, row, s.cfg);
    }
  }

  lemma ReplayerKeepsBudget(s: State, w: nat, a: ReplayerAction, row: nat, extra: nat)
    requires WithinBudget(s, row, extra) && ReplayerNext(s, w, a).Some?
    ensures WithinBudget(ReplayerNext(s, w, a).value, row,
                         extra + if Replays(s, Replay(w, a), row) then |s.retriers| else 0)
  {
    var t := ReplayerNext(s, w, a).value;
    ReplayerFrames(s, w, a);
    assert SavedWithin(s.replayers[w], row, Budget(s.cfg) - 1 + extra + |s.retriers|);
    if row < |s.inbox| {
      WithinBound(s, row, extra);
    }
  }

  lemma OthersKeepBudget(s: State, step: Step, row: nat, extra: nat)
    requires WithinBudget(s, row, extra) && Next(s, step).Some? && !step.Retry? && !step.Replay?
    ensures WithinBudget(Next(s, step).value, row, extra)
  {
    OthersLeaveRows(s, step);
    HandsOrFailing(s.retriers, row, s.cfg);
  }

  lemma StepKeepsBudget(s: State, step: Step, t: State, row: nat, extra: nat)
    requires WithinBudget(s, row, extra) && Next(s, step) == Some(t)
    ensures WithinBudget(t, row, extra + (if StopsOn(s, step, row) then 1 else 0)
                                       + (if Replays(s, step, row) then |s.retriers| else 0))
  {
    match step
    case Retry(w, a) => RetrierKeepsBudget(s, w, a, row, extra);
    case Replay(w, a) => ReplayerKeepsBudget(s, w, a, row, extra);
    case _ => OthersKeepBudget(s, step, row, extra);
  }

  lemma {:induction false} RunKeepsBudget(s0: State, steps: seq<Step>, t: State, row: nat)
    requires Init(s0) && Run(s0, steps) == Some(t)
    ensures WithinBudget(t, row, StopsOf(s0, steps, row) + Allowance(s0, steps, row))
    ensures t.cfg == s0.cfg && |t.retriers| == |s0.retriers|
  {
    if |steps| > 0 {
      var front := steps[..|steps| - 1];
      var at := Run(s0, front).value;
      RunKeepsBudget(s0, front, at, row);
      StepKeepsBudget(at, steps[|steps| - 1], t, row, StopsOf(s0, front, row) + Allowance(s0, front, row));
      InitHasInv(s0);
      RunKeepsInv(s0, front);
      StepGrows(at, steps[|steps| - 1]);
    }
  }

  /** With any number of loops, a row's attempts stay below the maximum (at least one attempt is always made)
      plus the stops on this very row, plus one per loop for the row and for each replay of it. */
  lemma AttemptBudget(s0: State, steps: seq<Step>, row: nat)
    requires Init(s0) && Run(s0, steps).Some? && row < |Run(s0, steps).value.inbox|
    ensures Run(s0, steps).value.inbox[row].attempts
            < Budget(s0.cfg) + StopsOf(s0, steps, row) + |s0.retriers| * (ReplaysOf(s0, steps, row) + 1)
  {
    var t := Run(s0, steps).value;
    RunKeepsBudget(s0, steps, t, row);
    WithinBound(t, row, StopsOf(s0, steps, row) + Allowance(s0, steps, row));
    AllowanceIsProduct(s0, steps, row);
    OneMoreFactor(|s0.retriers|, ReplaysOf(s0, steps, row));
  }

  /** So with one loop they never exceed the maximum plus the stops and the replays. */
  lemma AttemptBudgetOfOne(s0: State, steps: seq<Step>, row: nat)
    requires Init(s0) && |s0.retriers| == 1 && Run(s0, steps).Some? && row < |Run(s0, steps).value.inbox|
    ensures Run(s0, steps).value.inbox[row].attempts
            <= Budget(s0.cfg) + StopsOf(s0, steps, row) + ReplaysOf(s0, steps, row)
  {
    AttemptBudget(s0, steps, row);
  }
}
