/** The worker's loops as they are written: methods that update the shared tables call by call. Between
    any two calls every other process may run, and the worker itself may stop. Each method is proved to
    follow the transition system of module Pipeline. */
module Workers {
  import opened Domain
  import opened Cashback
  import opened Pipeline
  import opened Invariants
  import opened Traces

  datatype Process = PublisherProcess(w: nat) | RetrierProcess(w: nat) | ConsumerProcess(w: nat) | ReplayProcess(w: nat)

  /** The step is one of the process's own. */
  predicate IsBy(step: Step, p: Process) {
    match p
    case PublisherProcess(w) => step.Publish? && step.w == w
    case RetrierProcess(w) => step.Retry? && step.w == w
    case ConsumerProcess(w) => step.Consume? && step.w == w
    case ReplayProcess(w) => step.Replay? && step.w == w
  }

  /** How a process's stop shows in the log. */
  function StopOf(p: Process): Step {
    match p
    case PublisherProcess(w) => Publish(w, PubCrash)
    case RetrierProcess(w) => Retry(w, RetCrash)
    case ConsumerProcess(w) => Consume(w, ConRestart)
    case ReplayProcess(w) => Replay(w, RepCrash)
  }

  // The last step is one at which a process leaves its round: it was stopped, or an error was not caught.

  predicate PublisherLeft(log: seq<Step>, w: nat) {
    |log| > 0 && LeavesPublish(log[|log| - 1], w)
  }

  predicate LeavesPublish(last: Step, w: nat) {
    last.Publish? && last.w == w
      && (last.p == PubCrash || ((last.p.PubRefresh? || last.p.PubSettle?) && last.p.o != Ok))
  }

  /** The last call of a row that the publisher is through with. */
  predicate PublisherDone(last: Step, w: nat) {
    last in {Publish(w, PubClaim(Ok)), Publish(w, PubMark(Ok)), Publish(w, PubSettle(Ok))}
  }

  predicate RetrierLeft(log: seq<Step>, w: nat) {
    |log| > 0 && LeavesRetry(log[|log| - 1], w)
  }

  predicate LeavesRetry(last: Step, w: nat) {
    last.Retry? && last.w == w
    && (last.r == RetCrash || ((last.r.RetCount? || last.r.RetSettle? || last.r.RetSend?) && last.r.o != Ok))
  }

  predicate RetrierDone(last: Step, w: nat) {
    last in {Retry(w, RetMark(Ok)), Retry(w, RetSettle(Ok)), Retry(w, RetSend(Ok))}
  }

  predicate ReplayLeft(log: seq<Step>, w: nat) {
    |log| > 0 && LeavesReplay(log[|log| - 1], w)
  }

  predicate LeavesReplay(last: Step, w: nat) {
    last.Replay? && last.w == w && (last.y == RepCrash || (last.y.RepReset? && last.y.o != Ok))
  }

  predicate ConsumerLeft(log: seq<Step>, w: nat) {
    |log| > 0 && log[|log| - 1] == Consume(w, ConRestart)
  }

  predicate Exists(s: State, p: Process) {
    match p
    case PublisherProcess(w) => w < |s.publishers|
    case RetrierProcess(w) => w < |s.retriers|
    case ConsumerProcess(w) => w < |s.consumers|
    case ReplayProcess(w) => w < |s.replayers|
  }

  /** The process is where it was, and no row is gone. */
  predicate StaysPut(s: State, t: State, p: Process)
    requires Exists(s, p)
  {
    && |s.outbox| <= |t.outbox| && |s.inbox| <= |t.inbox|
    && Exists(t, p)
    && match p
       case PublisherProcess(w) => t.publishers[w] == s.publishers[w]
       case RetrierProcess(w) => t.retriers[w] == s.retriers[w]
       case ConsumerProcess(w) => t.consumers[w] == s.consumers[w]
       case ReplayProcess(w) => t.replayers[w] == s.replayers[w]
  }

  lemma OthersStepStaysPut(s: State, step: Step, p: Process)
    requires Exists(s, p) && Next(s, step).Some? && !IsBy(step, p)
    ensures StaysPut(s, Next(s, step).value, p)
  {
    match step
    case Publish(w, a) => PublisherFrames(s, w, a);
    case Retry(w, a) => RetrierFrames(s, w, a);
    case Consume(w, a) =>
      ConsumerGrows(s, w, a);
      ConsumerFrames(s, w, a);
    case Replay(w, a) =>
      ReplayerFrames(s, w, a);
      ReplayerMovesOne(s, w, a);
    case Confirm(w, a) => RequestMovesNone(s, w, a);
    case _ =>
  }

  lemma ReplayerMovesOne(s: State, w: nat, a: ReplayerAction)
    requires ReplayerNext(s, w, a).Some?
    ensures var t := ReplayerNext(s, w, a).value;
            && |t.replayers| == |s.replayers|
            && forall v | 0 <= v < |s.replayers| && v != w :: t.replayers[v] == s.replayers[v]
  {}

  lemma RequestMovesNone(s: State, w: nat, a: RequestAction)
    requires RequestNext(s, w, a).Some?
    ensures var t := RequestNext(s, w, a).value;
            && |s.outbox| <= |t.outbox| && t.inbox == s.inbox && t.publishers == s.publishers
            && t.retriers == s.retriers && t.consumers == s.consumers && t.replayers == s.replayers
  {}

  lemma {:induction false} OthersStayPut(s: State, steps: seq<Step>, p: Process)
    requires Exists(s, p) && Run(s, steps).Some? && forall k | 0 <= k < |steps| :: !IsBy(steps[k], p)
    ensures StaysPut(s, Run(s, steps).value, p)
  {
    if |steps| > 0 {
      var front := steps[..|steps| - 1];
      OthersStayPut(s, front, p);
      OthersStepStaysPut(Run(s, front).value, steps[|steps| - 1], p);
    }
  }

  /** The process has been stopped and starts over. */
  predicate StartsOver(t: State, p: Process) {
    && Exists(t, p)
    && match p
       case PublisherProcess(w) => t.publishers[w] == PubIdle
       case RetrierProcess(w) => t.retriers[w] == RetIdle
       case ConsumerProcess(w) => t.consumers[w] == ConAt(t.committed)
       case ReplayProcess(w) => t.replayers[w] == RepIdle
  }

  lemma {:induction false} LinkedRuns(trace: seq<State>, log: seq<Step>)
    requires Linked(Next, trace, log)
    ensures Run(trace[0], log) == Some(trace[|log|])
  {
    if |log| > 0 {
      LinkedFront(Next, trace, log);
      LinkedRuns(trace[..|log|], log[..|log| - 1]);
    }
  }

  /** The first row with a source id is the one the upsert finds. */
  lemma {:induction false} FirstRowIsRowFor(inbox: seq<InboxRow>, source: SourceId, row: nat)
    requires row <= |inbox| && (row < |inbox| ==> inbox[row].source == source)
    requires forall i | 0 <= i < row :: inbox[i].source != source
    ensures RowFor(inbox, source) == row
  {
    if |inbox| > 0 && row < |inbox| {
      var front := inbox[..|inbox| - 1];
      FirstRowIsRowFor(front, source, if row < |front| then row else |front|);
    }
  }

  /** The database, the broker and the clock, with the places of all processes and the steps taken so
      far as ghost state. */
  class Backend {
    const cfg: Config
    var now: int
    var orders: seq<Order>
    var ledger: seq<Entry>
    var outbox: seq<OutboxRow>
    var inbox: seq<InboxRow>
    var topic: seq<Message>
    var committed: nat
    var dlq: seq<DlqMessage>
    ghost var publishers: seq<Publisher>
    ghost var retriers: seq<Retrier>
    ghost var consumers: seq<Consumer>
    ghost var replayers: seq<Replayer>
    ghost var requests: seq<Request>
    ghost const origin: State
    ghost var trace: seq<State>
    ghost var log: seq<Step>

    ghost function View(): State
      reads this
    {
      State(cfg, now, orders, ledger, outbox, inbox, topic, committed, dlq,
            publishers, retriers, consumers, replayers, requests)
    }

    /** The tables are what the logged steps, each of them a step of the pipeline, make of an empty system. */
    ghost predicate Valid()
      reads this
    {
      Init(origin) && Linked(Next, trace, log) && trace[0] == origin && trace[|log|] == View()
    }

    /** Whatever the methods below do is a run of the pipeline, so everything proved about runs holds of
        the tables. */
    lemma FollowsPipeline()
      requires Valid()
      ensures Init(origin) && Run(origin, log) == Some(View()) && Reachable(View())
    {
      LinkedRuns(trace, log);
    }

    lemma Known()
      requires Valid()
      ensures Inv(View())
    {
      FollowsPipeline();
      InitHasInv(origin);
      RunKeepsInv(origin, log);
    }

    ghost method Record(step: Step)
      requires Init(origin) && Linked(Next, trace, log) && trace[0] == origin
               && Next(trace[|log|], step) == Some(View())
      modifies this`log, this`trace
      ensures Valid() && log == old(log) + [step]
    {
      LinkedExtends(Next, trace, log, step, View());
      trace, log := trace + [View()], log + [step];
    }

    constructor (cfg: Config, ghost pubs: nat, ghost rets: nat, ghost cons: nat, ghost reps: nat, ghost reqs: nat)
      ensures Valid() && log == [] && this.cfg == cfg
      ensures |publishers| == pubs && |retriers| == rets && |consumers| == cons
      ensures |replayers| == reps && |requests| == reqs
    {
      this.cfg := cfg;
      now, committed := 0, 0;
      orders, ledger, outbox, inbox, topic, dlq := [], [], [], [], [], [];
      publishers, retriers := seq(pubs, _ => PubIdle), seq(rets, _ => RetIdle);
      consumers, replayers := seq(cons, _ => ConAt(0)), seq(reps, _ => RepIdle);
      requests := seq(reqs, _ => ReqIdle);
      log := [];
      trace := [State(cfg, 0, [], [], [], [], [], 0, [], seq(pubs, _ => PubIdle), seq(rets, _ => RetIdle),
                      seq(cons, _ => ConAt(0)), seq(reps, _ => RepIdle), seq(reqs, _ => ReqIdle))];
      origin := State(cfg, 0, [], [], [], [], [], 0, [], seq(pubs, _ => PubIdle), seq(rets, _ => RetIdle),
                      seq(cons, _ => ConAt(0)), seq(reps, _ => RepIdle), seq(reqs, _ => ReqIdle));
    }

    /** What happens at an await: any number of steps of all other processes. The body takes none; the
        contract leaves room for all. */
    method Others(ghost p: Process)
      requires Valid() && Exists(View(), p)
      modifies this
      ensures Valid() && old(log) <= log && StaysPut(old(View()), View(), p)
    {
    }

    /** An await, after which the process may find that it has been stopped. */
    method Await(ghost p: Process) returns (stopped: bool)
      requires Valid() && Exists(View(), p)
      modifies this
      ensures Valid() && old(log) <= log
      ensures if stopped then StartsOver(View(), p) && old(log) < log && log[|log| - 1] == StopOf(p)
              else StaysPut(old(View()), View(), p)
    {
      Others(p);
      stopped := *;
      if stopped {
        Stop(p);
      }
    }

    method AwaitPublisher(ghost w: nat) returns (stopped: bool)
      requires Valid() && w < |publishers|
      modifies this
      ensures Valid() && old(log) <= log
      ensures w < |publishers| && publishers[w] == if stopped then PubIdle else old(publishers[w])
      ensures stopped ==> old(log) < log && log[|log| - 1] == Publish(w, PubCrash)
    {
      stopped := Await(PublisherProcess(w));
    }

    method AwaitRetrier(ghost w: nat) returns (stopped: bool)
      requires Valid() && w < |retriers|
      modifies this
      ensures Valid() && old(log) <= log
      ensures w < |retriers| && retriers[w] == if stopped then RetIdle else old(retriers[w])
      ensures stopped ==> old(log) < log && log[|log| - 1] == Retry(w, RetCrash)
    {
      stopped := Await(RetrierProcess(w));
    }

    method AwaitConsumer(ghost w: nat) returns (stopped: bool)
      requires Valid() && w < |consumers|
      modifies this
      ensures Valid() && old(log) <= log
      ensures w < |consumers| && consumers[w] == if stopped then ConAt(committed) else old(consumers[w])
      ensures stopped ==> old(log) < log && log[|log| - 1] == Consume(w, ConRestart)
    {
      stopped := Await(ConsumerProcess(w));
    }

    method AwaitReplay(ghost w: nat) returns (stopped: bool)
      requires Valid() && w < |replayers|
      modifies this
      ensures Valid() && old(log) <= log
      ensures w < |replayers| && replayers[w] == if stopped then RepIdle else old(replayers[w])
      ensures stopped ==> old(log) < log && log[|log| - 1] == Replay(w, RepCrash)
      ensures !stopped ==> |outbox| >= old(|outbox|) && |inbox| >= old(|inbox|)
    {
      stopped := Await(ReplayProcess(w));
    }

    ghost method Stop(p: Process)
      requires Valid() && Exists(View(), p)
      modifies this
      ensures Valid() && log == old(log) + [StopOf(p)] && StartsOver(View(), p)
    {
      match p {
        case PublisherProcess(w) => publishers := publishers[w := PubIdle];
        case RetrierProcess(w) => retriers := retriers[w := RetIdle];
        case ConsumerProcess(w) => consumers := consumers[w := ConAt(committed)];
        case ReplayProcess(w) => replayers := replayers[w := RepIdle];
      }
      Record(StopOf(p));
    }

    // -------------------------------------------------------------- index.ts

    /** The row of the job a publisher is on exists. */
    lemma JobExists(w: nat)
      requires Valid() && w < |publishers|
      ensures match publishers[w]
              case PubIdle => true
              case PubBatch(rest) => |rest| > 0 ==> rest[0].id < |outbox|
              case PubClaimed(job, _) => job.id < |outbox|
              case PubSent(job, _) => job.id < |outbox|
              case PubFailing(job, _) => job.id < |outbox|
              case PubSettling(job, _, _) => job.id < |outbox|
    {
      Known();
      assert PublisherOk(outbox, topic, publishers[w]);
    }

    /** `findMany` of due PENDING outbox rows, oldest first. */
    method FindDueOutbox(ghost w: nat) returns (batch: seq<Job>)
      requires Valid() && w < |publishers| && publishers[w] == PubIdle
      modifies this`publishers, this`log, this`trace
      ensures Valid() && log == old(log) + [Publish(w, PubPoll)]
      ensures publishers == old(publishers)[w := PubBatch(batch)]
    {
      ghost var s := View();
      var rows, at := outbox, now;
      var due := seq(|rows|, i requires 0 <= i < |rows| => rows[i].status == Waiting && rows[i].availableAt <= at);
      var payloads := seq(|rows|, i requires 0 <= i < |rows| => rows[i].payload);
      batch := JobsOf(Oldest(due, cfg.publishBatch), payloads);
      assert due == DueOutbox(s) && payloads == OutboxPayloads(s);
      publishers := publishers[w := PubBatch(batch)];
      Record(Publish(w, PubPoll));
    }

    // The calls of the loop, one effect each. What others do before a call takes effect is the caller's
    // `AwaitPublisher`.

    /** `updateMany` on the row while it is PENDING. */
    method ClaimRow(ghost w: nat, job: Job, ghost rest: seq<Job>) returns (o: Outcome, count: nat)
      requires Valid() && w < |publishers| && publishers[w] == PubBatch([job] + rest)
      modifies this`publishers, this`outbox, this`log, this`trace
      ensures Valid() && log == old(log) + [Publish(w, PubClaim(o))] && job.id < old(|outbox|)
      ensures outbox == if o == Refused || count == 0 then old(outbox)
                        else old(outbox)[job.id := old(outbox[job.id]).(attempts := old(outbox[job.id]).attempts + 1)]
      ensures count == if old(outbox[job.id]).status == Waiting then 1 else 0
      ensures publishers == old(publishers)[w := if o != Ok then PubFailing(job, rest)
                                                 else if count == 0 then PubBatch(rest) else PubClaimed(job, rest)]
    {
      ghost var s := View();
      JobExists(w);
      assert ([job] + rest)[1..] == rest;
      o, count := *, 0;
      if outbox[job.id].status == Waiting {
        count := 1;
      }
      if o != Refused && count == 1 {
        outbox := outbox[job.id := outbox[job.id].(attempts := outbox[job.id].attempts + 1)];
      }
      publishers := publishers[w := if o != Ok then PubFailing(job, rest)
                                    else if count == 0 then PubBatch(rest) else PubClaimed(job, rest)];
      assert outbox == AfterClaim(s, w, job, rest, o).outbox;
      Record(Publish(w, PubClaim(o)));
    }

    method SendEvent(ghost w: nat, job: Job, ghost rest: seq<Job>) returns (o: Outcome)
      requires Valid() && w < |publishers| && publishers[w] == PubClaimed(job, rest)
      modifies this`publishers, this`topic, this`log, this`trace
      ensures Valid() && log == old(log) + [Publish(w, PubSend(o))]
      ensures topic == if o == Refused then old(topic) else old(topic) + [Event(Own(job.id), job.payload)]
      ensures publishers == old(publishers)[w := if o == Ok then PubSent(job, rest) else PubFailing(job, rest)]
    {
      o := *;
      if o != Refused {
        topic := topic + [Event(Own(job.id), job.payload)];
      }
      publishers := publishers[w := if o == Ok then PubSent(job, rest) else PubFailing(job, rest)];
      Record(Publish(w, PubSend(o)));
    }

    method MarkSent(ghost w: nat, job: Job, ghost rest: seq<Job>) returns (o: Outcome)
      requires Valid() && w < |publishers| && publishers[w] == PubSent(job, rest)
      modifies this`publishers, this`outbox, this`log, this`trace
      ensures Valid() && log == old(log) + [Publish(w, PubMark(o))] && job.id < old(|outbox|)
      ensures outbox == if o == Refused then old(outbox)
                        else old(outbox)[job.id := old(outbox[job.id]).(status := Sent)]
      ensures publishers == old(publishers)[w := if o == Ok then PubBatch(rest) else PubFailing(job, rest)]
    {
      JobExists(w);
      o := *;
      if o != Refused {
        outbox := outbox[job.id := outbox[job.id].(status := Sent)];
      }
      publishers := publishers[w := if o == Ok then PubBatch(rest) else PubFailing(job, rest)];
      Record(Publish(w, PubMark(o)));
    }

    method RefreshRow(ghost w: nat, job: Job, ghost rest: seq<Job>) returns (o: Outcome, attempts: nat)
      requires Valid() && w < |publishers| && publishers[w] == PubFailing(job, rest)
      modifies this`publishers, this`log, this`trace
      ensures Valid() && log == old(log) + [Publish(w, PubRefresh(o))]
      ensures job.id < |outbox| && attempts == outbox[job.id].attempts
      ensures publishers == old(publishers)[w := if o == Ok then PubSettling(job, attempts, rest) else PubIdle]
    {
      JobExists(w);
      o := *;
      attempts := outbox[job.id].attempts;
      publishers := publishers[w := if o == Ok then PubSettling(job, attempts, rest) else PubIdle];
      Record(Publish(w, PubRefresh(o)));
    }

    /** FAILED at the maximum, otherwise PENDING again after the backoff. */
    method SettleRow(ghost w: nat, job: Job, attempts: nat, ghost rest: seq<Job>) returns (o: Outcome)
      requires Valid() && w < |publishers| && publishers[w] == PubSettling(job, attempts, rest)
      modifies this`publishers, this`outbox, this`log, this`trace
      ensures Valid() && log == old(log) + [Publish(w, PubSettle(o))] && job.id < old(|outbox|)
      ensures outbox == if o == Refused then old(outbox)
                        else if attempts >= cfg.maxAttempts
                        then old(outbox)[job.id := old(outbox[job.id]).(status := Abandoned)]
                        else old(outbox)[job.id := old(outbox[job.id]).(status := Waiting,
                                                                        availableAt := now + BackoffMs(attempts))]
      ensures publishers == old(publishers)[w := if o == Ok then PubBatch(rest) else PubIdle]
    {
      JobExists(w);
      o := *;
      if o != Refused {
        SettleOutboxRow(job.id, attempts);
      }
      publishers := publishers[w := if o == Ok then PubBatch(rest) else PubIdle];
      Record(Publish(w, PubSettle(o)));
    }

    method SettleOutboxRow(id: nat, attempts: nat)
      requires id < |outbox|
      modifies this`outbox
      ensures outbox == if attempts >= cfg.maxAttempts then old(outbox)[id := old(outbox[id]).(status := Abandoned)]
                        else old(outbox)[id := old(outbox[id]).(status := Waiting,
                                                                availableAt := now + BackoffMs(attempts))]
    {
      var row := outbox[id];
      if attempts >= cfg.maxAttempts {
        row := row.(status := Abandoned);
      } else {
        row := row.(status := Waiting, availableAt := now + BackoffMs(attempts));
      }
      outbox := outbox[id := row];
    }

    // The same calls as the loop makes them: first the others run, and the process may be stopped. `left`
    // means that it was, or that the call failed where the source does not catch it.

    method AwaitClaim(ghost w: nat, job: Job, ghost rest: seq<Job>) returns (left: bool, o: Outcome, count: nat)
      requires Valid() && w < |publishers| && publishers[w] == PubBatch([job] + rest)
      modifies this
      ensures Valid() && old(log) < log && w < |publishers|
      ensures publishers[w] == if left then PubIdle else if o != Ok then PubFailing(job, rest)
                               else if count == 0 then PubBatch(rest) else PubClaimed(job, rest)
      ensures left ==> PublisherLeft(log, w)
      ensures !left ==> log[|log| - 1] == Publish(w, PubClaim(o))
    {
      left := AwaitPublisher(w);
      o, count := Ok, 0;
      if left { return; }
      o, count := ClaimRow(w, job, rest);
    }

    method AwaitSend(ghost w: nat, job: Job, ghost rest: seq<Job>) returns (left: bool, o: Outcome)
      requires Valid() && w < |publishers| && publishers[w] == PubClaimed(job, rest)
      modifies this
      ensures Valid() && old(log) < log && w < |publishers|
      ensures publishers[w] == if left then PubIdle else if o == Ok then PubSent(job, rest) else PubFailing(job, rest)
      ensures left ==> PublisherLeft(log, w)
      ensures !left ==> log[|log| - 1] == Publish(w, PubSend(o))
    {
      left := AwaitPublisher(w);
      o := Ok;
      if left { return; }
      o := SendEvent(w, job, rest);
    }

    method AwaitMark(ghost w: nat, job: Job, ghost rest: seq<Job>) returns (left: bool, o: Outcome)
      requires Valid() && w < |publishers| && publishers[w] == PubSent(job, rest)
      modifies this
      ensures Valid() && old(log) < log && w < |publishers|
      ensures publishers[w] == if left then PubIdle else if o == Ok then PubBatch(rest) else PubFailing(job, rest)
      ensures left ==> PublisherLeft(log, w)
      ensures !left ==> log[|log| - 1] == Publish(w, PubMark(o))
    {
      left := AwaitPublisher(w);
      o := Ok;
      if left { return; }
      o := MarkSent(w, job, rest);
    }

    method AwaitRefresh(ghost w: nat, job: Job, ghost rest: seq<Job>) returns (left: bool, attempts: nat)
      requires Valid() && w < |publishers| && publishers[w] == PubFailing(job, rest)
      modifies this
      ensures Valid() && old(log) < log && w < |publishers|
      ensures publishers[w] == if left then PubIdle else PubSettling(job, attempts, rest)
      ensures left ==> PublisherLeft(log, w)
      ensures !left ==> log[|log| - 1] == Publish(w, PubRefresh(Ok))
    {
      left := AwaitPublisher(w);
      attempts := 0;
      if left { return; }
      var o;
      o, attempts := RefreshRow(w, job, rest);
      left := o != Ok;
    }

    method AwaitSettle(ghost w: nat, job: Job, attempts: nat, ghost rest: seq<Job>) returns (left: bool)
      requires Valid() && w < |publishers| && publishers[w] == PubSettling(job, attempts, rest)
      modifies this
      ensures Valid() && old(log) < log && w < |publishers|
      ensures publishers[w] == if left then PubIdle else PubBatch(rest)
      ensures left ==> PublisherLeft(log, w)
      ensures !left ==> log[|log| - 1] == Publish(w, PubSettle(Ok))
    {
      left := AwaitPublisher(w);
      if left { return; }
      var o;
      o := SettleRow(w, job, attempts, rest);
      left := o != Ok;
    }

    ghost method FinishRound(w: nat)
      requires Valid() && w < |publishers| && publishers[w] == PubBatch([])
      modifies this
      ensures Valid() && log == old(log) + [Publish(w, PubFinish)] && publishers == old(publishers)[w := PubIdle]
    {
      publishers := publishers[w := PubIdle];
      Record(Publish(w, PubFinish));
    }

    /** One pass of the publisher. However the calls turn out, whatever the others do meanwhile, and
        wherever it stops, all it adds to the log are steps of the pipeline; and unless it left early, it
        went through its whole batch. */
    method PublishOnce(ghost w: nat) returns (left: bool)
      requires Valid() && w < |publishers| && publishers[w] == PubIdle
      modifies this
      ensures Valid() && old(log) < log && w < |publishers| && publishers[w] == PubIdle
      ensures if left then PublisherLeft(log, w) else log[|log| - 1] == Publish(w, PubFinish)
    {
      var batch := FindDueOutbox(w);
      var i := 0;
      left := false;
      while i < |batch|
        invariant i <= |batch| && !left && Valid() && old(log) < log
        invariant w < |publishers| && publishers[w] == PubBatch(batch[i..])
      {
        assert batch[i..] == [batch[i]] + batch[i + 1..];
        left := PublishRow(w, batch[i], batch[i + 1..]);
        if left { return; }
        i := i + 1;
      }
      FinishRound(w);
    }

    /** The body of the loop: claim, send, mark, and the catch branch. `left` means that the process
        stopped or the catch branch threw; otherwise the row was claimed by another, marked or settled. */
    method PublishRow(ghost w: nat, e: Job, ghost rest: seq<Job>) returns (left: bool)
      requires Valid() && w < |publishers| && publishers[w] == PubBatch([e] + rest)
      modifies this
      ensures Valid() && old(log) < log && w < |publishers|
      ensures publishers[w] == if left then PubIdle else PubBatch(rest)
      ensures if left then PublisherLeft(log, w) else PublisherDone(log[|log| - 1], w)
    {
      var o, count;
      left, o, count := AwaitClaim(w, e, rest);
      if left || (o == Ok && count == 0) { return; }
      if o == Ok {
        left, o := AwaitSend(w, e, rest);
        if left { return; }
        if o == Ok {
          left, o := AwaitMark(w, e, rest);
          if left { return; }
        }
      }
      if o != Ok {
        left := HandlePublishFailure(w, e, rest);
      }
    }

    /** The catch branch: the row is read again and settled, or an error ends the pass. */
    method HandlePublishFailure(ghost w: nat, e: Job, ghost rest: seq<Job>) returns (left: bool)
      requires Valid() && w < |publishers| && publishers[w] == PubFailing(e, rest)
      modifies this
      ensures Valid() && old(log) < log && w < |publishers|
      ensures publishers[w] == if left then PubIdle else PubBatch(rest)
      ensures if left then PublisherLeft(log, w) else log[|log| - 1] == Publish(w, PubSettle(Ok))
    {
      var attempts;
      left, attempts := AwaitRefresh(w, e, rest);
      if left { return; }
      left := AwaitSettle(w, e, attempts, rest);
    }

    // -------------------------------------------------------------- process-order-confirmed.ts

    /** The rule the cache hands out; module RuleCache says which ones it can be. */
    method GetCashbackRule() returns (rule: Rule) {
      rule := *;
    }

    /** The handler's transaction: it takes effect as a whole or not at all, and the unique index on
        (orderId, type) turns a second credit into nothing. `done` means that it returned. */
    method ProcessOrderConfirmed(id: Option<OrderId>, rule: Rule) returns (o: Outcome, done: bool)
      modifies this`ledger
      ensures ledger == if o == Refused then old(ledger) else Posted(orders, old(ledger), id, rule)
      ensures ledger != old(ledger) ==>
                && id.Some? && id.value < |orders| && orders[id.value].status == Confirmed
                && !HasCredit(old(ledger), id.value)
                && ledger == old(ledger) + [Entry(orders[id.value].user, id.value, Credit,
                                                  CashbackOf(orders[id.value].amount, rule), orders[id.value].currency)]
      ensures done <==> o == Ok && id.Some? && id.value < |orders| && orders[id.value].status == Confirmed
      ensures done ==> HasCredit(ledger, id.value)
    {
      o, done := *, false;
      if id.None? || id.value >= |orders| {
        return;
      }
      var order := orders[id.value];
      if order.status != Confirmed || o == Refused {
        return;
      }
      var cashback := order.amount * rule.rate;
      if rule.cap.Some? && cashback > rule.cap.value * UNIT {
        cashback := rule.cap.value * UNIT;
      }
      cashback := RoundHalfUp(cashback);
      if !HasCredit(ledger, id.value) {
        ledger := ledger + [Entry(order.user, id.value, Credit, cashback, order.currency)];
        assert ledger[|ledger| - 1].orderId == id.value;
      }
      done := o == Ok;
    }

    // -------------------------------------------------------------- inbox-retry.ts

    lemma InboxJobExists(w: nat)
      requires Valid() && w < |retriers|
      ensures match retriers[w]
              case RetIdle => true
              case RetBatch(rest) => |rest| > 0 ==> rest[0].id < |inbox|
              case RetCredited(job, _) => job.id < |inbox|
              case RetFailing(job, _) => job.id < |inbox|
              case RetSettling(job, _, _) => job.id < |inbox|
              case RetDeadLetter(job, _, _) => job.id < |inbox|
    {
      Known();
      assert RetrierOk(inbox, ledger, retriers[w]);
    }

    method FindDueInbox(ghost w: nat) returns (batch: seq<Job>)
      requires Valid() && w < |retriers| && retriers[w] == RetIdle
      modifies this`retriers, this`log, this`trace
      ensures Valid() && log == old(log) + [Retry(w, RetPoll)]
      ensures retriers == old(retriers)[w := RetBatch(batch)]
    {
      ghost var s := View();
      var rows, at := inbox, now;
      var due := seq(|rows|, i requires 0 <= i < |rows| => rows[i].status == Pending && rows[i].availableAt <= at);
      var payloads := seq(|rows|, i requires 0 <= i < |rows| => rows[i].payload);
      batch := JobsOf(Oldest(due, cfg.retryBatch), payloads);
      assert due == DueInbox(s) && payloads == InboxPayloads(s);
      retriers := retriers[w := RetBatch(batch)];
      Record(Retry(w, RetPoll));
    }

    /** The handler on the order of the fetched payload; a payload without one throws at once. */
    method TryRow(ghost w: nat, e: Job, ghost rest: seq<Job>) returns (done: bool, o: Outcome, rule: Rule)
      requires Valid() && w < |retriers| && retriers[w] == RetBatch([e] + rest)
      modifies this`retriers, this`ledger, this`log, this`trace
      ensures Valid() && log == old(log) + [Retry(w, RetProcess(o, rule))]
      ensures ledger == if o == Refused then old(ledger) else Posted(orders, old(ledger), e.payload.orderId, rule)
      ensures done <==> o == Ok && Creditable(orders, e.payload.orderId)
      ensures retriers == old(retriers)[w := if done then RetCredited(e, rest) else RetFailing(e, rest)]
    {
      assert ([e] + rest)[1..] == rest;
      rule := GetCashbackRule();
      o, done := ProcessOrderConfirmed(e.payload.orderId, rule);
      retriers := retriers[w := if done then RetCredited(e, rest) else RetFailing(e, rest)];
      Record(Retry(w, RetProcess(o, rule)));
    }

    method MarkRetried(ghost w: nat, e: Job, ghost rest: seq<Job>) returns (o: Outcome)
      requires Valid() && w < |retriers| && retriers[w] == RetCredited(e, rest)
      modifies this`retriers, this`inbox, this`log, this`trace
      ensures Valid() && log == old(log) + [Retry(w, RetMark(o))] && e.id < old(|inbox|)
      ensures inbox == if o == Refused then old(inbox) else old(inbox)[e.id := old(inbox[e.id]).(status := Processed)]
      ensures retriers == old(retriers)[w := if o == Ok then RetBatch(rest) else RetFailing(e, rest)]
    {
      InboxJobExists(w);
      o := *;
      if o != Refused {
        inbox := inbox[e.id := inbox[e.id].(status := Processed)];
      }
      retriers := retriers[w := if o == Ok then RetBatch(rest) else RetFailing(e, rest)];
      Record(Retry(w, RetMark(o)));
    }

    /** The increment, and the attempts the updated row reports. */
    method CountAttempt(ghost w: nat, e: Job, ghost rest: seq<Job>) returns (o: Outcome, attempts: nat)
      requires Valid() && w < |retriers| && retriers[w] == RetFailing(e, rest)
      modifies this`retriers, this`inbox, this`log, this`trace
      ensures Valid() && log == old(log) + [Retry(w, RetCount(o))] && e.id < old(|inbox|)
      ensures attempts == old(inbox[e.id]).attempts + 1
      ensures inbox == if o == Refused then old(inbox) else old(inbox)[e.id := old(inbox[e.id]).(attempts := attempts)]
      ensures retriers == old(retriers)[w := if o == Ok then RetSettling(e, attempts, rest) else RetIdle]
    {
      InboxJobExists(w);
      o := *;
      attempts := inbox[e.id].attempts + 1;
      if o != Refused {
        inbox := inbox[e.id := inbox[e.id].(attempts := attempts)];
      }
      retriers := retriers[w := if o == Ok then RetSettling(e, attempts, rest) else RetIdle];
      Record(Retry(w, RetCount(o)));
    }

    /** FAILED at the maximum, otherwise a later time for the next attempt. */
    method SettleAttempt(ghost w: nat, e: Job, attempts: nat, ghost rest: seq<Job>) returns (o: Outcome)
      requires Valid() && w < |retriers| && retriers[w] == RetSettling(e, attempts, rest)
      modifies this`retriers, this`inbox, this`log, this`trace
      ensures Valid() && log == old(log) + [Retry(w, RetSettle(o))] && e.id < old(|inbox|)
      ensures inbox == if o == Refused then old(inbox)
                       else if attempts >= cfg.maxAttempts
                       then old(inbox)[e.id := old(inbox[e.id]).(status := Failed)]
                       else old(inbox)[e.id := old(inbox[e.id]).(availableAt := now + BackoffMs(attempts))]
      ensures retriers == old(retriers)[w := if o != Ok then RetIdle
                                             else if attempts >= cfg.maxAttempts then RetDeadLetter(e, attempts, rest)
                                             else RetBatch(rest)]
    {
      InboxJobExists(w);
      o := *;
      if o != Refused {
        SettleInboxRow(e.id, attempts);
      }
      retriers := retriers[w := if o != Ok then RetIdle
                                else if attempts >= cfg.maxAttempts then RetDeadLetter(e, attempts, rest)
                                else RetBatch(rest)];
      Record(Retry(w, RetSettle(o)));
    }

    method SettleInboxRow(id: nat, attempts: nat)
      requires id < |inbox|
      modifies this`inbox
      ensures inbox == if attempts >= cfg.maxAttempts then old(inbox)[id := old(inbox[id]).(status := Failed)]
                       else old(inbox)[id := old(inbox[id]).(availableAt := now + BackoffMs(attempts))]
    {
      var row := inbox[id];
      if attempts >= cfg.maxAttempts {
        row := row.(status := Failed);
      } else {
        row := row.(availableAt := now + BackoffMs(attempts));
      }
      inbox := inbox[id := row];
    }

    method SendDeadLetter(ghost w: nat, e: Job, attempts: nat, ghost rest: seq<Job>) returns (o: Outcome)
      requires Valid() && w < |retriers| && retriers[w] == RetDeadLetter(e, attempts, rest)
      modifies this`retriers, this`dlq, this`log, this`trace
      ensures Valid() && log == old(log) + [Retry(w, RetSend(o))] && e.id < |inbox|
      ensures dlq == if o == Refused then old(dlq)
                     else old(dlq) + [DlqMessage(inbox[e.id].source, inbox[e.id].payload, attempts)]
      ensures retriers == old(retriers)[w := if o == Ok then RetBatch(rest) else RetIdle]
    {
      InboxJobExists(w);
      o := *;
      if o != Refused {
        dlq := dlq + [DlqMessage(inbox[e.id].source, inbox[e.id].payload, attempts)];
      }
      retriers := retriers[w := if o == Ok then RetBatch(rest) else RetIdle];
      Record(Retry(w, RetSend(o)));
    }

    method AwaitTry(ghost w: nat, e: Job, ghost rest: seq<Job>) returns (left: bool, done: bool)
      requires Valid() && w < |retriers| && retriers[w] == RetBatch([e] + rest)
      modifies this
      ensures Valid() && old(log) < log && w < |retriers|
      ensures retriers[w] == if left then RetIdle else if done then RetCredited(e, rest) else RetFailing(e, rest)
      ensures left ==> RetrierLeft(log, w)
    {
      left := AwaitRetrier(w);
      done := false;
      if left { return; }
      var o, rule;
      done, o, rule := TryRow(w, e, rest);
    }

    method AwaitMarkRetried(ghost w: nat, e: Job, ghost rest: seq<Job>) returns (left: bool, o: Outcome)
      requires Valid() && w < |retriers| && retriers[w] == RetCredited(e, rest)
      modifies this
      ensures Valid() && old(log) < log && w < |retriers|
      ensures retriers[w] == if left then RetIdle else if o == Ok then RetBatch(rest) else RetFailing(e, rest)
      ensures left ==> RetrierLeft(log, w)
      ensures !left ==> log[|log| - 1] == Retry(w, RetMark(o))
    {
      left := AwaitRetrier(w);
      o := Ok;
      if left { return; }
      o := MarkRetried(w, e, rest);
    }

    method AwaitCount(ghost w: nat, e: Job, ghost rest: seq<Job>) returns (left: bool, attempts: nat)
      requires Valid() && w < |retriers| && retriers[w] == RetFailing(e, rest)
      modifies this
      ensures Valid() && old(log) < log && w < |retriers|
      ensures retriers[w] == if left then RetIdle else RetSettling(e, attempts, rest)
      ensures left ==> RetrierLeft(log, w)
      ensures !left ==> log[|log| - 1] == Retry(w, RetCount(Ok))
    {
      left := AwaitRetrier(w);
      attempts := 0;
      if left { return; }
      var o;
      o, attempts := CountAttempt(w, e, rest);
      left := o != Ok;
    }

    method AwaitSettleAttempt(ghost w: nat, e: Job, attempts: nat, ghost rest: seq<Job>) returns (left: bool)
      requires Valid() && w < |retriers| && retriers[w] == RetSettling(e, attempts, rest)
      modifies this
      ensures Valid() && old(log) < log && w < |retriers|
      ensures retriers[w] == if left then RetIdle
                             else if attempts >= cfg.maxAttempts then RetDeadLetter(e, attempts, rest)
                             else RetBatch(rest)
      ensures left ==> RetrierLeft(log, w)
      ensures !left ==> log[|log| - 1] == Retry(w, RetSettle(Ok))
    {
      left := AwaitRetrier(w);
      if left { return; }
      var o;
      o := SettleAttempt(w, e, attempts, rest);
      left := o != Ok;
    }

    method AwaitSendDeadLetter(ghost w: nat, e: Job, attempts: nat, ghost rest: seq<Job>) returns (left: bool)
      requires Valid() && w < |retriers| && retriers[w] == RetDeadLetter(e, attempts, rest)
      modifies this
      ensures Valid() && old(log) < log && w < |retriers|
      ensures retriers[w] == if left then RetIdle else RetBatch(rest)
      ensures left ==> RetrierLeft(log, w)
      ensures !left ==> log[|log| - 1] == Retry(w, RetSend(Ok))
    {
      left := AwaitRetrier(w);
      if left { return; }
      var o;
      o := SendDeadLetter(w, e, attempts, rest);
      left := o != Ok;
    }

    ghost method FinishRetryRound(w: nat)
      requires Valid() && w < |retriers| && retriers[w] == RetBatch([])
      modifies this
      ensures Valid() && log == old(log) + [Retry(w, RetFinish)] && retriers == old(retriers)[w := RetIdle]
    {
      retriers := retriers[w := RetIdle];
      Record(Retry(w, RetFinish));
    }

    /** One round of `retryInboxLoop`: all it adds to the log are steps of the pipeline, and unless it left
        early, it went through its whole batch. */
    method RetryRound(ghost w: nat) returns (left: bool)
      requires Valid() && w < |retriers| && retriers[w] == RetIdle
      modifies this
      ensures Valid() && old(log) < log && w < |retriers| && retriers[w] == RetIdle
      ensures if left then RetrierLeft(log, w) else log[|log| - 1] == Retry(w, RetFinish)
    {
      var batch := FindDueInbox(w);
      var i := 0;
      left := false;
      while i < |batch|
        invariant i <= |batch| && !left && Valid() && old(log) < log
        invariant w < |retriers| && retriers[w] == RetBatch(batch[i..])
      {
        assert batch[i..] == [batch[i]] + batch[i + 1..];
        left := RetryRow(w, batch[i], batch[i + 1..]);
        if left { return; }
        i := i + 1;
      }
      FinishRetryRound(w);
    }

    /** The body of the loop: the handler, the mark, and the catch branch. Unless the loop left, the row was
        marked, put off, or dead-lettered. */
    method RetryRow(ghost w: nat, e: Job, ghost rest: seq<Job>) returns (left: bool)
      requires Valid() && w < |retriers| && retriers[w] == RetBatch([e] + rest)
      modifies this
      ensures Valid() && old(log) < log && w < |retriers|
      ensures retriers[w] == if left then RetIdle else RetBatch(rest)
      ensures if left then RetrierLeft(log, w) else RetrierDone(log[|log| - 1], w)
    {
      var done;
      left, done := AwaitTry(w, e, rest);
      if left { return; }
      if done {
        var o;
        left, o := AwaitMarkRetried(w, e, rest);
        if left || o == Ok { return; }
      }
      left := HandleRetryFailure(w, e, rest);
    }

    /** The catch branch: count, settle, and at the maximum the letter, in this order, each of which ends the
        loop when it fails. */
    method HandleRetryFailure(ghost w: nat, e: Job, ghost rest: seq<Job>) returns (left: bool)
      requires Valid() && w < |retriers| && retriers[w] == RetFailing(e, rest)
      modifies this
      ensures Valid() && old(log) < log && w < |retriers|
      ensures retriers[w] == if left then RetIdle else RetBatch(rest)
      ensures if left then RetrierLeft(log, w) else RetrierDone(log[|log| - 1], w)
    {
      var attempts;
      left, attempts := AwaitCount(w, e, rest);
      if left { return; }
      left := AwaitSettleAttempt(w, e, attempts, rest);
      if left { return; }
      if attempts >= cfg.maxAttempts {
        left := AwaitSendDeadLetter(w, e, attempts, rest);
      }
    }

    // -------------------------------------------------------------- consumer.ts

    lemma MessageExists(w: nat)
      requires Valid() && w < |consumers|
      ensures match consumers[w]
              case ConAt(at) => at <= |topic|
              case ConStored(at, row) => at < |topic| && topic[at].Event? && row < |inbox|
              case ConCredited(at, row) => at < |topic| && topic[at].Event? && row < |inbox|
    {
      Known();
      assert ConsumerOk(topic, inbox, ledger, consumers[w]);
    }

    /** The upsert by source id, which leaves an existing row as it is. */
    method UpsertInbox(ghost w: nat, at: nat) returns (o: Outcome, row: nat)
      requires Valid() && w < |consumers| && consumers[w] == ConAt(at) && at < |topic| && topic[at].Event?
      modifies this`consumers, this`inbox, this`log, this`trace
      ensures Valid() && log == old(log) + [Consume(w, ConStore(o))]
      ensures row <= old(|inbox|) && (row < old(|inbox|) ==> old(inbox[row]).source == topic[at].source)
      ensures row == old(|inbox|) ==> forall i | 0 <= i < old(|inbox|) :: old(inbox)[i].source != topic[at].source
      ensures inbox == if o == Refused || row < old(|inbox|) then old(inbox)
                       else old(inbox) + [InboxRow(topic[at].source, topic[at].payload, Pending, 0, now, now)]
      ensures o == Ok ==> row < |inbox| && inbox[row].source == topic[at].source
      ensures consumers == old(consumers)[w := if o == Ok then ConStored(at, row) else ConAt(at + 1)]
    {
      o := *;
      var m := topic[at];
      row := 0;
      while row < |inbox| && inbox[row].source != m.source
        invariant row <= |inbox| && forall i | 0 <= i < row :: inbox[i].source != m.source
      {
        row := row + 1;
      }
      FirstRowIsRowFor(inbox, m.source, row);
      if o != Refused && row == |inbox| {
        inbox := inbox + [InboxRow(m.source, m.payload, Pending, 0, now, now)];
      }
      consumers := consumers[w := if o == Ok then ConStored(at, row) else ConAt(at + 1)];
      Record(Consume(w, ConStore(o)));
    }

    method PassOver(ghost w: nat, at: nat)
      requires Valid() && w < |consumers| && consumers[w] == ConAt(at) && at < |topic| && topic[at].Ignored?
      modifies this`consumers, this`log, this`trace
      ensures Valid() && log == old(log) + [Consume(w, ConStore(Ok))] && consumers == old(consumers)[w := ConAt(at + 1)]
    {
      consumers := consumers[w := ConAt(at + 1)];
      Record(Consume(w, ConStore(Ok)));
    }

    /** The fast path, on the order the message names. */
    method TryMessage(ghost w: nat, at: nat, row: nat) returns (done: bool, o: Outcome, rule: Rule)
      requires Valid() && w < |consumers| && consumers[w] == ConStored(at, row)
      modifies this`consumers, this`ledger, this`log, this`trace
      ensures Valid() && log == old(log) + [Consume(w, ConProcess(o, rule))] && at < |topic| && topic[at].Event?
      ensures ledger == if o == Refused then old(ledger)
                        else Posted(orders, old(ledger), topic[at].payload.orderId, rule)
      ensures done <==> o == Ok && Creditable(orders, topic[at].payload.orderId)
      ensures consumers == old(consumers)[w := if done then ConCredited(at, row) else ConAt(at + 1)]
    {
      MessageExists(w);
      rule := GetCashbackRule();
      o, done := ProcessOrderConfirmed(topic[at].payload.orderId, rule);
      consumers := consumers[w := if done then ConCredited(at, row) else ConAt(at + 1)];
      Record(Consume(w, ConProcess(o, rule)));
    }

    method MarkConsumed(ghost w: nat, at: nat, row: nat) returns (o: Outcome)
      requires Valid() && w < |consumers| && consumers[w] == ConCredited(at, row)
      modifies this`consumers, this`inbox, this`log, this`trace
      ensures Valid() && log == old(log) + [Consume(w, ConMark(o))] && row < old(|inbox|)
      ensures inbox == if o == Refused then old(inbox) else old(inbox)[row := old(inbox[row]).(status := Processed)]
      ensures consumers == old(consumers)[w := ConAt(at + 1)]
    {
      MessageExists(w);
      o := *;
      if o != Refused {
        inbox := inbox[row := inbox[row].(status := Processed)];
      }
      consumers := consumers[w := ConAt(at + 1)];
      Record(Consume(w, ConMark(o)));
    }

    method AwaitTryMessage(ghost w: nat, at: nat, row: nat) returns (stopped: bool, done: bool)
      requires Valid() && w < |consumers| && consumers[w] == ConStored(at, row)
      modifies this
      ensures Valid() && old(log) < log && w < |consumers|
      ensures consumers[w] == if stopped then ConAt(committed) else if done then ConCredited(at, row) else ConAt(at + 1)
      ensures stopped ==> ConsumerLeft(log, w)
    {
      stopped := AwaitConsumer(w);
      done := false;
      if stopped { return; }
      var o, rule;
      done, o, rule := TryMessage(w, at, row);
    }

    method AwaitMarkConsumed(ghost w: nat, at: nat, row: nat) returns (stopped: bool)
      requires Valid() && w < |consumers| && consumers[w] == ConCredited(at, row)
      modifies this
      ensures Valid() && old(log) < log && w < |consumers|
      ensures consumers[w] == if stopped then ConAt(committed) else ConAt(at + 1)
      ensures stopped ==> ConsumerLeft(log, w)
    {
      stopped := AwaitConsumer(w);
      if stopped { return; }
      var o := MarkConsumed(w, at, row);
    }

    /** The message handler: it never throws, so the consumer always ends behind the message, unless it
        is stopped and starts over at the committed offset. */
    method HandleMessage(ghost w: nat, at: nat) returns (stopped: bool)
      requires Valid() && w < |consumers| && consumers[w] == ConAt(at) && at < |topic|
      modifies this
      ensures Valid() && old(log) < log && w < |consumers|
      ensures consumers[w] == if stopped then ConAt(committed) else ConAt(at + 1)
      ensures stopped ==> ConsumerLeft(log, w)
    {
      stopped := false;
      if topic[at].Ignored? {
        PassOver(w, at);
        return;
      }
      var o, row := UpsertInbox(w, at);
      if o != Ok { return; }
      var done;
      stopped, done := AwaitTryMessage(w, at, row);
      if stopped || !done { return; }
      stopped := AwaitMarkConsumed(w, at, row);
    }

    // -------------------------------------------------------------- replay.ts

    method RewindInboxRow(r: Saved, reset: bool)
      requires r.id < |inbox|
      modifies this`inbox
      ensures inbox == old(inbox)[r.id := old(inbox[r.id]).(status := Pending, availableAt := now,
                                                            attempts := if reset then 0 else r.attempts)]
    {
      var attempts := if reset then 0 else r.attempts;
      inbox := inbox[r.id := inbox[r.id].(status := Pending, availableAt := now, attempts := attempts)];
    }

    method RewindOutboxRow(r: Saved, reset: bool)
      requires r.id < |outbox|
      modifies this`outbox
      ensures outbox == old(outbox)[r.id := old(outbox[r.id]).(status := Waiting, availableAt := now,
                                                               attempts := if reset then 0 else r.attempts)]
    {
      var attempts := if reset then 0 else r.attempts;
      outbox := outbox[r.id := outbox[r.id].(status := Waiting, availableAt := now, attempts := attempts)];
    }

    /** One row of an inbox replay: PENDING, due now, attempts as fetched or reset. */
    method ResetInboxRow(ghost w: nat, r: Saved, ghost rest: seq<Saved>, reset: bool) returns (left: bool)
      requires Valid() && w < |replayers| && replayers[w] == RepInbox([r] + rest, reset) && r.id < |inbox|
      modifies this
      ensures Valid() && old(log) <= log && w < |replayers| && (!left ==> |inbox| >= old(|inbox|))
      ensures replayers[w] == if left then RepIdle else RepInbox(rest, reset)
      ensures left ==> ReplayLeft(log, w)
    {
      left := AwaitReplay(w);
      if !left {
        left := UpdateInboxRow(w, r, rest, reset);
      }
    }

    method UpdateInboxRow(ghost w: nat, r: Saved, ghost rest: seq<Saved>, reset: bool) returns (failed: bool)
      requires Valid() && w < |replayers| && replayers[w] == RepInbox([r] + rest, reset) && r.id < |inbox|
      modifies this`replayers, this`inbox, this`log, this`trace
      ensures Valid() && old(log) < log && r.id < old(|inbox|)
              && (!failed ==> log[|log| - 1] == Replay(w, RepReset(Ok)))
      ensures inbox == old(inbox) || inbox == old(inbox)[r.id := ReplayedInbox(old(inbox[r.id]), r, reset, now)]
      ensures !failed ==> inbox == old(inbox)[r.id := ReplayedInbox(old(inbox[r.id]), r, reset, now)]
      ensures replayers == old(replayers)[w := if failed then RepIdle else RepInbox(rest, reset)]
      ensures failed ==> ReplayLeft(log, w)
    {
      ghost var s := View();
      assert ([r] + rest)[1..] == rest;
      var o: Outcome := *;
      failed := o != Ok;
      if o != Refused {
        RewindInboxRow(r, reset);
      }
      replayers := replayers[w := if failed then RepIdle else RepInbox(rest, reset)];
      assert View() == AfterInboxReset(s, w, [r] + rest, reset, o);
      Record(Replay(w, RepReset(o)));
    }

    method ResetOutboxRow(ghost w: nat, r: Saved, ghost rest: seq<Saved>, reset: bool) returns (left: bool)
      requires Valid() && w < |replayers| && replayers[w] == RepOutbox([r] + rest, reset) && r.id < |outbox|
      modifies this
      ensures Valid() && old(log) <= log && w < |replayers| && (!left ==> |outbox| >= old(|outbox|))
      ensures replayers[w] == if left then RepIdle else RepOutbox(rest, reset)
      ensures left ==> ReplayLeft(log, w)
    {
      left := AwaitReplay(w);
      if !left {
        left := UpdateOutboxRow(w, r, rest, reset);
      }
    }

    method UpdateOutboxRow(ghost w: nat, r: Saved, ghost rest: seq<Saved>, reset: bool) returns (failed: bool)
      requires Valid() && w < |replayers| && replayers[w] == RepOutbox([r] + rest, reset) && r.id < |outbox|
      modifies this`replayers, this`outbox, this`log, this`trace
      ensures Valid() && old(log) < log && r.id < old(|outbox|)
              && (!failed ==> log[|log| - 1] == Replay(w, RepReset(Ok)))
      ensures outbox == old(outbox) || outbox == old(outbox)[r.id := ReplayedOutbox(old(outbox[r.id]), r, reset, now)]
      ensures !failed ==> outbox == old(outbox)[r.id := ReplayedOutbox(old(outbox[r.id]), r, reset, now)]
      ensures replayers == old(replayers)[w := if failed then RepIdle else RepOutbox(rest, reset)]
      ensures failed ==> ReplayLeft(log, w)
    {
      ghost var s := View();
      assert ([r] + rest)[1..] == rest;
      var o: Outcome := *;
      failed := o != Ok;
      if o != Refused {
        RewindOutboxRow(r, reset);
      }
      replayers := replayers[w := if failed then RepIdle else RepOutbox(rest, reset)];
      assert View() == AfterOutboxReset(s, w, [r] + rest, reset, o);
      Record(Replay(w, RepReset(o)));
    }

    method FindInbox(ghost w: nat, filter: InboxFilter, limit: nat, reset: bool) returns (rows: seq<Saved>)
      requires Valid() && w < |replayers| && replayers[w] == RepIdle
      modifies this`replayers, this`log, this`trace
      ensures Valid() && log == old(log) + [Replay(w, RepFetchInbox(filter, limit, reset))]
      ensures replayers == old(replayers)[w := RepInbox(rows, reset)]
      ensures forall k | 0 <= k < |rows| :: rows[k].id < |inbox| && rows[k].attempts == inbox[rows[k].id].attempts
      ensures filter.BySource? ==> forall k | 0 <= k < |rows| :: inbox[rows[k].id].source == filter.source
      ensures filter.ByStatus? ==> forall k | 0 <= k < |rows| :: inbox[rows[k].id].status == filter.status
    {
      rows := FetchedInbox(inbox, filter, limit);
      replayers := replayers[w := RepInbox(rows, reset)];
      Record(Replay(w, RepFetchInbox(filter, limit, reset)));
    }

    method FindOutbox(ghost w: nat, status: OutboxStatus, limit: nat, reset: bool) returns (rows: seq<Saved>)
      requires Valid() && w < |replayers| && replayers[w] == RepIdle
      modifies this`replayers, this`log, this`trace
      ensures Valid() && log == old(log) + [Replay(w, RepFetchOutbox(status, limit, reset))]
      ensures replayers == old(replayers)[w := RepOutbox(rows, reset)]
      ensures forall k | 0 <= k < |rows| ::
                rows[k].id < |outbox| && outbox[rows[k].id].status == status
                && rows[k].attempts == outbox[rows[k].id].attempts
    {
      rows := FetchedOutbox(outbox, status, limit);
      replayers := replayers[w := RepOutbox(rows, reset)];
      Record(Replay(w, RepFetchOutbox(status, limit, reset)));
    }

    ghost method FinishReplay(w: nat)
      requires Valid() && w < |replayers| && (replayers[w].RepInbox? || replayers[w].RepOutbox?)
               && replayers[w].rows == []
      modifies this
      ensures Valid() && log == old(log) + [Replay(w, RepFinish)] && replayers == old(replayers)[w := RepIdle]
    {
      replayers := replayers[w := RepIdle];
      Record(Replay(w, RepFinish));
    }

    /** `replayInbox`: every fetched row is reset, unless the tool stops or an update fails. */
    method ReplayInbox(ghost w: nat, filter: InboxFilter, limit: nat, reset: bool) returns (left: bool)
      requires Valid() && w < |replayers| && replayers[w] == RepIdle
      modifies this
      ensures Valid() && old(log) < log && w < |replayers| && replayers[w] == RepIdle
      ensures log[|old(log)|] == Replay(w, RepFetchInbox(filter, limit, reset))
      ensures if left then ReplayLeft(log, w) else log[|log| - 1] == Replay(w, RepFinish)
    {
      var rows := FindInbox(w, filter, limit, reset);
      var i := 0;
      left := false;
      while i < |rows|
        invariant i <= |rows| && !left && Valid() && old(log) < log
        invariant log[|old(log)|] == Replay(w, RepFetchInbox(filter, limit, reset))
        invariant w < |replayers| && replayers[w] == RepInbox(rows[i..], reset)
        invariant forall k | 0 <= k < |rows| :: rows[k].id < |inbox|
      {
        assert rows[i..] == [rows[i]] + rows[i + 1..];
        left := ResetInboxRow(w, rows[i], rows[i + 1..], reset);
        if left { return; }
        i := i + 1;
      }
      FinishReplay(w);
    }

    method ReplayOutbox(ghost w: nat, status: OutboxStatus, limit: nat, reset: bool) returns (left: bool)
      requires Valid() && w < |replayers| && replayers[w] == RepIdle
      modifies this
      ensures Valid() && old(log) < log && w < |replayers| && replayers[w] == RepIdle
      ensures log[|old(log)|] == Replay(w, RepFetchOutbox(status, limit, reset))
      ensures if left then ReplayLeft(log, w) else log[|log| - 1] == Replay(w, RepFinish)
    {
      var rows := FindOutbox(w, status, limit, reset);
      var i := 0;
      left := false;
      while i < |rows|
        invariant i <= |rows| && !left && Valid() && old(log) < log
        invariant log[|old(log)|] == Replay(w, RepFetchOutbox(status, limit, reset))
        invariant w < |replayers| && replayers[w] == RepOutbox(rows[i..], reset)
        invariant forall k | 0 <= k < |rows| :: rows[k].id < |outbox|
      {
        assert rows[i..] == [rows[i]] + rows[i + 1..];
        left := ResetOutboxRow(w, rows[i], rows[i + 1..], reset);
        if left { return; }
        i := i + 1;
      }
      FinishReplay(w);
    }
  }
}
