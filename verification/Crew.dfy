/** Any number of workers, of which only the first of each kind still runs: a run of theirs is the same
    as if the others were not there. */
module Crew {
  import opened Domain
  import opened Pipeline
  import opened Drain

  ghost predicate Manned(s: State) {
    |s.publishers| > 0 && |s.retriers| > 0 && |s.consumers| > 0
  }

  /** The system without all but the first worker of each kind. */
  function First(s: State): State
    requires |s.publishers| > 0 && |s.retriers| > 0 && |s.consumers| > 0
  {
    s.(publishers := s.publishers[..1], retriers := s.retriers[..1], consumers := s.consumers[..1])
  }

  predicate ByFirst(step: Step) {
    match step
    case Publish(w, _) => w == 0
    case Retry(w, _) => w == 0
    case Consume(w, _) => w == 0
    case _ => true
  }

  ghost predicate AllByFirst(steps: seq<Step>) {
    forall k | 0 <= k < |steps| :: ByFirst(steps[k])
  }

  /** What becomes of the first workers, the others left as they are. */
  function FirstOf(t: Option<State>): Option<State>
    requires t.Some? ==> |t.value.publishers| > 0 && |t.value.retriers| > 0 && |t.value.consumers| > 0
  {
    if t.Some? then Some(First(t.value)) else None
  }

  lemma FirstPublishes(s: State, a: PublisherAction)
    requires Manned(s)
    ensures var t := PublisherNext(s, 0, a);
            (t.Some? ==> Manned(t.value)) && PublisherNext(First(s), 0, a) == FirstOf(t)
  {
    var f, t, u := First(s), PublisherNext(s, 0, a), PublisherNext(First(s), 0, a);
    assert f.publishers[0] == s.publishers[0];
    assert OutboxBatch(f) == OutboxBatch(s) by {
      assert DueOutbox(f) == DueOutbox(s) && OutboxPayloads(f) == OutboxPayloads(s);
    }
    if t.Some? {
      assert u.value.publishers == t.value.publishers[..1];
    }
  }

  lemma FirstRetries(s: State, a: RetrierAction)
    requires Manned(s)
    ensures var t := RetrierNext(s, 0, a);
            (t.Some? ==> Manned(t.value)) && RetrierNext(First(s), 0, a) == FirstOf(t)
  {
    var f, t, u := First(s), RetrierNext(s, 0, a), RetrierNext(First(s), 0, a);
    assert f.retriers[0] == s.retriers[0];
    assert InboxBatch(f) == InboxBatch(s) by {
      assert DueInbox(f) == DueInbox(s) && InboxPayloads(f) == InboxPayloads(s);
    }
    if t.Some? {
      assert u.value.retriers == t.value.retriers[..1];
    }
  }

  lemma FirstConsumes(s: State, a: ConsumerAction)
    requires Manned(s)
    ensures var t := ConsumerNext(s, 0, a);
            (t.Some? ==> Manned(t.value)) && ConsumerNext(First(s), 0, a) == FirstOf(t)
  {
    var f, t, u := First(s), ConsumerNext(s, 0, a), ConsumerNext(First(s), 0, a);
    assert f.consumers[0] == s.consumers[0];
    if t.Some? {
      assert u.value.consumers == t.value.consumers[..1];
    }
  }

  lemma FirstSteps(s: State, step: Step)
    requires Manned(s) && ByFirst(step)
    ensures Next(s, step).Some? ==> Manned(Next(s, step).value)
    ensures Next(First(s), step) == FirstOf(Next(s, step))
  {
    match step
    case Publish(_, a) => FirstPublishes(s, a);
    case Retry(_, a) => FirstRetries(s, a);
    case Consume(_, a) => FirstConsumes(s, a);
    case _ =>
  }

  /** Runs of the first workers are runs of the whole crew, and the other way round. */
  lemma {:induction false} FirstRuns(s: State, steps: seq<Step>)
    requires Manned(s) && AllByFirst(steps)
    ensures Run(s, steps).Some? ==> Manned(Run(s, steps).value)
    ensures Run(First(s), steps) == FirstOf(Run(s, steps))
  {
    if |steps| > 0 {
      var front := steps[..|steps| - 1];
      FirstRuns(s, front);
      if Run(s, front).Some? {
        FirstSteps(Run(s, front).value, steps[|steps| - 1]);
      }
    }
  }

  lemma {:induction false} FirstIsFaultFree(s: State, steps: seq<Step>, d: Duplicates)
    requires Manned(s) && AllByFirst(steps)
    ensures AllFaultFree(First(s), steps, d) == AllFaultFree(s, steps, d)
  {
    if |steps| > 0 {
      var front := steps[..|steps| - 1];
      FirstIsFaultFree(s, front, d);
      FirstRuns(s, front);
    }
  }
}
