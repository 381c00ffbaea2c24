/** When a rule that is no longer the merchant's can still be returned: after an upsert, whatever happens
    between its two calls and whether or not the invalidation takes effect. */
module RuleCoherence {
  import opened Domain
  import opened Pipeline
  import opened RuleCache

  predicate Carries(r: Reader, rule: Rule) {
    (r.Holding? || r.Releasing?) ==> r.rule == rule
  }

  /** The live entry and every fill in progress carry the current rule. */
  ghost predicate Coherent(s: Shared) {
    && (Visible(s).Some? ==> Visible(s).value.rule == Snapshot(Current(s)))
    && forall w | 0 <= w < |s.readers| :: Carries(s.readers[w], Snapshot(Current(s)))
  }

  ghost predicate NoUpserts(steps: seq<CacheStep>) {
    forall k | 0 <= k < |steps| :: !steps[k].Upsert?
  }

  lemma StepKeepsCoherent(s: Shared, step: CacheStep)
    requires Coherent(s) && CacheNext(s, step).Some? && !step.Upsert?
    ensures var t := CacheNext(s, step).value;
            && Coherent(t) && Current(t) == Current(s) && |t.answers| >= |s.answers|
            && (forall i | 0 <= i < |s.answers| :: t.answers[i] == s.answers[i])
            && forall i | |s.answers| <= i < |t.answers| :: t.answers[i].rule == Snapshot(Current(s))
  {
    match step
    case Upsert(_) =>
    case Invalidate(_) =>
    case Pass(_) =>
    case _ =>
      var t := CacheNext(s, step).value;
      CoherentReader(s, step.w, step);
      ReaderFrames(s, step.w, step);
      assert forall i | 0 <= i < |s.answers| :: t.answers[i] == t.answers[..|s.answers|][i];
  }

  /** A reader of a coherent state takes on, sets and returns only the current rule. */
  lemma CoherentReader(s: Shared, w: nat, step: CacheStep)
    requires Coherent(s) && ReaderNext(s, w, step).Some?
    ensures var t := ReaderNext(s, w, step).value; var rule := Snapshot(Current(s));
            && t.history == s.history && Carries(t.readers[w], rule)
            && (Visible(t).Some? ==> Visible(t).value.rule == rule)
            && (|t.answers| > |s.answers| ==> t.answers[|s.answers|].rule == rule)
  {
    assert Carries(s.readers[w], Snapshot(Current(s)));
  }

  /** From a coherent state every rule returned before the next upsert is the current one. */
  lemma {:induction false} CoherentAnswersAreCurrent(s: Shared, steps: seq<CacheStep>)
    requires Coherent(s) && CacheRun(s, steps).Some? && NoUpserts(steps)
    ensures var t := CacheRun(s, steps).value;
            && Coherent(t) && Current(t) == Current(s) && |t.answers| >= |s.answers|
            && (forall i | 0 <= i < |s.answers| :: t.answers[i] == s.answers[i])
            && forall i | |s.answers| <= i < |t.answers| :: t.answers[i].rule == Snapshot(Current(s))
  {
    if |steps| > 0 {
      CoherentAnswersAreCurrent(s, steps[..|steps| - 1]);
      StepKeepsCoherent(CacheRun(s, steps[..|steps| - 1]).value, steps[|steps| - 1]);
    }
  }

  /** A fill that read the old rule before the upsert and has not returned yet. */
  ghost predicate StaleFill(s: Shared) {
    exists w :: 0 <= w < |s.readers| && !Carries(s.readers[w], Snapshot(Current(s)))
  }

  /** Some continuation without another upsert returns a rule that is not the current one. */
  ghost predicate CanReturnStale(s: Shared) {
    exists steps: seq<CacheStep> ::
      && NoUpserts(steps) && CacheRun(s, steps).Some?
      && AnswersStale(s, CacheRun(s, steps).value)
  }

  ghost predicate AnswersStale(s: Shared, t: Shared) {
    |t.answers| > |s.answers| && t.answers[|t.answers| - 1].rule != Snapshot(Current(s))
  }

  lemma FinishStaleFill(s: Shared, w: nat) returns (steps: seq<CacheStep>)
    requires |s.limits| == |s.readers| && w < |s.readers| && !Carries(s.readers[w], Snapshot(Current(s)))
    ensures NoUpserts(steps) && CacheRun(s, steps).Some? && AnswersStale(s, CacheRun(s, steps).value)
  {
    if s.readers[w].Releasing? {
      steps := [Unlock(w, Ok)];
      assert CacheRun(s, steps[..0]) == Some(s);
    } else if s.readers[w].lockedAt.None? {
      steps := [SetEntry(w, Ok)];
      assert CacheRun(s, steps[..0]) == Some(s);
    } else {
      steps := [SetEntry(w, Ok), Unlock(w, Ok)];
      assert steps[..1] == [SetEntry(w, Ok)];
      assert CacheRun(s, steps[..1][..0]) == Some(s);
      assert CacheRun(s, steps[..1]) == CacheNext(s, SetEntry(w, Ok));
    }
  }

  /** The entry is live and carries another rule. */
  predicate StaleEntry(s: Shared) {
    Visible(s).Some? && Visible(s).value.rule != Snapshot(Current(s))
  }

  /** Whatever a client is doing, it may stop and call again. */
  lemma HitStaleEntry(s: Shared) returns (steps: seq<CacheStep>)
    requires |s.limits| == |s.readers| && |s.readers| > 0 && StaleEntry(s)
    ensures NoUpserts(steps) && CacheRun(s, steps).Some? && AnswersStale(s, CacheRun(s, steps).value)
  {
    steps := [Crash(0), Get(0, Ok)];
    assert steps[..1] == [Crash(0)];
    assert CacheRun(s, steps[..1][..0]) == Some(s);
    assert CacheRun(s, steps[..1]) == CacheNext(s, Crash(0));
  }

  lemma {:induction false} NobodyAnswers(s: Shared, steps: seq<CacheStep>)
    requires s.readers == [] && CacheRun(s, steps).Some?
    ensures CacheRun(s, steps).value.readers == [] && CacheRun(s, steps).value.answers == s.answers
  {
    if |steps| > 0 {
      NobodyAnswers(s, steps[..|steps| - 1]);
    }
  }

  lemma CoherentIsNeverStale(t: Shared)
    requires Coherent(t) || t.readers == []
    ensures !CanReturnStale(t)
  {
    forall steps: seq<CacheStep> | NoUpserts(steps) && CacheRun(t, steps).Some?
      ensures !AnswersStale(t, CacheRun(t, steps).value)
    {
      if t.readers == [] {
        NobodyAnswers(t, steps);
      } else {
        CoherentAnswersAreCurrent(t, steps);
      }
    }
  }

  /** In any state, a rule that is not the current one can be returned before the next upsert exactly when a
      fill that read it is still under way, or the live entry carries it and there is a client to hit it. */
  lemma StaleExactly(t: Shared)
    requires |t.limits| == |t.readers|
    ensures CanReturnStale(t) <==> StaleFill(t) || (StaleEntry(t) && |t.readers| > 0)
  {
    if StaleFill(t) {
      var w :| 0 <= w < |t.readers| && !Carries(t.readers[w], Snapshot(Current(t)));
      var steps := FinishStaleFill(t, w);
    } else if StaleEntry(t) && |t.readers| > 0 {
      var steps := HitStaleEntry(t);
    } else {
      CoherentIsNeverStale(t);
    }
  }

  /** So once an invalidation has taken effect, whatever came between the upsert and it, only a fill that had
      read the old rule can bring it back. */
  lemma StaleExactlyWithRacingFill(s: Shared, rule: Rule, between: seq<CacheStep>)
    requires |s.limits| == |s.readers| && NoUpserts(between) && CacheRun(s, [Upsert(rule)] + between).Some?
    ensures var u := CacheRun(s, [Upsert(rule)] + between).value; var t := CacheNext(u, Invalidate(Ok)).value;
            && Snapshot(Current(t)) == rule && |t.limits| == |t.readers|
            && (CanReturnStale(t) <==> StaleFill(t))
  {
    var steps := [Upsert(rule)] + between;
    UpsertIsCurrent(s, rule, between);
    var u := CacheRun(s, steps).value;
    StaleExactly(CacheNext(u, Invalidate(Ok)).value);
  }

  lemma {:induction false} UpsertIsCurrent(s: Shared, rule: Rule, between: seq<CacheStep>)
    requires |s.limits| == |s.readers| && NoUpserts(between) && CacheRun(s, [Upsert(rule)] + between).Some?
    ensures var u := CacheRun(s, [Upsert(rule)] + between).value; Current(u) == Some(rule) && |u.limits| == |u.readers|
  {
    var steps := [Upsert(rule)] + between;
    if |between| == 0 {
      assert steps == [Upsert(rule)];
      assert CacheRun(s, steps[..0]) == Some(s);
    } else {
      var front, last := between[..|between| - 1], between[|between| - 1];
      assert steps[..|steps| - 1] == [Upsert(rule)] + front;
      UpsertIsCurrent(s, rule, front);
      var at := CacheRun(s, [Upsert(rule)] + front).value;
      match last
      case Upsert(_) =>
      case Invalidate(_) =>
      case Pass(_) =>
      case _ => ReaderFrames(at, last.w, last);
    }
  }
}
