/** Which rows one run of the replay tool can touch, whatever the other processes do meanwhile. */
module ReplayTool {
  import opened Domain
  import opened Pipeline
  import opened Invariants

  /** A replay by source id fetches the one row with that id, if there is one and the limit leaves room. */
  lemma FetchBySource(s: State, source: SourceId, limit: nat)
    requires Reachable(s)
    ensures var row := RowFor(s.inbox, source);
            FetchedInbox(s.inbox, BySource(source), limit)
            == if row < |s.inbox| && limit > 0 then [Saved(row, s.inbox[row].attempts)] else []
  {
    ReachableHasInv(s);
    OnlyTheSource(s.inbox, s.outbox, source, limit);
    if RowFor(s.inbox, source) < |s.inbox| && limit > 0 {
      FetchedInboxLeavesOut(s.inbox, BySource(source), limit, RowFor(s.inbox, source));
    }
  }

  lemma {:induction false} RowsSpread(rows: seq<Saved>)
    requires |rows| > 0 && forall j, k | 0 <= j < k < |rows| :: rows[j].id < rows[k].id
    ensures rows[|rows| - 1].id >= rows[0].id + |rows| - 1
  {
    if |rows| > 1 { RowsSpread(rows[..|rows| - 1]); }
  }

  lemma OnlyTheSource(inbox: seq<InboxRow>, outbox: seq<OutboxRow>, source: SourceId, limit: nat)
    requires InboxOk(outbox, inbox)
    ensures var rows, row := FetchedInbox(inbox, BySource(source), limit), RowFor(inbox, source);
            |rows| <= 1 && (|rows| == 1 ==> row < |inbox| && rows == [Saved(row, inbox[row].attempts)])
  {
    var rows, row := FetchedInbox(inbox, BySource(source), limit), RowFor(inbox, source);
    forall k | 0 <= k < |rows| ensures rows[k].id == row {
      assert inbox[rows[k].id].source == source;
    }
    if |rows| > 0 { RowsSpread(rows); }
  }

  /** The tool has yet to reset some of the rows it fetched, in their order. */
  ghost predicate Onto(y: Replayer, rows: seq<Saved>, reset: bool) {
    y == RepIdle || (y.RepInbox? && y.reset == reset && EndOf(y.rows, rows))
  }

  predicate EndOf(rest: seq<Saved>, rows: seq<Saved>) {
    |rest| <= |rows| && rest == rows[|rows| - |rest|..]
  }

  predicate IsFetchBy(step: Step, w: nat) {
    step.Replay? && step.w == w && (step.y.RepFetchInbox? || step.y.RepFetchOutbox?)
  }

  ghost predicate NoFetchBy(steps: seq<Step>, w: nat) {
    forall k | 0 <= k < |steps| :: !IsFetchBy(steps[k], w)
  }

  lemma OthersLeaveReplayer(s: State, step: Step, w: nat)
    requires Next(s, step).Some? && w < |s.replayers| && !(step.Replay? && step.w == w)
    ensures var t := Next(s, step).value; |t.replayers| == |s.replayers| && t.replayers[w] == s.replayers[w]
  {
    match step
    case Publish(v, a) => PublisherFrames(s, v, a);
    case Retry(v, a) => RetrierFrames(s, v, a);
    case Consume(v, a) => ConsumerFrames(s, v, a);
    case _ =>
  }

  lemma StepStaysOnto(s: State, step: Step, w: nat, rows: seq<Saved>, reset: bool)
    requires Next(s, step).Some? && w < |s.replayers| && Onto(s.replayers[w], rows, reset) && !IsFetchBy(step, w)
    ensures var t := Next(s, step).value; |t.replayers| == |s.replayers| && Onto(t.replayers[w], rows, reset)
  {
    if step.Replay? && step.w == w {
      var y := s.replayers[w];
      if y.RepInbox? && |y.rows| > 0 {
        assert y.rows[1..] == rows[|rows| - |y.rows| + 1..];
      }
    } else {
      OthersLeaveReplayer(s, step, w);
    }
  }

  lemma {:induction false} RunStaysOnto(s: State, steps: seq<Step>, w: nat, rows: seq<Saved>, reset: bool)
    requires Run(s, steps).Some? && w < |s.replayers| && Onto(s.replayers[w], rows, reset) && NoFetchBy(steps, w)
    ensures var t := Run(s, steps).value; |t.replayers| == |s.replayers| && Onto(t.replayers[w], rows, reset)
  {
    if |steps| > 0 {
      var front := steps[..|steps| - 1];
      RunStaysOnto(s, front, w, rows, reset);
      StepStaysOnto(Run(s, front).value, steps[|steps| - 1], w, rows, reset);
    }
  }

  /** The row matched the filter when the tool fetched. */
  predicate Matched(row: InboxRow, f: InboxFilter) {
    match f
    case BySource(source) => row.source == source
    case ByStatus(status) => row.status == status
  }

  /** Until it fetches again, a tool changes only inbox rows that matched its filter when it fetched, and it
      gives each no attempts or those of that time. */
  lemma TouchesOnlyMatches(
    s: State, w: nat, f: InboxFilter, limit: nat, reset: bool, steps: seq<Step>, u: State, a: ReplayerAction, i: nat)
    requires w < |s.replayers| && s.replayers[w] == RepIdle && NoFetchBy(steps, w)
    requires Run(Fetched(s, w, f, limit, reset), steps) == Some(u) && ReplayerNext(u, w, a).Some?
    requires !a.RepFetchInbox? && !a.RepFetchOutbox? && i < |u.inbox|
    ensures var v := ReplayerNext(u, w, a).value;
            && v.outbox == u.outbox && i < |v.inbox|
            && (v.inbox[i] != u.inbox[i] ==>
                  && i < |s.inbox| && Matched(s.inbox[i], f)
                  && v.inbox[i].attempts == if reset then 0 else s.inbox[i].attempts)
  {
    var rows := FetchedInbox(s.inbox, f, limit);
    assert rows[0..] == rows;
    RunStaysOnto(Fetched(s, w, f, limit, reset), steps, w, rows, reset);
    var y := u.replayers[w];
    if y.RepInbox? && |y.rows| > 0 {
      assert y.rows[0] == rows[|rows| - |y.rows|];
    }
  }

  /** The state after the tool's fetch. */
  function Fetched(s: State, w: nat, f: InboxFilter, limit: nat, reset: bool): (t: State)
    requires w < |s.replayers| && s.replayers[w] == RepIdle
    ensures Next(s, Replay(w, RepFetchInbox(f, limit, reset))) == Some(t)
  {
    WithReplayer(s, w, RepInbox(FetchedInbox(s.inbox, f, limit), reset))
  }

  /** So a replay by source id never touches a row with another id, in either table. */
  lemma TouchesOnlyTheSource(
    s: State, w: nat, source: SourceId, limit: nat, reset: bool, steps: seq<Step>, u: State, a: ReplayerAction, i: nat)
    requires w < |s.replayers| && s.replayers[w] == RepIdle && Inv(s) && NoFetchBy(steps, w)
    requires Run(Fetched(s, w, BySource(source), limit, reset), steps) == Some(u) && ReplayerNext(u, w, a).Some?
    requires !a.RepFetchInbox? && !a.RepFetchOutbox? && i < |u.inbox| && u.inbox[i].source != source
    ensures ReplayerNext(u, w, a).value.inbox[i] == u.inbox[i] && ReplayerNext(u, w, a).value.outbox == u.outbox
  {
    TouchesOnlyMatches(s, w, BySource(source), limit, reset, steps, u, a, i);
    var t := Fetched(s, w, BySource(source), limit, reset);
    StepKeepsInv(s, Replay(w, RepFetchInbox(BySource(source), limit, reset)));
    RunGrowsInbox(t, steps);
  }
}
