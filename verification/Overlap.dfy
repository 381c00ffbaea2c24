/** Keyed requests that overlap: each request is a lookup of its key, the effect, and the upsert that saves the
    reply, and any number of processes interleave them and may die in between. */
module Overlap {
  import opened Domain
  import opened Idempotency

  /** Where one process stands: its lookup missed, or its effect took place and its reply is to be saved. */
  datatype Place = Free | Missed(request: Request) | Acted(request: Request, reply: Reply)

  /** The tables, the processes, and the replies given so far. */
  datatype Desk = Desk(api: Api, places: seq<Place>, replies: seq<(Request, Reply)>)

  datatype DeskStep = Lookup(w: nat, request: Request) | Act(w: nat) | Save(w: nat) | Die(w: nat)

  type Slot = (string, Scope)

  predicate InSlot(r: Request, slot: Slot) {
    r.key == Some(slot.0) && ScopeOf(r) == slot.1
  }

  /** The request is under way for the slot: it has missed and not saved. */
  predicate Holds(p: Place, slot: Slot) {
    !p.Free? && InSlot(p.request, slot)
  }

  function At(d: Desk, w: nat, p: Place): Desk
    requires w < |d.places|
  {
    d.(places := d.places[w := p])
  }

  /** A saved reply is replayed or the reuse refused; otherwise the request goes on to its effect. */
  function AfterLookup(d: Desk, w: nat, r: Request): Desk
    requires w < |d.places|
  {
    if r.key.Some? && (r.key.value, ScopeOf(r)) in d.api.keys then
      var saved := d.api.keys[(r.key.value, ScopeOf(r))];
      d.(replies := d.replies + [(r, if saved.hash == HashOf(r) then saved.reply else KeyReused)])
    else At(d, w, Missed(r))
  }

  /** The insert, or the confirm transaction; a request without a key, or a rejected one, ends here. */
  function AfterAct(d: Desk, w: nat, r: Request): Desk
    requires w < |d.places|
  {
    var (api, reply) := Effect(d.api, r);
    var e := d.(api := api);
    if r.key.None? || reply.Rejected? then At(e, w, Free).(replies := e.replies + [(r, reply)])
    else At(e, w, Acted(r, reply))
  }

  /** The upsert: a reply that is already saved is replaced. */
  function AfterSave(d: Desk, w: nat, r: Request, reply: Reply): Desk
    requires w < |d.places| && r.key.Some?
  {
    var slot := (r.key.value, ScopeOf(r));
    At(d, w, Free).(api := d.api.(keys := d.api.keys[slot := SavedReply(HashOf(r), reply)]),
                    replies := d.replies + [(r, reply)])
  }

  function DeskNext(d: Desk, step: DeskStep): Option<Desk> {
    if step.w >= |d.places| then None
    else
      match step
      case Lookup(w, r) => if d.places[w].Free? then Some(AfterLookup(d, w, r)) else None
      case Act(w) => if d.places[w].Missed? then Some(AfterAct(d, w, d.places[w].request)) else None
      case Save(w) =>
        if d.places[w].Acted? && d.places[w].request.key.Some?
        then Some(AfterSave(d, w, d.places[w].request, d.places[w].reply)) else None
      case Die(w) => Some(At(d, w, Free))
  }

  function DeskRun(d: Desk, steps: seq<DeskStep>): Option<Desk> {
    if |steps| == 0 then Some(d)
    else
      var before := DeskRun(d, steps[..|steps| - 1]);
      if before.None? then None else DeskNext(before.value, steps[|steps| - 1])
  }

  lemma DeskExtends(d: Desk, steps: seq<DeskStep>, e: Desk, step: DeskStep)
    requires DeskRun(d, steps) == Some(e)
    ensures DeskRun(d, steps + [step]) == DeskNext(e, step)
  {
    assert (steps + [step])[..|steps|] == steps;
  }

  // ---------------------------------------------------------------- requests one after the other

  /** A request that nothing interrupts is the served request of module Idempotency, dead or alive. */
  lemma AloneIsServed(d: Desk, w: nat, r: Request, dies: bool) returns (steps: seq<DeskStep>, e: Desk)
    requires w < |d.places| && d.places[w] == Free
    ensures DeskRun(d, steps) == Some(e)
    ensures e.api == Serve(d.api, r, dies).0 && e.places == d.places
    ensures !dies ==> e.replies == d.replies + [(r, Serve(d.api, r, dies).1)]
  {
    var s1 := AfterLookup(d, w, r);
    steps, e := [] + [Lookup(w, r)], s1;
    DeskExtends(d, [], d, Lookup(w, r));
    if s1.places[w].Missed? {
      var s2 := AfterAct(s1, w, r);
      DeskExtends(d, steps, s1, Act(w));
      steps, e := steps + [Act(w)], s2;
      if s2.places[w].Acted? {
        var last := if dies then Die(w) else Save(w);
        DeskExtends(d, steps, s2, last);
        steps, e := steps + [last], DeskNext(s2, last).value;
      }
    }
    assert e.places == d.places;
  }

  // ---------------------------------------------------------------- what happens to a slot

  predicate Held(d: Desk, slot: Slot) {
    exists v | 0 <= v < |d.places| :: Holds(d.places[v], slot)
  }

  predicate Idle(d: Desk) {
    forall v | 0 <= v < |d.places| :: d.places[v] == Free
  }

  datatype Event = Miss | Overlapping | Insert | Unmade | Drop | Saving | Replacing

  /** A lookup misses; it misses while another request for the slot is under way; a create inserts its order; a
      process dies before the effect; a request ends without a saved reply, by death or rejection; a reply is
      saved; a reply is saved over another. */
  predicate Is(d: Desk, step: DeskStep, slot: Slot, e: Event) {
    && step.w < |d.places|
    && var p := d.places[step.w];
    match e
    case Miss => step.Lookup? && InSlot(step.request, slot) && slot !in d.api.keys
    case Overlapping => step.Lookup? && InSlot(step.request, slot) && slot !in d.api.keys && Held(d, slot)
    case Insert => step.Act? && p.Missed? && Holds(p, slot) && p.request.CreateOrder?
    case Unmade => step.Die? && p.Missed? && Holds(p, slot)
    case Drop =>
      Holds(p, slot) && (step.Die? || (step.Act? && p.Missed? && Effect(d.api, p.request).1.Rejected?))
    case Saving => step.Save? && Holds(p, slot)
    case Replacing => step.Save? && Holds(p, slot) && slot in d.api.keys
  }

  function Bit(b: bool): nat {
    if b then 1 else 0
  }

  function Count(d: Desk, steps: seq<DeskStep>, slot: Slot, e: Event): nat {
    if |steps| == 0 then 0
    else
      var at := DeskRun(d, steps[..|steps| - 1]);
      Count(d, steps[..|steps| - 1], slot, e) + Bit(at.Some? && Is(at.value, steps[|steps| - 1], slot, e))
  }

  /** The requests for the slot that are under way, or of these the ones before their effect. */
  predicate Counted(p: Place, slot: Slot, early: bool) {
    Holds(p, slot) && (early ==> p.Missed?)
  }

  function UnderWay(places: seq<Place>, slot: Slot, early: bool): nat {
    if |places| == 0 then 0
    else UnderWay(places[..|places| - 1], slot, early) + Bit(Counted(places[|places| - 1], slot, early))
  }

  lemma {:induction false} UnderWayUpdate(places: seq<Place>, w: nat, p: Place, slot: Slot, early: bool)
    requires w < |places|
    ensures UnderWay(places[w := p], slot, early) + Bit(Counted(places[w], slot, early))
            == UnderWay(places, slot, early) + Bit(Counted(p, slot, early))
  {
    var n := |places| - 1;
    if w == n {
      assert places[w := p][..n] == places[..n];
    } else {
      assert places[w := p][..n] == places[..n][w := p];
      UnderWayUpdate(places[..n], w, p, slot, early);
    }
  }

  lemma {:induction false} NoneUnderWay(places: seq<Place>, slot: Slot, early: bool)
    requires forall v | 0 <= v < |places| :: !Holds(places[v], slot)
    ensures UnderWay(places, slot, early) == 0
  {
    if |places| > 0 { NoneUnderWay(places[..|places| - 1], slot, early); }
  }

  lemma {:induction false} HeldIsUnderWay(places: seq<Place>, slot: Slot, v: nat)
    requires v < |places| && Holds(places[v], slot)
    ensures UnderWay(places, slot, false) > 0
  {
    if v < |places| - 1 { HeldIsUnderWay(places[..|places| - 1], slot, v); }
  }

  /** A step moves one process, and what it does to the slot follows from the event it is. */
  lemma StepAccounts(d: Desk, step: DeskStep, slot: Slot)
    requires DeskNext(d, step).Some?
    ensures UnderWay(DeskNext(d, step).value.places, slot, false)
            + Bit(Is(d, step, slot, Saving)) + Bit(Is(d, step, slot, Drop))
            == UnderWay(d.places, slot, false) + Bit(Is(d, step, slot, Miss))
  {
    var e := DeskNext(d, step).value;
    if e.places != d.places {
      assert e.places == d.places[step.w := e.places[step.w]];
      UnderWayUpdate(d.places, step.w, e.places[step.w], slot, false);
    }
  }

  lemma StepSaves(d: Desk, step: DeskStep, slot: Slot)
    requires DeskNext(d, step).Some? && KeysOk(d)
    ensures var e := DeskNext(d, step).value;
            && Bit(slot in e.api.keys) + Bit(Is(d, step, slot, Replacing))
               == Bit(slot in d.api.keys) + Bit(Is(d, step, slot, Saving))
            && KeysOk(e)
  {}

  /** Only keyed requests wait for their save. */
  predicate KeysOk(d: Desk) {
    forall v | 0 <= v < |d.places| && d.places[v].Acted? :: d.places[v].request.key.Some?
  }

  lemma StepAccountsOrders(d: Desk, step: DeskStep, key: string)
    requires DeskNext(d, step).Some?
    ensures var slot := (key, CreateScope); var e := DeskNext(d, step).value;
            UnderWay(e.places, slot, true) + Bit(Is(d, step, slot, Insert)) + Bit(Is(d, step, slot, Unmade))
            == UnderWay(d.places, slot, true) + Bit(Is(d, step, slot, Miss))
  {
    var slot, e := (key, CreateScope), DeskNext(d, step).value;
    if e.places != d.places {
      assert e.places == d.places[step.w := e.places[step.w]];
      UnderWayUpdate(d.places, step.w, e.places[step.w], slot, true);
    }
  }

  /** Every missed lookup ends in a saved reply, a dropped request, or is under way; and all saved replies but
      the one that stays were replaced. */
  lemma {:induction false} MissesAccounted(d: Desk, steps: seq<DeskStep>, slot: Slot)
    requires Idle(d) && slot !in d.api.keys && DeskRun(d, steps).Some?
    ensures var e := DeskRun(d, steps).value;
            && Count(d, steps, slot, Miss) == Count(d, steps, slot, Saving) + Count(d, steps, slot, Drop)
                                              + UnderWay(e.places, slot, false)
            && Count(d, steps, slot, Saving) == Count(d, steps, slot, Replacing) + Bit(slot in e.api.keys)
            && KeysOk(e)
  {
    if |steps| == 0 {
      NoneUnderWay(d.places, slot, false);
    } else {
      MissesAccounted(d, steps[..|steps| - 1], slot);
      StepAccounts(DeskRun(d, steps[..|steps| - 1]).value, steps[|steps| - 1], slot);
      StepSaves(DeskRun(d, steps[..|steps| - 1]).value, steps[|steps| - 1], slot);
    }
  }

  /** A key has created one order for each lookup of it that missed, except those whose process died before the
      insert or has yet to reach it. */
  lemma {:induction false} OrdersAreMisses(d: Desk, steps: seq<DeskStep>, key: string)
    requires Idle(d) && DeskRun(d, steps).Some?
    ensures var slot := (key, CreateScope);
            Count(d, steps, slot, Insert) + Count(d, steps, slot, Unmade)
            + UnderWay(DeskRun(d, steps).value.places, slot, true)
            == Count(d, steps, slot, Miss)
  {
    if |steps| == 0 {
      NoneUnderWay(d.places, (key, CreateScope), true);
    } else {
      OrdersAreMisses(d, steps[..|steps| - 1], key);
      StepAccountsOrders(DeskRun(d, steps[..|steps| - 1]).value, steps[|steps| - 1], key);
    }
  }

  // ---------------------------------------------------------------- at most one

  /** As long as no lookup overlapped, at most one request is under way, and none once a reply is saved. */
  predicate Orderly(d: Desk, slot: Slot) {
    UnderWay(d.places, slot, false) + Bit(slot in d.api.keys) <= 1
  }

  lemma StepKeepsOrderly(d: Desk, step: DeskStep, slot: Slot)
    requires Orderly(d, slot) && KeysOk(d) && DeskNext(d, step).Some? && !Is(d, step, slot, Overlapping)
    ensures Orderly(DeskNext(d, step).value, slot) && !Is(d, step, slot, Replacing)
  {
    StepAccounts(d, step, slot);
    StepSaves(d, step, slot);
    if Is(d, step, slot, Miss) {
      NoneUnderWay(d.places, slot, false);
    }
    if Is(d, step, slot, Replacing) {
      HeldIsUnderWay(d.places, slot, step.w);
    }
  }

  lemma {:induction false} WithoutOverlap(d: Desk, steps: seq<DeskStep>, slot: Slot)
    requires Idle(d) && slot !in d.api.keys && DeskRun(d, steps).Some? && Count(d, steps, slot, Overlapping) == 0
    ensures Orderly(DeskRun(d, steps).value, slot) && Count(d, steps, slot, Replacing) == 0
  {
    if |steps| == 0 {
      NoneUnderWay(d.places, slot, false);
    } else {
      WithoutOverlap(d, steps[..|steps| - 1], slot);
      MissesAccounted(d, steps[..|steps| - 1], slot);
      StepKeepsOrderly(DeskRun(d, steps[..|steps| - 1]).value, steps[|steps| - 1], slot);
    }
  }

  /** A lookup that overlaps is at least the second miss. */
  lemma {:induction false} OverlapIsSecondMiss(d: Desk, steps: seq<DeskStep>, slot: Slot)
    requires Idle(d) && slot !in d.api.keys && DeskRun(d, steps).Some? && Count(d, steps, slot, Overlapping) > 0
    ensures Count(d, steps, slot, Miss) >= 2
  {
    if |steps| > 0 {
      var front, last := steps[..|steps| - 1], steps[|steps| - 1];
      var at := DeskRun(d, front).value;
      MissesAccounted(d, front, slot);
      if Is(at, last, slot, Overlapping) {
        var v :| 0 <= v < |at.places| && Holds(at.places[v], slot);
        HeldIsUnderWay(at.places, slot, v);
      } else {
        OverlapIsSecondMiss(d, front, slot);
      }
    }
  }

  /** When every request for a key has completed and none was dropped, the key has created at most one order, and
      no saved reply was ever replaced, exactly when no lookup of it missed while another request with it was
      under way. The orders then are the replaced replies plus the one that stays. */
  lemma OneOrderExactlyWithoutOverlap(d: Desk, steps: seq<DeskStep>, key: string)
    requires Idle(d) && (key, CreateScope) !in d.api.keys && DeskRun(d, steps).Some?
    requires !Held(DeskRun(d, steps).value, (key, CreateScope)) && Count(d, steps, (key, CreateScope), Drop) == 0
    ensures var slot := (key, CreateScope); var e := DeskRun(d, steps).value;
            && (Count(d, steps, slot, Insert) <= 1 <==> Count(d, steps, slot, Overlapping) == 0)
            && (Count(d, steps, slot, Replacing) == 0 <==> Count(d, steps, slot, Overlapping) == 0)
            && Count(d, steps, slot, Insert) == Count(d, steps, slot, Replacing) + Bit(slot in e.api.keys)
  {
    var slot, e := (key, CreateScope), DeskRun(d, steps).value;
    MissesAccounted(d, steps, slot);
    OrdersAreMisses(d, steps, key);
    UnmadeIsDropped(d, steps, slot);
    NoneUnderWay(e.places, slot, false);
    NoneUnderWay(e.places, slot, true);
    if Count(d, steps, slot, Overlapping) == 0 {
      WithoutOverlap(d, steps, slot);
    } else {
      OverlapIsSecondMiss(d, steps, slot);
    }
  }

  lemma {:induction false} UnmadeIsDropped(d: Desk, steps: seq<DeskStep>, slot: Slot)
    ensures Count(d, steps, slot, Unmade) <= Count(d, steps, slot, Drop)
  {
    if |steps| > 0 { UnmadeIsDropped(d, steps[..|steps| - 1], slot); }
  }

  // ---------------------------------------------------------------- which reply stays

  /** The reply that the last save for the slot wrote. */
  function LastSaved(d: Desk, steps: seq<DeskStep>, slot: Slot): Option<SavedReply> {
    if |steps| == 0 then None
    else
      var at, last := DeskRun(d, steps[..|steps| - 1]), steps[|steps| - 1];
      if at.Some? && Is(at.value, last, slot, Saving) && at.value.places[last.w].Acted?
      then Some(SavedReply(HashOf(at.value.places[last.w].request), at.value.places[last.w].reply))
      else LastSaved(d, steps[..|steps| - 1], slot)
  }

  /** The saved reply is the one of the request that saved last; every earlier one was handed out and is gone. */
  lemma {:induction false} LastSaveStays(d: Desk, steps: seq<DeskStep>, slot: Slot)
    requires slot !in d.api.keys && DeskRun(d, steps).Some?
    ensures var keys := DeskRun(d, steps).value.api.keys;
            LastSaved(d, steps, slot) == if slot in keys then Some(keys[slot]) else None
  {
    if |steps| > 0 {
      LastSaveStays(d, steps[..|steps| - 1], slot);
    }
  }

  // ---------------------------------------------------------------- confirms

  /** The request is told that it was rejected, or that its own order is confirmed; never of a reused key. */
  predicate OwnOutcome(r: Request, reply: Reply) {
    r.ConfirmOrder? ==> reply.Rejected? || (reply.OrderConfirmed? && reply.id == r.id)
  }

  /** What is saved under a confirm scope has that scope's hash and order; what waits to be saved, and what was
      handed out, answers its request. */
  ghost predicate ConfirmsAnswered(d: Desk) {
    && (forall slot | slot in d.api.keys && slot.1.ConfirmScope? ::
          d.api.keys[slot].hash == Hash(slot.1, None) && d.api.keys[slot].reply.OrderConfirmed?
          && d.api.keys[slot].reply.id == slot.1.id)
    && (forall v | 0 <= v < |d.places| && d.places[v].Acted? ::
          OwnOutcome(d.places[v].request, d.places[v].reply) && !d.places[v].reply.Rejected?)
    && (forall i | 0 <= i < |d.replies| :: OwnOutcome(d.replies[i].0, d.replies[i].1))
  }

  lemma StepAnswersConfirms(d: Desk, step: DeskStep)
    requires ConfirmsAnswered(d) && DeskNext(d, step).Some?
    ensures ConfirmsAnswered(DeskNext(d, step).value)
  {}

  lemma {:induction false} RunAnswersConfirms(d: Desk, steps: seq<DeskStep>)
    requires ConfirmsAnswered(d) && DeskRun(d, steps).Some?
    ensures ConfirmsAnswered(DeskRun(d, steps).value)
  {
    if |steps| > 0 {
      RunAnswersConfirms(d, steps[..|steps| - 1]);
      StepAnswersConfirms(DeskRun(d, steps[..|steps| - 1]).value, steps[|steps| - 1]);
    }
  }

  /** However confirms overlap, with each other and with creates, and whoever dies: no confirm is told that its
      key was reused, and each is answered for its own order. */
  lemma OverlappingConfirmsNeverConflict(d: Desk, steps: seq<DeskStep>, i: nat)
    requires Idle(d) && d.api.keys == map[] && d.replies == [] && DeskRun(d, steps).Some?
    requires i < |DeskRun(d, steps).value.replies|
    ensures var (request, reply) := DeskRun(d, steps).value.replies[i];
            request.ConfirmOrder? ==> !reply.KeyReused? && OwnOutcome(request, reply)
  {
    RunAnswersConfirms(d, steps);
  }

  // ---------------------------------------------------------------- an overlap

  /** Two creates with one key that both look it up before either saves: two orders, the first caller has the
      reply of the first, and every later caller gets the reply of the second. */
  lemma OverlapCreatesTwice(a: Api, body: OrderBody, key: string) returns (steps: seq<DeskStep>, e: Desk)
    requires (key, CreateScope) !in a.keys
    ensures DeskRun(Desk(a, [Free, Free], []), steps) == Some(e) && Idle(e)
    ensures var r := CreateOrder(Some(key), body); var n := |a.orders|;
            && |e.api.orders| == n + 2
            && e.replies == [(r, OrderCreated(n, body)), (r, OrderCreated(n + 1, body))]
            && Serve(e.api, r, false) == (e.api, OrderCreated(n + 1, body))
  {
    var r, n := CreateOrder(Some(key), body), |a.orders|;
    var d := Desk(a, [Free, Free], []);
    var first, second := Acted(r, OrderCreated(n, body)), Acted(r, OrderCreated(n + 1, body));
    var b := Effect(a, r).0;
    var d2, d4 := d.(places := [Missed(r), Missed(r)]), Desk(Effect(b, r).0, [first, second], []);
    var ls := BothLookUp(d, r);
    var acts := BothAct(d2, d4, r, first, second);
    var d5 := AfterSave(d4, 0, r, first.reply);
    DeskConcat(d, ls, d2, acts, d4);
    DeskExtends(d, ls + acts, d4, Save(0));
    DeskExtends(d, ls + acts + [Save(0)], d5, Save(1));
    steps, e := ls + acts + [Save(0)] + [Save(1)], AfterSave(d5, 1, r, second.reply);
  }

  lemma {:induction false} DeskConcat(d: Desk, a: seq<DeskStep>, m: Desk, b: seq<DeskStep>, e: Desk)
    requires DeskRun(d, a) == Some(m) && DeskRun(m, b) == Some(e)
    ensures DeskRun(d, a + b) == Some(e)
  {
    if |b| == 0 {
      assert a + b == a;
    } else {
      var front := b[..|b| - 1];
      DeskConcat(d, a, m, front, DeskRun(m, front).value);
      assert (a + b)[..|a + b| - 1] == a + front;
    }
  }

  lemma BothLookUp(d: Desk, r: Request) returns (steps: seq<DeskStep>)
    requires d.places == [Free, Free] && r.key.Some? && (r.key.value, ScopeOf(r)) !in d.api.keys
    ensures DeskRun(d, steps) == Some(d.(places := [Missed(r), Missed(r)]))
  {
    var m := d.(places := [Missed(r), Free]);
    assert DeskNext(d, Lookup(0, r)) == Some(m) by {
      assert d.places[0 := Missed(r)] == [Missed(r), Free];
    }
    assert DeskNext(m, Lookup(1, r)) == Some(d.(places := [Missed(r), Missed(r)])) by {
      assert m.places[1 := Missed(r)] == [Missed(r), Missed(r)];
    }
    DeskExtends(d, [], d, Lookup(0, r));
    DeskExtends(d, [] + [Lookup(0, r)], m, Lookup(1, r));
    steps := [] + [Lookup(0, r)] + [Lookup(1, r)];
  }

  lemma BothAct(d: Desk, e: Desk, r: Request, first: Place, second: Place) returns (steps: seq<DeskStep>)
    requires d.places == [Missed(r), Missed(r)] && r.key.Some? && r.CreateOrder?
    requires var (b, one) := Effect(d.api, r); var (c, two) := Effect(b, r);
             first == Acted(r, one) && second == Acted(r, two) && e == Desk(c, [first, second], d.replies)
    ensures DeskRun(d, steps) == Some(e)
  {
    var m := Desk(Effect(d.api, r).0, [first, Missed(r)], d.replies);
    assert DeskNext(d, Act(0)) == Some(m) by {
      assert d.places[0 := first] == [first, Missed(r)];
    }
    assert DeskNext(m, Act(1)) == Some(e) by {
      assert m.places[1 := second] == [first, second];
    }
    DeskExtends(d, [], d, Act(0));
    DeskExtends(d, [] + [Act(0)], m, Act(1));
    steps := [] + [Act(0)] + [Act(1)];
  }
}
