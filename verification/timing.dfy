/** Clocks: what a tick does to journeys, jumps and rests, and the order in which it replays crossings. */
module Timing {
  import opened Model
  import opened Motions
  import opened ArbiterSpec
  import opened CrossingOrder
  import opened ArbiterTick

  /** The same journey, `ms` later. */
  predicate SameJourney(n: Motion, m: Motion, ms: int) {
    m.path == n.path && m.stepDuration == n.stepDuration && Travelled(m) == Travelled(n) + ms
  }

  lemma CompletedStepSameJourney(m: Motion)
    ensures SameJourney(m, CompleteStep(m), 0)
  {
    assert (m.stepIndex + 1) * m.stepDuration == m.stepIndex * m.stepDuration + m.stepDuration;
  }

  /** From t to u no clock has moved: surviving journeys have travelled as long as before, jumps are as old as before,
      and a rest is either an old one or has just begun. */
  ghost predicate Onward(t: Tick, u: Tick) {
    && |t.active| == |t.resolved| == |u.active| == |u.resolved| && |u.airborne| == |t.airborne|
    && (forall i :: Live(u.resolved, i) ==> Live(t.resolved, i) && SameJourney(t.active[i], u.active[i], 0))
    && (forall l :: 0 <= l < |t.airborne| ==>
          u.airborne[l].cell == t.airborne[l].cell && u.airborne[l].elapsed == t.airborne[l].elapsed)
    && (forall r :: r in u.resting ==> r in t.resting || r.elapsed == 0)
    && u.delta == t.delta && u.width == t.width && u.height == t.height
  }

  /** No clock has moved but that of a journey; at most one rest has begun. */
  ghost predicate ClocksStill(t: Tick, u: Tick) {
    && u.delta == t.delta && u.width == t.width && u.height == t.height
    && |u.airborne| == |t.airborne|
    && (forall l :: 0 <= l < |t.airborne| ==>
          u.airborne[l].cell == t.airborne[l].cell && u.airborne[l].elapsed == t.airborne[l].elapsed)
    && (forall r :: r in u.resting ==> r in t.resting || r.elapsed == 0)
  }

  lemma WalkInKeepsClocks(t: Tick, i: nat, captured: Option<CapturedPiece>)
    requires i < |t.active| == |t.resolved| && WellFormed(t.active[i]) && !IsComplete(t.active[i])
    requires CurrentCell(t.active[i]) in t.cells
    ensures ClocksStill(t, WalkIn(t, i, captured))
  {
  }

  lemma CrossingKeepsClocks(t: Tick, i: nat)
    requires GroundedTick(t) && Crossing(t, i)
    ensures ClocksStill(t, ResolveEntry(t, i))
  {
    var next := NextCell(t.active[i]);
    var watched := Watched(t, i);
    hide EntersLiftedCell, EntryOf;
    match ClassifyEntry(t, i)
    case BlockedByFriendly =>
    case CapturedByAirborne =>
    case Free => WalkInKeepsClocks(watched, i, None);
    case Capture =>
      CaptureKeepsGrounded(watched, next);
      var m := t.active[i];
      assert m.path[m.stepIndex] != m.path[m.stepIndex + 1];
      WalkInKeepsClocks(CaptureAt(watched, next), i, Some(TakenAt(t.cells, next)));
  }

  lemma CrossingIsOnward(t: Tick, i: nat)
    requires GroundedTick(t) && Crossing(t, i)
    ensures Onward(t, ResolveEntry(t, i))
  {
    var u := ResolveEntry(t, i);
    CrossingKeepsGrounded(t, i);
    CrossingKeepsClocks(t, i);
    hide ResolveEntry, Grounded;
    CompletedStepSameJourney(t.active[i]);
    hide CompleteStep;
    assert forall j :: Live(u.resolved, j) && j != i ==> u.active[j] == t.active[j];
  }

  lemma OnwardJoin(t: Tick, u: Tick, v: Tick)
    requires Onward(t, u) && Onward(u, v)
    ensures Onward(t, v)
  {
    forall i | Live(v.resolved, i)
      ensures Live(t.resolved, i) && SameJourney(t.active[i], v.active[i], 0)
    {
      assert Live(u.resolved, i);
    }
  }

  lemma {:induction false} PassIsOnward(t: Tick, order: seq<nat>)
    requires GroundedTick(t) && Pending(t, order)
    ensures Onward(t, Pass(t, order))
    decreases |order|
  {
    if order != [] {
      if Live(t.resolved, order[0]) {
        CrossingKeepsGrounded(t, order[0]);
        CrossingKeepsPending(t, order);
        CrossingIsOnward(t, order[0]);
        PassIsOnward(ResolveEntry(t, order[0]), order[1..]);
        OnwardJoin(t, ResolveEntry(t, order[0]), Pass(t, order));
      } else {
        PassIsOnward(t, order[1..]);
      }
    }
  }

  lemma {:induction false} ResolveAllIsOnward(t: Tick)
    requires GroundedTick(t)
    ensures Onward(t, ResolveAll(t))
    decreases Remaining(t.active, t.resolved)
  {
    var order := CrossingsByArrival(t.active, t.resolved);
    FoundCrossingsArePending(t);
    if order != [] {
      PassIsOnward(t, order);
      ResolveAllIsOnward(Pass(t, order));
      OnwardJoin(t, Pass(t, order), ResolveAll(t));
    }
  }

  /** The jump was under way before, `ms` younger. */
  ghost predicate IsOlder(before: seq<Jump>, j: Jump, ms: int) {
    exists i :: 0 <= i < |before| && before[i].cell == j.cell && j.elapsed == before[i].elapsed + ms
  }

  /** Landings, the first k jumps having been moved on: every jump left is an old one, its clock moved at most once. */
  ghost predicate JumpsAge(before: seq<Jump>, after: seq<Jump>, k: nat, delta: int) {
    forall l :: 0 <= l < |after| ==> IsOlder(before, after[l], if l < k then delta else 0)
  }

  lemma LandOneAges(t: Tick, k: nat, before: seq<Jump>)
    requires k < |t.airborne| && LandingsGrounded(t.cells, t.airborne)
    requires JumpsAge(before, t.airborne, k, t.delta)
    ensures JumpsAge(before, LandOne(t, k).airborne, NextJump(t, k), t.delta)
    ensures forall r :: r in LandOne(t, k).resting ==> r in t.resting || r.elapsed == 0
  {
    var u := LandOne(t, k);
    forall l | 0 <= l < |u.airborne|
      ensures IsOlder(before, u.airborne[l], if l < NextJump(t, k) then t.delta else 0)
    {
      var m := if HasLanded(AdvanceJump(t.airborne[k], t.delta)) && l >= k then l + 1 else l;
      var i :| 0 <= i < |before| && before[i].cell == t.airborne[m].cell
        && t.airborne[m].elapsed == before[i].elapsed + if m < k then t.delta else 0;
      assert u.airborne[l].cell == t.airborne[m].cell;
    }
  }

  lemma {:induction false} LandAllAges(t: Tick, k: nat, before: seq<Jump>)
    requires k <= |t.airborne| && LandingsGrounded(t.cells, t.airborne)
    requires JumpsAge(before, t.airborne, k, t.delta)
    ensures var u := LandAll(t, k);
            && JumpsAge(before, u.airborne, |u.airborne|, t.delta)
            && (forall r :: r in u.resting ==> r in t.resting || r.elapsed == 0)
            && u.active == t.active && u.width == t.width && u.height == t.height
    decreases |t.airborne| - k
  {
    if k < |t.airborne| {
      LandOneKeepsGrounded(t, k);
      LandOneAges(t, k, before);
      LandAllAges(LandOne(t, k), NextJump(t, k), before);
    }
  }

  lemma SameJourneyJoin(a: Motion, b: Motion, c: Motion, s: int, t: int)
    requires SameJourney(a, b, s) && SameJourney(b, c, t)
    ensures SameJourney(a, c, s + t)
  {
  }

  lemma AdvancedIsSameJourney(active: seq<Motion>, delta: int)
    ensures forall i :: 0 <= i < |active| ==> SameJourney(active[i], AdvanceAll(active, delta)[i], delta)
  {
  }

  /** The journey was under way before, `ms` younger. */
  ghost predicate GoesOn(before: seq<Motion>, m: Motion, ms: int) {
    exists i :: 0 <= i < |before| && SameJourney(before[i], m, ms)
  }

  /** A whole tick moves every clock by exactly its length. */
  ghost predicate Aged(w: World, v: World, delta: int) {
    && v.width == w.width && v.height == w.height
    && (forall k :: 0 <= k < |v.active| ==>
          GoesOn(w.active, v.active[k], delta))
    && (forall l :: 0 <= l < |v.airborne| ==> IsOlder(w.airborne, v.airborne[l], delta))
    && (forall r :: r in v.resting ==> r.elapsed == 0 || r.(elapsed := r.elapsed - delta) in w.resting)
  }

  lemma CrossingsAgeJourneys(w: World, delta: int)
    requires GroundedWorld(w)
    ensures var t := AfterCrossings(w, delta);
            forall k :: 0 <= k < |t.active| ==>
              GoesOn(w.active, t.active[k], delta)
  {
    var b := BeginTick(w, delta);
    BeginTickIsGrounded(w, delta);
    var r := ResolveAll(b);
    ResolveAllIsOnward(b);
    AdvancedIsSameJourney(w.active, delta);
    hide SameJourney;
    var t := AfterCrossings(w, delta);
    forall k | 0 <= k < |t.active|
      ensures GoesOn(w.active, t.active[k], delta)
    {
      var i := OldIndex(r.active, r.resolved, |r.active|, k);
      SameJourneyJoin(w.active[i], b.active[i], r.active[i], delta, 0);
    }
  }

  lemma CrossingsAgeTheRest(w: World, delta: int)
    requires GroundedWorld(w)
    ensures var t := AfterCrossings(w, delta);
            && JumpsAge(w.airborne, t.airborne, 0, delta) && t.delta == delta
            && (forall x :: x in t.resting ==> x.elapsed == 0 || x.(elapsed := x.elapsed - delta) in w.resting)
            && t.width == w.width && t.height == w.height
  {
    var b := BeginTick(w, delta);
    BeginTickIsGrounded(w, delta);
    ResolveAllIsOnward(b);
    var t := AfterCrossings(w, delta);
    forall l | 0 <= l < |t.airborne|
      ensures IsOlder(w.airborne, t.airborne[l], 0)
    {
      assert w.airborne[l].cell == t.airborne[l].cell;
    }
    forall x | x in t.resting
      ensures x.elapsed == 0 || x.(elapsed := x.elapsed - delta) in w.resting
    {
      if x in b.resting {
        RestsLeftAreAdvanced(w.resting, delta, x);
      }
    }
  }

  lemma LandingsAge(w: World, t: Tick, delta: int)
    requires LandingsGrounded(t.cells, t.airborne) && t.delta == delta && t.width == w.width && t.height == w.height
    requires forall k :: 0 <= k < |t.active| ==> GoesOn(w.active, t.active[k], delta)
    requires JumpsAge(w.airborne, t.airborne, 0, delta)
    requires forall x :: x in t.resting ==> x.elapsed == 0 || x.(elapsed := x.elapsed - delta) in w.resting
    ensures Aged(w, WorldOf(LandAll(t, 0)), delta)
  {
    hide GoesOn, IsOlder, LandAll;
    LandAllAges(t, 0, w.airborne);
  }

  /** Main step: no journey drifts. Whatever else the tick resolves, and however many squares it crosses, each journey
      still under way has travelled exactly `delta` longer. */
  lemma AdvanceAges(w: World, delta: int)
    requires GroundedWorld(w)
    requires var t := AfterCrossings(w, delta); LandingsGrounded(t.cells, t.airborne)
    ensures Aged(w, WorldOf(Advance(w, delta)), delta)
  {
    CrossingsAgeJourneys(w, delta);
    CrossingsAgeTheRest(w, delta);
    var t := AfterCrossings(w, delta);
    LandingsAge(w, t, delta);
    hide *;
    assert Advance(w, delta) == LandAll(t, 0) by { AdvanceIsLandAll(w, delta); }
  }

  lemma AdvanceIsLandAll(w: World, delta: int)
    requires GroundedWorld(w)
    requires var t := AfterCrossings(w, delta); LandingsGrounded(t.cells, t.airborne)
    ensures Advance(w, delta) == LandAll(AfterCrossings(w, delta), 0)
  {
  }

  /** With nothing under way a tick only moves the rests on: no crossing, no landing, no new rest. */
  lemma QuietTick(w: World, delta: int)
    requires w.active == [] && w.airborne == [] && GroundedWorld(w)
    ensures AfterCrossings(w, delta).clean
    ensures var t := AfterCrossings(w, delta);
            && LandingsGrounded(t.cells, t.airborne)
            && WorldOf(Advance(w, delta)).active == [] && WorldOf(Advance(w, delta)).airborne == []
            && Advance(w, delta).cells == CellsAfterRests(w.cells, w.resting, delta)
            && Advance(w, delta).resting == RestsLeft(w.resting, delta)
            && Advance(w, delta).reports == []
  {
    var b := BeginTick(w, delta);
    BeginTickIsGrounded(w, delta);
    assert b.active == [] && b.resolved == [];
    assert CrossingsByArrival(b.active, b.resolved) == [];
    assert ResolveAll(b) == b;
    assert DropResolved(b).active == [];
  }
}
