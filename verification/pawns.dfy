/** Pawns on their promotion row: none before a tick, and after it only ones whose arrival is reported. */
module Pawns {
  import opened Model
  import opened Motions
  import opened ArbiterSpec
  import opened CrossingOrder
  import opened ArbiterTick
  import opened ArbiterInvariant
  import opened CrossingKeeps
  import opened TickKeeps
  import opened LandingKeeps

  predicate OnLastRow(p: Piece, at: Position, height: int) {
    p.kind == Pawn && at.row == PromotionRow(p.color, height)
  }

  ghost predicate ReportedAt(reports: seq<ArrivalReport>, c: Position) {
    exists k :: 0 <= k < |reports| && reports[k].landed && reports[k].destination == c
  }

  /** A pawn on its promotion row has just arrived there and rests; none was lifted off such a square. */
  ghost predicate PawnsDue(height: int, cells: Cells, airborne: seq<Jump>, reports: seq<ArrivalReport>) {
    && (forall c :: c in cells && OnLastRow(cells[c], c, height) ==>
          cells[c].state == Resting && ReportedAt(reports, c))
    && (forall l :: 0 <= l < |airborne| && IsLifted(airborne[l]) ==>
          !OnLastRow(airborne[l].lifted.value, airborne[l].cell, height))
  }

  /** Between calls: no pawn in play is on its promotion row, and none will pass over it. */
  ghost predicate PawnsPromoted(w: World)
    requires GroundedWorld(w)
  {
    && PawnsDue(w.height, w.cells, w.airborne, [])
    && PawnsStopAtLastRow(w.height, w.cells, w.active, AllUnresolved(|w.active|))
  }

  ghost predicate PawnsWatched(t: Tick)
    requires GroundedTick(t)
  {
    && PawnsDue(t.height, t.cells, t.airborne, t.reports)
    && PawnsStopAtLastRow(t.height, t.cells, t.active, t.resolved)
  }

  lemma StaysReported(reports: seq<ArrivalReport>, more: seq<ArrivalReport>, c: Position)
    requires ReportedAt(reports, c) && reports <= more
    ensures ReportedAt(more, c)
  {
    var k :| 0 <= k < |reports| && reports[k].landed && reports[k].destination == c;
    assert more[k] == reports[k];
  }

  lemma PawnsStayDue(
    height: int, cells: Cells, airborne: seq<Jump>, reports: seq<ArrivalReport>,
    after: Cells, more: seq<ArrivalReport>, spot: Position)
    requires PawnsDue(height, cells, airborne, reports) && reports <= more
    requires forall c :: c in after && c != spot ==> c in cells && after[c] == cells[c]
    requires spot in after && OnLastRow(after[spot], spot, height) ==>
               after[spot].state == Resting && ReportedAt(more, spot)
    ensures PawnsDue(height, after, airborne, more)
  {
    forall c | c in after && OnLastRow(after[c], c, height)
      ensures after[c].state == Resting && ReportedAt(more, c)
    {
      if c != spot {
        StaysReported(reports, more, c);
      }
    }
  }

  lemma LastReportCounts(reports: seq<ArrivalReport>, r: ArrivalReport)
    requires r.landed
    ensures ReportedAt(reports + [r], r.destination) && reports <= reports + [r]
  {
    assert (reports + [r])[|reports|] == r;
  }

  lemma WalkInKeepsPawns(t: Tick, i: nat, captured: Option<CapturedPiece>)
    requires GroundedTick(t) && Crossing(t, i) && NextCell(t.active[i]) !in t.cells
    requires t.cells[CurrentCell(t.active[i])].state == Moving
    requires PawnsWatched(t)
    ensures GroundedTick(WalkIn(t, i, captured)) && PawnsWatched(WalkIn(t, i, captured))
  {
    var u := WalkIn(t, i, captured);
    var m := t.active[i];
    var from, to := CurrentCell(m), NextCell(m);
    WalkInKeepsGrounded(t, i, captured);
    var mover := t.cells[from];
    if IsComplete(CompleteStep(m)) {
      assert m.path[|m.path| - 1] == to;
      LastReportCounts(t.reports, ArrivalReport(to, true, captured));
      assert u.reports == t.reports + [ArrivalReport(to, true, captured)];
      assert u.cells[to].state == Resting;
    } else {
      assert m.path[m.stepIndex + 1] == to;
      assert !OnLastRow(mover, to, t.height);
    }
    PawnsStayDue(t.height, t.cells, t.airborne, t.reports, u.cells, u.reports, to);
    forall j, k | Live(u.resolved, j) && u.active[j].stepIndex < k < |u.active[j].path| - 1
      && u.cells[CurrentCell(u.active[j])].kind == Pawn
      ensures u.active[j].path[k].row != PromotionRow(u.cells[CurrentCell(u.active[j])].color, t.height)
    {
      assert Live(t.resolved, j);
      if j != i {
        assert CurrentCell(u.active[j]) != from && CurrentCell(u.active[j]) != to;
      }
    }
  }

  lemma CaptureKeepsPawns(t: Tick, cell: Position)
    requires GroundedTick(t) && cell in t.cells && PawnsWatched(t)
    ensures GroundedTick(CaptureAt(t, cell)) && PawnsWatched(CaptureAt(t, cell))
  {
    CaptureKeepsGrounded(t, cell);
  }

  lemma BlockKeepsPawns(t: Tick, i: nat)
    requires GroundedTick(t) && Crossing(t, i) && PawnsWatched(t)
    requires t.cells[CurrentCell(t.active[i])].state == Moving
    ensures var u := FinishMotion(t.(active := t.active[i := StopHere(t.active[i])]), i, None);
            GroundedTick(u) && PawnsWatched(u)
  {
    var u := FinishMotion(t.(active := t.active[i := StopHere(t.active[i])]), i, None);
    BlockKeepsGrounded(t, i);
    PawnsStayDue(t.height, t.cells, t.airborne, t.reports, u.cells, u.reports, CurrentCell(t.active[i]));
  }

  lemma YieldKeepsPawns(t: Tick, i: nat)
    requires GroundedTick(t) && Crossing(t, i) && PawnsWatched(t)
    requires NextCell(t.active[i]) in t.cells && t.cells[NextCell(t.active[i])].state == Airborne
    requires forall j :: Live(t.resolved, j) ==> t.cells[CurrentCell(t.active[j])].state == Moving
    ensures GroundedTick(YieldToAirborne(t, i)) && PawnsWatched(YieldToAirborne(t, i))
  {
    var u := YieldToAirborne(t, i);
    var cell := NextCell(t.active[i]);
    YieldKeepsGrounded(t, i);
    var lifted := LiftAt(t.airborne, cell, t.cells[cell]);
    assert forall l :: 0 <= l < |lifted| && lifted[l] != t.airborne[l] ==>
        lifted[l].cell == cell && lifted[l].lifted == Some(t.cells[cell]);
    assert PawnsDue(t.height, t.cells, lifted, t.reports);
    LastReportCounts(t.reports, ArrivalReport(cell, true, None));
    PawnsStayDue(t.height, t.cells, lifted, t.reports, u.cells, u.reports, cell);
    forall j, k | Live(u.resolved, j) && u.active[j].stepIndex < k < |u.active[j].path| - 1
      && u.cells[CurrentCell(u.active[j])].kind == Pawn
      ensures u.active[j].path[k].row != PromotionRow(u.cells[CurrentCell(u.active[j])].color, t.height)
    {
      assert Live(t.resolved, j) && j != i;
      assert u.cells[CurrentCell(u.active[j])] == t.cells[CurrentCell(t.active[j])];
    }
  }

  lemma CrossingKeepsPawns(t: Tick, i: nat)
    requires Consistent(t, 0) && Crossing(t, i) && PawnsWatched(t)
    ensures GroundedTick(ResolveEntry(t, i)) && PawnsWatched(ResolveEntry(t, i))
  {
    hide EntersLiftedCell, EntryOf;
    var next := NextCell(t.active[i]);
    var watched := Watched(t, i);
    assert forall j :: Live(t.resolved, j) ==> t.cells[CurrentCell(t.active[j])].state == Moving;
    hide ConsistentExcept;
    match ClassifyEntry(t, i)
    case BlockedByFriendly => BlockKeepsPawns(watched, i);
    case CapturedByAirborne => YieldKeepsPawns(watched, i);
    case Free => WalkInKeepsPawns(watched, i, None);
    case Capture =>
      var m := t.active[i];
      assert m.path[m.stepIndex] != m.path[m.stepIndex + 1];
      CaptureKeepsPawns(watched, next);
      WalkInKeepsPawns(CaptureAt(watched, next), i, Some(TakenAt(t.cells, next)));
  }

  lemma {:induction false} PassKeepsPawns(t: Tick, order: seq<nat>)
    requires Consistent(t, 0) && Pending(t, order) && Pass(t, order).clean && PawnsWatched(t)
    ensures PawnsWatched(Pass(t, order))
    decreases |order|
  {
    hide ConsistentExcept, PawnsWatched;
    ConsistentIsGrounded(t, {});
    if order != [] {
      if Live(t.resolved, order[0]) {
        CrossingKeepsGrounded(t, order[0]);
        CrossingKeepsPending(t, order);
        PassOnlySoils(ResolveEntry(t, order[0]), order[1..]);
        CrossingKeepsConsistent(t, order[0]);
        CrossingKeepsPawns(t, order[0]);
        PassKeepsPawns(ResolveEntry(t, order[0]), order[1..]);
      } else {
        PassKeepsPawns(t, order[1..]);
      }
    }
  }

  lemma {:induction false} ResolveAllKeepsPawns(t: Tick)
    requires Consistent(t, 0) && GroundedTick(t) && ResolveAll(t).clean && PawnsWatched(t)
    ensures PawnsWatched(ResolveAll(t))
    decreases Remaining(t.active, t.resolved)
  {
    hide ConsistentExcept, PawnsWatched;
    var order := CrossingsByArrival(t.active, t.resolved);
    FoundCrossingsArePending(t);
    if order != [] {
      ResolveAllOnlySoils(Pass(t, order));
      PassKeepsConsistent(t, order);
      PassKeepsPawns(t, order);
      ResolveAllKeepsPawns(Pass(t, order));
    }
  }

  lemma BeginTickKeepsPawns(w: World, delta: int)
    requires GroundedWorld(w) && PawnsPromoted(w)
    ensures GroundedTick(BeginTick(w, delta)) && PawnsWatched(BeginTick(w, delta))
  {
    var t := BeginTick(w, delta);
    BeginTickIsGrounded(w, delta);
    RestsWakeTheirPieces(w.cells, w.resting, delta);
    forall c | c in t.cells
      ensures !OnLastRow(t.cells[c], c, t.height)
    {
      assert !OnLastRow(w.cells[c], c, w.height);
    }
    forall j, k | Live(t.resolved, j) && t.active[j].stepIndex < k < |t.active[j].path| - 1
      && t.cells[CurrentCell(t.active[j])].kind == Pawn
      ensures t.active[j].path[k].row != PromotionRow(t.cells[CurrentCell(t.active[j])].color, t.height)
    {
      assert Live(AllUnresolved(|w.active|), j);
    }
  }

  lemma DropKeepsPawns(t: Tick)
    requires Consistent(t, 0) && GroundedTick(t) && PawnsWatched(t)
    ensures GroundedTick(DropResolved(t)) && PawnsWatched(DropResolved(t))
  {
    var u := DropResolved(t);
    DropKeepsJourneys(t);
    forall j, k | Live(u.resolved, j) && u.active[j].stepIndex < k < |u.active[j].path| - 1
      && u.cells[CurrentCell(u.active[j])].kind == Pawn
      ensures u.active[j].path[k].row != PromotionRow(u.cells[CurrentCell(u.active[j])].color, t.height)
    {
      assert Live(t.resolved, OldIndex(t.active, t.resolved, |t.active|, j));
    }
  }

  lemma LandOneKeepsPawns(t: Tick, k: nat)
    requires Consistent(t, k) && k < |t.airborne| && LandingsGrounded(t.cells, t.airborne)
    requires PawnsDue(t.height, t.cells, t.airborne, t.reports)
    ensures PawnsDue(t.height, LandOne(t, k).cells, LandOne(t, k).airborne, LandOne(t, k).reports)
  {
    var u := LandOne(t, k);
    LandingHolds(t, k);
    if HasLanded(AdvanceJump(t.airborne[k], t.delta)) {
      LandingReplacesSquare(t, k);
      hide ConsistentExcept;
      assert t.reports <= u.reports;
      PawnsStayDue(t.height, t.cells, t.airborne, t.reports, u.cells, u.reports, t.airborne[k].cell);
      forall l | 0 <= l < |u.airborne|
        ensures u.airborne[l] == t.airborne[if l < k then l else l + 1]
      {
        WithoutAt(t.airborne, k, l);
      }
    }
  }

  /** Kinds and colours of the pieces journeys carry: landings leave them alone. */
  lemma LandOneLeavesJourneys(t: Tick, k: nat, i: int)
    requires Consistent(t, k) && k < |t.airborne| && LandingsGrounded(t.cells, t.airborne) && Live(t.resolved, i)
    ensures var c := CurrentCell(t.active[i]); c in LandOne(t, k).cells && LandOne(t, k).cells[c] == t.cells[c]
  {
    LandingHolds(t, k);
  }

  lemma {:induction false} LandAllKeepsPawns(t: Tick, k: nat)
    requires Consistent(t, k) && k <= |t.airborne| && LandingsGrounded(t.cells, t.airborne)
    requires GroundedTick(t) && PawnsWatched(t)
    ensures GroundedTick(LandAll(t, k)) && PawnsWatched(LandAll(t, k))
    decreases |t.airborne| - k
  {
    hide ConsistentExcept;
    if k < |t.airborne| {
      LandOneKeepsGrounded(t, k);
      var u := LandOne(t, k);
      if HasLanded(AdvanceJump(t.airborne[k], t.delta)) {
        LandingKeepsConsistent(t, k);
      } else {
        FlyOnKeepsConsistent(t, k);
      }
      LandOneKeepsPawns(t, k);
      assert u.active == t.active && u.resolved == t.resolved;
      forall i | Live(t.resolved, i)
        ensures var c := CurrentCell(t.active[i]); c in u.cells && u.cells[c] == t.cells[c]
      {
        LandOneLeavesJourneys(t, k, i);
      }
      LandAllKeepsPawns(u, NextJump(t, k));
    }
  }

  /** Main step: after an ordinary tick every pawn on its promotion row has a reported arrival on that very square. */
  lemma AdvanceReportsPawns(w: World, delta: int)
    requires Inv(w) && delta >= 0 && GroundedWorld(w) && OrdinaryTick(w, delta) && PawnsPromoted(w)
    ensures var t := AfterCrossings(w, delta); LandingsGrounded(t.cells, t.airborne)
    ensures GroundedTick(Advance(w, delta)) && PawnsWatched(Advance(w, delta))
  {
    var b := BeginTick(w, delta);
    BeginTickIsConsistent(w, delta);
    BeginTickKeepsPawns(w, delta);
    ResolveAllKeepsConsistent(b);
    ResolveAllKeepsPawns(b);
    DropKeepsPawns(ResolveAll(b));
    DropKeepsConsistent(ResolveAll(b));
    AfterCrossingsIsConsistent(w, delta);
    LandAllKeepsPawns(AfterCrossings(w, delta), 0);
  }
}
