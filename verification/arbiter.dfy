/** The arbiter itself: three activity lists and a borrowed board, changed in place and proved to do what the
    functions on values say. */
module Arbiters {
  import opened Model
  import opened Motions
  import opened Boards
  import opened ArbiterSpec
  import CrossingOrder
  import opened ArbiterTick
  import opened ArbiterInvariant
  import opened CommandsKeep
  import opened LandingKeeps
  import opened CrossingLog
  import Timing

  /** No journey leaves the board. */
  ghost predicate PathsOnBoard(width: int, height: int, active: seq<Motion>) {
    forall i, k :: 0 <= i < |active| && 0 <= k < |active[i].path| ==> InBounds(width, height, active[i].path[k])
  }

  lemma CrossingStaysOnBoard(t: Tick, i: nat)
    requires GroundedTick(t) && Crossing(t, i) && PathsOnBoard(t.width, t.height, t.active)
    ensures PathsOnBoard(t.width, t.height, ResolveEntry(t, i).active)
  {
    var u := ResolveEntry(t, i);
    CrossingKeepsGrounded(t, i);
    PathNeverGrows(t, i);
    hide ResolveEntry;
  }

  lemma PathNeverGrows(t: Tick, i: nat)
    requires GroundedTick(t) && Crossing(t, i)
    ensures |ResolveEntry(t, i).active| == |t.active| && ResolveEntry(t, i).active[i].path <= t.active[i].path
  {
    var m := t.active[i];
    assert m.path[m.stepIndex] != m.path[m.stepIndex + 1];
    match ClassifyEntry(t, i)
    case BlockedByFriendly =>
    case CapturedByAirborne =>
    case Free =>
    case Capture => CaptureKeepsGrounded(t, NextCell(m));
  }

  lemma CrossingKeepsSize(t: Tick, i: nat)
    requires GroundedTick(t) && Crossing(t, i)
    ensures ResolveEntry(t, i).width == t.width && ResolveEntry(t, i).height == t.height
  {
    Timing.CrossingIsOnward(t, i);
  }

  lemma DeltaStays(w: World, delta: int)
    requires GroundedWorld(w)
    ensures AfterCrossings(w, delta).delta == delta
  {
    Timing.CrossingsAgeTheRest(w, delta);
  }

  ghost predicate JumpsOnBoard(width: int, height: int, airborne: seq<Jump>) {
    forall l :: 0 <= l < |airborne| ==> InBounds(width, height, airborne[l].cell)
  }

  lemma LandOneStaysOnBoard(t: Tick, k: nat)
    requires k < |t.airborne| && LandingsGrounded(t.cells, t.airborne) && JumpsOnBoard(t.width, t.height, t.airborne)
    ensures var u := LandOne(t, k);
            && JumpsOnBoard(u.width, u.height, u.airborne) && u.delta == t.delta
            && u.width == t.width && u.height == t.height
            && (ReportsOnBoard(t.width, t.height, t.reports) ==> ReportsOnBoard(u.width, u.height, u.reports))
  {
  }

  lemma InvStaysOnBoard(w: World)
    requires Inv(w)
    ensures PathsOnBoard(w.width, w.height, w.active)
    ensures forall r :: r in w.resting ==> InBounds(w.width, w.height, r.cell)
  {
    forall i, k | 0 <= i < |w.active| && 0 <= k < |w.active[i].path|
      ensures InBounds(w.width, w.height, w.active[i].path[k])
    {
      assert Live(AllUnresolved(|w.active|), i);
    }
  }

  // ---- nothing happens off the board ----

  ghost predicate OnBoardSoFar(t: Tick) {
    PathsOnBoard(t.width, t.height, t.active) && ReportsOnBoard(t.width, t.height, t.reports)
  }

  lemma WalkInReportsOnBoard(t: Tick, i: nat, captured: Option<CapturedPiece>)
    requires GroundedTick(t) && Crossing(t, i) && OnBoardSoFar(t)
    ensures var u := WalkIn(t, i, captured); ReportsOnBoard(u.width, u.height, u.reports)
  {
  }

  lemma CrossingReportsOnBoard(t: Tick, i: nat)
    requires GroundedTick(t) && Crossing(t, i) && OnBoardSoFar(t)
    ensures OnBoardSoFar(ResolveEntry(t, i))
  {
    CrossingStaysOnBoard(t, i);
    CrossingKeepsSize(t, i);
    CrossingFacts(t, i);
    hide EntersLiftedCell, PathsOnBoard, EntryOf;
    StepOnBoard(t, i);
    var watched := Watched(t, i);
    match ClassifyEntry(t, i)
    case BlockedByFriendly =>
    case CapturedByAirborne =>
    case Free => WalkInReportsOnBoard(watched, i, None);
    case Capture =>
      CaptureKeepsGrounded(watched, NextCell(t.active[i]));
      WalkInReportsOnBoard(CaptureAt(watched, NextCell(t.active[i])), i, Some(TakenAt(t.cells, NextCell(t.active[i]))));
  }

  lemma StepOnBoard(t: Tick, i: nat)
    requires GroundedTick(t) && Crossing(t, i) && PathsOnBoard(t.width, t.height, t.active)
    ensures InBounds(t.width, t.height, CurrentCell(t.active[i])) && InBounds(t.width, t.height, NextCell(t.active[i]))
  {
  }

  lemma {:induction false} PassStaysOnBoard(t: Tick, order: seq<nat>)
    requires GroundedTick(t) && Pending(t, order) && OnBoardSoFar(t)
    ensures OnBoardSoFar(Pass(t, order))
    decreases |order|
  {
    if order != [] {
      if Live(t.resolved, order[0]) {
        CrossingKeepsGrounded(t, order[0]);
        CrossingKeepsPending(t, order);
        CrossingReportsOnBoard(t, order[0]);
        hide Grounded, Pending, OnBoardSoFar, ResolveEntry;
        PassStaysOnBoard(ResolveEntry(t, order[0]), order[1..]);
      } else {
        PassStaysOnBoard(t, order[1..]);
      }
    }
  }

  lemma {:induction false} ReplayStaysOnBoard(t: Tick)
    requires GroundedTick(t) && OnBoardSoFar(t)
    ensures OnBoardSoFar(ResolveAll(t))
    decreases Remaining(t.active, t.resolved)
  {
    var order := CrossingOrder.CrossingsByArrival(t.active, t.resolved);
    FoundCrossingsArePending(t);
    hide Grounded, OnBoardSoFar;
    if order != [] {
      PassStaysOnBoard(t, order);
      ReplayStaysOnBoard(Pass(t, order));
    }
  }

  lemma {:induction false} LandingsStayOnBoard(t: Tick, k: nat)
    requires k <= |t.airborne| && LandingsGrounded(t.cells, t.airborne) && JumpsOnBoard(t.width, t.height, t.airborne)
    requires ReportsOnBoard(t.width, t.height, t.reports)
    ensures var u := LandAll(t, k); ReportsOnBoard(u.width, u.height, u.reports)
    decreases |t.airborne| - k
  {
    if k < |t.airborne| {
      LandOneKeepsGrounded(t, k);
      LandOneStaysOnBoard(t, k);
      hide LandOne, LandingsGrounded, JumpsOnBoard, ReportsOnBoard;
      LandingsStayOnBoard(LandOne(t, k), NextJump(t, k));
    }
  }

  lemma JumpsStartOnBoard(w: World, k: nat)
    requires Inv(w) && k < |w.airborne|
    ensures InBounds(w.width, w.height, w.airborne[k].cell)
  {
    assert JumpHolds(w.cells, w.resting, w.airborne[k], JumpClock(w.airborne, k, 0, |w.airborne|));
  }

  lemma CrossingsStayOnBoard(w: World, delta: int)
    requires Inv(w) && delta >= 0 && GroundedWorld(w)
    ensures var t := AfterCrossings(w, delta);
            ReportsOnBoard(t.width, t.height, t.reports) && t.width == w.width && t.height == w.height
  {
    InvStaysOnBoard(w);
    Timing.CrossingsAgeTheRest(w, delta);
    hide Inv, Grounded, GroundedWorld;
    BeginTickIsGrounded(w, delta);
    assert OnBoardSoFar(BeginTick(w, delta));
    ReplayStaysOnBoard(BeginTick(w, delta));
  }

  /** Every tick from a position in agreement, ordinary or not, is one the arbiter can carry out: each jump has its
      piece, and everything reported is on the board. */
  lemma EveryTickCanRun(w: World, delta: int)
    requires Inv(w) && delta >= 0
    ensures GroundedWorld(w)
    ensures var t := AfterCrossings(w, delta);
            LandingsGrounded(t.cells, t.airborne) && JumpsOnBoard(t.width, t.height, t.airborne) && t.delta == delta
    ensures var u := Advance(w, delta); ReportsOnBoard(u.width, u.height, u.reports)
  {
    EveryTickLands(w, delta);
    CrossingsStayOnBoard(w, delta);
    DeltaStays(w, delta);
    forall k | 0 <= k < |w.airborne|
      ensures InBounds(w.width, w.height, w.airborne[k].cell)
    {
      JumpsStartOnBoard(w, k);
    }
    hide Inv, GroundedWorld, AfterCrossings, LandingsGrounded, ReportsOnBoard;
    LandingsStayOnBoard(AfterCrossings(w, delta), 0);
  }

  /** What a crossing can rely on. */
  lemma CrossingFacts(t: Tick, i: nat)
    requires GroundedTick(t) && Crossing(t, i)
    ensures i < |t.active| && WellFormed(t.active[i]) && CurrentCell(t.active[i]) in t.cells
    ensures CurrentCell(t.active[i]) != NextCell(t.active[i])
  {
    var m := t.active[i];
    assert m.path[m.stepIndex] != m.path[m.stepIndex + 1];
  }

  /** The first of the rests, and then the others. */
  lemma NextRest(cells: Cells, rest: seq<Cooldown>, delta: int)
    requires rest != []
    ensures var c := AdvanceCooldown(rest[0], delta);
            && c.cell == rest[0].cell
            && CellsAfterRests(cells, rest, delta)
               == CellsAfterRests(if HasElapsed(c) then Wake(cells, c) else cells, rest[1..], delta)
            && RestsLeft(rest, delta)
               == (if HasElapsed(c) then [] else [c]) + RestsLeft(rest[1..], delta)
  {
  }

  lemma NoRestsLeft(delta: int)
    ensures RestsLeft([], delta) == [] && forall cells :: CellsAfterRests(cells, [], delta) == cells
  {
  }

  class RealTimeArbiter {
    const board: Board
    var active: seq<Motion>
    var airborne: seq<Jump>
    var resting: seq<Cooldown>

    constructor (board: Board)
      ensures this.board == board && active == [] && airborne == [] && resting == []
    {
      this.board := board;
      active, airborne, resting := [], [], [];
    }

    ghost predicate Valid()
      reads this, board, board.grid
    {
      board.Valid()
    }

    ghost function View(): World
      reads this, board
    {
      World(board.width, board.height, board.cells, active, airborne, resting)
    }

    /** The object's fields are those of tick t. */
    ghost predicate Mirrors(t: Tick)
      reads this, board, board.grid
    {
      Valid() && View() == WorldOf(t)
    }

    method HasMotionFor(cell: Position) returns (found: bool)
      requires forall i :: 0 <= i < |active| ==> active[i].stepIndex < |active[i].path|
      ensures found <==> CommandsKeep.HasMotionFor(active, cell)
    {
      for i := 0 to |active|
        invariant forall j :: 0 <= j < i ==> CurrentCell(active[j]) != cell
      {
        if CurrentCell(active[i]) == cell {
          return true;
        }
      }
      return false;
    }

    /** Starts a journey unless one of that very piece is under way. */
    method StartMotion(from: Position, to: Position) returns (started: bool)
      requires Valid() && from in board.cells
      requires forall i :: 0 <= i < |active| ==> active[i].stepIndex < |active[i].path|
      modifies this, board, board.grid
      ensures Valid()
      ensures started <==> !CommandsKeep.HasMotionFor(old(active), from)
      ensures View() == if started then BeginMotion(old(View()), from, to) else old(View())
    {
      var busy := HasMotionFor(from);
      if busy {
        return false;
      }
      var path := WalkTravelPath(from, to);
      active := active + [Motion(path, 0, StepDurationOf(from, to, |path|), 0)];
      var error := board.SetPieceState(from, Moving);
      return true;
    }

    /** Starts a jump unless the piece is airborne already. */
    method StartJump(cell: Position) returns (started: bool)
      requires Valid() && cell in board.cells
      modifies this, board, board.grid
      ensures Valid()
      ensures started <==> !IsAirborneAt(old(board.cells), cell)
      ensures View() == if started then BeginJump(old(View()), cell) else old(View())
    {
      if board.PieceAt(cell).value.state == Airborne {
        return false;
      }
      airborne := airborne + [Jump(cell, 0, None)];
      var error := board.SetPieceState(cell, Airborne);
      return true;
    }

    // ---- rests ----

    /** A rest is over: its piece wakes, if it is still there. */
    method WakeOne(r: Cooldown)
      requires Valid() && InBounds(board.width, board.height, r.cell)
      modifies board, board.grid
      ensures Valid() && board.cells == Wake(old(board.cells), r)
    {
      var piece := board.PieceAt(r.cell);
      if piece.Some? && piece.value.id == r.pieceId && piece.value.state == Resting {
        var error := board.SetPieceState(r.cell, Idle);
      }
    }

    method TickCooldowns(deltaMs: int)
      requires Valid() && forall r :: r in resting ==> InBounds(board.width, board.height, r.cell)
      modifies this`resting, board, board.grid
      ensures Valid()
      ensures board.cells == CellsAfterRests(old(board.cells), old(resting), deltaMs)
      ensures resting == RestsLeft(old(resting), deltaMs)
    {
      hide Wake, HasElapsed, AdvanceCooldown, CellsAfterRests, RestsLeft;
      NoRestsLeft(deltaMs);
      assert resting[0..] == resting;
      var k := 0;
      while k < |resting|
        invariant 0 <= k <= |resting| && Valid()
        invariant forall r :: r in resting[k..] ==> InBounds(board.width, board.height, r.cell)
        invariant CellsAfterRests(old(board.cells), old(resting), deltaMs) == CellsAfterRests(board.cells, resting[k..], deltaMs)
        invariant RestsLeft(old(resting), deltaMs) == resting[..k] + RestsLeft(resting[k..], deltaMs)
        decreases |resting| - k
      {
        ghost var rest := resting[k..];
        assert rest[0] == resting[k] && rest[1..] == resting[k + 1..];
        assert resting[k] in rest;
        NextRest(board.cells, rest, deltaMs);
        resting := resting[k := AdvanceCooldown(resting[k], deltaMs)];
        var r := resting[k];
        if !HasElapsed(r) {
          k := k + 1;
          assert resting[k..] == rest[1..];
        } else {
          WakeOne(r);
          resting := resting[..k] + resting[k + 1..];
          assert resting[k..] == rest[1..];
        }
      }
      assert resting[k..] == [] && resting[..k] == resting;
    }

    // ---- crossings ----

    method CrossingsByArrival(resolved: array<bool>) returns (crossings: seq<nat>)
      requires resolved.Length == |active|
      ensures crossings == CrossingOrder.CrossingsByArrival(active, resolved[..])
    {
      crossings := [];
      for index := 0 to |active|
        invariant crossings == CrossingOrder.Collect(active, resolved[..], index)
      {
        if !resolved[index] && IsEnteringNextCell(active[index]) {
          crossings := crossings + [index];
        }
      }
      assert forall p :: 0 <= p < |crossings| ==> crossings[p] in crossings;
      crossings := CrossingOrder.StableSort(active, crossings);
    }

    /** What it means for journey `index` to cross into the square ahead. */
    method ClassifyEntry(index: nat, resolved: array<bool>, ghost t: Tick) returns (outcome: EntryOutcome)
      requires Mirrors(t) && resolved[..] == t.resolved && GroundedTick(t) && Crossing(t, index)
      requires PathsOnBoard(t.width, t.height, t.active)
      ensures outcome == ArbiterSpec.ClassifyEntry(t, index)
    {
      var mover := board.PieceAt(CurrentCell(active[index]));
      var occupant := board.PieceAt(NextCell(active[index]));
      if occupant.None? {
        return Free;
      }
      if occupant.value.color == mover.value.color {
        return BlockedByFriendly;
      }
      if occupant.value.state == Airborne {
        return CapturedByAirborne;
      }
      return Capture;
    }

    method StartCooldown(cell: Position)
      requires Valid() && cell in board.cells
      modifies this`resting, board, board.grid
      ensures Valid()
      ensures board.cells == SetStateIn(old(board.cells), cell, Resting)
      ensures resting == old(resting) + [Cooldown(old(board.cells)[cell].id, cell, 0)]
    {
      var id := board.PieceAt(cell).value.id;
      var error := board.SetPieceState(cell, Resting);
      resting := resting + [Cooldown(id, cell, 0)];
    }

    method FinishMotion(
      index: nat, captured: Option<CapturedPiece>, resolved: array<bool>, reports: seq<ArrivalReport>, ghost t: Tick)
      returns (more: seq<ArrivalReport>)
      requires Mirrors(t) && resolved[..] == t.resolved && reports == t.reports
      requires index < |t.active| == |t.resolved| && |t.active[index].path| > 0
      requires t.active[index].path[|t.active[index].path| - 1] in t.cells
      modifies this, board, board.grid, resolved
      ensures var u := ArbiterSpec.FinishMotion(t, index, captured);
              Mirrors(u) && resolved[..] == u.resolved && more == u.reports
    {
      var cell := active[index].path[|active[index].path| - 1];
      StartCooldown(cell);
      more := reports + [ArrivalReport(cell, true, captured)];
      resolved[index] := true;
      assert resolved[..] == t.resolved[index := true];
    }

    /** Takes the piece on `cell` off the board and ends its journey. */
    method CaptureAt(cell: Position, resolved: array<bool>, ghost t: Tick) returns (taken: CapturedPiece)
      requires Mirrors(t) && resolved[..] == t.resolved && GroundedTick(t) && cell in t.cells
      modifies this, board, board.grid, resolved
      ensures var u := ArbiterSpec.CaptureAt(t, cell); Mirrors(u) && resolved[..] == u.resolved
      ensures taken == TakenAt(t.cells, cell)
    {
      var victim := board.PieceAt(cell).value;
      taken := CapturedPiece(victim.kind, victim.color);
      var error := board.RemovePiece(cell);
      for index := 0 to |active|
        invariant resolved.Length == |active|
        invariant forall j :: 0 <= j < index ==> resolved[j] == ResolveOn(t.active, t.resolved, cell)[j]
        invariant forall j :: index <= j < |active| ==> resolved[j] == t.resolved[j]
        invariant active == t.active && Mirrors(ArbiterSpec.CaptureAt(t, cell))
      {
        assert Live(t.resolved, index) == !resolved[index];
        if !resolved[index] && CurrentCell(active[index]) == cell {
          resolved[index] := true;
        }
      }
      assert resolved[..] == ResolveOn(t.active, t.resolved, cell);
    }

    /** Index of the first jump on `cell`, or the number of jumps. */
    method JumpAt(cell: Position) returns (k: nat)
      ensures k == ArbiterSpec.JumpAt(airborne, cell)
    {
      k := 0;
      while k < |airborne|
        invariant k <= |airborne| && forall j :: 0 <= j < k ==> airborne[j].cell != cell
      {
        if airborne[k].cell == cell {
          return;
        }
        k := k + 1;
      }
    }

    /** The jumper on this square is taken up off the board, into its jump. */
    method LiftOff(cell: Position)
      requires board.Valid() && cell in board.cells
      modifies this`airborne, board, board.grid
      ensures board.Valid() && board.cells == old(board.cells) - {cell}
      ensures airborne == LiftAt(old(airborne), cell, old(board.cells)[cell])
    {
      var jumper := board.PieceAt(cell).value;
      var k := JumpAt(cell);
      if k < |airborne| {
        airborne := airborne[k := airborne[k].(lifted := Some(jumper))];
      }
      var error := board.RemovePiece(cell);
    }

    method YieldToAirborne(index: nat, resolved: array<bool>, reports: seq<ArrivalReport>, ghost t: Tick)
      returns (more: seq<ArrivalReport>)
      requires Mirrors(t) && resolved[..] == t.resolved && reports == t.reports && GroundedTick(t) && Crossing(t, index)
      requires NextCell(t.active[index]) in t.cells
      modifies this, board, board.grid, resolved
      ensures var u := ArbiterSpec.YieldToAirborne(t, index);
              Mirrors(u) && resolved[..] == u.resolved && more == u.reports
    {
      CrossingFacts(t, index);
      hide Grounded, WellFormed;
      var motion := active[index];
      var cell := NextCell(motion);
      ghost var lifted := t.(airborne := LiftAt(t.airborne, cell, t.cells[cell]), cells := t.cells - {cell});
      LiftOff(cell);
      var error := board.MovePiece(CurrentCell(motion), cell);
      active := active[index := CompleteStep(motion)];
      assert View() == WorldOf(Walk(lifted, index));
      StartCooldown(cell);
      more := reports + [ArrivalReport(cell, true, None)];
      resolved[index] := true;
      assert resolved[..] == t.resolved[index := true];
    }

    /** The piece walks in; its journey may end there. */
    method WalkIn(
      index: nat, captured: Option<CapturedPiece>, resolved: array<bool>, reports: seq<ArrivalReport>, ghost t: Tick)
      returns (more: seq<ArrivalReport>)
      requires Mirrors(t) && resolved[..] == t.resolved && reports == t.reports && GroundedTick(t) && Crossing(t, index)
      requires PathsOnBoard(t.width, t.height, t.active) && NextCell(t.active[index]) !in t.cells
      modifies this, board, board.grid, resolved
      ensures var u := ArbiterSpec.WalkIn(t, index, captured);
              Mirrors(u) && resolved[..] == u.resolved && more == u.reports
    {
      var motion := active[index];
      var error := board.MovePiece(CurrentCell(motion), NextCell(motion));
      active := active[index := CompleteStep(motion)];
      ghost var walked := Walk(t, index);
      if IsComplete(active[index]) {
        more := FinishMotion(index, captured, resolved, reports, walked);
      } else if captured.Some? {
        more := reports + [ArrivalReport(CurrentCell(active[index]), true, captured)];
      } else {
        more := reports;
      }
    }

    /** One crossing, however it turns out. */
    method ResolveEntry(index: nat, resolved: array<bool>, reports: seq<ArrivalReport>, ghost t: Tick)
      returns (more: seq<ArrivalReport>)
      requires Mirrors(t) && resolved[..] == t.resolved && reports == t.reports && GroundedTick(t) && Crossing(t, index)
      requires PathsOnBoard(t.width, t.height, t.active)
      modifies this, board, board.grid, resolved
      ensures var u := ArbiterSpec.ResolveEntry(t, index);
              Mirrors(u) && resolved[..] == u.resolved && more == u.reports
    {
      var motion := active[index];
      ghost var watched := Watched(t, index);
      assert motion.path[motion.stepIndex] != motion.path[motion.stepIndex + 1];
      var outcome := ClassifyEntry(index, resolved, t);
      if outcome == BlockedByFriendly {
        active := active[index := StopHere(motion)];
        more := FinishMotion(index, None, resolved, reports, watched.(active := t.active[index := StopHere(t.active[index])]));
        return;
      }
      if outcome == CapturedByAirborne {
        more := YieldToAirborne(index, resolved, reports, watched);
        return;
      }
      var captured := None;
      ghost var cleared := watched;
      if outcome == Capture {
        var taken := CaptureAt(NextCell(motion), resolved, watched);
        captured := Some(taken);
        CaptureKeepsGrounded(watched, NextCell(motion));
        cleared := ArbiterSpec.CaptureAt(watched, NextCell(motion));
      }
      more := WalkIn(index, captured, resolved, reports, cleared);
    }
  
    /** Replays every crossing of the tick. The loop ends for any tick length: each pass uses up part of the journeys
        still unresolved. */
    method ResolveCrossings(resolved: array<bool>, ghost t0: Tick) returns (reports: seq<ArrivalReport>)
      requires Mirrors(t0) && resolved[..] == t0.resolved && t0.reports == [] && GroundedTick(t0)
      requires PathsOnBoard(t0.width, t0.height, t0.active)
      modifies this, board, board.grid, resolved
      ensures var u := ResolveAll(t0); Mirrors(u) && resolved[..] == u.resolved && reports == u.reports
    {
      reports := [];
      ghost var t := t0;
      while true
        invariant Mirrors(t) && resolved[..] == t.resolved && reports == t.reports && GroundedTick(t)
        invariant PathsOnBoard(t.width, t.height, t.active) && ResolveAll(t) == ResolveAll(t0)
        decreases Remaining(t.active, t.resolved)
      {
        var crossings := CrossingsByArrival(resolved);
        FoundCrossingsArePending(t);
        if crossings == [] {
          break;
        }
        ghost var before := t;
        reports, t := ReplayPass(crossings, resolved, reports, t);
      }
    }

    /** One pass; a crossing resolved earlier in it may have ended a later one. */
    method ReplayPass(crossings: seq<nat>, resolved: array<bool>, reports: seq<ArrivalReport>, ghost t: Tick)
      returns (more: seq<ArrivalReport>, ghost u: Tick)
      requires Mirrors(t) && resolved[..] == t.resolved && reports == t.reports && GroundedTick(t)
      requires PathsOnBoard(t.width, t.height, t.active) && Pending(t, crossings)
      modifies this, board, board.grid, resolved
      ensures u == Pass(t, crossings)
      ensures Mirrors(u) && resolved[..] == u.resolved && more == u.reports
      ensures PathsOnBoard(u.width, u.height, u.active)
    {
      more, u := reports, t;
      for k := 0 to |crossings|
        invariant Mirrors(u) && resolved[..] == u.resolved && more == u.reports && GroundedTick(u)
        invariant PathsOnBoard(u.width, u.height, u.active) && Pending(u, crossings[k..])
        invariant Pass(u, crossings[k..]) == Pass(t, crossings)
      {
        ghost var rest := crossings[k..];
        assert rest[0] == crossings[k] && rest[1..] == crossings[k + 1..];
        if !resolved[crossings[k]] {
          CrossingKeepsGrounded(u, crossings[k]);
          CrossingKeepsPending(u, rest);
          CrossingStaysOnBoard(u, crossings[k]);
          CrossingKeepsSize(u, crossings[k]);
          more := ResolveEntry(crossings[k], resolved, more, u);
          u := ArbiterSpec.ResolveEntry(u, crossings[k]);
        }
      }
    }

    /** Closes the gaps finished journeys leave, keeping the others in order. */
    method DropResolved(resolved: array<bool>)
      requires resolved.Length == |active|
      modifies this`active
      ensures active == Keep(old(active), resolved[..], resolved.Length)
    {
      var kept := 0;
      for index := 0 to |active|
        invariant kept <= index && |active| == |old(active)|
        invariant active[..kept] == Keep(old(active), resolved[..], index)
        invariant active[index..] == old(active)[index..]
      {
        assert active[index] == active[index..][0];
        if !resolved[index] {
          if kept != index {
            active := active[kept := active[index]];
          }
          kept := kept + 1;
          assert active[..kept] == active[..kept - 1] + [old(active)[index]];
        }
      }
      active := active[..kept];
    }

    method AdvanceMotions(deltaMs: int, ghost b: Tick) returns (reports: seq<ArrivalReport>)
      requires Valid() && GroundedTick(b) && b.reports == []
      requires View() == WorldOf(b).(active := active) && b.active == AdvanceAll(active, deltaMs)
      requires b.resolved == AllUnresolved(|active|) && PathsOnBoard(b.width, b.height, active)
      modifies this, board, board.grid
      ensures var u := ArbiterTick.DropResolved(ResolveAll(b)); Mirrors(u) && reports == u.reports
    {
      ghost var before := active;
      for index := 0 to |active|
        invariant |active| == |before| && Valid() && View() == WorldOf(b).(active := active)
        invariant forall j :: 0 <= j < index ==> active[j] == AdvanceMotion(before[j], deltaMs)
        invariant forall j :: index <= j < |before| ==> active[j] == before[j]
      {
        active := active[index := AdvanceMotion(active[index], deltaMs)];
      }
      assert active == b.active;
      var resolved := new bool[|active|](_ => false);
      assert resolved[..] == b.resolved;
      reports := ResolveCrossings(resolved, b);
      assert resolved[..] == ResolveAll(b).resolved;
      DropResolved(resolved);
    }

    // ---- landings ----

    method LandAirborne(deltaMs: int, reports: seq<ArrivalReport>, ghost t0: Tick) returns (more: seq<ArrivalReport>)
      requires Mirrors(t0) && reports == t0.reports && t0.delta == deltaMs
      requires LandingsGrounded(t0.cells, t0.airborne) && JumpsOnBoard(t0.width, t0.height, t0.airborne)
      modifies this, board, board.grid
      ensures var u := LandAll(t0, 0); Mirrors(u) && more == u.reports
    {
      more := reports;
      ghost var t := t0;
      var k := 0;
      while k < |airborne|
        invariant 0 <= k <= |airborne| && Mirrors(t) && more == t.reports && t.delta == deltaMs
        invariant LandingsGrounded(t.cells, t.airborne) && JumpsOnBoard(t.width, t.height, t.airborne)
        invariant LandAll(t, k) == LandAll(t0, 0)
        decreases |airborne| - k
      {
        LandOneKeepsGrounded(t, k);
        LandOneStaysOnBoard(t, k);
        ghost var u := LandOne(t, k);
        k, more := LandNext(k, deltaMs, more, t);
        t := u;
      }
    }

    /** Moves jump k on and lands it if it is over; says which jump is next. */
    method LandNext(k: nat, deltaMs: int, reports: seq<ArrivalReport>, ghost t: Tick)
      returns (next: nat, more: seq<ArrivalReport>)
      requires Mirrors(t) && reports == t.reports && t.delta == deltaMs && k < |t.airborne|
      requires LandingsGrounded(t.cells, t.airborne) && JumpsOnBoard(t.width, t.height, t.airborne)
      modifies this, board, board.grid
      ensures var u := LandOne(t, k); Mirrors(u) && more == u.reports
      ensures next == NextJump(t, k)
    {
      more := reports;
      airborne := airborne[k := AdvanceJump(airborne[k], deltaMs)];
      var jump := airborne[k];
      if !HasLanded(jump) {
        return k + 1, more;
      }
      more := LandHere(jump, more, t);
      airborne := airborne[..k] + airborne[k + 1..];
      next := k;
    }

    /** The jump is over: a lifted jumper comes back down, and any jumper rests. */
    method LandHere(jump: Jump, reports: seq<ArrivalReport>, ghost t: Tick) returns (more: seq<ArrivalReport>)
      requires Valid() && InBounds(board.width, board.height, jump.cell) && reports == t.reports
      requires board.cells == t.cells && resting == t.resting && (IsLifted(jump) || jump.cell in t.cells)
      modifies this`resting, board, board.grid
      ensures var u := if IsLifted(jump) then ArbiterTick.LandLifted(t, jump) else ArbiterSpec.StartCooldown(t, jump.cell);
              Valid() && board.cells == u.cells && resting == u.resting && more == u.reports
    {
      more := reports;
      if IsLifted(jump) {
        more := LandLifted(jump, more);
      } else {
        StartCooldown(jump.cell);
      }
    }

    /** The enemy under the jumper, if there is one, is taken and the jumper stands on its square again. */
    method LandLifted(jump: Jump, reports: seq<ArrivalReport>) returns (more: seq<ArrivalReport>)
      requires Valid() && IsLifted(jump) && InBounds(board.width, board.height, jump.cell)
      modifies this`resting, board, board.grid
      ensures Valid()
      ensures board.cells == old(board.cells)[jump.cell := jump.lifted.value.(cell := jump.cell, state := Resting)]
      ensures resting == old(resting) + [Cooldown(jump.lifted.value.id, jump.cell, 0)]
      ensures more == reports + [ArrivalReport(jump.cell, false,
                if jump.cell in old(board.cells) then Some(TakenAt(old(board.cells), jump.cell)) else None)]
    {
      var captured := None;
      var victim := board.PieceAt(jump.cell);
      if victim.Some? {
        captured := Some(CapturedPiece(victim.value.kind, victim.value.color));
        var error := board.RemovePiece(jump.cell);
      }
      var lander := jump.lifted.value.(cell := jump.cell);
      var error := board.AddPiece(lander);
      StartCooldown(jump.cell);
      more := reports + [ArrivalReport(jump.cell, false, captured)];
    }

    // ---- the tick ----

    /** One tick of any length: rests end, crossings are replayed, jumps land. No board error is ever met, and an ordinary
        tick keeps the agreement. */
    method Advance(deltaMs: int) returns (reports: seq<ArrivalReport>)
      requires Valid() && Inv(View()) && deltaMs >= 0
      modifies this, board, board.grid
      ensures Valid() && GroundedWorld(old(View()))
      ensures LandingsGrounded(AfterCrossings(old(View()), deltaMs).cells, AfterCrossings(old(View()), deltaMs).airborne)
      ensures var u := ArbiterTick.Advance(old(View()), deltaMs); View() == WorldOf(u) && reports == u.reports
      ensures OrdinaryTick(old(View()), deltaMs) ==> Inv(View())
    {
      ghost var w := View();
      ghost var b := BeginTick(w, deltaMs);
      InvStaysOnBoard(w);
      EveryTickCanRun(w, deltaMs);
      BeginTickIsGrounded(w, deltaMs);
      OrdinaryTickKeepsInv(w, deltaMs);
      ghost var mid := AfterCrossings(w, deltaMs);
      assert mid == ArbiterTick.DropResolved(ResolveAll(b));
      hide Inv, OrdinaryTick, LandingsGrounded, JumpsOnBoard, Grounded, GroundedWorld;
      TickCooldowns(deltaMs);
      reports := AdvanceMotions(deltaMs, b);
      assert Mirrors(mid) && reports == mid.reports;
      reports := LandAirborne(deltaMs, reports, mid);
    }
  }

  lemma OrdinaryTickKeepsInv(w: World, delta: int)
    requires Inv(w) && delta >= 0 && GroundedWorld(w)
    requires LandingsGrounded(AfterCrossings(w, delta).cells, AfterCrossings(w, delta).airborne)
    ensures OrdinaryTick(w, delta) ==> Inv(WorldOf(ArbiterTick.Advance(w, delta)))
  {
    hide Inv, LandingsGrounded, AfterCrossings, GroundedWorld;
    if OrdinaryTick(w, delta) {
      AdvanceKeepsInv(w, delta);
    }
  }
}
