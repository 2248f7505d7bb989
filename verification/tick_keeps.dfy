/** A whole ordinary tick keeps board, states and activity lists in agreement. */
module TickKeeps {
  import opened Model
  import opened Motions
  import opened ArbiterSpec
  import opened ArbiterTick
  import opened ArbiterInvariant

  // ---- rests ----

  /** Some finished rest names this piece on this square. */
  ghost predicate Rested4Long(resting: seq<Cooldown>, delta: int, p: Piece, c: Position) {
    exists r :: r in resting && r.pieceId == p.id && r.cell == c && r.elapsed + delta >= COOLDOWN_MS
  }

  /** Exactly the resting pieces with a finished rest wake; nothing else on the board changes. */
  lemma {:induction false} RestsWakeTheirPieces(cells: Cells, resting: seq<Cooldown>, delta: int)
    ensures var after := CellsAfterRests(cells, resting, delta);
            && after.Keys == cells.Keys
            && forall c :: c in cells ==>
                 after[c] == if cells[c].state == Resting && Rested4Long(resting, delta, cells[c], c)
                             then cells[c].(state := Idle) else cells[c]
  {
    if resting != [] {
      var r0 := resting[0];
      var a := AdvanceCooldown(r0, delta);
      var woken := if HasElapsed(a) then Wake(cells, a) else cells;
      RestsWakeTheirPieces(woken, resting[1..], delta);
      assert forall r :: r in resting <==> r == r0 || r in resting[1..];
      forall c | c in cells
        ensures Rested4Long(resting, delta, cells[c], c) <==>
                Rested4Long(resting[1..], delta, cells[c], c)
                || (r0.pieceId == cells[c].id && r0.cell == c && HasElapsed(a))
      {
      }
    }
  }

  /** Of a resting piece the very rest that tracks it decides when it wakes. */
  lemma OwnRestDecides(cells: Cells, airborne: seq<Jump>, resting: seq<Cooldown>, delta: int, r: Cooldown)
    requires RestsTrack(cells, airborne, resting)
    requires r in resting && r.cell in cells && Rested4Long(resting, delta, cells[r.cell], r.cell)
    ensures r.elapsed + delta >= COOLDOWN_MS
  {
    var s :| s in resting && s.pieceId == cells[r.cell].id && s.cell == r.cell && s.elapsed + delta >= COOLDOWN_MS;
  }

  lemma RestsKeepTracking(cells: Cells, airborne: seq<Jump>, resting: seq<Cooldown>, delta: int)
    requires RestsTrack(cells, airborne, resting) && delta >= 0
    ensures RestsTrack(CellsAfterRests(cells, resting, delta), airborne, RestsLeft(resting, delta))
  {
    var after, left := CellsAfterRests(cells, resting, delta), RestsLeft(resting, delta);
    RestsWakeTheirPieces(cells, resting, delta);
    forall x
      ensures x in left <==> x.(elapsed := x.elapsed - delta) in resting && x.elapsed < COOLDOWN_MS
    {
      RestsLeftAreAdvanced(resting, delta, x);
    }
    forall x | x in left && x.cell in cells
      ensures after[x.cell] == cells[x.cell]
    {
      var r := x.(elapsed := x.elapsed - delta);
      if Rested4Long(resting, delta, cells[r.cell], r.cell) {
        OwnRestDecides(cells, airborne, resting, delta, r);
      }
    }
    forall c | c in after && after[c].state == Resting
      ensures exists x :: x in left && x.pieceId == after[c].id
    {
      var r :| r in resting && r.pieceId == cells[c].id;
      var x := AdvanceCooldown(r, delta);
      assert x.(elapsed := x.elapsed - delta) == r;
      assert x in left;
    }
  }

  lemma RestsKeepHeldDown(
    cells: Cells, airborne: seq<Jump>, resting: seq<Cooldown>, delta: int, c: Position, clock: int)
    requires RestsTrack(cells, airborne, resting) && delta >= 0
    requires c in cells && clock < JUMP_DURATION_MS && HeldDown(cells, resting, c, clock)
    ensures c in CellsAfterRests(cells, resting, delta)
    ensures HeldDown(CellsAfterRests(cells, resting, delta), RestsLeft(resting, delta), c, clock + delta)
  {
    RestsWakeTheirPieces(cells, resting, delta);
    var r :| r in resting && r.pieceId == cells[c].id && r.elapsed < clock;
    if Rested4Long(resting, delta, cells[c], c) {
      OwnRestDecides(cells, airborne, resting, delta, r);
    } else {
      var x := AdvanceCooldown(r, delta);
      assert x.(elapsed := x.elapsed - delta) == r;
      RestsLeftAreAdvanced(resting, delta, x);
    }
  }

  lemma RestsKeepJumps(w: World, delta: int)
    requires Inv(w) && delta >= 0
    ensures var t := BeginTick(w, delta); JumpsHold(t.cells, t.airborne, t.resting, delta, 0, {})
  {
    var t := BeginTick(w, delta);
    RestsWakeTheirPieces(w.cells, w.resting, delta);
    forall l | 0 <= l < |w.airborne|
      ensures JumpHolds(t.cells, t.resting, w.airborne[l], JumpClock(w.airborne, l, delta, 0))
    {
      var j := w.airborne[l];
      assert JumpHolds(w.cells, w.resting, j, JumpClock(w.airborne, l, 0, |w.airborne|));
      if IsLifted(j) {
        RestsKeepHeldDown(w.cells, w.airborne, w.resting, delta, j.cell, j.elapsed);
      }
    }
  }

  lemma AdvancingKeepsJourney(w: World, delta: int, i: nat)
    requires Inv(w) && i < |w.active|
    ensures Live(AllUnresolved(|w.active|), i)
    ensures var m := AdvanceMotion(w.active[i], delta);
            && WellFormed(m) && !IsComplete(m) && JourneyFits(w.width, w.height, m)
            && CurrentCell(m) == CurrentCell(w.active[i]) && CurrentCell(m) in w.cells
            && w.cells[CurrentCell(m)].state == Moving
            && delta <= m.elapsed < m.stepDuration + delta
  {
    assert Live(AllUnresolved(|w.active|), i);
  }

  lemma MoversStayMoving(w: World, delta: int, i: nat)
    requires Inv(w) && delta >= 0 && i < |w.active|
    ensures w.active[i].stepIndex < |w.active[i].path|
    ensures var cells, c := BeginTick(w, delta).cells, CurrentCell(w.active[i]);
            c in cells && cells[c].state == Moving
  {
    AdvancingKeepsJourney(w, delta, i);
    RestsWakeTheirPieces(w.cells, w.resting, delta);
  }

  lemma MoversAreCarried(w: World, delta: int, c: Position)
    requires Inv(w) && delta >= 0 && GroundedTick(BeginTick(w, delta))
    requires c in BeginTick(w, delta).cells && BeginTick(w, delta).cells[c].state == Moving
    ensures var t := BeginTick(w, delta); exists i :: Live(t.resolved, i) && CurrentCell(t.active[i]) == c
  {
    var t := BeginTick(w, delta);
    var none := AllUnresolved(|w.active|);
    RestsWakeTheirPieces(w.cells, w.resting, delta);
    hide CellsAfterRests, RestsLeft, JumpsHold, RestsTrack;
    var i :| Live(none, i) && CurrentCell(w.active[i]) == c;
    assert Live(t.resolved, i) && CurrentCell(t.active[i]) == c;
  }

  lemma RestsKeepJourneys(w: World, delta: int)
    requires Inv(w) && delta >= 0
    ensures var t := BeginTick(w, delta);
            && JourneysCarry(t.width, t.height, t.cells, t.active, t.resolved)
            && StepClocks(t.active, t.resolved, delta)
            && Unfinished(t)
  {
    var t := BeginTick(w, delta);
    BeginTickIsGrounded(w, delta);
    forall c | c in t.cells && t.cells[c].state == Moving
      ensures exists i :: Live(t.resolved, i) && CurrentCell(t.active[i]) == c
    {
      MoversAreCarried(w, delta, c);
    }
    forall i | Live(t.resolved, i)
      ensures t.active[i] == AdvanceMotion(w.active[i], delta)
      ensures WellFormed(t.active[i]) && !IsComplete(t.active[i]) && JourneyFits(t.width, t.height, t.active[i])
      ensures t.cells[CurrentCell(t.active[i])].state == Moving
      ensures delta <= t.active[i].elapsed < t.active[i].stepDuration + delta
    {
      AdvancingKeepsJourney(w, delta, i);
      MoversStayMoving(w, delta, i);
    }
    hide Inv, WellFormed, JourneyFits, BeginTick, CellsAfterRests;
  }

  lemma RestsKeepPlaces(w: World, delta: int)
    requires Inv(w) && delta >= 0
    ensures var t := BeginTick(w, delta);
            && PiecesInPlace(t.width, t.height, t.cells) && DistinctPieces(t.cells, t.airborne)
            && RestsOnBoard(t.width, t.height, t.resting)
  {
    RestsWakeTheirPieces(w.cells, w.resting, delta);
    hide JumpsHold, JourneysCarry, RestsTrack, CellsAfterRests, RestsLeft, RestsOnBoard, JumpClocks, StepClocks;
    RestsStayOnBoard(w, delta);
  }

  lemma RestsStayOnBoard(w: World, delta: int)
    requires RestsOnBoard(w.width, w.height, w.resting)
    ensures var t := BeginTick(w, delta); RestsOnBoard(t.width, t.height, t.resting)
  {
    var t := BeginTick(w, delta);
    forall x | x in t.resting
      ensures InBounds(t.width, t.height, x.cell)
    {
      RestsLeftAreAdvanced(w.resting, delta, x);
    }
  }

  lemma BeginTickIsConsistent(w: World, delta: int)
    requires Inv(w) && delta >= 0
    ensures Consistent(BeginTick(w, delta), 0) && Unfinished(BeginTick(w, delta))
  {
    hide JumpsHold, JourneysCarry, RestsTrack, DistinctPieces, PiecesInPlace, StepClocks, Unfinished, RestsOnBoard;
    hide CellsAfterRests, RestsLeft;
    var t := BeginTick(w, delta);
    RestsKeepJumps(w, delta);
    RestsKeepJourneys(w, delta);
    RestsKeepTracking(w.cells, w.airborne, w.resting, delta);
    RestsKeepPlaces(w, delta);
    assert JumpClocks(t.airborne, 0);
  }

  // ---- dropping finished journeys ----

  lemma DropKeepsCarrier(t: Tick, c: Position)
    requires JourneysCarry(t.width, t.height, t.cells, t.active, t.resolved)
    requires c in t.cells && t.cells[c].state == Moving
    ensures var u := DropResolved(t);
            exists k :: Live(u.resolved, k) && WellFormed(u.active[k]) && CurrentCell(u.active[k]) == c
  {
    var i :| Live(t.resolved, i) && CurrentCell(t.active[i]) == c;
    assert WellFormed(t.active[i]);
    hide WellFormed, JourneysCarry;
    var u := DropResolved(t);
    KeepHoldsLive(t.active, t.resolved, |t.active|, i);
    var k :| 0 <= k < |u.active| && u.active[k] == t.active[i];
    assert Live(u.resolved, k);
  }

  lemma DropKeepsJourneys(t: Tick)
    requires JourneysCarry(t.width, t.height, t.cells, t.active, t.resolved)
    ensures var u := DropResolved(t); JourneysCarry(t.width, t.height, u.cells, u.active, u.resolved)
  {
    hide JourneyFits;
    var u := DropResolved(t);
    var n := |t.active|;
    forall k, l | 0 <= k < l < |u.active|
      ensures OldIndex(t.active, t.resolved, n, k) < OldIndex(t.active, t.resolved, n, l)
    {
      OldIndexRises(t.active, t.resolved, n, k, l);
    }
    forall k | Live(u.resolved, k)
      ensures u.active[k] == t.active[OldIndex(t.active, t.resolved, n, k)]
      ensures Live(t.resolved, OldIndex(t.active, t.resolved, n, k))
    {
    }
    forall c | c in u.cells && u.cells[c].state == Moving
      ensures exists k :: Live(u.resolved, k) && CurrentCell(u.active[k]) == c
    {
      DropKeepsCarrier(t, c);
    }
  }

  lemma DropKeepsConsistent(t: Tick)
    requires Consistent(t, 0)
    ensures Consistent(DropResolved(t), 0)
  {
    var u := DropResolved(t);
    DropKeepsJourneys(t);
    forall k | Live(u.resolved, k)
      ensures 0 <= u.active[k].elapsed < u.active[k].stepDuration + u.delta
    {
      assert Live(t.resolved, OldIndex(t.active, t.resolved, |t.active|, k));
    }
    hide JumpsHold, JourneysCarry, RestsTrack, DistinctPieces;
  }

  lemma DropLeavesSettled(t: Tick)
    requires Unfinished(t) && forall i :: Live(t.resolved, i) ==> !IsEnteringNextCell(t.active[i])
    ensures forall k :: 0 <= k < |DropResolved(t).active| ==>
              !IsComplete(DropResolved(t).active[k]) && !IsEnteringNextCell(DropResolved(t).active[k])
  {
    forall k | 0 <= k < |DropResolved(t).active|
      ensures !IsComplete(DropResolved(t).active[k]) && !IsEnteringNextCell(DropResolved(t).active[k])
    {
      assert Live(t.resolved, OldIndex(t.active, t.resolved, |t.active|, k));
    }
  }
}
