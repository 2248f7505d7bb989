/** Starting a journey or a jump, and why an accepted command really starts and keeps the agreement. */
module CommandsKeep {
  import opened Model
  import opened Motions
  import opened Rules
  import opened ArbiterSpec
  import opened ArbiterTick
  import opened ArbiterInvariant

  function GridOf(w: World): Grid {
    Grid(w.width, w.height, w.cells)
  }

  ghost predicate HasMotionFor(active: seq<Motion>, cell: Position)
    requires forall i :: 0 <= i < |active| ==> active[i].stepIndex < |active[i].path|
  {
    exists i :: 0 <= i < |active| && CurrentCell(active[i]) == cell
  }

  predicate IsAirborneAt(cells: Cells, cell: Position) {
    cell in cells && cells[cell].state == Airborne
  }

  function BeginMotion(w: World, from: Position, to: Position): World
    requires from in w.cells
  {
    w.(active := w.active + [NewMotion(from, to)], cells := SetStateIn(w.cells, from, Moving))
  }

  function BeginJump(w: World, cell: Position): World
    requires cell in w.cells
  {
    w.(airborne := w.airborne + [Jump(cell, 0, None)], cells := SetStateIn(w.cells, cell, Airborne))
  }

  /** An idle piece is free: no journey carries it, no jump has its square, no rest names it or lingers under it. */
  lemma IdleIsFree(w: World, cell: Position)
    requires Inv(w) && cell in w.cells && w.cells[cell].state == Idle
    ensures forall i :: 0 <= i < |w.active| ==> WellFormed(w.active[i]) && CurrentCell(w.active[i]) != cell
    ensures forall l :: 0 <= l < |w.airborne| ==> w.airborne[l].cell != cell
    ensures forall r :: r in w.resting ==> r.cell != cell && r.pieceId != w.cells[cell].id
  {
    forall i | 0 <= i < |w.active|
      ensures WellFormed(w.active[i]) && CurrentCell(w.active[i]) != cell
    {
      assert Live(AllUnresolved(|w.active|), i);
    }
    forall l | 0 <= l < |w.airborne|
      ensures w.airborne[l].cell != cell
    {
      assert JumpHolds(w.cells, w.resting, w.airborne[l], JumpClock(w.airborne, l, 0, |w.airborne|));
    }
  }

  // ---- a journey begins ----

  lemma ClearWayFits(g: Grid, from: Position, to: Position, mover: Color)
    requires InBounds(g.width, g.height, from) && InBounds(g.width, g.height, to)
    requires ClearWay(g, mover, from, to)
    ensures var m := NewMotion(from, to);
            && WellFormed(m) && !IsComplete(m) && JourneyFits(g.width, g.height, m) && CurrentCell(m) == from
  {
    StepsFillTheJourney(from, to);
    var m := NewMotion(from, to);
    forall k | 0 <= k < |m.path|
      ensures InBounds(g.width, g.height, m.path[k])
    {
      if 0 < k < |m.path| - 1 {
        assert Classify(g, mover, m.path[k]) == Empty;
      }
    }
    forall l, k | 0 <= l < |m.path| && 0 <= k < l && l == k + 1
      ensures m.path[k] != m.path[l]
    {
      PathNeverStandsStill(from, to, k);
    }
  }

  lemma BeginMotionKeepsJourneys(w: World, from: Position, to: Position)
    requires Inv(w) && from in w.cells && w.cells[from].state == Idle
    requires var m := NewMotion(from, to);
             WellFormed(m) && !IsComplete(m) && JourneyFits(w.width, w.height, m) && CurrentCell(m) == from
    ensures var u := BeginMotion(w, from, to);
            && JourneysCarry(u.width, u.height, u.cells, u.active, AllUnresolved(|u.active|))
            && (forall i :: 0 <= i < |u.active| ==>
                  !IsComplete(u.active[i]) && 0 <= u.active[i].elapsed < u.active[i].stepDuration)
  {
    hide JumpsHold, RestsTrack, DistinctPieces, PiecesInPlace, JumpClocks, JourneyFits, TravelPath, StepDurationOf;
    var u := BeginMotion(w, from, to);
    var before, after := AllUnresolved(|w.active|), AllUnresolved(|u.active|);
    IdleIsFree(w, from);
    forall i | Live(after, i)
      ensures i == |w.active| || (Live(before, i) && u.active[i] == w.active[i])
    {
    }
    assert u.active[|w.active|] == NewMotion(from, to);
    forall c | c in u.cells && u.cells[c].state == Moving
      ensures exists i :: Live(after, i) && CurrentCell(u.active[i]) == c
    {
      if c == from {
        assert Live(after, |w.active|) && CurrentCell(u.active[|w.active|]) == from;
      } else {
        var i :| Live(before, i) && CurrentCell(w.active[i]) == c;
        assert Live(after, i) && CurrentCell(u.active[i]) == c;
      }
    }
  }

  lemma RestateKeepsJumps(w: World, cell: Position, state: State)
    requires Inv(w) && cell in w.cells && w.cells[cell].state == Idle && state != Airborne
    ensures JumpsHold(SetStateIn(w.cells, cell, state), w.airborne, w.resting, 0, |w.airborne|, {})
  {
    var after := SetStateIn(w.cells, cell, state);
    IdleIsFree(w, cell);
    forall l | 0 <= l < |w.airborne|
      ensures JumpHolds(after, w.resting, w.airborne[l], JumpClock(w.airborne, l, 0, |w.airborne|))
    {
      JumpHoldsElsewhere(w.cells, after, w.resting, w.resting, w.airborne[l], JumpClock(w.airborne, l, 0, |w.airborne|));
    }
  }

  lemma RestateKeepsRests(w: World, cell: Position, state: State)
    requires Inv(w) && cell in w.cells && w.cells[cell].state == Idle && state != Resting
    ensures RestsTrack(SetStateIn(w.cells, cell, state), w.airborne, w.resting)
  {
    var after := SetStateIn(w.cells, cell, state);
    IdleIsFree(w, cell);
    assert RestsTrack(w.cells, w.airborne, w.resting);
    hide Inv;
    assert forall c :: c in after && c != cell ==> after[c] == w.cells[c];
  }

  /** An accepted move really starts: no journey of that piece is under way, and the agreement goes on. */
  lemma MotionStarts(w: World, from: Position, to: Position)
    requires Inv(w) && from in w.cells && w.cells[from].state == Idle
    requires ValidateMove(GridOf(w), from, to) == Ok
    ensures forall i :: 0 <= i < |w.active| ==> WellFormed(w.active[i])
    ensures !HasMotionFor(w.active, from)
    ensures Inv(BeginMotion(w, from, to))
  {
    var u := BeginMotion(w, from, to);
    assert w.cells[from].cell == from;
    LegalMoveHasClearWay(GridOf(w), w.cells[from], to);
    ClearWayFits(GridOf(w), from, to, w.cells[from].color);
    IdleIsFree(w, from);
    BeginMotionKeepsJourneys(w, from, to);
    RestateKeepsJumps(w, from, Moving);
    RestateKeepsRests(w, from, Moving);
    assert PiecesInPlace(u.width, u.height, u.cells);
    assert DistinctPieces(u.cells, u.airborne);
    hide JourneysCarry, JumpsHold, RestsTrack, PiecesInPlace, DistinctPieces, JumpClocks, ValidateMove, HasMotionFor;
  }

  // ---- a jump begins ----

  lemma BeginJumpKeepsJumps(w: World, cell: Position)
    requires Inv(w) && cell in w.cells && w.cells[cell].state == Idle
    ensures var u := BeginJump(w, cell);
            JumpsHold(u.cells, u.airborne, u.resting, 0, |u.airborne|, {}) && JumpClocks(u.airborne, |u.airborne|)
  {
    var u := BeginJump(w, cell);
    IdleIsFree(w, cell);
    assert u.airborne[|w.airborne|] == Jump(cell, 0, None);
    forall l | 0 <= l < |u.airborne|
      ensures JumpHolds(u.cells, u.resting, u.airborne[l], JumpClock(u.airborne, l, 0, |u.airborne|))
    {
      if l < |w.airborne| {
        assert u.airborne[l] == w.airborne[l];
        JumpHoldsElsewhere(w.cells, u.cells, w.resting, w.resting, w.airborne[l], JumpClock(w.airborne, l, 0, |w.airborne|));
      }
    }
    forall c | c in u.cells && u.cells[c].state == Airborne
      ensures exists l :: 0 <= l < |u.airborne| && u.airborne[l].cell == c && !IsLifted(u.airborne[l])
    {
      if c != cell {
        var l :| 0 <= l < |w.airborne| && w.airborne[l].cell == c && !IsLifted(w.airborne[l]);
        assert u.airborne[l] == w.airborne[l];
      }
    }
  }

  lemma BeginJumpKeepsJourneys(w: World, cell: Position)
    requires Inv(w) && cell in w.cells && w.cells[cell].state == Idle
    ensures JourneysCarry(w.width, w.height, BeginJump(w, cell).cells, w.active, AllUnresolved(|w.active|))
  {
    var u := BeginJump(w, cell);
    var none := AllUnresolved(|w.active|);
    forall c | c in u.cells && u.cells[c].state == Moving
      ensures exists i :: Live(none, i) && CurrentCell(w.active[i]) == c
    {
      var i :| Live(none, i) && CurrentCell(w.active[i]) == c;
    }
  }

  /** An accepted jump really starts: nothing is airborne on that square yet, and no other jump has it. */
  lemma JumpStarts(w: World, cell: Position)
    requires Inv(w) && cell in w.cells && w.cells[cell].state == Idle
    ensures !IsAirborneAt(w.cells, cell)
    ensures Inv(BeginJump(w, cell))
  {
    hide JourneysCarry, JumpsHold, RestsTrack, PiecesInPlace, DistinctPieces, JumpClocks, StepClocks, RestsOnBoard;
    var u := BeginJump(w, cell);
    BeginJumpKeepsJumps(w, cell);
    BeginJumpKeepsJourneys(w, cell);
    RestateKeepsRests(w, cell, Airborne);
    RestateKeepsPieces(w, cell, Airborne);
    UnliftedJumpAdds(u.cells, w.airborne, u.resting, cell);
  }

  lemma RestateKeepsPieces(w: World, cell: Position, state: State)
    requires Inv(w) && cell in w.cells && state != Captured
    ensures var after := SetStateIn(w.cells, cell, state);
            PiecesInPlace(w.width, w.height, after) && DistinctPieces(after, w.airborne)
  {
    hide JourneysCarry, JumpsHold, RestsTrack, JumpClocks;
  }

  /** A jump that has lifted nobody adds no piece to those in play. */
  lemma UnliftedJumpAdds(cells: Cells, airborne: seq<Jump>, resting: seq<Cooldown>, cell: Position)
    ensures DistinctPieces(cells, airborne) ==> DistinctPieces(cells, airborne + [Jump(cell, 0, None)])
    ensures RestsTrack(cells, airborne, resting) ==> RestsTrack(cells, airborne + [Jump(cell, 0, None)], resting)
  {
    var more := airborne + [Jump(cell, 0, None)];
    assert forall l :: 0 <= l < |more| && IsLifted(more[l]) ==> l < |airborne| && more[l] == airborne[l];
  }
}
