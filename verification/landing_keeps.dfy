/** Landings keep the agreement, and a lifted jumper always lands on exactly one enemy. */
module LandingKeeps {
  import opened Model
  import opened Motions
  import opened ArbiterSpec
  import opened ArbiterTick
  import opened ArbiterInvariant
  import opened CrossingKeeps
  import opened TickKeeps

  lemma WithoutAt(airborne: seq<Jump>, k: nat, l: nat)
    requires k < |airborne| && l < |airborne| - 1
    ensures Without(airborne, k)[l] == airborne[if l < k then l else l + 1]
  {
  }

  lemma ConsistentIsLandable(t: Tick, k: nat)
    requires Consistent(t, k)
    ensures LandingsGrounded(t.cells, t.airborne)
  {
    forall l | 0 <= l < |t.airborne| && !IsLifted(t.airborne[l])
      ensures t.airborne[l].cell in t.cells
    {
      assert JumpHolds(t.cells, t.resting, t.airborne[l], JumpClock(t.airborne, l, t.delta, k));
    }
  }

  // ---- a jump goes on ----

  lemma LiftedLater(j: Jump, delta: int)
    requires LiftedStays(j)
    ensures LiftedStays(AdvanceJump(j, delta))
  {
  }

  lemma FlyOnKeepsJumps(t: Tick, k: nat)
    requires Consistent(t, k) && k < |t.airborne|
    requires !HasLanded(AdvanceJump(t.airborne[k], t.delta))
    ensures var u := LandOne(t, k);
            JumpsHold(u.cells, u.airborne, u.resting, u.delta, k + 1, {}) && JumpClocks(u.airborne, k + 1)
  {
    hide HeldDown, LiftedStays, JourneysCarry, RestsTrack, DistinctPieces, PiecesInPlace;
    var u := LandOne(t, k);
    assert forall l :: 0 <= l < |t.airborne| && l != k ==> u.airborne[l] == t.airborne[l];
    assert LiftedStays(u.airborne[k]) by { LiftedLater(t.airborne[k], t.delta); }
    forall l | 0 <= l < |u.airborne|
      ensures JumpHolds(u.cells, u.resting, u.airborne[l], JumpClock(u.airborne, l, u.delta, k + 1))
    {
      assert JumpHolds(t.cells, t.resting, t.airborne[l], JumpClock(t.airborne, l, t.delta, k));
    }
    forall c | c in u.cells && u.cells[c].state == Airborne
      ensures exists l :: 0 <= l < |u.airborne| && u.airborne[l].cell == c && !IsLifted(u.airborne[l])
    {
      var l :| 0 <= l < |t.airborne| && t.airborne[l].cell == c && !IsLifted(t.airborne[l]);
      assert u.airborne[l].cell == c && !IsLifted(u.airborne[l]);
    }
  }

  lemma FlyOnKeepsConsistent(t: Tick, k: nat)
    requires Consistent(t, k) && k < |t.airborne|
    requires !HasLanded(AdvanceJump(t.airborne[k], t.delta))
    ensures LandingsGrounded(t.cells, t.airborne) && Consistent(LandOne(t, k), k + 1)
  {
    ConsistentIsLandable(t, k);
    var u := LandOne(t, k);
    FlyOnKeepsJumps(t, k);
    assert forall l :: 0 <= l < |t.airborne| ==>
        u.airborne[l].lifted == t.airborne[l].lifted;
    assert DistinctPieces(u.cells, u.airborne);
    assert RestsTrack(u.cells, u.airborne, u.resting);
    hide JumpsHold, JourneysCarry, RestsTrack, DistinctPieces, PiecesInPlace;
  }

  // ---- a jump ends ----

  /** The square of jump k has just been taken over by its jumper, resting. Everything else is as before. */
  ghost predicate Landed(t: Tick, u: Tick, k: nat, jumper: Piece)
    requires k < |t.airborne|
  {
    var cell := t.airborne[k].cell;
    && u == t.(cells := u.cells, resting := u.resting, airborne := u.airborne, reports := u.reports, victims := u.victims)
    && u.airborne == Without(t.airborne, k)
    && cell in t.cells
    && u.cells == t.cells[cell := jumper.(cell := cell, state := Resting)]
    && u.resting == t.resting + [Cooldown(jumper.id, cell, 0)]
  }

  /** The jumper is the piece on the square, or the one lifted off it. */
  function JumperOf(t: Tick, k: nat): Piece
    requires k < |t.airborne| && (IsLifted(t.airborne[k]) || t.airborne[k].cell in t.cells)
  {
    if IsLifted(t.airborne[k]) then t.airborne[k].lifted.value else t.cells[t.airborne[k].cell]
  }

  lemma LandingHolds(t: Tick, k: nat)
    requires Consistent(t, k) && k < |t.airborne|
    ensures JumpHolds(t.cells, t.resting, t.airborne[k], t.airborne[k].elapsed + t.delta)
    ensures LiftedStays(t.airborne[k])
  {
    assert JumpHolds(t.cells, t.resting, t.airborne[k], JumpClock(t.airborne, k, t.delta, k));
  }

  lemma LandingReplacesSquare(t: Tick, k: nat)
    requires Consistent(t, k) && k < |t.airborne| && HasLanded(AdvanceJump(t.airborne[k], t.delta))
    ensures LandingsGrounded(t.cells, t.airborne) && t.airborne[k].cell in t.cells
    ensures Landed(t, LandOne(t, k), k, JumperOf(t, k))
  {
    ConsistentIsLandable(t, k);
    LandingHolds(t, k);
    assert PiecesInPlace(t.width, t.height, t.cells);
    hide ConsistentExcept;
  }

  lemma LandingKeepsJourneys(t: Tick, u: Tick, k: nat)
    requires JourneysCarry(t.width, t.height, t.cells, t.active, t.resolved)
    requires k < |t.airborne| && t.airborne[k].cell in t.cells && t.cells[t.airborne[k].cell].state != Moving
    requires Landed(t, u, k, JumperOf(t, k))
    ensures JourneysCarry(u.width, u.height, u.cells, u.active, u.resolved)
  {
    forall c | c in u.cells && u.cells[c].state == Moving
      ensures exists i :: Live(u.resolved, i) && CurrentCell(u.active[i]) == c
    {
      var i :| Live(t.resolved, i) && CurrentCell(t.active[i]) == c;
      assert Live(u.resolved, i) && CurrentCell(u.active[i]) == c;
    }
  }

  lemma LandingKeepsPieces(t: Tick, u: Tick, k: nat)
    requires DistinctPieces(t.cells, t.airborne) && k < |t.airborne| && t.airborne[k].cell in t.cells
    requires Landed(t, u, k, JumperOf(t, k))
    ensures DistinctPieces(u.cells, u.airborne)
  {
    forall l | 0 <= l < |u.airborne|
      ensures u.airborne[l] == t.airborne[if l < k then l else l + 1]
    {
      WithoutAt(t.airborne, k, l);
    }
  }

  lemma LandingKeepsClocks(t: Tick, u: Tick, k: nat, jumper: Piece)
    requires JumpClocks(t.airborne, k) && k < |t.airborne| && Landed(t, u, k, jumper)
    ensures JumpClocks(u.airborne, k)
  {
    forall l | 0 <= l < |u.airborne|
      ensures u.airborne[l] == t.airborne[if l < k then l else l + 1]
    {
      WithoutAt(t.airborne, k, l);
    }
  }

  lemma OtherJumpsHold(t: Tick, u: Tick, k: nat, l: nat)
    requires JumpsHold(t.cells, t.airborne, t.resting, t.delta, k, {}) && k < |t.airborne|
    requires Landed(t, u, k, JumperOf(t, k)) && l < |u.airborne|
    ensures u.airborne[l] == t.airborne[if l < k then l else l + 1]
    ensures JumpHolds(u.cells, u.resting, u.airborne[l], JumpClock(u.airborne, l, u.delta, k))
  {
    var m := if l < k then l else l + 1;
    WithoutAt(t.airborne, k, l);
    assert t.airborne[m].cell != t.airborne[k].cell;
    JumpHoldsElsewhere(t.cells, u.cells, t.resting, u.resting, t.airborne[m], JumpClock(t.airborne, m, t.delta, k));
  }

  lemma OtherJumpersAloft(t: Tick, u: Tick, k: nat, c: Position)
    requires JumpsHold(t.cells, t.airborne, t.resting, t.delta, k, {}) && k < |t.airborne|
    requires Landed(t, u, k, JumperOf(t, k)) && c in u.cells && u.cells[c].state == Airborne
    ensures exists l :: 0 <= l < |u.airborne| && u.airborne[l].cell == c && !IsLifted(u.airborne[l])
  {
    var m :| 0 <= m < |t.airborne| && t.airborne[m].cell == c && !IsLifted(t.airborne[m]);
    assert m != k;
    WithoutAt(t.airborne, k, if m < k then m else m - 1);
    assert u.airborne[if m < k then m else m - 1] == t.airborne[m];
  }

  lemma LandingKeepsJumps(t: Tick, u: Tick, k: nat)
    requires JumpsHold(t.cells, t.airborne, t.resting, t.delta, k, {}) && k < |t.airborne|
    requires Landed(t, u, k, JumperOf(t, k))
    ensures JumpsHold(u.cells, u.airborne, u.resting, u.delta, k, {})
  {
    forall l | 0 <= l < |u.airborne|
      ensures u.airborne[l] == t.airborne[if l < k then l else l + 1]
      ensures JumpHolds(u.cells, u.resting, u.airborne[l], JumpClock(u.airborne, l, u.delta, k))
    {
      OtherJumpsHold(t, u, k, l);
    }
    forall c | c in u.cells && u.cells[c].state == Airborne
      ensures exists l :: 0 <= l < |u.airborne| && u.airborne[l].cell == c && !IsLifted(u.airborne[l])
    {
      OtherJumpersAloft(t, u, k, c);
    }
    assert forall l :: 0 <= l < |t.airborne| ==> LiftedStays(t.airborne[l]);
    hide Landed, JumpHolds;
  }

  lemma LandingKeepsRests(t: Tick, u: Tick, k: nat)
    requires RestsTrack(t.cells, t.airborne, t.resting) && DistinctPieces(t.cells, t.airborne)
    requires k < |t.airborne| && t.airborne[k].cell in t.cells
    requires !IsLifted(t.airborne[k]) ==> t.cells[t.airborne[k].cell].state == Airborne
    requires Landed(t, u, k, JumperOf(t, k))
    ensures RestsTrack(u.cells, u.airborne, u.resting)
  {
    var cell := t.airborne[k].cell;
    var jumper := JumperOf(t, k);
    var begun := Cooldown(jumper.id, cell, 0);
    assert forall s :: s in u.resting <==> s in t.resting || s == begun;
    assert forall s :: s in t.resting ==> s.pieceId != jumper.id;
    forall l | 0 <= l < |u.airborne|
      ensures u.airborne[l] == t.airborne[if l < k then l else l + 1]
    {
      WithoutAt(t.airborne, k, l);
    }
    forall c | c in u.cells && u.cells[c].state == Resting
      ensures exists s :: s in u.resting && s.pieceId == u.cells[c].id
    {
      if c == cell {
        assert begun in u.resting;
      } else {
        var s :| s in t.resting && s.pieceId == t.cells[c].id;
        assert s in u.resting;
      }
    }
  }

  lemma LandingKeepsConsistent(t: Tick, k: nat)
    requires Consistent(t, k) && k < |t.airborne| && HasLanded(AdvanceJump(t.airborne[k], t.delta))
    ensures LandingsGrounded(t.cells, t.airborne) && Consistent(LandOne(t, k), k)
  {
    LandingReplacesSquare(t, k);
    LandingHolds(t, k);
    var u := LandOne(t, k);
    LandingKeepsJourneys(t, u, k);
    LandingKeepsPieces(t, u, k);
    LandingKeepsClocks(t, u, k, JumperOf(t, k));
    LandingKeepsJumps(t, u, k);
    LandingKeepsRests(t, u, k);
    assert PiecesInPlace(u.width, u.height, u.cells);
    hide JumpsHold, JourneysCarry, RestsTrack, DistinctPieces, PiecesInPlace, JumpClocks, LandOne;
    assert StepClocks(u.active, u.resolved, u.delta);
  }

  lemma {:induction false} LandAllKeepsConsistent(t: Tick, k: nat)
    requires Consistent(t, k) && k <= |t.airborne|
    ensures LandingsGrounded(t.cells, t.airborne)
    ensures Consistent(LandAll(t, k), |LandAll(t, k).airborne|)
    ensures LandAll(t, k).active == t.active && LandAll(t, k).resolved == t.resolved
    decreases |t.airborne| - k
  {
    ConsistentIsLandable(t, k);
    if k < |t.airborne| {
      LandOneKeepsGrounded(t, k);
      if HasLanded(AdvanceJump(t.airborne[k], t.delta)) {
        LandingKeepsConsistent(t, k);
      } else {
        FlyOnKeepsConsistent(t, k);
      }
      LandAllKeepsConsistent(LandOne(t, k), NextJump(t, k));
    }
  }

  /** A lifted jumper lands where it jumped from, on one enemy, which is taken. */
  lemma LiftedLandsOnEnemy(t: Tick, k: nat)
    requires Consistent(t, k) && k < |t.airborne| && IsLifted(t.airborne[k])
    requires HasLanded(AdvanceJump(t.airborne[k], t.delta))
    ensures LandingsGrounded(t.cells, t.airborne)
    ensures var u, cell, jumper := LandOne(t, k), t.airborne[k].cell, t.airborne[k].lifted.value;
            && cell in t.cells && t.cells[cell].color == OpponentOf(jumper.color)
            && u.cells == t.cells[cell := jumper.(state := Resting)] && jumper.cell == cell
            && u.victims == t.victims + [t.cells[cell].(state := Captured)]
            && u.reports == t.reports + [ArrivalReport(cell, false, Some(TakenAt(t.cells, cell)))]
  {
    ConsistentIsLandable(t, k);
    LandingHolds(t, k);
  }

  // ---- the tick ----

  lemma AfterCrossingsIsConsistent(w: World, delta: int)
    requires Inv(w) && delta >= 0 && GroundedWorld(w) && OrdinaryTick(w, delta)
    ensures var t := AfterCrossings(w, delta);
            && Consistent(t, 0) && LandingsGrounded(t.cells, t.airborne)
            && (forall k :: 0 <= k < |t.active| ==> !IsComplete(t.active[k]) && !IsEnteringNextCell(t.active[k]))
            && t.resolved == AllUnresolved(|t.active|)
  {
    var b := BeginTick(w, delta);
    BeginTickIsConsistent(w, delta);
    BeginTickIsGrounded(w, delta);
    ResolveAllKeepsConsistent(b);
    DropKeepsConsistent(ResolveAll(b));
    DropLeavesSettled(ResolveAll(b));
    ConsistentIsLandable(AfterCrossings(w, delta), 0);
  }

  lemma SettledIsInv(t: Tick)
    requires Consistent(t, |t.airborne|) && t.resolved == AllUnresolved(|t.active|)
    requires forall k :: 0 <= k < |t.active| ==> !IsComplete(t.active[k]) && !IsEnteringNextCell(t.active[k])
    ensures Inv(WorldOf(t))
  {
    forall i | 0 <= i < |t.active|
      ensures 0 <= t.active[i].elapsed < t.active[i].stepDuration
    {
      assert Live(t.resolved, i);
    }
    assert JumpsHold(t.cells, t.airborne, t.resting, 0, |t.airborne|, {}) by {
      forall l | 0 <= l < |t.airborne|
        ensures JumpHolds(t.cells, t.resting, t.airborne[l], JumpClock(t.airborne, l, 0, |t.airborne|))
      {
        assert JumpHolds(t.cells, t.resting, t.airborne[l], JumpClock(t.airborne, l, t.delta, |t.airborne|));
      }
    }
  }

  /** Main step: an ordinary tick of any length keeps the agreement. No board error, no missing piece. */
  lemma AdvanceKeepsInv(w: World, delta: int)
    requires Inv(w) && delta >= 0 && GroundedWorld(w) && OrdinaryTick(w, delta)
    ensures var t := AfterCrossings(w, delta); LandingsGrounded(t.cells, t.airborne)
    ensures Inv(WorldOf(Advance(w, delta)))
    ensures var u := Advance(w, delta);
            u.resolved == AllUnresolved(|u.active|) && ReportsOnBoard(u.width, u.height, u.reports)
  {
    AfterCrossingsIsConsistent(w, delta);
    LandAllKeepsConsistent(AfterCrossings(w, delta), 0);
    SettledIsInv(Advance(w, delta));
  }
}
