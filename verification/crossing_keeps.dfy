/** Every crossing of an ordinary tick keeps board, states and activity lists in agreement. */
module CrossingKeeps {
  import opened Model
  import opened Motions
  import opened ArbiterSpec
  import opened CrossingOrder
  import opened ArbiterTick
  import opened ArbiterInvariant

  lemma LiftKeepsPieces(t: Tick, u: Tick, k: nat, cell: Position)
    requires DistinctPieces(t.cells, t.airborne) && cell in t.cells && k < |t.airborne| && !IsLifted(t.airborne[k])
    requires u.cells == t.cells - {cell}
    requires u.airborne == t.airborne[k := t.airborne[k].(lifted := Some(t.cells[cell]))]
    ensures DistinctPieces(u.cells, u.airborne)
  {
    assert forall j :: 0 <= j < |t.airborne| && j != k ==> u.airborne[j] == t.airborne[j];
  }

  lemma LiftKeepsRests(t: Tick, u: Tick, k: nat, cell: Position)
    requires RestsTrack(t.cells, t.airborne, t.resting) && cell in t.cells && k < |t.airborne|
    requires t.cells[cell].state == Airborne
    requires u.cells == t.cells - {cell} && u.resting == t.resting
    requires u.airborne == t.airborne[k := t.airborne[k].(lifted := Some(t.cells[cell]))]
    ensures RestsTrack(u.cells, u.airborne, u.resting)
  {
    assert forall j :: 0 <= j < |t.airborne| && j != k ==> u.airborne[j] == t.airborne[j];
  }

  lemma LiftKeepsJourneys(t: Tick, u: Tick, cell: Position)
    requires JourneysCarry(t.width, t.height, t.cells, t.active, t.resolved)
    requires cell in t.cells && t.cells[cell].state == Airborne
    requires u.cells == t.cells - {cell} && u.active == t.active && u.resolved == t.resolved
    ensures JourneysCarry(t.width, t.height, u.cells, u.active, u.resolved)
  {
    forall c | c in u.cells && u.cells[c].state == Moving
      ensures exists i :: Live(u.resolved, i) && CurrentCell(u.active[i]) == c
    {
      var i :| Live(t.resolved, i) && CurrentCell(t.active[i]) == c;
      assert Live(u.resolved, i) && CurrentCell(u.active[i]) == c;
    }
  }

  lemma LiftKeepsJumps(t: Tick, u: Tick, k: nat, cell: Position)
    requires JumpsHold(t.cells, t.airborne, t.resting, t.delta, 0, {})
    requires cell in t.cells && k < |t.airborne| && t.airborne[k].cell == cell && !IsLifted(t.airborne[k])
    requires t.cells[cell].cell == cell && t.cells[cell].state == Airborne
    requires u.cells == t.cells - {cell}
    requires u.airborne == t.airborne[k := t.airborne[k].(lifted := Some(t.cells[cell]))]
    ensures JumpsHold(u.cells, u.airborne, t.resting, t.delta, 0, {cell})
  {
    assert forall j :: 0 <= j < |t.airborne| && j != k ==> u.airborne[j] == t.airborne[j];
    forall j | 0 <= j < |u.airborne| && u.airborne[j].cell !in {cell}
      ensures JumpHolds(u.cells, t.resting, u.airborne[j], JumpClock(u.airborne, j, t.delta, 0))
    {
      JumpHoldsElsewhere(t.cells, u.cells, t.resting, t.resting, t.airborne[j], JumpClock(t.airborne, j, t.delta, 0));
    }
    forall c | c in u.cells && u.cells[c].state == Airborne
      ensures exists j :: 0 <= j < |u.airborne| && u.airborne[j].cell == c && !IsLifted(u.airborne[j])
    {
      var j :| 0 <= j < |t.airborne| && t.airborne[j].cell == c && !IsLifted(t.airborne[j]);
      assert u.airborne[j] == t.airborne[j];
    }
  }

  lemma JumpUnder(t: Tick, cell: Position) returns (k: nat)
    requires JumpsHold(t.cells, t.airborne, t.resting, t.delta, 0, {})
    requires cell in t.cells && t.cells[cell].state == Airborne
    ensures k == JumpAt(t.airborne, cell) < |t.airborne| && !IsLifted(t.airborne[k])
  {
    k := JumpAt(t.airborne, cell);
    var l :| 0 <= l < |t.airborne| && t.airborne[l].cell == cell && !IsLifted(t.airborne[l]);
    assert k == l;
  }

  /** Lifting the jumper leaves its square open, to be filled by the enemy arriving there. */
  lemma LiftOpensSquare(t: Tick, cell: Position)
    requires Consistent(t, 0) && cell in t.cells && t.cells[cell].state == Airborne
    ensures var u := t.(airborne := LiftAt(t.airborne, cell, t.cells[cell]), cells := t.cells - {cell});
            && ConsistentExcept(u, 0, {cell})
            && (forall l :: 0 <= l < |u.airborne| && u.airborne[l].cell == cell ==>
                  u.airborne[l].lifted == Some(t.cells[cell]))
  {
    var k := JumpUnder(t, cell);
    var u := t.(airborne := LiftAt(t.airborne, cell, t.cells[cell]), cells := t.cells - {cell});
    LiftKeepsPieces(t, u, k, cell);
    LiftKeepsJourneys(t, u, cell);
    LiftKeepsJumps(t, u, k, cell);
    LiftKeepsRests(t, u, k, cell);
    hide JumpsHold, RestsTrack, DistinctPieces, JourneysCarry;
    assert JumpClocks(u.airborne, 0);
    forall l | 0 <= l < |u.airborne| && u.airborne[l].cell == cell
      ensures u.airborne[l].lifted == Some(t.cells[cell])
    {
      JumpSquaresDiffer(t, k, l);
    }
  }

  lemma JumpSquaresDiffer(t: Tick, k: nat, l: nat)
    requires JumpsHold(t.cells, t.airborne, t.resting, t.delta, 0, {})
    requires k < |t.airborne| && l < |t.airborne| && t.airborne[k].cell == t.airborne[l].cell
    ensures k == l
  {
  }

  /** The piece of journey i stands alone: no jump has its square. */
  lemma MoverHasNoJump(t: Tick, i: nat, l: nat)
    requires Consistent(t, 0) && Live(t.resolved, i) && l < |t.airborne|
    ensures t.airborne[l].cell != CurrentCell(t.active[i])
  {
    assert JumpHolds(t.cells, t.resting, t.airborne[l], JumpClock(t.airborne, l, t.delta, 0));
  }

  /** The arriving piece comes to rest on the square its jumper left open. */
  lemma RestUnderJumper(walked: Tick, i: nat, cell: Position)
    requires ConsistentExcept(walked, 0, {cell}) && Live(walked.resolved, i) && CurrentCell(walked.active[i]) == cell
    requires walked.delta > 0
    requires forall l :: 0 <= l < |walked.airborne| && walked.airborne[l].cell == cell ==>
               IsLifted(walked.airborne[l]) && walked.airborne[l].lifted.value.color != walked.cells[cell].color
    ensures ConsistentExcept(ComeToRest(walked, i), 0, {})
  {
    forall l | 0 <= l < |walked.airborne| && walked.airborne[l].cell == cell
      ensures walked.airborne[l].elapsed + walked.delta > 0
    {
      assert 0 <= walked.airborne[l].elapsed;
    }
    hide JourneysCarry, JumpsHold, RestsTrack, DistinctPieces, PiecesInPlace;
    RestKeepsConsistent(walked, i, {cell});
    assert {cell} - {cell} == {};
  }

  lemma CrossingTakesTime(t: Tick, i: nat)
    requires Consistent(t, 0) && Crossing(t, i)
    ensures t.delta > 0
  {
  }

  lemma YieldKeepsConsistent(t: Tick, i: nat)
    requires Consistent(t, 0) && Crossing(t, i) && ClassifyEntry(t, i) == CapturedByAirborne
    ensures Consistent(YieldToAirborne(t, i), 0)
  {
    hide ConsistentExcept, EntersLiftedCell;
    ConsistentIsGrounded(t, {});
    var cell := NextCell(t.active[i]);
    var lifted := t.(airborne := LiftAt(t.airborne, cell, t.cells[cell]), cells := t.cells - {cell});
    LiftOpensSquare(t, cell);
    ConsistentIsGrounded(lifted, {cell});
    CrossingTakesTime(t, i);
    WalkKeepsConsistent(lifted, i, {cell});
    var walked := Walk(lifted, i);
    ConsistentIsGrounded(walked, {cell});
    RestUnderJumper(walked, i, cell);
    assert YieldToAirborne(t, i) == ReportArrival(ComeToRest(walked, i), cell, None);
    ReportsDoNotMatter(ComeToRest(walked, i), YieldToAirborne(t, i), {});
  }

  /** Agreement is about the board and the activity lists only. */
  lemma ReportsDoNotMatter(t: Tick, u: Tick, open: set<Position>)
    requires ConsistentExcept(t, 0, open)
    requires t.reports == u.reports || exists r: ArrivalReport :: u.reports == t.reports + [r] && r.destination in t.cells
    requires u == t.(reports := u.reports, victims := u.victims, clean := u.clean, entries := u.entries)
    ensures ConsistentExcept(u, 0, open)
  {
  }

  lemma ConsistentIsGrounded(t: Tick, open: set<Position>)
    requires ConsistentExcept(t, 0, open)
    ensures GroundedTick(t)
  {
  }

  /** Putting a crossing on record changes nothing that agreement is about. */
  lemma WatchingKeepsConsistent(t: Tick, i: nat)
    requires Consistent(t, 0) && Crossing(t, i)
    ensures GroundedTick(t) && Consistent(Watched(t, i), 0)
  {
    ConsistentIsGrounded(t, {});
    ReportsDoNotMatter(t, Watched(t, i), {});
  }

  /** A journey that ends where its piece stands. */
  lemma FinishKeepsConsistent(t: Tick, i: nat, captured: Option<CapturedPiece>)
    requires Consistent(t, 0) && Live(t.resolved, i) && IsComplete(t.active[i])
    ensures Consistent(FinishMotion(t, i, captured), 0)
  {
    hide ConsistentExcept;
    ConsistentIsGrounded(t, {});
    forall l | 0 <= l < |t.airborne|
      ensures t.airborne[l].cell != CurrentCell(t.active[i])
    {
      MoverHasNoJump(t, i, l);
    }
    RestKeepsConsistent(t, i, {});
    assert {} - {CurrentCell(t.active[i])} == {};
    ReportsDoNotMatter(ComeToRest(t, i), FinishMotion(t, i, captured), {});
  }

  lemma WalkInKeepsConsistent(t: Tick, i: nat, captured: Option<CapturedPiece>)
    requires Consistent(t, 0) && Crossing(t, i) && NextCell(t.active[i]) !in t.cells
    ensures Consistent(WalkIn(t, i, captured), 0)
  {
    hide ConsistentExcept;
    ConsistentIsGrounded(t, {});
    WalkKeepsConsistent(t, i, {});
    if IsComplete(Walk(t, i).active[i]) {
      FinishKeepsConsistent(Walk(t, i), i, captured);
    } else {
      ReportsDoNotMatter(Walk(t, i), WalkIn(t, i, captured), {});
    }
  }

  lemma BlockKeepsConsistent(t: Tick, i: nat)
    requires Consistent(t, 0) && Live(t.resolved, i)
    ensures Consistent(FinishMotion(t.(active := t.active[i := StopHere(t.active[i])]), i, None), 0)
  {
    hide ConsistentExcept;
    ConsistentIsGrounded(t, {});
    StopKeepsConsistent(t, i);
    FinishKeepsConsistent(t.(active := t.active[i := StopHere(t.active[i])]), i, None);
  }

  lemma StopKeepsConsistent(t: Tick, i: nat)
    requires Consistent(t, 0) && Live(t.resolved, i)
    ensures Consistent(t.(active := t.active[i := StopHere(t.active[i])]), 0)
  {
    var u := t.(active := t.active[i := StopHere(t.active[i])]);
    StopKeepsJourneys(t, u, i);
    StopKeepsClocks(t, u, i);
    hide JumpsHold, RestsTrack, DistinctPieces, PiecesInPlace, JumpClocks, JourneysCarry, StepClocks;
  }

  lemma StopKeepsClocks(t: Tick, u: Tick, i: nat)
    requires StepClocks(t.active, t.resolved, t.delta) && t.delta >= 0
    requires Live(t.resolved, i) && WellFormed(t.active[i])
    requires u == t.(active := t.active[i := StopHere(t.active[i])])
    ensures StepClocks(u.active, u.resolved, u.delta)
  {
  }

  lemma StoppedFits(width: int, height: int, m: Motion)
    requires WellFormed(m) && JourneyFits(width, height, m)
    ensures WellFormed(StopHere(m)) && JourneyFits(width, height, StopHere(m))
  {
    var n := StopHere(m);
    ProductMonotone(|n.path| - 1, |m.path| - 1, m.stepDuration);
  }

  lemma ProductMonotone(a: int, b: int, d: int)
    requires a <= b && d >= 0
    ensures a * d <= b * d
  {
  }

  lemma StopKeepsJourneys(t: Tick, u: Tick, i: nat)
    requires JourneysCarry(t.width, t.height, t.cells, t.active, t.resolved) && Live(t.resolved, i)
    requires u == t.(active := t.active[i := StopHere(t.active[i])])
    ensures JourneysCarry(u.width, u.height, u.cells, u.active, u.resolved)
  {
    forall j | Live(u.resolved, j)
      ensures WellFormed(u.active[j]) && CurrentCell(u.active[j]) == CurrentCell(t.active[j])
      ensures JourneyFits(u.width, u.height, u.active[j])
    {
      if j == i {
        StoppedFits(t.width, t.height, t.active[i]);
      } else {
        assert Live(t.resolved, j);
      }
    }
    hide JourneyFits, WellFormed;
    assert Grounded(u.cells, u.active, u.resolved);
    forall c | c in u.cells && u.cells[c].state == Moving
      ensures exists j :: Live(u.resolved, j) && CurrentCell(u.active[j]) == c
    {
      var j :| Live(t.resolved, j) && CurrentCell(t.active[j]) == c;
      assert Live(u.resolved, j) && CurrentCell(u.active[j]) == c;
    }
  }

  /** A square whose occupant may be captured in ordinary play has no jump on it. */
  lemma VictimHasNoJump(t: Tick, i: nat, l: nat)
    requires Consistent(t, 0) && Crossing(t, i) && ClassifyEntry(t, i) == Capture && !EntersLiftedCell(t, i)
    requires l < |t.airborne|
    ensures t.airborne[l].cell != NextCell(t.active[i])
  {
    assert JumpHolds(t.cells, t.resting, t.airborne[l], JumpClock(t.airborne, l, t.delta, 0));
  }

  /** A crossing that keeps off lifted squares keeps the agreement, whichever of the four ways it goes. */
  lemma OrdinaryCrossingKeepsConsistent(t: Tick, i: nat)
    requires Consistent(t, 0) && Crossing(t, i) && !EntersLiftedCell(t, i)
    ensures Consistent(ResolveEntry(t, i), 0)
  {
    var next := NextCell(t.active[i]);
    var watched := Watched(t, i);
    WatchingKeepsConsistent(t, i);
    match ClassifyEntry(t, i)
    case BlockedByFriendly => BlockKeepsConsistent(watched, i);
    case CapturedByAirborne => YieldKeepsConsistent(watched, i);
    case Free => WalkInKeepsConsistent(watched, i, None);
    case Capture =>
      forall l | 0 <= l < |t.airborne|
        ensures t.airborne[l].cell != next
      {
        VictimHasNoJump(t, i, l);
      }
      CaptureKeepsConsistent(watched, next, {});
      CaptureKeepsGrounded(watched, next);
      WalkInKeepsConsistent(CaptureAt(watched, next), i, Some(TakenAt(t.cells, next)));
  }

  /** Walking into a lifted square can only mean that a piece of the jumper's own colour takes the enemy that is to be
      taken by the jumper, and then stands where the jumper comes down. */
  lemma LiftedEntryIsFriendly(t: Tick, i: nat, k: nat)
    requires Consistent(t, 0) && Crossing(t, i) && ClassifyEntry(t, i) != BlockedByFriendly
    requires k < |t.airborne| && t.airborne[k].cell == NextCell(t.active[i]) && IsLifted(t.airborne[k])
    ensures ClassifyEntry(t, i) == Capture
    ensures t.cells[CurrentCell(t.active[i])].color == t.airborne[k].lifted.value.color
    ensures !Consistent(ResolveEntry(t, i), 0)
  {
    var next, u := NextCell(t.active[i]), ResolveEntry(t, i);
    assert JumpHolds(t.cells, t.resting, t.airborne[k], JumpClock(t.airborne, k, t.delta, 0));
    var m := t.active[i];
    assert m.path[m.stepIndex] != m.path[m.stepIndex + 1];
    CaptureKeepsGrounded(t, next);
    hide EntersLiftedCell;
    assert u.airborne == t.airborne && next in u.cells;
    assert u.cells[next].color == t.cells[CurrentCell(m)].color;
    assert !JumpHolds(u.cells, u.resting, u.airborne[k], JumpClock(u.airborne, k, u.delta, 0));
  }

  /** The hypothesis is exactly what a crossing needs. */
  lemma CrossingKeepsConsistentExactly(t: Tick, i: nat)
    requires Consistent(t, 0) && Crossing(t, i)
    ensures GroundedTick(t) && (Consistent(ResolveEntry(t, i), 0) <==> !EntersLiftedCell(t, i))
  {
    ConsistentIsGrounded(t, {});
    hide ConsistentExcept, ResolveEntry, ClassifyEntry;
    if EntersLiftedCell(t, i) {
      var k :| 0 <= k < |t.airborne| && t.airborne[k].cell == NextCell(t.active[i]) && IsLifted(t.airborne[k]);
      LiftedEntryIsFriendly(t, i, k);
    } else {
      OrdinaryCrossingKeepsConsistent(t, i);
    }
  }

  lemma CrossingKeepsConsistent(t: Tick, i: nat)
    requires Consistent(t, 0) && Crossing(t, i)
    requires ResolveEntry(t, i).clean
    ensures Consistent(ResolveEntry(t, i), 0)
  {
    ConsistentIsGrounded(t, {});
    assert !EntersLiftedCell(t, i);
    hide ConsistentExcept, EntersLiftedCell, ResolveEntry;
    OrdinaryCrossingKeepsConsistent(t, i);
  }

  lemma CrossingOnlySoils(t: Tick, i: nat)
    requires GroundedTick(t) && Crossing(t, i) && ResolveEntry(t, i).clean
    ensures t.clean
  {
  }

  lemma {:induction false} PassOnlySoils(t: Tick, order: seq<nat>)
    requires GroundedTick(t) && Pending(t, order) && Pass(t, order).clean
    ensures t.clean
    decreases |order|
  {
    if order != [] {
      if Live(t.resolved, order[0]) {
        CrossingKeepsGrounded(t, order[0]);
        CrossingKeepsPending(t, order);
        PassOnlySoils(ResolveEntry(t, order[0]), order[1..]);
        CrossingOnlySoils(t, order[0]);
      } else {
        PassOnlySoils(t, order[1..]);
      }
    }
  }

  lemma {:induction false} ResolveAllOnlySoils(t: Tick)
    requires GroundedTick(t) && ResolveAll(t).clean
    ensures t.clean
    decreases Remaining(t.active, t.resolved)
  {
    var order := CrossingsByArrival(t.active, t.resolved);
    FoundCrossingsArePending(t);
    if order != [] {
      ResolveAllOnlySoils(Pass(t, order));
      PassOnlySoils(t, order);
    }
  }

  lemma {:induction false} PassKeepsConsistent(t: Tick, order: seq<nat>)
    requires Consistent(t, 0) && Pending(t, order) && Pass(t, order).clean
    ensures Consistent(Pass(t, order), 0)
    decreases |order|
  {
    if order != [] {
      if Live(t.resolved, order[0]) {
        CrossingKeepsGrounded(t, order[0]);
        CrossingKeepsPending(t, order);
        PassOnlySoils(ResolveEntry(t, order[0]), order[1..]);
        CrossingKeepsConsistent(t, order[0]);
        PassKeepsConsistent(ResolveEntry(t, order[0]), order[1..]);
      } else {
        PassKeepsConsistent(t, order[1..]);
      }
    }
  }

  /** However many passes a tick takes, agreement holds when they are over. */
  lemma {:induction false} ResolveAllKeepsConsistent(t: Tick)
    requires Consistent(t, 0) && ResolveAll(t).clean
    ensures Consistent(ResolveAll(t), 0)
    decreases Remaining(t.active, t.resolved)
  {
    var order := CrossingsByArrival(t.active, t.resolved);
    FoundCrossingsArePending(t);
    if order != [] {
      ResolveAllOnlySoils(Pass(t, order));
      PassKeepsConsistent(t, order);
      ResolveAllKeepsConsistent(Pass(t, order));
    }
  }
}
