/** The timetable of an unobstructed journey, over ticks and over whole runs. */
module JourneySchedules {
  import opened Model
  import opened Motions
  import opened Rules
  import opened ArbiterSpec
  import opened ArbiterTick
  import opened ArbiterInvariant
  import opened CrossingKeeps
  import opened CommandsKeep
  import opened TickKeeps
  import opened LandingKeeps
  import opened CrossingLog
  import opened JourneyEnds
  import opened JourneyArrives
  import opened EngineSpec
  import opened EngineRuns

  // ---- the timetable ----

  ghost predicate Rolling(w: World, i: nat, r: Trip, clock: int) {
    && i < |w.active|
    && var m := w.active[i];
       && m.path == r.path && m.stepDuration == r.step && Travelled(m) == clock
       && m.stepIndex < |r.path| - 1 && 0 <= m.elapsed < r.step
       && Carries(w.cells, r, r.path[m.stepIndex]) && Open(w.cells, w.airborne, r, m.stepIndex)
  }

  /** So long after its start the trip is under way on open squares, or over with its piece standing at the end. */
  ghost predicate Scheduled(w: World, r: Trip, clock: int) {
    && ValidTrip(r) && clock >= 0
    && if clock < (|r.path| - 1) * r.step then exists i: nat :: Rolling(w, i, r, clock)
       else Stands(w.cells, w.airborne, r)
  }

  lemma RollingReaches(w: World, i: nat, r: Trip, clock: int)
    requires ValidTrip(r) && clock >= 0 && Rolling(w, i, r, clock)
    ensures w.active[i].stepIndex == Reached(r, clock) && clock < (|r.path| - 1) * r.step
  {
    var m := w.active[i];
    DivisionFinds(m.stepIndex, r.step, m.elapsed);
    StepEnds(m.stepIndex, r.step);
    ProductMonotone(m.stepIndex + 1, |r.path| - 1, r.step);
  }

  lemma EndIsReached(r: Trip, clock: int)
    requires ValidTrip(r) && clock >= (|r.path| - 1) * r.step
    ensures clock >= 0 && Reached(r, clock) == |r.path| - 1
  {
    var n := |r.path| - 1;
    ProductMonotone(0, n, r.step);
    var q, e := clock / r.step, clock % r.step;
    assert clock == q * r.step + e && 0 <= e < r.step;
    if q < n {
      ProductMonotone(q + 1, n, r.step);
      QuotientIsNatural(clock, r.step);
      StepEnds(q, r.step);
    }
  }

  /** Where the schedule puts the piece, it is. */
  lemma ScheduleTells(w: World, r: Trip, clock: int)
    requires Scheduled(w, r, clock)
    ensures Carries(w.cells, r, r.path[Reached(r, clock)])
  {
    if clock < (|r.path| - 1) * r.step {
      var i: nat :| Rolling(w, i, r, clock);
      RollingReaches(w, i, r, clock);
    } else {
      EndIsReached(r, clock);
    }
  }

  // ---- over a tick ----

  /** Who stands on the squares ahead, in which colour, and that no jump is there, are as before. */
  ghost predicate SameAhead(cells: Cells, airborne: seq<Jump>, after: Cells, later: seq<Jump>, r: Trip, s: nat) {
    forall j :: s <= j < |r.path| ==> SameAt(cells, airborne, after, later, r.path[j])
  }

  ghost predicate SameAt(cells: Cells, airborne: seq<Jump>, after: Cells, later: seq<Jump>, c: Position) {
    && (c in after <==> c in cells)
    && (c in cells ==> after[c].id == cells[c].id && after[c].color == cells[c].color)
    && (NoJumpAt(airborne, c) ==> NoJumpAt(later, c))
  }

  ghost predicate NoJumpAt(airborne: seq<Jump>, c: Position) {
    forall l :: 0 <= l < |airborne| ==> airborne[l].cell != c
  }

  lemma OpenIsSame(cells: Cells, airborne: seq<Jump>, after: Cells, later: seq<Jump>, r: Trip, s: nat)
    requires SameAhead(cells, airborne, after, later, r, s) && s < |r.path|
    ensures Open(cells, airborne, r, s) ==> Open(after, later, r, s)
    ensures Carries(cells, r, r.path[s]) ==> Carries(after, r, r.path[s])
  {
    assert SameAt(cells, airborne, after, later, r.path[s]);
    if Open(cells, airborne, r, s) {
      forall j | s < j < |r.path|
        ensures SameAt(cells, airborne, after, later, r.path[j]) && NoJumpAt(airborne, r.path[j])
      {
      }
    }
  }

  lemma RestsKeepAhead(w: World, ms: int, r: Trip, s: nat)
    ensures SameAhead(w.cells, w.airborne, BeginTick(w, ms).cells, w.airborne, r, s)
  {
    forall j | s <= j < |r.path|
      ensures SameAt(w.cells, w.airborne, BeginTick(w, ms).cells, w.airborne, r.path[j])
    {
      RestsKeepWho(w.cells, w.resting, ms, r.path[j]);
    }
  }

  lemma RollingBegins(w: World, ms: int, i: nat, r: Trip, clock: int)
    requires Inv(w) && ms >= 0 && ValidTrip(r) && clock >= 0 && Rolling(w, i, r, clock)
    ensures GroundedTick(BeginTick(w, ms)) && OnWay(BeginTick(w, ms), i, r, clock + ms, Reached(r, clock))
  {
    var b := BeginTick(w, ms);
    AgreementIsGrounded(w);
    BeginTickIsGrounded(w, ms);
    RollingReaches(w, i, r, clock);
    RestsKeepAhead(w, ms, r, Reached(r, clock));
    OpenIsSame(w.cells, w.airborne, b.cells, b.airborne, r, Reached(r, clock));
    assert Live(b.resolved, i);
    hide Inv, Open, CellsAfterRests, RestsLeft, Grounded, Reached, Carries;
  }

  lemma StandingBegins(w: World, ms: int, r: Trip, clock: int)
    requires Inv(w) && ms >= 0 && ValidTrip(r) && clock >= (|r.path| - 1) * r.step && Stands(w.cells, w.airborne, r)
    ensures clock >= 0 && GroundedTick(BeginTick(w, ms))
    ensures OnWay(BeginTick(w, ms), |w.active|, r, clock + ms, Reached(r, clock))
  {
    var b := BeginTick(w, ms);
    AgreementIsGrounded(w);
    BeginTickIsGrounded(w, ms);
    EndIsReached(r, clock);
    RestsWakeTheirPieces(w.cells, w.resting, ms);
    hide Inv, CellsAfterRests, RestsLeft, Grounded, Reached;
    assert !Live(b.resolved, |w.active|);
  }

  lemma ScheduleBegins(w: World, ms: int, r: Trip, clock: int) returns (i: nat)
    requires Inv(w) && ms >= 0 && Scheduled(w, r, clock)
    ensures GroundedTick(BeginTick(w, ms)) && OnWay(BeginTick(w, ms), i, r, clock + ms, Reached(r, clock))
  {
    hide Inv, BeginTick, OnWay, Rolling, Stands, Grounded;
    if clock < (|r.path| - 1) * r.step {
      i :| Rolling(w, i, r, clock);
      RollingBegins(w, ms, i, r, clock);
    } else {
      StandingBegins(w, ms, r, clock);
      i := |w.active|;
    }
  }

  lemma RollingIsEarly(w: World, i: nat, r: Trip, clock: int)
    requires ValidTrip(r) && clock >= 0 && Rolling(w, i, r, clock)
    ensures Scheduled(w, r, clock)
  {
    RollingReaches(w, i, r, clock);
  }

  /** Once the crossings are over the trip is where the timetable says. */
  lemma WayIsScheduled(t: Tick, i: nat, r: Trip, clock: int, start: nat)
    requires GroundedTick(t) && OnWay(t, i, r, clock, start) && clock >= 0
    requires forall j :: Live(t.resolved, j) ==> !IsEnteringNextCell(t.active[j])
    ensures Scheduled(WorldOf(DropResolved(t)), r, clock)
  {
    if Live(t.resolved, i) {
      var k := KeepIndex(t.active, t.resolved, |t.active|, i);
      assert Rolling(WorldOf(DropResolved(t)), k, r, clock);
      RollingIsEarly(WorldOf(DropResolved(t)), k, r, clock);
    }
  }

  lemma CrossingsAreReplayed(w: World, ms: int)
    requires GroundedWorld(w)
    ensures GroundedTick(BeginTick(w, ms))
    ensures var u, t := ResolveAll(BeginTick(w, ms)), AfterCrossings(w, ms);
            && t == DropResolved(u) && t.entries == u.entries && (OrdinaryTick(w, ms) <==> u.clean)
            && (forall j :: Live(u.resolved, j) ==> !IsEnteringNextCell(u.active[j]))
  {
    hide Grounded;
    BeginTickIsGrounded(w, ms);
  }

  lemma CrossingsKeepSchedule(w: World, ms: int, r: Trip, clock: int)
    requires Inv(w) && ms >= 0 && GroundedWorld(w) && OrdinaryTick(w, ms) && Scheduled(w, r, clock)
    requires FreeWay(AfterCrossings(w, ms).entries, r, Reached(r, clock))
    ensures Scheduled(WorldOf(AfterCrossings(w, ms)), r, clock + ms)
  {
    hide *;
    CrossingsAreReplayed(w, ms);
    var i := ScheduleBegins(w, ms, r, clock);
    var b := BeginTick(w, ms);
    ClockRuns(w, r, clock);
    BeginTickIsConsistent(w, ms);
    BeginTickIsUpheld(w, ms);
    ReplayKeepsWay(b, i, r, clock + ms, Reached(r, clock));
    WayIsScheduled(ResolveAll(b), i, r, clock + ms, Reached(r, clock));
  }

  lemma ClockRuns(w: World, r: Trip, clock: int)
    requires Scheduled(w, r, clock)
    ensures clock >= 0 && ValidTrip(r)
  {
  }

  /** What keeps the squares ahead and the journeys as they are keeps the timetable. */
  lemma SameAheadKeepsRolling(w: World, v: World, i: nat, r: Trip, clock: int)
    requires ValidTrip(r) && clock >= 0 && Rolling(w, i, r, clock) && i < |v.active| && v.active[i] == w.active[i]
    requires SameAhead(w.cells, w.airborne, v.cells, v.airborne, r, w.active[i].stepIndex)
    ensures Rolling(v, i, r, clock)
  {
    OpenIsSame(w.cells, w.airborne, v.cells, v.airborne, r, w.active[i].stepIndex);
    hide Open, SameAhead, Carries;
  }

  lemma LandingsKeepSchedule(w: World, t: Tick, r: Trip, clock: int)
    requires Consistent(t, 0) && t.resolved == AllUnresolved(|t.active|) && LandingsGrounded(t.cells, t.airborne)
    requires Scheduled(WorldOf(t), r, clock)
    ensures Scheduled(WorldOf(LandAll(t, 0)), r, clock)
  {
    hide ConsistentExcept, LandAll, LandingsGrounded;
    var u := LandAll(t, 0);
    if clock < (|r.path| - 1) * r.step {
      var i: nat :| Rolling(WorldOf(t), i, r, clock);
      var s := t.active[i].stepIndex;
      forall j | s <= j < |r.path|
        ensures SameAt(t.cells, t.airborne, u.cells, u.airborne, r.path[j]) && u.active == t.active
      {
        forall l | 0 <= l < |t.airborne|
          ensures t.airborne[l].cell != r.path[j]
        {
          if j == s {
            assert Live(t.resolved, i);
            MoverHasNoJump(t, i, l);
          }
        }
        LandingsLeaveOthers(t, 0, r.path[j]);
      }
      assert SameAhead(t.cells, t.airborne, u.cells, u.airborne, r, s) && u.active == t.active;
      SameAheadKeepsRolling(WorldOf(t), WorldOf(u), i, r, clock);
    } else {
      LandingsLeaveOthers(t, 0, r.path[|r.path| - 1]);
    }
  }

  lemma TickKeepsSchedule(w: World, ms: int, r: Trip, clock: int)
    requires Inv(w) && ms >= 0 && GroundedWorld(w) && OrdinaryTick(w, ms) && Scheduled(w, r, clock)
    requires FreeWay(AfterCrossings(w, ms).entries, r, Reached(r, clock))
    ensures var t := AfterCrossings(w, ms); LandingsGrounded(t.cells, t.airborne)
    ensures Scheduled(WorldOf(Advance(w, ms)), r, clock + ms)
  {
    hide Inv, ConsistentExcept, Scheduled, FreeWay, AfterCrossings, Grounded, GroundedWorld, OrdinaryTick, LandAll;
    AfterCrossingsIsConsistent(w, ms);
    CrossingsKeepSchedule(w, ms, r, clock);
    LandingsKeepSchedule(w, AfterCrossings(w, ms), r, clock + ms);
  }

  // ---- over a run ----

  lemma StandsIsSame(cells: Cells, airborne: seq<Jump>, after: Cells, later: seq<Jump>, r: Trip)
    requires |r.path| > 0 && Stands(cells, airborne, r)
    requires SameAt(cells, airborne, after, later, r.path[|r.path| - 1])
    requires after[r.path[|r.path| - 1]].state == cells[r.path[|r.path| - 1]].state
    ensures Stands(after, later, r)
  {
  }

  /** Journeys that go on, and squares ahead that stay as they were, keep the timetable. */
  lemma SameAheadKeepsSchedule(w: World, v: World, r: Trip, clock: int)
    requires Scheduled(w, r, clock) && w.active <= v.active
    requires SameAhead(w.cells, w.airborne, v.cells, v.airborne, r, Reached(r, clock))
    requires clock >= (|r.path| - 1) * r.step ==>
               var c := r.path[|r.path| - 1]; c in w.cells && c in v.cells ==> v.cells[c].state == w.cells[c].state
    ensures Scheduled(v, r, clock)
  {
    hide Open, SameAhead, Reached, Stands;
    if clock < (|r.path| - 1) * r.step {
      var i: nat :| Rolling(w, i, r, clock);
      RollingReaches(w, i, r, clock);
      SameAheadKeepsRolling(w, v, i, r, clock);
    } else {
      EndIsReached(r, clock);
      LastIsAhead(w, v, r);
      StandsIsSame(w.cells, w.airborne, v.cells, v.airborne, r);
    }
  }

  lemma LastIsAhead(w: World, v: World, r: Trip)
    requires |r.path| > 0 && SameAhead(w.cells, w.airborne, v.cells, v.airborne, r, |r.path| - 1)
    requires Stands(w.cells, w.airborne, r)
    ensures SameAt(w.cells, w.airborne, v.cells, v.airborne, r.path[|r.path| - 1])
    ensures r.path[|r.path| - 1] in w.cells && r.path[|r.path| - 1] in v.cells
  {
  }

  lemma WaitKeepsSchedule(g: Game, ms: int, r: Trip, clock: int)
    requires GameInv(g) && OrdinaryWait(g.world, ms) && Scheduled(g.world, r, clock)
    requires FreeWay(AfterCrossings(g.world, ms).entries, r, Reached(r, clock))
    ensures Scheduled(Wait(g, ms).world, r, clock + ms)
  {
    hide Inv, Scheduled, FreeWay, AfterCrossings, Advance, GroundedWorld, OrdinaryTick, Wait, ApplyReports;
    TickKeepsSchedule(g.world, ms, r, clock);
    WaitIsApplyReports(g, ms);
    var t := Advance(g.world, ms);
    ReportsKeepSchedule(g.(elapsedMs := g.elapsedMs + ms, world := WorldOf(t)), t.reports, r, clock + ms);
  }

  lemma ReportsKeepSchedule(g: Game, reports: seq<ArrivalReport>, r: Trip, clock: int)
    requires Scheduled(g.world, r, clock)
    ensures Scheduled(ApplyReports(g, reports).world, r, clock)
  {
    hide Scheduled, ApplyReports;
    ReportsPromoteTheDue(g, reports);
    ClockRuns(g.world, r, clock);
    SameAheadKeepsSchedule(g.world, ApplyReports(g, reports).world, r, clock);
  }

  /** How long the command lets time run. */
  function Spent(c: Command): int {
    if c.Elapse? then c.ms else 0
  }

  function TimeSpent(run: seq<Command>): int {
    if run == [] then 0 else Spent(run[0]) + TimeSpent(run[1..])
  }

  /** The command does not send the piece on from its target, puts no jump in its way, and lets nobody else walk onto a
      square of its path before it has left it. */
  ghost predicate LeavesAlone(g: Game, c: Command, r: Trip, clock: int)
    requires GameInv(g) && OrdinaryCommand(g, c) && ValidTrip(r) && clock >= 0
  {
    match c
    case MoveTo(from, _) => clock >= (|r.path| - 1) * r.step ==> from != r.path[|r.path| - 1]
    case JumpOn(cell) => forall j :: Reached(r, clock) <= j < |r.path| ==> cell != r.path[j]
    case Elapse(ms) => FreeWay(AfterCrossings(g.world, ms).entries, r, Reached(r, clock))
    case Forfeit => true
  }

  lemma MoveKeepsSchedule(g: Game, from: Position, to: Position, r: Trip, clock: int)
    requires GameInv(g) && Scheduled(g.world, r, clock) && LeavesAlone(g, MoveTo(from, to), r, clock)
    ensures Scheduled(RequestMove(g, from, to).world, r, clock)
  {
    hide Scheduled, GameInv, ValidateMove, Reached, NewMotion;
    ClockRuns(g.world, r, clock);
    if MoveReply(g, from, to) == Ok {
      AcceptedMove(g, from, to);
    }
    var w, v := g.world, RequestMove(g, from, to).world;
    forall j | 0 <= j < |r.path|
      ensures SameAt(w.cells, w.airborne, v.cells, v.airborne, r.path[j])
    {
    }
    SameAheadKeepsSchedule(w, v, r, clock);
  }

  lemma JumpKeepsSchedule(g: Game, cell: Position, r: Trip, clock: int)
    requires GameInv(g) && Scheduled(g.world, r, clock) && LeavesAlone(g, JumpOn(cell), r, clock)
    ensures Scheduled(RequestJump(g, cell).world, r, clock)
  {
    hide Scheduled, GameInv;
    ClockRuns(g.world, r, clock);
    var w, v := g.world, RequestJump(g, cell).world;
    EndReachedIsEnd(r, clock);
    forall j | Reached(r, clock) <= j < |r.path|
      ensures SameAt(w.cells, w.airborne, v.cells, v.airborne, r.path[j])
    {
    }
    SameAheadKeepsSchedule(w, v, r, clock);
  }

  lemma EndReachedIsEnd(r: Trip, clock: int)
    requires ValidTrip(r) && clock >= 0
    ensures clock >= (|r.path| - 1) * r.step ==> Reached(r, clock) == |r.path| - 1
  {
    if clock >= (|r.path| - 1) * r.step {
      EndIsReached(r, clock);
    }
  }

  lemma StepKeepsSchedule(g: Game, c: Command, r: Trip, clock: int)
    requires GameInv(g) && OrdinaryCommand(g, c) && Scheduled(g.world, r, clock) && LeavesAlone(g, c, r, clock)
    ensures Scheduled(GameStep(g, c).world, r, clock + Spent(c))
  {
    hide GameInv, Scheduled, RequestMove, RequestJump, Wait;
    match c
    case MoveTo(from, to) => MoveKeepsSchedule(g, from, to, r, clock);
    case JumpOn(cell) => JumpKeepsSchedule(g, cell, r, clock);
    case Elapse(ms) => WaitKeepsSchedule(g, ms, r, clock);
    case Forfeit =>
  }

  ghost predicate Undisturbed(g: Game, run: seq<Command>, r: Trip, clock: int)
    requires GameInv(g) && OrdinaryRun(g, run) && ValidTrip(r)
    decreases |run|
  {
    || run == []
    || (&& clock >= 0 && LeavesAlone(g, run[0], r, clock)
        && (StepKeepsGame(g, run[0]); Undisturbed(GameStep(g, run[0]), run[1..], r, clock + Spent(run[0]))))
  }

  /** Main result. Over any ordinary run that leaves it alone, however its time is split, a trip keeps its timetable. */
  lemma {:induction false} RunKeepsSchedule(g: Game, run: seq<Command>, r: Trip, clock: int)
    requires GameInv(g) && OrdinaryRun(g, run) && Scheduled(g.world, r, clock)
    requires ValidTrip(r) && Undisturbed(g, run, r, clock)
    ensures Scheduled(Run(g, run).world, r, clock + TimeSpent(run))
    decreases |run|
  {
    hide GameInv, OrdinaryCommand, GameStep, Scheduled, LeavesAlone, ValidTrip;
    if run != [] {
      StepKeepsGame(g, run[0]);
      StepKeepsSchedule(g, run[0], r, clock);
      RunKeepsSchedule(GameStep(g, run[0]), run[1..], r, clock + Spent(run[0]));
    }
  }

  // ---- an accepted move ----

  /** The trip an accepted move starts. */
  function TripFor(p: Piece, from: Position, to: Position): Trip {
    Trip(p.id, p.color, TravelPath(from, to), StepDurationOf(from, to, |TravelPath(from, to)|))
  }

  lemma PathNeverReturns(from: Position, to: Position, j: nat, k: nat)
    requires j < k < |TravelPath(from, to)|
    ensures TravelPath(from, to)[j] != TravelPath(from, to)[k]
  {
    if IsStraightLine(from, to) {
      var dRow, dCol := DirectionOf(to.row - from.row), DirectionOf(to.col - from.col);
      if dRow != 0 {
        assert j * dRow != k * dRow;
      } else {
        assert j * dCol != k * dCol;
      }
    }
  }

  lemma TripIsValid(p: Piece, from: Position, to: Position)
    requires from != to
    ensures ValidTrip(TripFor(p, from, to))
  {
    StepsFillTheJourney(from, to);
    var path := TravelPath(from, to);
    forall j, k | 0 <= j < k < |path|
      ensures path[j] != path[k]
    {
      PathNeverReturns(from, to, j, k);
    }
  }

  lemma JumpsHaveSquares(w: World, c: Position)
    requires Inv(w) && c !in w.cells
    ensures NoJumpAt(w.airborne, c)
  {
    forall l | 0 <= l < |w.airborne|
      ensures w.airborne[l].cell != c
    {
      assert JumpHolds(w.cells, w.resting, w.airborne[l], JumpClock(w.airborne, l, 0, |w.airborne|));
    }
  }

  lemma AcceptedMove(g: Game, from: Position, to: Position)
    requires GameInv(g) && MoveReply(g, from, to) == Ok
    ensures from in g.world.cells && from != to && g.world.cells[from].state == Idle
    ensures ClearWay(GridOf(g.world), g.world.cells[from].color, from, to)
  {
    hide JourneysCarry, JumpsHold, RestsTrack;
    LegalMoveHasClearWay(GridOf(g.world), g.world.cells[from], to);
  }

  lemma ClearWayIsOpen(w: World, p: Piece, from: Position, to: Position)
    requires Inv(w) && ClearWay(GridOf(w), p.color, from, to) && NoJumpAt(w.airborne, to)
    ensures Open(w.cells, w.airborne, TripFor(p, from, to), 0)
  {
    hide Inv, TravelPath, StepDurationOf;
    var path := TravelPath(from, to);
    forall j | 0 < j < |path|
      ensures NoJumpAt(w.airborne, path[j])
      ensures j < |path| - 1 ==> path[j] !in w.cells
    {
      if j < |path| - 1 {
        assert Classify(GridOf(w), p.color, path[j]) == Empty;
        JumpsHaveSquares(w, path[j]);
      }
    }
  }

  lemma NewJourneyRolls(w: World, from: Position, to: Position)
    requires from in w.cells && from != to && Open(w.cells, w.airborne, TripFor(w.cells[from], from, to), 0)
    ensures Rolling(BeginMotion(w, from, to), |w.active|, TripFor(w.cells[from], from, to), 0)
  {
    hide Open, TravelPath, StepDurationOf, TravelDurationMs, IsStraightLine;
    var r, v := TripFor(w.cells[from], from, to), BeginMotion(w, from, to);
    StepsFillTheJourney(from, to);
    forall c
      ensures SameAt(w.cells, w.airborne, v.cells, v.airborne, c)
    {
    }
    OpenIsSame(w.cells, w.airborne, v.cells, v.airborne, r, 0);
  }

  /** Nobody is in the air above the target when the move is accepted. */
  lemma MoveStartsSchedule(g: Game, from: Position, to: Position)
    requires GameInv(g) && MoveReply(g, from, to) == Ok && NoJumpAt(g.world.airborne, to)
    ensures from in g.world.cells && from != to
    ensures var r := TripFor(g.world.cells[from], from, to);
            ValidTrip(r) && Scheduled(RequestMove(g, from, to).world, r, 0)
  {
    hide GameInv, MoveReply, TravelPath, StepDurationOf, ClearWay, Open, Rolling, Scheduled, ValidTrip, TripFor;
    AcceptedMove(g, from, to);
    GameAgrees(g);
    TripIsValid(g.world.cells[from], from, to);
    ClearWayIsOpen(g.world, g.world.cells[from], from, to);
    NewJourneyRolls(g.world, from, to);
    RollingIsEarly(RequestMove(g, from, to).world, |g.world.active|, TripFor(g.world.cells[from], from, to), 0);
  }

  lemma RollingMoves(g: Game, r: Trip, clock: int)
    requires GameInv(g) && Scheduled(g.world, r, clock)
    ensures var c := r.path[Reached(r, clock)];
            c in g.world.cells && (g.world.cells[c].state == Moving <==> clock < (|r.path| - 1) * r.step)
  {
    ScheduleTells(g.world, r, clock);
    if clock < (|r.path| - 1) * r.step {
      var i: nat :| Rolling(g.world, i, r, clock);
      RollingReaches(g.world, i, r, clock);
      assert Live(AllUnresolved(|g.world.active|), i);
    } else {
      EndIsReached(r, clock);
    }
  }

  /** After an accepted move comes an ordinary run that leaves its journey alone. */
  ghost predicate LeavesJourneyAlone(g: Game, from: Position, to: Position, run: seq<Command>)
    requires GameInv(g) && MoveReply(g, from, to) == Ok
  {
    AcceptedMove(g, from, to);
    MoveRequestKeepsGame(g, from, to);
    TripIsValid(g.world.cells[from], from, to);
    var h := RequestMove(g, from, to);
    OrdinaryRun(h, run) && Undisturbed(h, run, TripFor(g.world.cells[from], from, to), 0)
  }

  /** Spent so long on the way, the piece stands on the square min(spent / step, last) of its path, moving until that
      is the whole travel time and not from then on: it has arrived. */
  ghost predicate KeepsTime(cells: Cells, p: Piece, from: Position, to: Position, spent: int) {
    var path := TravelPath(from, to);
    var step := StepDurationOf(from, to, |path|);
    && spent >= 0 && step >= 1 && |path| >= 2 && spent / step >= 0
    && var k := if spent / step < |path| - 1 then spent / step else |path| - 1;
       && path[k] in cells && cells[path[k]].id == p.id && cells[path[k]].color == p.color
       && (cells[path[k]].state == Moving <==> spent < TravelDurationMs(from, to))
       && (spent >= TravelDurationMs(from, to) ==> path[k] == to)
  }

  /** Main result. A move is accepted with no jump above its target, and then any ordinary run goes by that leaves the
      journey alone: whatever else is ordered and however its time is split, the piece keeps time and arrives. */
  lemma UnobstructedJourneyArrives(g: Game, from: Position, to: Position, run: seq<Command>)
    requires GameInv(g) && MoveReply(g, from, to) == Ok && NoJumpAt(g.world.airborne, to)
    requires LeavesJourneyAlone(g, from, to, run)
    ensures from in g.world.cells && GameInv(RequestMove(g, from, to)) && OrdinaryRun(RequestMove(g, from, to), run)
    ensures KeepsTime(Run(RequestMove(g, from, to), run).world.cells, g.world.cells[from], from, to, TimeSpent(run))
  {
    hide *;
    JourneyIsLeftAlone(g, from, to, run);
    MoveStartsSchedule(g, from, to);
    var p, h := g.world.cells[from], RequestMove(g, from, to);
    RunKeepsSchedule(h, run, TripFor(p, from, to), 0);
    TimetableTells(Run(h, run), p, from, to, TimeSpent(run));
  }

  lemma JourneyIsLeftAlone(g: Game, from: Position, to: Position, run: seq<Command>)
    requires GameInv(g) && MoveReply(g, from, to) == Ok && LeavesJourneyAlone(g, from, to, run)
    ensures from in g.world.cells && from != to && GameInv(RequestMove(g, from, to))
    ensures OrdinaryRun(RequestMove(g, from, to), run)
    ensures var r := TripFor(g.world.cells[from], from, to);
            ValidTrip(r) && Undisturbed(RequestMove(g, from, to), run, r, 0)
  {
    hide GameInv, MoveReply, RequestMove, ValidTrip, Undisturbed, OrdinaryRun;
    AcceptedMove(g, from, to);
    MoveRequestKeepsGame(g, from, to);
    TripIsValid(g.world.cells[from], from, to);
  }

  lemma TimetableTells(h: Game, p: Piece, from: Position, to: Position, spent: int)
    requires GameInv(h) && from != to && Scheduled(h.world, TripFor(p, from, to), spent)
    ensures KeepsTime(h.world.cells, p, from, to, spent)
  {
    hide GameInv, Rolling, Stands, TravelPath, StepDurationOf, TravelDurationMs;
    var r := TripFor(p, from, to);
    StepsFillTheJourney(from, to);
    ScheduleTells(h.world, r, spent);
    RollingMoves(h, r, spent);
    EndReachedIsEnd(r, spent);
    QuotientIsNatural(spent, r.step);
  }
}
