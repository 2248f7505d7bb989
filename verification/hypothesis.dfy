/** Why the one hypothesis of ordinary play cannot be dropped: a game after which a landing takes its own colour. */
module Hypothesis {
  import opened Model
  import opened Motions
  import opened Rules
  import opened ArbiterSpec
  import opened CrossingOrder
  import opened ArbiterTick
  import opened ArbiterInvariant
  import opened CommandsKeep
  import opened CrossingLog
  import opened EngineSpec
  import opened EngineRuns
  import opened OrdinaryPlay

  // ---- ticks in which little happens ----

  lemma SomeoneIsFirst(order: seq<nat>)
    ensures order != [] ==> exists i :: i in order
  {
    if order != [] {
      assert order[0] in order;
    }
  }

  lemma NothingCrosses(t: Tick)
    requires GroundedTick(t) && forall i :: Live(t.resolved, i) ==> !IsEnteringNextCell(t.active[i])
    ensures ResolveAll(t) == t
  {
    CrossingsAreInArrivalOrder(t.active, t.resolved);
    var order := CrossingsByArrival(t.active, t.resolved);
    SomeoneIsFirst(order);
  }

  lemma {:induction false} NothingDropped(active: seq<Motion>, n: nat)
    requires n <= |active|
    ensures Keep(active, AllUnresolved(|active|), n) == active[..n]
  {
    if n > 0 {
      NothingDropped(active, n - 1);
      assert active[..n] == active[..n - 1] + [active[n - 1]];
    }
  }

  /** With no jump under way and nobody due to cross, a tick only moves clocks on. */
  lemma UneventfulTick(w: World, ms: int)
    requires GroundedWorld(w) && w.airborne == []
    requires forall i :: 0 <= i < |w.active| ==> w.active[i].elapsed + ms < w.active[i].stepDuration
    ensures AfterCrossings(w, ms) == BeginTick(w, ms)
    ensures var t := AfterCrossings(w, ms); LandingsGrounded(t.cells, t.airborne) && Advance(w, ms) == t
  {
    hide CellsAfterRests, RestsLeft, Grounded;
    var b := BeginTick(w, ms);
    BeginTickIsGrounded(w, ms);
    NothingCrosses(b);
    NothingDropped(b.active, |b.active|);
    assert b.active[..|b.active|] == b.active;
  }

  lemma UneventfulWait(g: Game, ms: int)
    requires GameInv(g) && g.world.airborne == [] && ms >= 0
    requires forall i :: 0 <= i < |g.world.active| ==> g.world.active[i].elapsed + ms < g.world.active[i].stepDuration
    ensures OrdinaryWait(g.world, ms) && Wait(g, ms).world == WorldOf(BeginTick(g.world, ms)) && Wait(g, ms).over == g.over
  {
    GameAgrees(g);
    hide GameInv, Inv;
    UneventfulTick(g.world, ms);
    var t := BeginTick(g.world, ms);
    assert ApplyReports(g.(elapsedMs := g.elapsedMs + ms, world := WorldOf(t)), []).world == WorldOf(t);
  }

  // ---- a game ----

  const CORNER := Position(0, 0)
  const ROOK_AT := Position(0, 1)
  const BLACK_AT := Position(1, 2)
  const WHITE_AT := Position(2, 1)

  function TheRook(at: Position, state: State): Piece {
    Piece(1, White, Rook, at, state)
  }

  function BlackKnight(at: Position, state: State): Piece {
    Piece(2, Black, Knight, at, state)
  }

  function WhiteKnight(at: Position, state: State): Piece {
    Piece(3, White, Knight, at, state)
  }

  function Setting(rookAt: Position, rook: State, black: State, white: State): Cells {
    map[rookAt := TheRook(rookAt, rook), BLACK_AT := BlackKnight(BLACK_AT, black), WHITE_AT := WhiteKnight(WHITE_AT, white)]
  }

  function Start(): Grid {
    Grid(3, 3, Setting(ROOK_AT, Idle, Idle, Idle))
  }

  function ToCorner(from: Position, step: int, elapsed: int): Motion {
    Motion([from, CORNER], 0, step, elapsed)
  }

  /** A white rook goes to the corner; both knights are sent there too, the black one first; the rook arrives, rests, and
      jumps before they come. */
  const SCRIPT: seq<Command> := [
    MoveTo(ROOK_AT, CORNER), Elapse(500), MoveTo(BLACK_AT, CORNER), MoveTo(WHITE_AT, CORNER),
    Elapse(500), Elapse(1000), JumpOn(CORNER)]

  function Stage(k: nat): World
    requires k <= 7
  {
    if k == 0 then World(3, 3, Setting(ROOK_AT, Idle, Idle, Idle), [], [], [])
    else if k == 1 then World(3, 3, Setting(ROOK_AT, Moving, Idle, Idle), [ToCorner(ROOK_AT, 1000, 0)], [], [])
    else if k == 2 then World(3, 3, Setting(ROOK_AT, Moving, Idle, Idle), [ToCorner(ROOK_AT, 1000, 500)], [], [])
    else if k == 3 then
      World(3, 3, Setting(ROOK_AT, Moving, Moving, Idle),
            [ToCorner(ROOK_AT, 1000, 500), ToCorner(BLACK_AT, 2000, 0)], [], [])
    else if k == 4 then
      World(3, 3, Setting(ROOK_AT, Moving, Moving, Moving),
            [ToCorner(ROOK_AT, 1000, 500), ToCorner(BLACK_AT, 2000, 0), ToCorner(WHITE_AT, 2000, 0)], [], [])
    else if k == 5 then
      World(3, 3, Setting(CORNER, Resting, Moving, Moving),
            [ToCorner(BLACK_AT, 2000, 500), ToCorner(WHITE_AT, 2000, 500)], [], [Cooldown(1, CORNER, 0)])
    else if k == 6 then
      World(3, 3, Setting(CORNER, Idle, Moving, Moving),
            [ToCorner(BLACK_AT, 2000, 1500), ToCorner(WHITE_AT, 2000, 1500)], [], [])
    else
      World(3, 3, Setting(CORNER, Airborne, Moving, Moving),
            [ToCorner(BLACK_AT, 2000, 1500), ToCorner(WHITE_AT, 2000, 1500)], [Jump(CORNER, 0, None)], [])
  }

  lemma JourneysToCorner()
    ensures NewMotion(ROOK_AT, CORNER) == ToCorner(ROOK_AT, 1000, 0)
    ensures NewMotion(BLACK_AT, CORNER) == ToCorner(BLACK_AT, 2000, 0)
    ensures NewMotion(WHITE_AT, CORNER) == ToCorner(WHITE_AT, 2000, 0)
  {
    assert TravelPath(ROOK_AT, CORNER) == [ROOK_AT, CORNER];
    assert TravelPath(BLACK_AT, CORNER) == [BLACK_AT, CORNER];
    assert TravelPath(WHITE_AT, CORNER) == [WHITE_AT, CORNER];
  }

  lemma RookMaySlide(w: World)
    requires w.width == 3 && w.height == 3 && CORNER !in w.cells
    requires ROOK_AT in w.cells && w.cells[ROOK_AT] == TheRook(ROOK_AT, Idle)
    ensures ValidateMove(GridOf(w), ROOK_AT, CORNER) == Ok
  {
    hide SlidesTo;
    var grid := GridOf(w);
    SlideOneLeft(grid);
    assert Slides(grid, White, ROOK_AT, ORTHOGONAL, CORNER);
  }

  lemma SlideOneLeft(g: Grid)
    requires g.width == 3 && g.height == 3 && CORNER !in g.cells
    ensures SlidesTo(g, White, ROOK_AT, ORTHOGONAL[3], CORNER)
  {
    assert StepsFrom(ROOK_AT, ORTHOGONAL[3], 1) == CORNER;
    assert SlidesBy(g, White, ROOK_AT, ORTHOGONAL[3], 1);
  }

  lemma KnightMayHop(w: World, from: Position, d: nat)
    requires InBounds(w.width, w.height, from) && InBounds(w.width, w.height, CORNER) && CORNER !in w.cells
    requires from in w.cells && w.cells[from].kind == Knight && w.cells[from].cell == from
    requires d < 8 && StepsFrom(from, KNIGHT_STEPS[d], 1) == CORNER
    ensures ValidateMove(GridOf(w), from, CORNER) == Ok
  {
    assert Hops(GridOf(w), w.cells[from].color, from, KNIGHT_STEPS, CORNER);
  }

  lemma MoveIsBegun(g: Game, from: Position)
    requires !g.over && ValidateMove(GridOf(g.world), from, CORNER) == Ok
    requires from in g.world.cells && g.world.cells[from].state == Idle
    ensures var h := RequestMove(g, from, CORNER); h.world == BeginMotion(g.world, from, CORNER) && !h.over
  {
    hide ValidateMove, BeginMotion;
  }

  lemma RookSetsOut(g: Game)
    requires g.world == Stage(0) && !g.over
    ensures var h := RequestMove(g, ROOK_AT, CORNER); h.world == Stage(1) && !h.over
  {
    hide ValidateMove, NewMotion, RequestMove;
    RookMaySlide(Stage(0));
    JourneysToCorner();
    MoveIsBegun(g, ROOK_AT);
  }

  lemma BlackSetsOut(g: Game)
    requires g.world == Stage(2) && !g.over
    ensures var h := RequestMove(g, BLACK_AT, CORNER); h.world == Stage(3) && !h.over
  {
    hide ValidateMove, NewMotion, RequestMove;
    KnightMayHop(Stage(2), BLACK_AT, 7);
    JourneysToCorner();
    MoveIsBegun(g, BLACK_AT);
  }

  lemma WhiteSetsOut(g: Game)
    requires g.world == Stage(3) && !g.over
    ensures var h := RequestMove(g, WHITE_AT, CORNER); h.world == Stage(4) && !h.over
  {
    hide ValidateMove, NewMotion, RequestMove;
    KnightMayHop(Stage(3), WHITE_AT, 3);
    JourneysToCorner();
    MoveIsBegun(g, WHITE_AT);
  }

  lemma ClocksMoveOn()
    ensures WorldOf(BeginTick(Stage(1), 500)) == Stage(2)
    ensures WorldOf(BeginTick(Stage(5), 1000)) == Stage(6)
  {
    assert Stage(5).resting[1..] == [];
  }

  lemma RookIsUnderWay(g: Game)
    requires GameInv(g) && g.world == Stage(1) && !g.over
    ensures OrdinaryWait(g.world, 500) && Wait(g, 500).world == Stage(2) && !Wait(g, 500).over
  {
    hide GameInv, Inv, Wait, OrdinaryWait, BeginTick;
    ClocksMoveOn();
    UneventfulWait(g, 500);
  }

  lemma RookWakes(g: Game)
    requires GameInv(g) && g.world == Stage(5) && !g.over
    ensures OrdinaryWait(g.world, 1000) && Wait(g, 1000).world == Stage(6) && !Wait(g, 1000).over
  {
    hide GameInv, Inv, Wait, OrdinaryWait, BeginTick;
    ClocksMoveOn();
    UneventfulWait(g, 1000);
  }

  lemma RookJumps(g: Game)
    requires g.world == Stage(6) && !g.over
    ensures var h := RequestJump(g, CORNER); h.world == Stage(7) && !h.over
  {
  }

  // ---- the rook arrives ----

  /** Half way through: the rook's clock is full. */
  function RookDue(): Tick {
    Tick(3, 3, 500, Setting(ROOK_AT, Moving, Moving, Moving),
         [ToCorner(ROOK_AT, 1000, 1000), ToCorner(BLACK_AT, 2000, 500), ToCorner(WHITE_AT, 2000, 500)],
         [false, false, false], [], [], [], [], true, [])
  }

  function RookThere(): Tick {
    RookDue().(
      cells := Setting(CORNER, Resting, Moving, Moving),
      active := RookDue().active[0 := Motion([ROOK_AT, CORNER], 1, 1000, 0)],
      resolved := [true, false, false],
      resting := [Cooldown(1, CORNER, 0)],
      reports := [ArrivalReport(CORNER, true, None)],
      entries := [Entry(0, TheRook(ROOK_AT, Moving), ROOK_AT, CORNER, None, 0)])
  }

  lemma RookFindsNobody()
    ensures GroundedTick(RookDue()) && Crossing(RookDue(), 0) && ClassifyEntry(RookDue(), 0) == Free
    ensures Watched(RookDue(), 0) == RookDue().(entries := [Entry(0, TheRook(ROOK_AT, Moving), ROOK_AT, CORNER, None, 0)])
  {
    var t := RookDue();
    assert GroundedTick(t);
    assert !EntersLiftedCell(t, 0);
    hide EntersLiftedCell;
  }

  lemma RookCrosses()
    ensures GroundedTick(RookDue()) && Crossing(RookDue(), 0) && ResolveEntry(RookDue(), 0) == RookThere()
  {
    RookFindsNobody();
    hide Grounded, Watched, ClassifyEntry;
    var t := RookDue();
    assert Walk(t, 0).cells == Setting(CORNER, Moving, Moving, Moving);
  }

  lemma CollectNext(active: seq<Motion>, resolved: seq<bool>, n: nat)
    requires n < |active| == |resolved|
    ensures Collect(active, resolved, n + 1) ==
              Collect(active, resolved, n) + if Live(resolved, n) && IsEnteringNextCell(active[n]) then [n] else []
    ensures Collect(active, resolved, 0) == []
  {
  }

  lemma SortOne(active: seq<Motion>, a: nat)
    requires a < |active|
    ensures StableSort(active, [a]) == [a]
  {
    assert StableSort(active, []) == [];
  }

  lemma SortTwo(active: seq<Motion>, a: nat, b: nat)
    requires a < |active| && b < |active| && ArrivalOvershootMs(active[a]) >= ArrivalOvershootMs(active[b])
    ensures StableSort(active, [a, b]) == [a, b]
  {
    SortOne(active, a);
    assert [a, b][..1] == [a];
  }

  lemma FirstOfThree(active: seq<Motion>, resolved: seq<bool>)
    requires |active| == |resolved| == 3 && Live(resolved, 0) && IsEnteringNextCell(active[0])
    requires !IsEnteringNextCell(active[1]) && !IsEnteringNextCell(active[2])
    ensures CrossingsByArrival(active, resolved) == [0]
  {
    hide Collect, StableSort, IsEnteringNextCell;
    CollectNext(active, resolved, 0);
    CollectNext(active, resolved, 1);
    CollectNext(active, resolved, 2);
    assert Collect(active, resolved, 3) == [0];
    SortOne(active, 0);
  }

  lemma RookIsFirst()
    ensures CrossingsByArrival(RookDue().active, RookDue().resolved) == [0]
  {
    hide CrossingsByArrival;
    FirstOfThree(RookDue().active, RookDue().resolved);
  }

  lemma LastOfPass(t: Tick, i: nat)
    requires GroundedTick(t) && Crossing(t, i) && Pending(t, [i])
    ensures GroundedTick(ResolveEntry(t, i)) && Pass(t, [i]) == ResolveEntry(t, i)
  {
    hide Grounded, ResolveEntry, IsEnteringNextCell;
    CrossingKeepsGrounded(t, i);
    CrossingKeepsPending(t, [i]);
    assert [i][1..] == [];
    assert Pass(ResolveEntry(t, i), []) == ResolveEntry(t, i);
  }

  /** A replay that begins with one crossing, or with two. */
  lemma PassOfOne(t: Tick)
    requires GroundedTick(t) && Crossing(t, 0) && CrossingsByArrival(t.active, t.resolved) == [0]
    ensures GroundedTick(ResolveEntry(t, 0)) && ResolveAll(t) == ResolveAll(ResolveEntry(t, 0))
  {
    FoundCrossingsArePending(t);
    hide Grounded, ResolveEntry, CrossingsByArrival, IsEnteringNextCell, Pending, Pass;
    LastOfPass(t, 0);
  }

  lemma RookReplayed()
    ensures GroundedTick(RookDue()) && ResolveAll(RookDue()) == RookThere()
  {
    RookCrosses();
    RookIsFirst();
    hide Grounded, ResolveEntry, ResolveAll, CrossingsByArrival;
    PassOfOne(RookDue());
    NothingCrosses(RookThere());
  }

  lemma RookIsDue()
    ensures BeginTick(Stage(4), 500) == RookDue()
  {
    assert AllUnresolved(3) == [false, false, false];
  }

  lemma RookDropped()
    ensures WorldOf(DropResolved(RookThere())) == Stage(5) && DropResolved(RookThere()).clean
    ensures DropResolved(RookThere()).reports == [ArrivalReport(CORNER, true, None)]
  {
    var t := RookThere();
    assert Keep(t.active, t.resolved, 1) == [];
    assert Keep(t.active, t.resolved, 2) == [ToCorner(BLACK_AT, 2000, 500)];
  }

  lemma RookTick(w: World)
    requires w == Stage(4) && GroundedWorld(w)
    ensures OrdinaryTick(w, 500)
    ensures var t := AfterCrossings(w, 500);
            && LandingsGrounded(t.cells, t.airborne) && WorldOf(Advance(w, 500)) == Stage(5)
            && Advance(w, 500).reports == [ArrivalReport(CORNER, true, None)]
  {
    hide Grounded, GroundedWorld, ResolveAll, BeginTick, DropResolved;
    BeginTickIsGrounded(w, 500);
    RookIsDue();
    RookReplayed();
    RookDropped();
    assert LandAll(DropResolved(RookThere()), 0) == DropResolved(RookThere());
  }

  lemma RookArrives(g: Game)
    requires GameInv(g) && g.world == Stage(4) && !g.over
    ensures OrdinaryWait(g.world, 500) && Wait(g, 500).world == Stage(5) && !Wait(g, 500).over
  {
    GameAgrees(g);
    hide GameInv, Inv, AfterCrossings, Advance, Wait, ApplyReports;
    RookTick(g.world);
    assert OrdinaryWait(g.world, 500);
    WaitIsApplyReports(g, 500);
    ArrivalChangesNothing(g.(elapsedMs := g.elapsedMs + 500, world := Stage(5)));
  }

  lemma ArrivalChangesNothing(g: Game)
    requires g.world == Stage(5)
    ensures ApplyReports(g, [ArrivalReport(CORNER, true, None)]) == g
  {
    var reports := [ArrivalReport(CORNER, true, None)];
    assert reports[..0] == [];
    assert ApplyReports(g, reports[..0]) == g;
  }

  // ---- the script, and the tick after it ----

  lemma StageFollows(g: Game, k: nat)
    requires k < 7 && GameInv(g) && g.world == Stage(k) && !g.over
    ensures OrdinaryCommand(g, SCRIPT[k])
    ensures GameStep(g, SCRIPT[k]).world == Stage(k + 1) && !GameStep(g, SCRIPT[k]).over
  {
    hide GameInv, OrdinaryWait, Wait, RequestMove, RequestJump, Stage;
    if k == 0 { RookSetsOut(g); }
    else if k == 1 { RookIsUnderWay(g); }
    else if k == 2 { BlackSetsOut(g); }
    else if k == 3 { WhiteSetsOut(g); }
    else if k == 4 { RookArrives(g); }
    else if k == 5 { RookWakes(g); }
    else { RookJumps(g); }
  }

  lemma {:induction false} ScriptPlays(g: Game, k: nat)
    requires k <= 7 && GameInv(g) && g.world == Stage(k) && !g.over
    ensures OrdinaryRun(g, SCRIPT[k..]) && Run(g, SCRIPT[k..]).world == Stage(7)
    decreases 7 - k
  {
    hide GameInv, OrdinaryCommand, GameStep, Stage;
    if k < 7 {
      StageFollows(g, k);
      assert SCRIPT[k..][0] == SCRIPT[k] && SCRIPT[k..][1..] == SCRIPT[k + 1..];
      StepKeepsGame(g, SCRIPT[k]);
      ScriptPlays(GameStep(g, SCRIPT[k]), k + 1);
    } else {
      assert SCRIPT[k..] == [];
    }
  }

  /** Both knights have been due for half a second. */
  function KnightsDue(): Tick {
    Tick(3, 3, 1000, Setting(CORNER, Airborne, Moving, Moving),
         [ToCorner(BLACK_AT, 2000, 2500), ToCorner(WHITE_AT, 2000, 2500)],
         [false, false], [Jump(CORNER, 0, None)], [], [], [], true, [])
  }

  /** The black knight has lifted the rook and rests under it. */
  function RookLifted(): Tick {
    KnightsDue().(
      cells := map[CORNER := BlackKnight(CORNER, Resting), WHITE_AT := WhiteKnight(WHITE_AT, Moving)],
      active := KnightsDue().active[0 := Motion([BLACK_AT, CORNER], 1, 2000, 500)],
      resolved := [true, false],
      airborne := [Jump(CORNER, 0, Some(TheRook(CORNER, Airborne)))],
      resting := [Cooldown(2, CORNER, 0)],
      reports := [ArrivalReport(CORNER, true, None)],
      entries := [Entry(0, BlackKnight(BLACK_AT, Moving), BLACK_AT, CORNER, Some(TheRook(CORNER, Airborne)), 500)])
  }

  lemma BlackKnightCrosses()
    ensures GroundedTick(KnightsDue()) && Crossing(KnightsDue(), 0) && ResolveEntry(KnightsDue(), 0) == RookLifted()
  {
    var t := KnightsDue();
    assert GroundedTick(t);
    assert !EntersLiftedCell(t, 0);
    assert ClassifyEntry(t, 0) == CapturedByAirborne;
    hide EntersLiftedCell;
  }

  lemma WhiteKnightTakes()
    ensures GroundedTick(RookLifted()) && Crossing(RookLifted(), 1)
    ensures var u := ResolveEntry(RookLifted(), 1);
            && !u.clean && u.resolved == [true, true] && u.delta == 1000
            && u.cells == map[CORNER := WhiteKnight(CORNER, Resting)] && u.airborne == RookLifted().airborne
            && u.victims == [BlackKnight(CORNER, Captured)]
  {
    var t := RookLifted();
    assert GroundedTick(t);
    assert EntersLiftedCell(t, 1) by {
      assert t.airborne[0].cell == NextCell(t.active[1]) && IsLifted(t.airborne[0]);
    }
    assert ClassifyEntry(t, 1) == Capture;
    hide EntersLiftedCell;
    assert ResolveEntry(t, 1).resolved == [true, true];
  }

  lemma BothInTurn(active: seq<Motion>, resolved: seq<bool>)
    requires |active| == |resolved| == 2 && Live(resolved, 0) && Live(resolved, 1)
    requires IsEnteringNextCell(active[0]) && IsEnteringNextCell(active[1])
    requires ArrivalOvershootMs(active[0]) >= ArrivalOvershootMs(active[1])
    ensures CrossingsByArrival(active, resolved) == [0, 1]
  {
    hide Collect, StableSort, IsEnteringNextCell;
    CollectNext(active, resolved, 0);
    CollectNext(active, resolved, 1);
    assert Collect(active, resolved, 2) == [0, 1];
    SortTwo(active, 0, 1);
  }

  lemma BlackKnightIsFirst()
    ensures CrossingsByArrival(KnightsDue().active, KnightsDue().resolved) == [0, 1]
  {
    hide CrossingsByArrival;
    BothInTurn(KnightsDue().active, KnightsDue().resolved);
  }

  lemma PassOfTwo(t: Tick)
    requires GroundedTick(t) && Crossing(t, 0) && CrossingsByArrival(t.active, t.resolved) == [0, 1]
    requires GroundedTick(ResolveEntry(t, 0)) && Crossing(ResolveEntry(t, 0), 1)
    ensures GroundedTick(ResolveEntry(ResolveEntry(t, 0), 1))
    ensures ResolveAll(t) == ResolveAll(ResolveEntry(ResolveEntry(t, 0), 1))
  {
    FoundCrossingsArePending(t);
    hide Grounded, ResolveEntry, CrossingsByArrival, IsEnteringNextCell, Pending;
    CrossingKeepsPending(t, [0, 1]);
    assert [0, 1][1..] == [1];
    LastOfPass(ResolveEntry(t, 0), 1);
  }

  lemma KnightsReplayed()
    ensures GroundedTick(KnightsDue())
    ensures var u := ResolveAll(KnightsDue());
            && !u.clean && u.resolved == [true, true] && u.delta == 1000
            && u.cells == map[CORNER := WhiteKnight(CORNER, Resting)] && u.airborne == RookLifted().airborne
            && u.victims == [BlackKnight(CORNER, Captured)]
  {
    BlackKnightCrosses();
    WhiteKnightTakes();
    BlackKnightIsFirst();
    hide Grounded, ResolveEntry, ResolveAll, CrossingsByArrival;
    PassOfTwo(KnightsDue());
    NothingCrosses(ResolveEntry(RookLifted(), 1));
  }

  lemma KnightsAreDue()
    ensures BeginTick(Stage(7), 1000) == KnightsDue()
  {
    assert AllUnresolved(2) == [false, false];
  }

  lemma RookComesDown(t: Tick)
    requires t.delta == 1000 && t.airborne == RookLifted().airborne && t.cells == map[CORNER := WhiteKnight(CORNER, Resting)]
    ensures LandingsGrounded(t.cells, t.airborne) && TakesFriend(t, 0)
    ensures LandAll(t, 0).victims == t.victims + [WhiteKnight(CORNER, Captured)]
  {
    var u := LandOne(t, 0);
    assert HasLanded(AdvanceJump(t.airborne[0], t.delta));
    assert u.airborne == [];
    assert LandAll(u, 0) == u;
  }

  lemma LastTick(w: World)
    requires w == Stage(7) && GroundedWorld(w)
    ensures !OrdinaryTick(w, 1000)
    ensures var t := AfterCrossings(w, 1000);
            && LandingsGrounded(t.cells, t.airborne) && TakesFriend(t, 0)
            && Advance(w, 1000).victims == [BlackKnight(CORNER, Captured), WhiteKnight(CORNER, Captured)]
  {
    hide Grounded, GroundedWorld, ResolveAll, BeginTick, LandAll, TakesFriend;
    BeginTickIsGrounded(w, 1000);
    KnightsAreDue();
    KnightsReplayed();
    RookComesDown(AfterCrossings(w, 1000));
  }

  lemma StartIsSetUp()
    ensures SetUp(Start()) && NewGame(Start()).world == Stage(0)
  {
  }

  /** Main result: agreement alone is not enough. An ordinary run from a set-up board leads to a tick, not an ordinary
      one, in which the white rook that jumped lands on the white knight. */
  lemma HypothesisIsNeeded()
    ensures SetUp(Start()) && GameInv(NewGame(Start())) && OrdinaryRun(NewGame(Start()), SCRIPT)
    ensures var w := Run(NewGame(Start()), SCRIPT).world;
            && Inv(w) && GroundedWorld(w) && !OrdinaryTick(w, 1000)
            && var t := AfterCrossings(w, 1000);
               && LandingsGrounded(t.cells, t.airborne) && TakesFriend(t, 0)
               && Advance(w, 1000).victims == [BlackKnight(CORNER, Captured), WhiteKnight(CORNER, Captured)]
  {
    hide GameInv, Inv, Stage, SetUp, OrdinaryRun, Run, AfterCrossings, Advance, TakesFriend, GroundedWorld;
    StartIsSetUp();
    NewGameIsInAgreement(Start());
    ScriptPlays(NewGame(Start()), 0);
    assert SCRIPT[0..] == SCRIPT;
    GameAgrees(Run(NewGame(Start()), SCRIPT));
    LastTick(Run(NewGame(Start()), SCRIPT).world);
  }
}
