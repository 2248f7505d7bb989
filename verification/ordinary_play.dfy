/** Where ordinary play starts, and when its one hypothesis holds by itself. */
module OrdinaryPlay {
  import opened Model
  import opened ArbiterSpec
  import CrossingOrder
  import opened ArbiterTick
  import opened EngineSpec
  import opened EngineRuns

  /** No white pawn on row 0 and no black pawn on the last row. */
  ghost predicate NoPawnOnFarRow(height: int, cells: Cells) {
    forall c :: c in cells && cells[c].kind == Pawn ==> c.row != (if cells[c].color == White then 0 else height - 1)
  }

  /** A board as it is set up: everybody idle on a square of their own, no pawn on its far row. */
  ghost predicate SetUp(g: Grid) {
    && g.width > 0 && g.height > 0
    && (forall c :: c in g.cells ==>
          InBounds(g.width, g.height, c) && g.cells[c].cell == c && g.cells[c].state == Idle)
    && NoPawnOnFarRow(g.height, g.cells)
    && (forall c, d :: c in g.cells && d in g.cells && g.cells[c].id == g.cells[d].id ==> c == d)
  }

  function NewGame(g: Grid): Game {
    Game(World(g.width, g.height, g.cells, [], [], []), false, 0, [], [])
  }

  /** Every set-up board starts a game in agreement. */
  lemma NewGameIsInAgreement(g: Grid)
    requires SetUp(g)
    ensures GameInv(NewGame(g))
  {
    assert AllUnresolved(0) == [];
  }

  // ---- when the hypothesis holds by itself ----

  lemma CrossingWithoutJumps(t: Tick, i: nat)
    requires GroundedTick(t) && Crossing(t, i) && t.airborne == []
    ensures ResolveEntry(t, i).airborne == [] && ResolveEntry(t, i).clean == t.clean
  {
    assert !EntersLiftedCell(t, i);
    hide EntersLiftedCell;
  }

  lemma {:induction false} PassWithoutJumps(t: Tick, order: seq<nat>)
    requires GroundedTick(t) && Pending(t, order) && t.airborne == []
    ensures Pass(t, order).airborne == [] && Pass(t, order).clean == t.clean
    decreases |order|
  {
    if order != [] {
      if Live(t.resolved, order[0]) {
        CrossingKeepsGrounded(t, order[0]);
        CrossingKeepsPending(t, order);
        CrossingWithoutJumps(t, order[0]);
        hide Pending, Grounded, ResolveEntry;
        PassWithoutJumps(ResolveEntry(t, order[0]), order[1..]);
      } else {
        PassWithoutJumps(t, order[1..]);
      }
    }
  }

  lemma {:induction false} ReplayWithoutJumps(t: Tick)
    requires GroundedTick(t) && t.airborne == []
    ensures ResolveAll(t).airborne == [] && ResolveAll(t).clean == t.clean
    decreases Remaining(t.active, t.resolved)
  {
    var order := CrossingOrder.CrossingsByArrival(t.active, t.resolved);
    FoundCrossingsArePending(t);
    if order != [] {
      PassWithoutJumps(t, order);
      hide Grounded, Pending;
      ReplayWithoutJumps(Pass(t, order));
    }
  }

  lemma TickWithoutJumps(w: World, delta: int)
    requires GroundedWorld(w) && w.airborne == []
    ensures OrdinaryTick(w, delta)
    ensures LandingsGrounded(AfterCrossings(w, delta).cells, AfterCrossings(w, delta).airborne)
    ensures Advance(w, delta).airborne == []
  {
    hide Grounded, GroundedWorld, ResolveAll;
    BeginTickIsGrounded(w, delta);
    ReplayWithoutJumps(BeginTick(w, delta));
  }

  ghost predicate Jumpless(run: seq<Command>) {
    forall i :: 0 <= i < |run| ==> !run[i].JumpOn? && (run[i].Elapse? ==> run[i].ms >= 0)
  }

  lemma WaitWithoutJumps(g: Game, ms: int)
    requires GameInv(g) && g.world.airborne == [] && ms >= 0
    ensures OrdinaryWait(g.world, ms) && Wait(g, ms).world.airborne == []
  {
    GameAgrees(g);
    TickWithoutJumps(g.world, ms);
    hide *;
    WaitForwardIsOrdinary(g.world, ms);
    WaitIsApplyReports(g, ms);
    AppliedWithoutJumps(g, Advance(g.world, ms), ms);
  }

  lemma WaitForwardIsOrdinary(w: World, ms: int)
    requires ms >= 0 && GroundedWorld(w) && OrdinaryTick(w, ms)
    ensures OrdinaryWait(w, ms)
  {
  }

  lemma AppliedWithoutJumps(g: Game, t: Tick, ms: int)
    requires t.airborne == []
    ensures ApplyReports(g.(elapsedMs := g.elapsedMs + ms, world := WorldOf(t)), t.reports).world.airborne == []
  {
    ApplyingReportsKeepsClocks(g.(elapsedMs := g.elapsedMs + ms, world := WorldOf(t)), t.reports);
  }

  lemma StepWithoutJumps(g: Game, c: Command)
    requires GameInv(g) && g.world.airborne == [] && !c.JumpOn? && (c.Elapse? ==> c.ms >= 0)
    ensures OrdinaryCommand(g, c) && GameStep(g, c).world.airborne == []
  {
    hide GameInv, OrdinaryWait, Wait, MoveReply;
    if c.Elapse? {
      WaitWithoutJumps(g, c.ms);
    }
  }

  /** The hypothesis is about jumps alone: from a position with none, every run without jumps is ordinary. */
  lemma {:induction false} JumplessRunsAreOrdinary(g: Game, run: seq<Command>)
    requires GameInv(g) && g.world.airborne == [] && Jumpless(run)
    ensures OrdinaryRun(g, run)
    decreases |run|
  {
    hide GameInv, OrdinaryCommand, GameStep;
    if run != [] {
      StepWithoutJumps(g, run[0]);
      StepKeepsGame(g, run[0]);
      JumplessRunsAreOrdinary(GameStep(g, run[0]), run[1..]);
    }
  }
}
