/** Who comes down: the very piece that jumped, on its own square, to rest. */
module JumperReturns {
  import opened Model
  import opened Motions
  import opened Rules
  import opened ArbiterSpec
  import opened CrossingOrder
  import opened ArbiterTick
  import opened ArbiterInvariant
  import opened CrossingKeeps
  import opened TickKeeps
  import opened LandingKeeps
  import opened CrossingLog
  import opened JourneyEnds
  import opened EngineSpec
  import opened EngineRuns
  import opened JourneySchedules
  import opened JumpTimes

  /** Whose jump it is: the piece lifted, or else the one on the square. */
  ghost predicate JumperIs(cells: Cells, j: Jump, id: nat, color: Color) {
    if IsLifted(j) then j.lifted.value.id == id && j.lifted.value.color == color
    else j.cell in cells && cells[j.cell].id == id && cells[j.cell].color == color
  }

  // ---- crossings ----

  ghost predicate JumperAt(t: Tick, l: nat, id: nat, color: Color) {
    l < |t.airborne| && JumperIs(t.cells, t.airborne[l], id, color)
  }

  /** A piece standing in the air is left alone, unless somebody walks in under it. */
  lemma AirborneStays(t: Tick, i: nat, l: nat)
    requires Upheld(t) && Crossing(t, i) && l < |t.airborne| && !IsLifted(t.airborne[l])
    requires |ResolveEntry(t, i).airborne| == |t.airborne| && !IsLifted(ResolveEntry(t, i).airborne[l])
    ensures var u, c := ResolveEntry(t, i), t.airborne[l].cell;
            u.airborne[l] == t.airborne[l] && c in t.cells && c in u.cells && u.cells[c] == t.cells[c]
  {
    var u, e := ResolveEntry(t, i), EntryOf(t, i);
    CrossingMoves(t, i);
    if ClassifyEntry(t, i) == CapturedByAirborne {
      YieldLiftsOne(t, i);
      assert t.airborne[l].cell != e.to;
    } else {
      OthersLiftNobody(t, i);
    }
    assert t.cells[t.airborne[l].cell].state == Airborne && e.mover.state == Moving;
    hide ResolveEntry, ClassifyEntry, Grounded;
  }

  lemma LiftedIsNotAirborne(t: Tick, l: nat)
    requires Consistent(t, 0) && l < |t.airborne| && IsLifted(t.airborne[l])
    ensures t.airborne[l].cell in t.cells && t.cells[t.airborne[l].cell].state != Airborne
  {
    assert JumpHolds(t.cells, t.resting, t.airborne[l], JumpClock(t.airborne, l, t.delta, 0));
  }

  lemma CrossingKeepsJumper(t: Tick, i: nat, l: nat, id: nat, color: Color)
    requires Consistent(t, 0) && Upheld(t) && Crossing(t, i) && JumperAt(t, l, id, color)
    ensures JumperAt(ResolveEntry(t, i), l, id, color)
  {
    hide ConsistentExcept, ResolveEntry, EntryOf;
    var u := ResolveEntry(t, i);
    if ClassifyEntry(t, i) == CapturedByAirborne {
      YieldLiftsOne(t, i);
      YieldsToAirborne(t, i);
      hide ClassifyEntry;
      if IsLifted(t.airborne[l]) {
        LiftedIsNotAirborne(t, l);
      } else if !IsLifted(u.airborne[l]) {
        AirborneStays(t, i, l);
      }
    } else {
      OthersLiftNobody(t, i);
      hide ClassifyEntry;
      if !IsLifted(t.airborne[l]) {
        AirborneStays(t, i, l);
      }
    }
  }

  lemma YieldsToAirborne(t: Tick, i: nat)
    requires GroundedTick(t) && Crossing(t, i) && ClassifyEntry(t, i) == CapturedByAirborne
    ensures NextCell(t.active[i]) in t.cells && t.cells[NextCell(t.active[i])].state == Airborne
  {
  }

  lemma {:induction false} PassKeepsJumper(t: Tick, order: seq<nat>, l: nat, id: nat, color: Color)
    requires Consistent(t, 0) && Upheld(t) && Pending(t, order) && Pass(t, order).clean && JumperAt(t, l, id, color)
    ensures Consistent(Pass(t, order), 0) && Upheld(Pass(t, order)) && JumperAt(Pass(t, order), l, id, color)
    decreases |order|
  {
    hide ConsistentExcept, Upheld, ResolveEntry, JumperAt;
    UpheldIsGrounded(t);
    if order != [] {
      if Live(t.resolved, order[0]) {
        CrossingKeepsPending(t, order);
        CrossingKeepsGrounded(t, order[0]);
        hide Pending, Grounded;
        var u := ResolveEntry(t, order[0]);
        PassOnlySoils(u, order[1..]);
        CrossingKeepsConsistent(t, order[0]);
        CrossingUpholds(t, order[0]);
        CrossingKeepsJumper(t, order[0], l, id, color);
        PassKeepsJumper(u, order[1..], l, id, color);
      } else {
        PassKeepsJumper(t, order[1..], l, id, color);
      }
    }
  }

  lemma {:induction false} ReplayKeepsJumper(t: Tick, l: nat, id: nat, color: Color)
    requires Consistent(t, 0) && Upheld(t) && ResolveAll(t).clean && JumperAt(t, l, id, color)
    ensures JumperAt(ResolveAll(t), l, id, color)
    decreases Remaining(t.active, t.resolved)
  {
    UpheldIsGrounded(t);
    var order := CrossingsByArrival(t.active, t.resolved);
    FoundCrossingsArePending(t);
    hide ConsistentExcept, Upheld, JumperAt, Grounded, Pending;
    if order != [] {
      var u := Pass(t, order);
      ResolveAllOnlySoils(u);
      PassKeepsJumper(t, order, l, id, color);
      ReplayKeepsJumper(u, l, id, color);
    }
  }

  lemma CrossingsKeepJumper(w: World, ms: int, l: nat, id: nat, color: Color)
    requires Inv(w) && ms >= 0 && GroundedWorld(w) && OrdinaryTick(w, ms)
    requires l < |w.airborne| && JumperIs(w.cells, w.airborne[l], id, color)
    ensures JumperAt(AfterCrossings(w, ms), l, id, color)
  {
    hide Inv, ConsistentExcept, Upheld, Grounded, GroundedWorld, CellsAfterRests, RestsLeft, ResolveAll;
    CrossingsAreReplayed(w, ms);
    RestsKeepWho(w.cells, w.resting, ms, w.airborne[l].cell);
    assert JumperAt(BeginTick(w, ms), l, id, color);
    hide BeginTick, OrdinaryTick, AfterCrossings;
    BeginTickIsConsistent(w, ms);
    BeginTickIsUpheld(w, ms);
    ReplayKeepsJumper(BeginTick(w, ms), l, id, color);
  }

  // ---- landings ----

  /** The piece is back on this square and rests. */
  ghost predicate IsBack(cells: Cells, resting: seq<Cooldown>, c: Position, id: nat, color: Color) {
    && c in cells && cells[c].id == id && cells[c].color == color && cells[c].state == Resting
    && Cooldown(id, c, 0) in resting
  }

  /** This piece's jump from this square is under way, so old. */
  ghost predicate IsAloft(cells: Cells, airborne: seq<Jump>, c: Position, clock: int, id: nat, color: Color) {
    exists l :: AloftAt(cells, airborne, l, c, clock, id, color)
  }

  ghost predicate AloftAt(cells: Cells, airborne: seq<Jump>, l: int, c: Position, clock: int, id: nat, color: Color) {
    && 0 <= l < |airborne| && airborne[l].cell == c && airborne[l].elapsed == clock
    && JumperIs(cells, airborne[l], id, color)
  }

  /** Landings leave the jumps before the k-th, and their squares, alone. */
  lemma {:induction false} LandingsKeepFront(t: Tick, k: nat, m: nat)
    requires m < k <= |t.airborne| && LandingsGrounded(t.cells, t.airborne) && NoSharedSquare(t.airborne)
    ensures var u, c := LandAll(t, k), t.airborne[m].cell;
            && m < |u.airborne| && u.airborne[m] == t.airborne[m]
            && (c in u.cells <==> c in t.cells) && (c in t.cells ==> u.cells[c] == t.cells[c])
    decreases |t.airborne| - k
  {
    if k < |t.airborne| {
      LandOneKeepsGrounded(t, k);
      LandOneTakes(t, k);
      LandOneKeepsFront(t, k, m);
      assert t.airborne[m].cell != t.airborne[k].cell;
      hide LandOne, LandingsGrounded, NoSharedSquare, NextJump;
      LandingsKeepFront(LandOne(t, k), NextJump(t, k), m);
    }
  }

  lemma LandOneKeepsFront(t: Tick, k: nat, m: nat)
    requires m < k < |t.airborne| && LandingsGrounded(t.cells, t.airborne)
    ensures m < NextJump(t, k) && m < |LandOne(t, k).airborne| && LandOne(t, k).airborne[m] == t.airborne[m]
  {
  }

  lemma {:induction false} LandingsKeepRests(t: Tick, k: nat, r: Cooldown)
    requires k <= |t.airborne| && LandingsGrounded(t.cells, t.airborne) && r in t.resting
    ensures r in LandAll(t, k).resting
    decreases |t.airborne| - k
  {
    if k < |t.airborne| {
      LandOneKeepsGrounded(t, k);
      assert r in LandOne(t, k).resting;
      hide LandOne, LandingsGrounded, NextJump;
      LandingsKeepRests(LandOne(t, k), NextJump(t, k), r);
    }
  }

  lemma LandingBringsBack(t: Tick, l: nat, id: nat, color: Color)
    requires l < |t.airborne| && LandingsGrounded(t.cells, t.airborne) && NoSharedSquare(t.airborne)
    requires JumperIs(t.cells, t.airborne[l], id, color) && t.airborne[l].elapsed + t.delta >= 1000
    ensures var u, c := LandOne(t, l), t.airborne[l].cell;
            && NextJump(t, l) == l && IsBack(u.cells, u.resting, c, id, color)
            && forall m :: 0 <= m < |u.airborne| ==> u.airborne[m].cell != c
  {
    var u := LandOne(t, l);
    assert u.airborne == Without(t.airborne, l);
    forall m | 0 <= m < |u.airborne|
      ensures u.airborne[m].cell != t.airborne[l].cell
    {
      WithoutAt(t.airborne, l, m);
    }
    assert Cooldown(id, t.airborne[l].cell, 0) in u.resting;
  }

  lemma FlightGoesOn(t: Tick, l: nat, id: nat, color: Color)
    requires l < |t.airborne| && LandingsGrounded(t.cells, t.airborne)
    requires JumperIs(t.cells, t.airborne[l], id, color) && t.airborne[l].elapsed + t.delta < 1000
    ensures var u, j := LandOne(t, l), t.airborne[l];
            NextJump(t, l) == l + 1 && AloftAt(u.cells, u.airborne, l, j.cell, j.elapsed + t.delta, id, color)
  {
  }

  lemma BackStaysBack(t: Tick, k: nat, c: Position, id: nat, color: Color)
    requires k <= |t.airborne| && LandingsGrounded(t.cells, t.airborne) && IsBack(t.cells, t.resting, c, id, color)
    requires forall m :: 0 <= m < |t.airborne| ==> t.airborne[m].cell != c
    ensures IsBack(LandAll(t, k).cells, LandAll(t, k).resting, c, id, color)
  {
    hide LandAll;
    LandingsLeaveOthers(t, k, c);
    LandingsKeepRests(t, k, Cooldown(id, c, 0));
  }

  lemma AloftStaysAloft(t: Tick, k: nat, l: nat, c: Position, clock: int, id: nat, color: Color)
    requires l < k <= |t.airborne| && LandingsGrounded(t.cells, t.airborne) && NoSharedSquare(t.airborne)
    requires AloftAt(t.cells, t.airborne, l, c, clock, id, color)
    ensures IsAloft(LandAll(t, k).cells, LandAll(t, k).airborne, c, clock, id, color)
  {
    hide LandAll;
    LandingsKeepFront(t, k, l);
    assert AloftAt(LandAll(t, k).cells, LandAll(t, k).airborne, l, c, clock, id, color);
  }

  /** Landings bring down whoever has jumped for a second, and nobody else. */
  lemma {:induction false} LandingsBringBack(t: Tick, k: nat, l: nat, id: nat, color: Color)
    requires k <= l < |t.airborne| && LandingsGrounded(t.cells, t.airborne) && NoSharedSquare(t.airborne)
    requires JumperIs(t.cells, t.airborne[l], id, color)
    ensures var u, j := LandAll(t, k), t.airborne[l];
            if j.elapsed + t.delta >= 1000 then IsBack(u.cells, u.resting, j.cell, id, color)
            else IsAloft(u.cells, u.airborne, j.cell, j.elapsed + t.delta, id, color)
    decreases |t.airborne| - k
  {
    hide LandOne, LandingsGrounded, NoSharedSquare, IsBack, IsAloft, AloftAt, NextJump;
    LandOneKeepsGrounded(t, k);
    LandOneTakes(t, k);
    var u, n, j := LandOne(t, k), NextJump(t, k), t.airborne[l];
    if k < l {
      OtherSquares(t.airborne, k, l);
      assert u.airborne[n..][l - k - 1] == t.airborne[k + 1..][l - k - 1];
      LandingsBringBack(u, n, n + l - k - 1, id, color);
    } else if j.elapsed + t.delta >= 1000 {
      LandingBringsBack(t, l, id, color);
      BackStaysBack(u, n, j.cell, id, color);
    } else {
      FlightGoesOn(t, l, id, color);
      AloftStaysAloft(u, n, l, j.cell, j.elapsed + t.delta, id, color);
    }
  }

  lemma OtherSquares(airborne: seq<Jump>, k: nat, l: nat)
    requires k < l < |airborne| && NoSharedSquare(airborne)
    ensures airborne[l].cell != airborne[k].cell
  {
  }

  // ---- the tick ----

  lemma UpheldShares(t: Tick)
    requires Upheld(t)
    ensures NoSharedSquare(t.airborne)
  {
  }

  lemma TickBringsBack(w: World, ms: int, c: Position, clock: int, id: nat, color: Color)
    requires Inv(w) && ms >= 0 && GroundedWorld(w) && OrdinaryTick(w, ms)
    requires IsAloft(w.cells, w.airborne, c, clock, id, color)
    ensures var t := AfterCrossings(w, ms); LandingsGrounded(t.cells, t.airborne)
    ensures var u := Advance(w, ms);
            if clock + ms >= 1000 then IsBack(u.cells, u.resting, c, id, color)
            else IsAloft(u.cells, u.airborne, c, clock + ms, id, color)
  {
    hide Inv, GroundedWorld, OrdinaryTick, AfterCrossings, LandingsGrounded, Upheld, IsBack;
    var l :| AloftAt(w.cells, w.airborne, l, c, clock, id, color);
    EveryTickLands(w, ms);
    TickLength(w, ms);
    var t := AfterCrossings(w, ms);
    UpheldShares(t);
    CrossingsKeepJumper(w, ms, l, id, color);
    LandingsBringBack(t, 0, l, id, color);
  }

  // ---- a run ----

  lemma WaitBringsBack(g: Game, ms: int, c: Position, clock: int, id: nat, color: Color)
    requires GameInv(g) && OrdinaryWait(g.world, ms) && IsAloft(g.world.cells, g.world.airborne, c, clock, id, color)
    ensures var w := Wait(g, ms).world;
            if clock + ms >= 1000 then IsBack(w.cells, w.resting, c, id, color)
            else IsAloft(w.cells, w.airborne, c, clock + ms, id, color)
  {
    hide Inv, Punctual, Wait, Advance, AfterCrossings, GroundedWorld, OrdinaryTick, LandingsGrounded;
    hide ApplyReports, IsAloft;
    WaitIsApplyReports(g, ms);
    TickBringsBack(g.world, ms, c, clock, id, color);
    var t := Advance(g.world, ms);
    var mid := g.(elapsedMs := g.elapsedMs + ms, world := WorldOf(t));
    ReportsPromoteTheDue(mid, t.reports);
    SameJumper(t.cells, Wait(g, ms).world.cells, t.airborne, t.airborne, c, clock + ms, id, color);
  }

  /** Whoever keeps identity, colour and the jumps keeps the jumper in the air. */
  lemma SameJumper(
    cells: Cells, after: Cells, airborne: seq<Jump>, later: seq<Jump>, c: Position, clock: int, id: nat, color: Color)
    requires forall d :: d in cells ==> d in after && after[d].id == cells[d].id && after[d].color == cells[d].color
    requires airborne <= later
    ensures IsAloft(cells, airborne, c, clock, id, color) ==> IsAloft(after, later, c, clock, id, color)
  {
    if IsAloft(cells, airborne, c, clock, id, color) {
      var l :| AloftAt(cells, airborne, l, c, clock, id, color);
      assert AloftAt(after, later, l, c, clock, id, color);
    }
  }

  lemma CommandKeepsJumper(g: Game, command: Command, c: Position, clock: int, id: nat, color: Color)
    requires GameInv(g) && OrdinaryCommand(g, command) && !command.Elapse?
    requires IsAloft(g.world.cells, g.world.airborne, c, clock, id, color)
    ensures var w := GameStep(g, command).world; IsAloft(w.cells, w.airborne, c, clock, id, color)
  {
    hide GameInv, OrdinaryWait, IsAloft, ValidateMove, NewMotion;
    if command.MoveTo? && MoveReply(g, command.from, command.to) == Ok {
      AcceptedMove(g, command.from, command.to);
    }
    var w, v := g.world, GameStep(g, command).world;
    SameJumper(w.cells, v.cells, w.airborne, v.airborne, c, clock, id, color);
  }

  lemma {:induction false} TimeOnlyPasses(g: Game, run: seq<Command>)
    requires GameInv(g) && OrdinaryRun(g, run)
    ensures TimeSpent(run) >= 0
    decreases |run|
  {
    hide GameInv, GameStep;
    if run != [] {
      StepKeepsGame(g, run[0]);
      TimeOnlyPasses(GameStep(g, run[0]), run[1..]);
    }
  }

  lemma {:induction false} RunKeepsJumper(g: Game, run: seq<Command>, c: Position, clock: int, id: nat, color: Color)
    requires GameInv(g) && OrdinaryRun(g, run) && IsAloft(g.world.cells, g.world.airborne, c, clock, id, color)
    requires clock + TimeSpent(run) < 1000
    ensures var w := Run(g, run).world; IsAloft(w.cells, w.airborne, c, clock + TimeSpent(run), id, color)
    decreases |run|
  {
    hide GameInv, OrdinaryWait, GameStep, IsAloft;
    if run != [] {
      StepKeepsGame(g, run[0]);
      var h := GameStep(g, run[0]);
      TimeOnlyPasses(h, run[1..]);
      if run[0].Elapse? {
        WaitIsStep(g, run[0].ms);
        WaitBringsBack(g, run[0].ms, c, clock, id, color);
      } else {
        CommandKeepsJumper(g, run[0], c, clock, id, color);
      }
      RunKeepsJumper(h, run[1..], c, clock + Spent(run[0]), id, color);
    }
  }

  lemma WaitIsStep(g: Game, ms: int)
    requires GameInv(g) && OrdinaryCommand(g, Elapse(ms))
    ensures OrdinaryWait(g.world, ms) && ms >= 0 && Inv(g.world) && GameStep(g, Elapse(ms)) == Wait(g, ms)
  {
    hide GameInv, Inv, GroundedWorld, OrdinaryTick, Wait;
    GameAgrees(g);
  }

  lemma JumperTakesOff(g: Game, c: Position)
    requires GameInv(g) && JumpReply(g, c) == Reply(Ok)
    ensures c in g.world.cells && GameInv(RequestJump(g, c))
    ensures var p, w := g.world.cells[c], RequestJump(g, c).world; IsAloft(w.cells, w.airborne, c, 0, p.id, p.color)
  {
    JumpRequestKeepsGame(g, c);
    hide GameInv;
    var w, p := RequestJump(g, c).world, g.world.cells[c];
    assert AloftAt(w.cells, w.airborne, |g.world.airborne|, c, 0, p.id, p.color);
  }

  /** Main result: after an accepted jump and an ordinary run of less than 1000 ms the piece is in the air; the first tick
      that makes it 1000 ms or more puts that very piece back on its square, resting from now. */
  lemma JumperComesBack(g: Game, c: Position, run: seq<Command>, ms: int)
    requires GameInv(g) && JumpReply(g, c) == Reply(Ok)
    requires GameInv(RequestJump(g, c)) && OrdinaryRun(RequestJump(g, c), run) && TimeSpent(run) < 1000
    requires OrdinaryWait(Run(RequestJump(g, c), run).world, ms) && TimeSpent(run) + ms >= 1000
    ensures c in g.world.cells && ms >= 0 && Inv(Run(RequestJump(g, c), run).world)
    ensures var p, w := g.world.cells[c], Run(RequestJump(g, c), run).world;
            IsAloft(w.cells, w.airborne, c, TimeSpent(run), p.id, p.color)
    ensures var p, w := g.world.cells[c], Wait(Run(RequestJump(g, c), run), ms).world;
            IsBack(w.cells, w.resting, c, p.id, p.color)
  {
    hide GameInv, JumpReply, RequestJump, OrdinaryRun, Run, Wait, IsAloft, IsBack, OrdinaryWait;
    JumperTakesOff(g, c);
    var h, p := RequestJump(g, c), g.world.cells[c];
    RunKeepsJumper(h, run, c, 0, p.id, p.color);
    WaitAgrees(Run(h, run), ms);
    WaitBringsBack(Run(h, run), ms, c, TimeSpent(run), p.id, p.color);
  }

  lemma WaitAgrees(g: Game, ms: int)
    requires GameInv(g) && OrdinaryWait(g.world, ms)
    ensures ms >= 0 && Inv(g.world)
  {
    hide GameInv, Inv, GroundedWorld, OrdinaryTick;
    GameAgrees(g);
  }
}
