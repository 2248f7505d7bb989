/** How long a jump lasts: a second from the command, however the time is split, and then the jumper is back and rests. */
module JumpTimes {
  import opened Model
  import opened Motions
  import opened Rules
  import opened ArbiterSpec
  import opened ArbiterTick
  import opened ArbiterInvariant
  import Timing
  import opened CrossingLog
  import opened EngineSpec
  import opened EngineRuns
  import opened JourneySchedules

  /** A jump on this square is under way, so old. */
  ghost predicate HasJump(airborne: seq<Jump>, c: Position, clock: int) {
    exists l :: 0 <= l < |airborne| && airborne[l].cell == c && airborne[l].elapsed == clock
  }

  // ---- a tick ----

  lemma LandOneJump(t: Tick, k: nat, c: Position, clock: int)
    requires k < |t.airborne| && LandingsGrounded(t.cells, t.airborne)
    ensures var u, n, j := LandOne(t, k), NextJump(t, k), t.airborne[k];
            && n <= |u.airborne| && u.delta == t.delta && u.airborne[n..] == t.airborne[k + 1..]
            && (HasJump(u.airborne[..n], c, clock) <==>
                  || HasJump(t.airborne[..k], c, clock)
                  || (clock < 1000 && j.cell == c && j.elapsed + t.delta == clock))
  {
    var u, n, j := LandOne(t, k), NextJump(t, k), t.airborne[k];
    if j.elapsed + t.delta < 1000 {
      assert u.airborne == t.airborne[k := AdvanceJump(j, t.delta)];
      assert u.airborne[..n] == t.airborne[..k] + [AdvanceJump(j, t.delta)];
      OneMoreJump(t.airborne[..k], AdvanceJump(j, t.delta), c, clock);
    } else {
      assert u.airborne == t.airborne[..k] + t.airborne[k + 1..];
      assert u.airborne[..n] == t.airborne[..k];
    }
  }

  lemma OneMoreJump(airborne: seq<Jump>, j: Jump, c: Position, clock: int)
    ensures HasJump(airborne + [j], c, clock) <==> HasJump(airborne, c, clock) || (j.cell == c && j.elapsed == clock)
  {
    var more := airborne + [j];
    assert more[|airborne|] == j && forall l :: 0 <= l < |airborne| ==> more[l] == airborne[l];
  }

  lemma FirstJump(airborne: seq<Jump>, c: Position, clock: int)
    requires airborne != []
    ensures HasJump(airborne, c, clock) <==>
              (airborne[0].cell == c && airborne[0].elapsed == clock) || HasJump(airborne[1..], c, clock)
  {
    if HasJump(airborne, c, clock) {
      var l :| 0 <= l < |airborne| && airborne[l].cell == c && airborne[l].elapsed == clock;
      assert l > 0 ==> airborne[1..][l - 1] == airborne[l];
    }
    if HasJump(airborne[1..], c, clock) {
      var l :| 0 <= l < |airborne| - 1 && airborne[1..][l].cell == c && airborne[1..][l].elapsed == clock;
      assert airborne[l + 1] == airborne[1..][l];
    }
  }

  /** Landings end exactly the jumps that have lasted a second, and move the others on. */
  lemma {:induction false} LandingsEndJumps(t: Tick, k: nat, c: Position, clock: int)
    requires k <= |t.airborne| && LandingsGrounded(t.cells, t.airborne)
    ensures HasJump(LandAll(t, k).airborne, c, clock) <==>
              HasJump(t.airborne[..k], c, clock) || (clock < 1000 && HasJump(t.airborne[k..], c, clock - t.delta))
    decreases |t.airborne| - k
  {
    hide LandOne, LandingsGrounded, HasJump, NextJump;
    if k < |t.airborne| {
      LandOneKeepsGrounded(t, k);
      LandOneJump(t, k, c, clock);
      LandingsEndJumps(LandOne(t, k), NextJump(t, k), c, clock);
      assert t.airborne[k..][0] == t.airborne[k] && t.airborne[k..][1..] == t.airborne[k + 1..];
      FirstJump(t.airborne[k..], c, clock - t.delta);
    } else {
      assert t.airborne[..k] == t.airborne;
      NoJumpInNone(t.airborne[k..], c, clock - t.delta);
    }
  }

  lemma NoJumpInNone(airborne: seq<Jump>, c: Position, clock: int)
    requires airborne == []
    ensures !HasJump(airborne, c, clock)
  {
  }

  lemma SameClocks(before: seq<Jump>, after: seq<Jump>, c: Position, clock: int)
    requires |after| == |before|
    requires forall l :: 0 <= l < |before| ==> after[l].cell == before[l].cell && after[l].elapsed == before[l].elapsed
    ensures HasJump(after, c, clock) <==> HasJump(before, c, clock)
  {
  }

  /** Main result, for every tick from a position in agreement, ordinary or not: a jump is still under way after it, older
      by exactly the tick, if and only if that makes it less than 1000 ms old; and no other jump is. */
  lemma JumpsEndOnTime(w: World, ms: int, c: Position, clock: int)
    requires Inv(w) && ms >= 0
    ensures GroundedWorld(w)
    ensures var t := AfterCrossings(w, ms); LandingsGrounded(t.cells, t.airborne)
    ensures HasJump(Advance(w, ms).airborne, c, clock + ms) <==> clock + ms < 1000 && HasJump(w.airborne, c, clock)
  {
    hide Inv, GroundedWorld, AfterCrossings, LandingsGrounded, HasJump, Upheld;
    EveryTickLands(w, ms);
    TickLength(w, ms);
    var t := AfterCrossings(w, ms);
    LandingsEndJumps(t, 0, c, clock + ms);
    assert t.airborne[0..] == t.airborne;
    NoJumpInNone(t.airborne[..0], c, clock + ms);
    SameClocks(w.airborne, t.airborne, c, clock);
  }

  lemma TickLength(w: World, ms: int)
    requires GroundedWorld(w)
    ensures AfterCrossings(w, ms).delta == ms
  {
    Timing.CrossingsAgeTheRest(w, ms);
  }

  // ---- a run ----

  lemma WaitEndsJumps(g: Game, ms: int, c: Position, clock: int)
    requires GameInv(g) && OrdinaryWait(g.world, ms)
    ensures HasJump(Wait(g, ms).world.airborne, c, clock + ms) <==> clock + ms < 1000 && HasJump(g.world.airborne, c, clock)
  {
    hide Inv, Punctual, Wait, Advance, AfterCrossings, GroundedWorld, OrdinaryTick, LandingsGrounded;
    hide ApplyReports, HasJump;
    WaitIsApplyReports(g, ms);
    JumpsEndOnTime(g.world, ms, c, clock);
    var t := Advance(g.world, ms);
    ReportsPromoteTheDue(g.(elapsedMs := g.elapsedMs + ms, world := WorldOf(t)), t.reports);
  }

  /** From when it was this old, a jump has been under way as long as it was less than 1000 ms old. */
  ghost predicate OnClock(airborne: seq<Jump>, c: Position, clock: int) {
    clock >= 0 && (HasJump(airborne, c, clock) <==> clock < 1000)
  }

  lemma StepKeepsClock(g: Game, command: Command, c: Position, clock: int)
    requires GameInv(g) && OrdinaryCommand(g, command) && OnClock(g.world.airborne, c, clock)
    ensures OnClock(GameStep(g, command).world.airborne, c, clock + Spent(command))
  {
    hide GameInv, OrdinaryTick, GroundedWorld, Wait, HasJump, MoveReply, NewMotion;
    match command
    case MoveTo(from, to) =>
      MovesLeaveJumps(g, from, to);
    case JumpOn(cell) =>
      if JumpReply(g, cell) == Reply(Ok) {
        OneMoreJump(g.world.airborne, Jump(cell, 0, None), c, clock);
      }
    case Elapse(ms) => WaitEndsJumps(g, ms, c, clock);
    case Forfeit =>
  }

  lemma MovesLeaveJumps(g: Game, from: Position, to: Position)
    ensures RequestMove(g, from, to).world.airborne == g.world.airborne
  {
  }

  lemma {:induction false} RunKeepsClock(g: Game, run: seq<Command>, c: Position, clock: int)
    requires GameInv(g) && OrdinaryRun(g, run) && OnClock(g.world.airborne, c, clock)
    ensures OnClock(Run(g, run).world.airborne, c, clock + TimeSpent(run))
    decreases |run|
  {
    hide GameInv, OrdinaryCommand, GameStep, OnClock;
    if run != [] {
      StepKeepsGame(g, run[0]);
      StepKeepsClock(g, run[0], c, clock);
      RunKeepsClock(GameStep(g, run[0]), run[1..], c, clock + Spent(run[0]));
    }
  }

  lemma JumpBegins(g: Game, c: Position)
    requires GameInv(g) && JumpReply(g, c) == Reply(Ok)
    ensures c in g.world.cells && GameInv(RequestJump(g, c))
    ensures OnClock(RequestJump(g, c).world.airborne, c, 0)
  {
    JumpRequestKeepsGame(g, c);
    hide GameInv;
    assert RequestJump(g, c).world.airborne[|g.world.airborne|] == Jump(c, 0, None);
  }

  /** Main result: after an accepted jump and any ordinary run, whatever else is ordered and however its time is split, the
      jump is under way, as old as the time spent, if and only if that is less than 1000 ms. */
  lemma JumpLastsASecond(g: Game, c: Position, run: seq<Command>)
    requires GameInv(g) && JumpReply(g, c) == Reply(Ok)
    requires GameInv(RequestJump(g, c)) && OrdinaryRun(RequestJump(g, c), run)
    ensures TimeSpent(run) >= 0
    ensures HasJump(Run(RequestJump(g, c), run).world.airborne, c, TimeSpent(run)) <==> TimeSpent(run) < 1000
  {
    hide GameInv, JumpReply, RequestJump, OrdinaryRun, Run, HasJump;
    JumpBegins(g, c);
    RunKeepsClock(RequestJump(g, c), run, c, 0);
  }
}
