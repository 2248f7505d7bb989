/** The client beside the engine over whole runs of the game. */
module ClientRuns {
  import opened Model
  import opened Rules
  import opened ArbiterSpec
  import opened ArbiterTick
  import opened ArbiterInvariant
  import opened LandingKeeps
  import opened CommandsKeep
  import opened Timing
  import opened Conservation
  import opened EngineSpec
  import opened EngineRuns
  import opened Score
  import opened OrdinaryPlay
  import opened Notation
  import opened StateCodec
  import opened Snapshots
  import opened RemoteGames

  /** The codec's reach, counting the pieces that are lifted off the board too. */
  ghost predicate WithinReach(w: World) {
    0 < w.width <= LAST_COLUMN + 1 && 0 < w.height && forall x :: InPlay(w.cells, w.airborne, x) ==> x.id < ID_RANGE
  }

  lemma ReachIsNarrow(w: World)
    requires WithinReach(w)
    ensures Narrow(w)
  {
    forall c | c in w.cells
      ensures w.cells[c].id < ID_RANGE
    {
      assert OnBoard(w.cells, IdOf(w.cells[c]));
    }
  }

  lemma TickStaysWithinReach(w: World, ms: int)
    requires Inv(w) && OrdinaryWait(w, ms) && WithinReach(w)
    ensures LandingsGrounded(AfterCrossings(w, ms).cells, AfterCrossings(w, ms).airborne)
    ensures WithinReach(WorldOf(Advance(w, ms)))
  {
    hide Inv, InPlay, Taken, TakenForGood, CapturesOf, AsCaptured, AfterCrossings, Advance, OrdinaryTick, GroundedWorld;
    hide LandingsGrounded;
    AdvanceConserves(w, ms);
    AdvanceKeepsSize(w, ms);
  }

  lemma AdvanceKeepsSize(w: World, ms: int)
    requires Inv(w) && OrdinaryWait(w, ms)
    ensures LandingsGrounded(AfterCrossings(w, ms).cells, AfterCrossings(w, ms).airborne)
    ensures Advance(w, ms).width == w.width && Advance(w, ms).height == w.height
  {
    AdvanceKeepsInv(w, ms);
    AdvanceAges(w, ms);
  }

  lemma PromotionsStayWithinReach(mid: Game, reports: seq<ArrivalReport>)
    requires WithinReach(mid.world)
    ensures WithinReach(ApplyReports(mid, reports).world)
  {
    ReportsPromoteTheDue(mid, reports);
    var v := ApplyReports(mid, reports).world;
    hide ApplyReports, DueAt;
    forall x | InPlay(v.cells, v.airborne, x)
      ensures x.id < ID_RANGE
    {
      if OnBoard(v.cells, x) {
        var c :| c in v.cells && IdOf(v.cells[c]) == x;
        assert OnBoard(mid.world.cells, IdOf(mid.world.cells[c]));
        assert InPlay(mid.world.cells, mid.world.airborne, IdOf(mid.world.cells[c]));
      } else {
        assert InPlay(mid.world.cells, mid.world.airborne, x);
      }
    }
  }

  lemma WaitStaysWithinReach(g: Game, ms: int)
    requires GameInv(g) && OrdinaryWait(g.world, ms) && WithinReach(g.world)
    ensures WithinReach(Wait(g, ms).world)
  {
    WaitIsApplyReports(g, ms);
    TickStaysWithinReach(g.world, ms);
    hide WithinReach, Inv, GameInv, Wait, ApplyReports, Advance, OrdinaryWait;
    var t := Advance(g.world, ms);
    PromotionsStayWithinReach(g.(elapsedMs := g.elapsedMs + ms, world := WorldOf(t)), t.reports);
  }

  lemma CommandStaysWithinReach(w: World, v: World)
    requires WithinReach(w) && v.width == w.width && v.height == w.height
    requires v.cells.Keys == w.cells.Keys && forall c :: c in w.cells ==> IdOf(v.cells[c]) == IdOf(w.cells[c])
    requires forall x :: Lifted(v.airborne, x) <==> Lifted(w.airborne, x)
    ensures WithinReach(v)
  {
    SameIdentities(w.cells, v.cells);
    forall x | InPlay(v.cells, v.airborne, x)
      ensures x.id < ID_RANGE
    {
      assert InPlay(w.cells, w.airborne, x);
    }
  }

  lemma StepStaysWithinReach(g: Game, c: Command)
    requires GameInv(g) && OrdinaryCommand(g, c) && WithinReach(g.world)
    ensures WithinReach(GameStep(g, c).world)
  {
    hide WithinReach, Inv, Wait, OrdinaryWait, LegalMove;
    match c
    case MoveTo(from, to) =>
      if MoveReply(g, from, to) == Ok {
        CommandStaysWithinReach(g.world, BeginMotion(g.world, from, to));
      }
    case JumpOn(cell) =>
      if JumpReply(g, cell) == Reply(Ok) {
        forall x
          ensures Lifted(BeginJump(g.world, cell).airborne, x) <==> Lifted(g.world.airborne, x)
        {
          JumpLiftsNobody(g.world.airborne, cell, x);
        }
        CommandStaysWithinReach(g.world, BeginJump(g.world, cell));
      }
    case Elapse(ms) => WaitStaysWithinReach(g, ms);
    case Forfeit =>
  }

  lemma {:induction false} RunStaysWithinReach(g: Game, run: seq<Command>)
    requires GameInv(g) && OrdinaryRun(g, run) && WithinReach(g.world)
    ensures WithinReach(Run(g, run).world)
    decreases |run|
  {
    if run != [] {
      StepKeepsGame(g, run[0]);
      StepStaysWithinReach(g, run[0]);
      hide WithinReach, GameInv;
      RunStaysWithinReach(GameStep(g, run[0]), run[1..]);
    }
  }

  /** Main result, from the set-up board on: after any ordinary run, a client that has just received the frame highlights,
      for each piece of its colours that is not in the air, exactly the moves the engine would accept. */
  lemma ClientFollowsEveryRun(start: Grid, run: seq<Command>, v: Client, c: Position, to: Position)
    requires SetUp(start) && start.width <= LAST_COLUMN + 1
    requires forall p :: p in start.cells ==> start.cells[p].id < ID_RANGE
    requires GameInv(NewGame(start)) && OrdinaryRun(NewGame(start), run)
    ensures var g := Run(NewGame(start), run);
            && OnPaths(g.world.active) && g.world.width > 0 && g.world.height > 0
            && (c in g.world.cells && g.world.cells[c].color in v.own && g.world.cells[c].state != Airborne ==>
                  (Highlights(Informed(g, v), c, to) <==> MoveReply(g, c, to) == Ok))
            && (c !in g.world.cells || g.world.cells[c].color !in v.own ==> !Highlights(Informed(g, v), c, to))
  {
    var first := NewGame(start);
    assert WithinReach(first.world);
    RunStaysWithinReach(first, run);
    var g := Run(first, run);
    ReachIsNarrow(g.world);
    hide WithinReach, Inv, GameInv, SetUp, Highlights, MoveReply, Informed;
    InformedFollows(g, v);
    if c in g.world.cells && g.world.cells[c].color in v.own {
      HighlightsAreAcceptedMoves(g, v, c, to);
    } else {
      OthersAreNotHighlighted(g, v, c, to);
    }
  }
}
