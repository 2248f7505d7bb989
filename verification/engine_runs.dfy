/** What holds after every ordinary run of the game. */
module EngineRuns {
  import opened Model
  import opened Motions
  import opened Rules
  import opened ArbiterSpec
  import opened ArbiterTick
  import opened ArbiterInvariant
  import opened CommandsKeep
  import opened CrossingLog
  import opened LandingKeeps
  import opened Pawns
  import opened Timing
  import opened EngineSpec

  // ---- promotions do not disturb the agreement ----

  /** Same pieces on the same squares in the same states; only kinds may differ. */
  ghost predicate SameButKinds(cells: Cells, after: Cells) {
    && after.Keys == cells.Keys
    && forall c :: c in cells ==> after[c] == cells[c].(kind := after[c].kind)
  }

  lemma KindsDoNotMatterForJourneys(w: World, v: World)
    requires v == w.(cells := v.cells) && SameButKinds(w.cells, v.cells)
    requires JourneysCarry(w.width, w.height, w.cells, w.active, AllUnresolved(|w.active|))
    ensures JourneysCarry(v.width, v.height, v.cells, v.active, AllUnresolved(|v.active|))
  {
    forall c | c in v.cells && v.cells[c].state == Moving
      ensures exists i :: Live(AllUnresolved(|v.active|), i) && CurrentCell(v.active[i]) == c
    {
      var i :| Live(AllUnresolved(|w.active|), i) && CurrentCell(w.active[i]) == c;
    }
  }

  lemma KindsDoNotMatterForJumps(w: World, v: World)
    requires v == w.(cells := v.cells) && SameButKinds(w.cells, v.cells)
    requires JumpsHold(w.cells, w.airborne, w.resting, 0, |w.airborne|, {})
    ensures JumpsHold(v.cells, v.airborne, v.resting, 0, |v.airborne|, {})
  {
    forall l | 0 <= l < |v.airborne|
      ensures JumpHolds(v.cells, v.resting, v.airborne[l], JumpClock(v.airborne, l, 0, |v.airborne|))
    {
      assert JumpHolds(w.cells, w.resting, w.airborne[l], JumpClock(w.airborne, l, 0, |w.airborne|));
    }
  }

  lemma KindsDoNotMatterForRests(w: World, v: World)
    requires v == w.(cells := v.cells) && SameButKinds(w.cells, v.cells)
    requires RestsTrack(w.cells, w.airborne, w.resting)
    ensures RestsTrack(v.cells, v.airborne, v.resting)
  {
  }

  lemma KindsDoNotMatter(w: World, v: World)
    requires Inv(w) && v == w.(cells := v.cells) && SameButKinds(w.cells, v.cells)
    ensures Inv(v)
  {
    KindsDoNotMatterForJourneys(w, v);
    KindsDoNotMatterForJumps(w, v);
    KindsDoNotMatterForRests(w, v);
    assert PiecesInPlace(v.width, v.height, v.cells);
    assert DistinctPieces(v.cells, v.airborne);
    hide JourneysCarry, JumpsHold, RestsTrack, DistinctPieces, PiecesInPlace, JumpClocks, SameButKinds;
  }

  lemma GameAgrees(g: Game)
    requires GameInv(g)
    ensures Inv(g.world) && GroundedWorld(g.world)
  {
  }

  // ---- a wait ----

  lemma ApplyingReportsKeepsAgreement(t: Tick, mid: Game)
    requires GroundedTick(t) && PawnsWatched(t) && Inv(WorldOf(t)) && t.resolved == AllUnresolved(|t.active|)
    requires mid.world == WorldOf(t)
    ensures Inv(ApplyReports(mid, t.reports).world) && PawnsPromoted(ApplyReports(mid, t.reports).world)
  {
    var h := ApplyReports(mid, t.reports);
    ReportsPromoteTheDue(mid, t.reports);
    KindsDoNotMatter(WorldOf(t), h.world);
    hide ApplyReports, Inv, PawnsPromoted, PawnsWatched;
    ReportsPromoteAll(t, h.world);
  }

  lemma WaitIsApplyReports(g: Game, ms: int)
    requires Inv(g.world) && ms >= 0
    ensures GroundedWorld(g.world)
    ensures LandingsGrounded(AfterCrossings(g.world, ms).cells, AfterCrossings(g.world, ms).airborne)
    ensures var t := Advance(g.world, ms);
            Wait(g, ms) == ApplyReports(g.(elapsedMs := g.elapsedMs + ms, world := WorldOf(t)), t.reports)
  {
    hide Inv, GroundedWorld, OrdinaryTick, LandingsGrounded, AfterCrossings, Advance, ApplyReports;
    EveryTickLands(g.world, ms);
  }

  lemma WaitKeepsAgreement(g: Game, ms: int)
    requires Inv(g.world) && PawnsPromoted(g.world) && OrdinaryWait(g.world, ms)
    ensures Inv(Wait(g, ms).world) && PawnsPromoted(Wait(g, ms).world)
  {
    WaitIsApplyReports(g, ms);
    AdvanceKeepsInv(g.world, ms);
    AdvanceReportsPawns(g.world, ms);
    hide *;
    var t := Advance(g.world, ms);
    ApplyingReportsKeepsAgreement(t, g.(elapsedMs := g.elapsedMs + ms, world := WorldOf(t)));
  }

  /** Once the reported arrivals are applied no pawn is left on its promotion row. */
  lemma ReportsPromoteAll(t: Tick, v: World)
    requires GroundedTick(t) && PawnsWatched(t) && Inv(WorldOf(t)) && Inv(v)
    requires t.resolved == AllUnresolved(|t.active|)
    requires v == WorldOf(t).(cells := v.cells) && v.cells.Keys == t.cells.Keys
    requires forall c :: c in t.cells ==>
               v.cells[c] == if DueAt(WorldOf(t), t.reports, c) then t.cells[c].(kind := Queen) else t.cells[c]
    ensures PawnsPromoted(v)
  {
    forall c | c in v.cells
      ensures !OnLastRow(v.cells[c], c, v.height)
    {
      assert t.cells[c].cell == c;
      if OnLastRow(t.cells[c], c, t.height) {
        assert DueAt(WorldOf(t), t.reports, c);
      }
    }
    assert PawnsStopAtLastRow(v.height, v.cells, v.active, AllUnresolved(|v.active|)) by {
      forall i, k | Live(t.resolved, i) && v.active[i].stepIndex < k < |v.active[i].path| - 1
        && v.cells[CurrentCell(v.active[i])].kind == Pawn
        ensures v.active[i].path[k].row != PromotionRow(v.cells[CurrentCell(v.active[i])].color, v.height)
      {
        assert t.cells[CurrentCell(t.active[i])].kind == Pawn;
      }
    }
  }

  lemma OrderedLater(g: Game, h: Game, a: Announcement, n: Motion, m: Motion, ms: int)
    requires Ordered(g, a, n) && SameJourney(n, m, ms) && h.elapsedMs == g.elapsedMs + ms
    ensures Ordered(h, a, m)
  {
  }

  lemma JourneysStayOrdered(g: Game, h: Game, ms: int)
    requires Punctual(g) && Aged(g.world, h.world, ms) && h.elapsedMs == g.elapsedMs + ms
    requires g.announced <= h.announced
    ensures Punctual(h)
  {
    hide Ordered, SameJourney;
    forall k | 0 <= k < |h.world.active|
      ensures WasOrdered(h, h.world.active[k])
    {
      assert GoesOn(g.world.active, h.world.active[k], ms);
      var i :| 0 <= i < |g.world.active| && SameJourney(g.world.active[i], h.world.active[k], ms);
      var e :| 0 <= e < |g.announced| && Ordered(g, g.announced[e], g.world.active[i]);
      OrderedLater(g, h, g.announced[e], g.world.active[i], h.world.active[k], ms);
      assert h.announced[e] == g.announced[e];
    }
  }

  lemma ApplyingReportsKeepsClocks(mid: Game, reports: seq<ArrivalReport>)
    ensures var h := ApplyReports(mid, reports);
            && mid.announced <= h.announced && h.elapsedMs == mid.elapsedMs
            && h.world == mid.world.(cells := h.world.cells)
  {
    ReportsPromoteTheDue(mid, reports);
    ReportsAnnounceVictims(mid, reports);
  }

  lemma WaitKeepsPunctual(g: Game, ms: int)
    requires Inv(g.world) && Punctual(g) && OrdinaryWait(g.world, ms)
    ensures Punctual(Wait(g, ms)) && Aged(g.world, Wait(g, ms).world, ms)
    ensures Wait(g, ms).elapsedMs == g.elapsedMs + ms
  {
    WaitIsApplyReports(g, ms);
    AdvanceAges(g.world, ms);
    var t := Advance(g.world, ms);
    ApplyingReportsKeepsClocks(g.(elapsedMs := g.elapsedMs + ms, world := WorldOf(t)), t.reports);
    CellsDoNotAge(g.world, WorldOf(t), Wait(g, ms).world, ms);
    hide Punctual, Aged, Wait, Advance, Inv, OrdinaryWait, ApplyReports, AfterCrossings;
    JourneysStayOrdered(g, Wait(g, ms), ms);
  }

  lemma CellsDoNotAge(w: World, v: World, u: World, ms: int)
    requires Aged(w, v, ms) && u == v.(cells := u.cells)
    ensures Aged(w, u, ms)
  {
  }

  // ---- a command ----

  lemma PawnsStayPromoted(w: World, v: World)
    requires Inv(w) && PawnsPromoted(w) && GroundedWorld(v) && v.height == w.height
    requires v.cells.Keys == w.cells.Keys && forall c :: c in w.cells ==> v.cells[c] == w.cells[c].(state := v.cells[c].state)
    requires forall l :: 0 <= l < |v.airborne| && IsLifted(v.airborne[l]) ==> v.airborne[l] in w.airborne
    requires forall i :: 0 <= i < |v.active| ==> v.active[i] in w.active || PawnKeepsOff(v, v.active[i])
    ensures PawnsPromoted(v)
  {
    forall c | c in v.cells
      ensures !OnLastRow(v.cells[c], c, v.height)
    {
      assert !OnLastRow(w.cells[c], c, w.height);
    }
    forall i, k | Live(AllUnresolved(|v.active|), i) && v.active[i].stepIndex < k < |v.active[i].path| - 1
      && v.cells[CurrentCell(v.active[i])].kind == Pawn
      ensures v.active[i].path[k].row != PromotionRow(v.cells[CurrentCell(v.active[i])].color, v.height)
    {
      if v.active[i] in w.active {
        var j :| 0 <= j < |w.active| && w.active[j] == v.active[i];
        assert Live(AllUnresolved(|w.active|), j);
      }
    }
  }

  ghost predicate PawnKeepsOff(v: World, m: Motion)
    requires m.stepIndex < |m.path| && CurrentCell(m) in v.cells
  {
    v.cells[CurrentCell(m)].kind == Pawn ==>
      forall k :: m.stepIndex < k < |m.path| - 1 ==> m.path[k].row != PromotionRow(v.cells[CurrentCell(m)].color, v.height)
  }

  lemma NewJourneyKeepsOff(w: World, from: Position, to: Position)
    requires Inv(w) && from in w.cells && ValidateMove(GridOf(w), from, to) == Ok
    ensures var v, m := BeginMotion(w, from, to), NewMotion(from, to);
            m.stepIndex < |m.path| && CurrentCell(m) in v.cells && PawnKeepsOff(v, m)
  {
    var v, m := BeginMotion(w, from, to), NewMotion(from, to);
    assert w.cells[from].cell == from;
    hide Inv;
    LegalMoveHasClearWay(GridOf(w), w.cells[from], to);
    StepsFillTheJourney(from, to);
    forall k | m.stepIndex < k < |m.path| - 1 && w.cells[from].kind == Pawn
      ensures m.path[k].row != PromotionRow(w.cells[from].color, v.height)
    {
      PawnWayEndsAtLastRow(GridOf(w), w.cells[from], to, k);
    }
  }

  lemma OneMoreJourney(w: World, from: Position, to: Position)
    requires from in w.cells
    ensures forall i :: 0 <= i < |BeginMotion(w, from, to).active| ==>
              BeginMotion(w, from, to).active[i] in w.active || BeginMotion(w, from, to).active[i] == NewMotion(from, to)
  {
    hide NewMotion;
  }

  lemma MoveRequestKeepsPawns(g: Game, from: Position, to: Position)
    requires GameInv(g) && MoveReply(g, from, to) == Ok
    ensures Inv(BeginMotion(g.world, from, to)) && PawnsPromoted(BeginMotion(g.world, from, to))
  {
    hide Inv, PawnsPromoted, ValidateMove, NewMotion, PawnKeepsOff, GroundedWorld;
    IdleMoves(g, from, to);
    var w, v := g.world, BeginMotion(g.world, from, to);
    MotionStarts(w, from, to);
    NewJourneyKeepsOff(w, from, to);
    OneMoreJourney(w, from, to);
    AgreementIsGrounded(v);
    PawnsStayPromoted(w, v);
  }

  lemma IdleMoves(g: Game, from: Position, to: Position)
    requires MoveReply(g, from, to) == Ok
    ensures ValidateMove(GridOf(g.world), from, to) == Ok
    ensures from in g.world.cells && g.world.cells[from].state == Idle
  {
    hide LegalMove;
  }

  lemma MoveRequestKeepsPunctual(g: Game, from: Position, to: Position)
    requires Punctual(g)
    ensures Punctual(RequestMove(g, from, to))
  {
    var h := RequestMove(g, from, to);
    if MoveReply(g, from, to) == Ok {
      forall k | 0 <= k < |h.world.active|
        ensures WasOrdered(h, h.world.active[k])
      {
        if k < |g.world.active| {
          assert WasOrdered(g, g.world.active[k]);
          var e :| 0 <= e < |g.announced| && Ordered(g, g.announced[e], g.world.active[k]);
          assert h.announced[e] == g.announced[e];
          assert Ordered(h, h.announced[e], h.world.active[k]);
        } else {
          var e := |g.announced|;
          assert h.world.active[k] == NewMotion(from, to);
          assert Ordered(h, h.announced[e], h.world.active[k]);
        }
      }
    }
  }

  lemma AnnouncingKeepsPunctual(g: Game, h: Game)
    requires Punctual(g) && h.world.active == g.world.active && h.elapsedMs == g.elapsedMs && g.announced <= h.announced
    ensures Punctual(h)
  {
    forall k | 0 <= k < |h.world.active|
      ensures WasOrdered(h, h.world.active[k])
    {
      assert WasOrdered(g, g.world.active[k]);
      var e :| 0 <= e < |g.announced| && Ordered(g, g.announced[e], g.world.active[k]);
      assert Ordered(h, h.announced[e], h.world.active[k]);
    }
  }

  lemma JumpRequestKeepsGame(g: Game, cell: Position)
    requires GameInv(g)
    ensures GameInv(RequestJump(g, cell))
  {
    var h := RequestJump(g, cell);
    if JumpReply(g, cell) == Reply(Ok) {
      JumpStarts(g.world, cell);
      hide JourneysCarry, JumpsHold, RestsTrack;
      PawnsStayPromoted(g.world, h.world);
      AnnouncingKeepsPunctual(g, h);
    }
  }

  lemma MoveRequestKeepsGame(g: Game, from: Position, to: Position)
    requires GameInv(g)
    ensures GameInv(RequestMove(g, from, to))
  {
    MoveRequestKeepsPunctual(g, from, to);
    if MoveReply(g, from, to) == Ok {
      MoveRequestKeepsPawns(g, from, to);
    }
    hide Punctual, Inv, PawnsPromoted, MoveReply;
  }

  /** Main step: whatever the players order and however time passes, the game stays in agreement. */
  lemma StepKeepsGame(g: Game, c: Command)
    requires GameInv(g) && OrdinaryCommand(g, c)
    ensures GameInv(GameStep(g, c))
  {
    hide Inv, PawnsPromoted, Punctual, Wait, RequestMove, RequestJump;
    match c
    case MoveTo(from, to) => MoveRequestKeepsGame(g, from, to);
    case JumpOn(cell) => JumpRequestKeepsGame(g, cell);
    case Elapse(ms) =>
      WaitKeepsAgreement(g, ms);
      WaitKeepsPunctual(g, ms);
    case Forfeit => AnnouncingKeepsPunctual(g, EndGame(g));
  }

  /** An accepted move is published as what it is: now, by the piece's owner, a capture exactly when the target is taken
      by somebody, who is then an enemy. */
  lemma AcceptedMoveIsPublished(g: Game, from: Position, to: Position)
    requires GameInv(g) && MoveReply(g, from, to) == Ok
    ensures from in g.world.cells
    ensures var p, h := g.world.cells[from], RequestMove(g, from, to);
            && |h.announced| == |g.announced| + 1 && h.announced[..|g.announced|] == g.announced
            && h.announced[|g.announced|].Moved?
            && var e := h.announced[|g.announced|].move;
               && e.timeMs == g.elapsedMs && e.player == p.color && e.kind == p.kind && e.from == from && e.to == to
               && (e.isCapture <==> to in g.world.cells) && !e.isJump
               && (to in g.world.cells ==> g.world.cells[to].color != p.color)
  {
    hide GameInv, LegalMove, BeginMotion;
  }

  lemma AcceptedJumpIsPublished(g: Game, c: Position)
    requires JumpReply(g, c) == Reply(Ok)
    ensures c in g.world.cells
    ensures var p, h := g.world.cells[c], RequestJump(g, c);
            && |h.announced| == |g.announced| + 1 && h.announced[..|g.announced|] == g.announced
            && h.announced[|g.announced|] == Moved(MoveEvent(g.elapsedMs, p.color, p.kind, c, c, false, true))
  {
  }

  lemma RefusedRequestsChangeNothing(g: Game, from: Position, to: Position)
    ensures MoveReply(g, from, to) != Ok ==> RequestMove(g, from, to) == g
    ensures JumpReply(g, from) != Reply(Ok) ==> RequestJump(g, from) == g
  {
    hide MoveReply;
  }

  /** A run in which no piece enters a square whose jumper has been lifted, and time never runs backwards. */
  ghost predicate OrdinaryRun(g: Game, run: seq<Command>)
    requires GameInv(g)
    decreases |run|
  {
    || run == []
    || (OrdinaryCommand(g, run[0])
        && (StepKeepsGame(g, run[0]); OrdinaryRun(GameStep(g, run[0]), run[1..])))
  }

  /** The game after a run. Its agreement holds after every ordinary run. */
  ghost function Run(g: Game, run: seq<Command>): (h: Game)
    requires GameInv(g) && OrdinaryRun(g, run)
    ensures GameInv(h)
    decreases |run|
  {
    if run == [] then g
    else
      StepKeepsGame(g, run[0]);
      Run(GameStep(g, run[0]), run[1..])
  }

  // ---- what the agreement says ----

  lemma JourneyHasNoJump(w: World, i: nat, l: nat)
    requires Inv(w) && i < |w.active| && l < |w.airborne|
    ensures w.active[i].stepIndex < |w.active[i].path| && CurrentCell(w.active[i]) != w.airborne[l].cell
  {
    assert Live(AllUnresolved(|w.active|), i);
    assert JumpHolds(w.cells, w.resting, w.airborne[l], JumpClock(w.airborne, l, 0, |w.airborne|));
  }

  /** Every journey stands on a square of its path. */
  ghost predicate OnPaths(active: seq<Motion>) {
    forall i :: 0 <= i < |active| ==> active[i].stepIndex < |active[i].path|
  }

  lemma JourneysAreOnPaths(w: World)
    requires Inv(w)
    ensures OnPaths(w.active)
  {
    forall i | 0 <= i < |w.active|
      ensures w.active[i].stepIndex < |w.active[i].path|
    {
      assert Live(AllUnresolved(|w.active|), i);
    }
  }

  /** What is under way on this square is what its piece's state says. */
  ghost predicate ActivitiesAt(w: World, c: Position)
    requires OnPaths(w.active) && c in w.cells
  {
    var p := w.cells[c];
    && p.cell == c && p.state != Captured && InBounds(w.width, w.height, c)
    && (p.state == Moving <==> exists i :: 0 <= i < |w.active| && CurrentCell(w.active[i]) == c)
    && (p.state == Airborne <==>
          exists l :: 0 <= l < |w.airborne| && w.airborne[l].cell == c && !IsLifted(w.airborne[l]))
    && (p.state == Resting <==> exists r :: r in w.resting && r.pieceId == p.id && r.cell == c)
  }

  /** No square has two journeys, two jumps, or a journey and a jump. */
  ghost predicate SquaresApart(w: World)
    requires OnPaths(w.active)
  {
    && (forall i, j :: 0 <= i < j < |w.active| ==> CurrentCell(w.active[i]) != CurrentCell(w.active[j]))
    && (forall k, l :: 0 <= k < l < |w.airborne| ==> w.airborne[k].cell != w.airborne[l].cell)
    && (forall i, l :: 0 <= i < |w.active| && 0 <= l < |w.airborne| ==> CurrentCell(w.active[i]) != w.airborne[l].cell)
  }

  /** A piece is moving exactly when one journey has its square, airborne exactly when one jump with nobody lifted has
      it, resting exactly when a rest names it there, and idle otherwise. No square has two journeys, two jumps, or a
      journey and a jump. */
  lemma StatesTellActivities(g: Game, c: Position)
    requires GameInv(g) && c in g.world.cells
    ensures OnPaths(g.world.active) && ActivitiesAt(g.world, c) && SquaresApart(g.world)
  {
    var w := g.world;
    var p := w.cells[c];
    var none := AllUnresolved(|w.active|);
    forall i, l | 0 <= i < |w.active| && 0 <= l < |w.airborne|
      ensures w.active[i].stepIndex < |w.active[i].path| && CurrentCell(w.active[i]) != w.airborne[l].cell
    {
      JourneyHasNoJump(w, i, l);
    }
    forall i | 0 <= i < |w.active|
      ensures Live(none, i) && w.active[i].stepIndex < |w.active[i].path|
    {
    }
    if p.state == Moving {
      var i :| Live(none, i) && CurrentCell(w.active[i]) == c;
      assert 0 <= i < |w.active|;
    }
    forall l | 0 <= l < |w.airborne| && w.airborne[l].cell == c && !IsLifted(w.airborne[l])
      ensures p.state == Airborne
    {
      assert JumpHolds(w.cells, w.resting, w.airborne[l], JumpClock(w.airborne, l, 0, |w.airborne|));
    }
    if p.state == Resting {
      var r :| r in w.resting && r.pieceId == p.id;
      assert r.cell == c;
    }
  }

  /** A game that is over takes no more commands; one that is not takes a jump of any idle piece. */
  lemma OverRefusesAll(g: Game, from: Position, to: Position)
    ensures g.over ==> MoveReply(g, from, to) == GameOver && JumpReply(g, from) == Reply(GameOver)
    ensures g.over ==> RequestMove(g, from, to) == g && RequestJump(g, from) == g
    ensures MoveReply(g, from, to) == GameOver ==> g.over
    ensures JumpReply(g, from) == Reply(Ok) <==>
              && !g.over && 0 <= from.row < g.world.height && 0 <= from.col < g.world.width
              && from in g.world.cells && g.world.cells[from].state == Idle
  {
    hide LegalMove;
  }

  /** Why a move by the rules is refused in a game in agreement: a journey has the piece under way, or the piece is in the
      air or resting. */
  lemma RefusalsSayWhy(g: Game, from: Position, to: Position)
    requires GameInv(g) && from in g.world.cells && !g.over && ValidateMove(GridOf(g.world), from, to) == Ok
    ensures OnPaths(g.world.active)
    ensures var w, reply := g.world, MoveReply(g, from, to);
            && (reply == MotionInProgress <==> exists i :: 0 <= i < |w.active| && CurrentCell(w.active[i]) == from)
            && (reply == NotIdle <==>
                  || (exists l :: 0 <= l < |w.airborne| && w.airborne[l].cell == from && !IsLifted(w.airborne[l]))
                  || (exists r :: r in w.resting && r.pieceId == w.cells[from].id && r.cell == from))
            && (reply == MotionInProgress || reply == NotIdle || reply == Ok)
  {
    hide GameInv, ValidateMove;
    StatesTellActivities(g, from);
  }

  /** A jump is refused for the same reasons, and otherwise accepted whatever stands around. */
  lemma JumpRefusalsSayWhy(g: Game, c: Position)
    requires GameInv(g) && c in g.world.cells && !g.over
    ensures OnPaths(g.world.active)
    ensures var w, reply := g.world, JumpReply(g, c);
            && (reply == Reply(MotionInProgress) <==> exists i :: 0 <= i < |w.active| && CurrentCell(w.active[i]) == c)
            && (reply == Reply(NotIdle) <==>
                  || (exists l :: 0 <= l < |w.airborne| && w.airborne[l].cell == c && !IsLifted(w.airborne[l]))
                  || (exists r :: r in w.resting && r.pieceId == w.cells[c].id && r.cell == c))
            && (reply == Reply(MotionInProgress) || reply == Reply(NotIdle) || reply == Reply(Ok))
  {
    hide GameInv;
    StatesTellActivities(g, c);
  }

  /** The enemy that arrived under a lifted jumper rests until the jump lands: it takes no command. */
  lemma ArriverWaitsForLanding(g: Game, l: nat, to: Position)
    requires GameInv(g) && l < |g.world.airborne| && IsLifted(g.world.airborne[l])
    ensures var j := g.world.airborne[l];
            && j.cell in g.world.cells && g.world.cells[j.cell].color == OpponentOf(j.lifted.value.color)
            && g.world.cells[j.cell].state == Resting
            && MoveReply(g, j.cell, to) != Ok && JumpReply(g, j.cell) != Reply(Ok)
            && RequestMove(g, j.cell, to) == g && RequestJump(g, j.cell) == g
  {
    var w := g.world;
    assert JumpHolds(w.cells, w.resting, w.airborne[l], JumpClock(w.airborne, l, 0, |w.airborne|));
  }

  /** No drift: a journey under way was announced, follows the path from there to its target, and its piece stands on
      the square that the time since the announcement says, however the time was split into waits. */
  lemma JourneysAreOnTime(g: Game, k: nat)
    requires GameInv(g) && k < |g.world.active|
    ensures var m := g.world.active[k];
            exists e :: 0 <= e < |g.announced| && g.announced[e].Moved? && !g.announced[e].move.isJump
              && OnTimeSince(g, g.announced[e].move, m)
  {
    var m := g.world.active[k];
    assert WasOrdered(g, m);
    var e :| 0 <= e < |g.announced| && Ordered(g, g.announced[e], m);
    assert Live(AllUnresolved(|g.world.active|), k);
    DivisionFinds(m.stepIndex, m.stepDuration, m.elapsed);
    assert OnTimeSince(g, g.announced[e].move, m);
  }

  ghost predicate OnTimeSince(g: Game, e: MoveEvent, m: Motion) {
    var spent := g.elapsedMs - e.timeMs;
    && m.path == TravelPath(e.from, e.to)
    && m.stepDuration > 0 && spent >= 0
    && spent / m.stepDuration < |m.path| - 1
    && m.path[spent / m.stepDuration] in g.world.cells
    && g.world.cells[m.path[spent / m.stepDuration]].state == Moving
    && m.stepIndex == spent / m.stepDuration
  }

  lemma DivisionFinds(k: nat, d: int, e: int)
    requires d > 0 && 0 <= e < d
    ensures (k * d + e) / d == k && k * d + e >= 0
  {
    var q, r := (k * d + e) / d, (k * d + e) % d;
    assert k * d + e == d * q + r;
    assert d * (q - k) == e - r && d * (k - q) == r - e;
    if q > k {
      ProductAtLeast(d, q - k);
    } else if q < k {
      ProductAtLeast(d, k - q);
    }
  }
}
