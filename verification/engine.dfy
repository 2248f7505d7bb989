/** The engine object: validates, delegates to the arbiter, announces, and applies what a tick reports. */
module Engines {
  import opened Model
  import opened Motions
  import opened Boards
  import opened Rules
  import RuleEngine
  import opened ArbiterSpec
  import opened ArbiterTick
  import opened ArbiterInvariant
  import opened CommandsKeep
  import opened Arbiters
  import opened Pawns
  import opened EngineSpec
  import opened EngineRuns

  class GameEngine {
    const board: Board
    const arbiter: RealTimeArbiter
    var over: bool
    var elapsedMs: int
    /** Everything published so far, in order. */
    var announced: seq<Announcement>
    ghost var promoted: seq<Color>

    constructor (board: Board)
      requires board.Valid()
      ensures Valid() && fresh(arbiter) && this.board == board
      ensures View() == Game(World(board.width, board.height, board.cells, [], [], []), false, 0, [], [])
    {
      this.board := board;
      arbiter := new RealTimeArbiter(board);
      over, elapsedMs, announced, promoted := false, 0, [], [];
    }

    ghost predicate Valid()
      reads this, board, board.grid, arbiter
    {
      arbiter.board == board && board.Valid()
    }

    ghost function View(): Game
      reads this, arbiter, arbiter.board
    {
      Game(arbiter.View(), over, elapsedMs, announced, promoted)
    }

    /** Accepted exactly when the answer is Ok, and then the journey has really begun. */
    method RequestMove(source: Position, destination: Position) returns (reason: MoveReason)
      requires Valid() && GameInv(View())
      modifies this, arbiter, board, board.grid
      ensures Valid() && GameInv(View())
      ensures reason == MoveReply(old(View()), source, destination)
      ensures View() == EngineSpec.RequestMove(old(View()), source, destination)
      ensures reason == Ok ==> |arbiter.active| == |old(arbiter.active)| + 1
    {
      hide GameInv, Inv, LegalMove, WellFormed, NewMotion;
      MoveRequestKeepsGame(View(), source, destination);
      if over {
        return GameOver;
      }
      var validation := RuleEngine.Validate(board, source, destination);
      if validation != Ok {
        return validation;
      }
      var piece := board.PieceAt(source).value;
      var block := RealTimeBlock(piece);
      if block.Some? {
        return block.value;
      }
      var target := board.PieceAt(destination);
      GameAgrees(View());
      JourneysAreOnPaths(View().world);
      MotionStarts(arbiter.View(), source, destination);
      hide ValidateMove;
      announced := announced + [Moved(MoveEvent(elapsedMs, piece.color, piece.kind, source, destination,
                                                target.Some? && target.value.color != piece.color, false))];
      var started := arbiter.StartMotion(source, destination);
      return Ok;
    }

    /** A square off the board is a board error; otherwise as for a move, with no rule to ask. */
    method RequestJump(cell: Position) returns (reply: Reply)
      requires Valid() && GameInv(View())
      modifies this, arbiter, board, board.grid
      ensures Valid() && GameInv(View())
      ensures reply == JumpReply(old(View()), cell)
      ensures View() == EngineSpec.RequestJump(old(View()), cell)
      ensures reply == Reply(Ok) ==> |arbiter.airborne| == |old(arbiter.airborne)| + 1
    {
      JumpRequestKeepsGame(View(), cell);
      if over {
        return Reply(GameOver);
      }
      var piece, error := board.GetPieceAt(cell);
      if error.Some? {
        return OutOfBounds;
      }
      if piece.None? {
        return Reply(NoPiece);
      }
      var block := RealTimeBlock(piece.value);
      if block.Some? {
        return Reply(block.value);
      }
      JumpStarts(arbiter.View(), cell);
      announced := announced + [Moved(MoveEvent(elapsedMs, piece.value.color, piece.value.kind, cell, cell, false, true))];
      var started := arbiter.StartJump(cell);
      return Reply(Ok);
    }

    /** One report: announce the victim, note a taken king, promote an arrived pawn. */
    method ApplyOne(report: ArrivalReport)
      requires Valid() && InBounds(board.width, board.height, report.destination)
      modifies this, board, board.grid
      ensures Valid() && View() == ApplyReport(old(View()), report)
    {
      if report.captured.Some? {
        announced := announced + [Took(report.captured.value)];
        if report.captured.value.kind == King {
          over := true;
        }
      }
      if !report.landed {
        return;
      }
      var piece := board.PieceAt(report.destination);
      if piece.Some? {
        var kind := PromotedKind(board.height, piece.value);
        if kind.Some? {
          board.SetPieceKind(report.destination, kind.value);
          promoted := promoted + [piece.value.color];
        }
      }
    }

    /** The reports of a tick, all of them: stopping early would lose captures beside a decisive one. */
    method ApplyAll(reports: seq<ArrivalReport>)
      requires Valid() && ReportsOnBoard(board.width, board.height, reports)
      modifies this, board, board.grid
      ensures Valid() && View() == ApplyReports(old(View()), reports)
    {
      ghost var g := View();
      for k := 0 to |reports|
        invariant Valid() && View() == ApplyReports(g, reports[..k])
      {
        assert reports[..k + 1][..k] == reports[..k];
        ApplyOne(reports[k]);
      }
      assert reports[..|reports|] == reports;
    }

    /** Time passes, so much of it as the caller says. An ordinary tick keeps the game in agreement. */
    method Wait(ms: int)
      requires Valid() && GameInv(View()) && ms >= 0
      modifies this, arbiter, board, board.grid
      ensures Valid() && Inv(old(View().world))
      ensures View() == EngineSpec.Wait(old(View()), ms)
      ensures OrdinaryWait(old(View().world), ms) ==> GameInv(View())
    {
      hide GameInv, OrdinaryWait, OrdinaryTick, EngineSpec.Wait, ArbiterTick.Advance, Inv, AfterCrossings, ApplyReports;
      hide GroundedWorld, LandingsGrounded, ReportsOnBoard;
      ghost var g := View();
      WaitFacts(g, ms);
      elapsedMs := elapsedMs + ms;
      var reports := arbiter.Advance(ms);
      ApplyAll(reports);
    }

    /** What the piece on `source` may be sent to right now: exactly the moves that would be accepted. */
    method LegalDestinationsFor(source: Position) returns (destinations: set<Position>, error: Option<BoardError>)
      requires Valid() && GameInv(View())
      ensures error == if !over && !InBounds(board.width, board.height, source) then Some(OutOfBoundsError) else None
      ensures error.None? ==> forall to :: to in destinations <==> MoveReply(View(), source, to) == Ok
      ensures error.Some? ==> destinations == {}
    {
      if over {
        return {}, None;
      }
      var piece;
      piece, error := board.GetPieceAt(source);
      if error.Some? || piece.None? || piece.value.state != Idle {
        return {}, error;
      }
      destinations := RuleEngine.LegalDestinations(board, piece.value);
      forall to | to in destinations
        ensures MayStandOn(board.AsGrid(), piece.value.color, to)
      {
        LegalMoveHasClearWay(board.AsGrid(), piece.value, to);
      }
    }

    method EndGame()
      requires Valid() && GameInv(View())
      modifies this
      ensures Valid() && GameInv(View()) && View() == EngineSpec.EndGame(old(View()))
    {
      StepKeepsGame(View(), Forfeit);
      over := true;
    }
  }

  /** All that a wait relies on and leaves behind. */
  lemma WaitFacts(g: Game, ms: int)
    requires GameInv(g) && ms >= 0
    ensures Inv(g.world) && GroundedWorld(g.world)
    ensures LandingsGrounded(AfterCrossings(g.world, ms).cells, AfterCrossings(g.world, ms).airborne)
    ensures var t := Advance(g.world, ms);
            && ReportsOnBoard(t.width, t.height, t.reports)
            && EngineSpec.Wait(g, ms) == ApplyReports(g.(elapsedMs := g.elapsedMs + ms, world := WorldOf(t)), t.reports)
    ensures OrdinaryWait(g.world, ms) ==> GameInv(EngineSpec.Wait(g, ms))
  {
    hide Inv, GroundedWorld, OrdinaryTick, LandingsGrounded, AfterCrossings, Advance, ApplyReports, ReportsOnBoard;
    hide PawnsPromoted, Punctual, OrdinaryWait, EngineSpec.Wait;
    if OrdinaryWait(g.world, ms) {
      StepKeepsGame(g, Elapse(ms));
    }
    WaitIsApplyReports(g, ms);
    EveryTickCanRun(g.world, ms);
  }
}
