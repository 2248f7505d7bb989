/** The game the engine runs, as a value: commands, ticks, announcements and promotions. */
module EngineSpec {
  import opened Model
  import opened Motions
  import opened Rules
  import opened ArbiterSpec
  import opened ArbiterTick
  import opened ArbiterInvariant
  import opened CommandsKeep
  import opened CrossingLog
  import opened Pawns
  import opened Conservation

  datatype Announcement = Moved(move: MoveEvent) | Took(piece: CapturedPiece)

  /** `promoted` records the colour of every promotion so far, in order. */
  datatype Game = Game(world: World, over: bool, elapsedMs: int, announced: seq<Announcement>, promoted: seq<Color>)

  /** The engine's answer to a command, or the board error asking about a square off the board raises. */
  datatype Reply = Reply(reason: MoveReason) | OutOfBounds

  predicate IsCaptureTarget(cells: Cells, destination: Position, mover: Color) {
    destination in cells && cells[destination].color != mover
  }

  /** Why this piece may not take a command right now, if it may not. */
  function RealTimeBlock(p: Piece): Option<MoveReason> {
    if p.state == Moving then Some(MotionInProgress)
    else if p.state != Idle then Some(NotIdle)
    else None
  }

  function MoveAnnounced(g: Game, p: Piece, from: Position, to: Position, isJump: bool): Announcement {
    Moved(MoveEvent(g.elapsedMs, p.color, p.kind, from, to,
                    !isJump && IsCaptureTarget(g.world.cells, to, p.color), isJump))
  }

  ghost function MoveReply(g: Game, from: Position, to: Position): MoveReason {
    if g.over then GameOver
    else
      var verdict := ValidateMove(GridOf(g.world), from, to);
      if verdict != Ok then verdict
      else
        var block := RealTimeBlock(g.world.cells[from]);
        if block.Some? then block.value else Ok
  }

  ghost function RequestMove(g: Game, from: Position, to: Position): Game {
    if MoveReply(g, from, to) != Ok then g
    else g.(announced := g.announced + [MoveAnnounced(g, g.world.cells[from], from, to, false)],
            world := BeginMotion(g.world, from, to))
  }

  function JumpReply(g: Game, cell: Position): Reply {
    if g.over then Reply(GameOver)
    else if !InBounds(g.world.width, g.world.height, cell) then OutOfBounds
    else if cell !in g.world.cells then Reply(NoPiece)
    else
      var block := RealTimeBlock(g.world.cells[cell]);
      if block.Some? then Reply(block.value) else Reply(Ok)
  }

  function RequestJump(g: Game, cell: Position): Game {
    if JumpReply(g, cell) != Reply(Ok) then g
    else g.(announced := g.announced + [MoveAnnounced(g, g.world.cells[cell], cell, cell, true)],
            world := BeginJump(g.world, cell))
  }

  // ---- reports ----

  function Announce(g: Game, captured: Option<CapturedPiece>): Game {
    if captured.None? then g
    else g.(announced := g.announced + [Took(captured.value)], over := g.over || captured.value.kind == King)
  }

  function PromoteAt(g: Game, c: Position): Game {
    if c in g.world.cells && PromotedKind(g.world.height, g.world.cells[c]).Some? then
      g.(world := g.world.(cells := g.world.cells[c := g.world.cells[c].(kind := Queen)]),
         promoted := g.promoted + [g.world.cells[c].color])
    else g
  }

  /** One report: its victim is announced, and a pawn now standing where it landed is promoted if it is due. */
  function ApplyReport(g: Game, r: ArrivalReport): Game {
    var told := Announce(g, r.captured);
    if r.landed then PromoteAt(told, r.destination) else told
  }

  function ApplyReports(g: Game, reports: seq<ArrivalReport>): Game {
    if reports == [] then g
    else ApplyReport(ApplyReports(g, reports[..|reports| - 1]), reports[|reports| - 1])
  }

  ghost predicate OrdinaryWait(w: World, ms: int) {
    ms >= 0 && GroundedWorld(w) && OrdinaryTick(w, ms)
  }

  ghost function Wait(g: Game, ms: int): Game
    requires Inv(g.world) && ms >= 0
  {
    EveryTickLands(g.world, ms);
    var t := Advance(g.world, ms);
    ApplyReports(g.(elapsedMs := g.elapsedMs + ms, world := WorldOf(t)), t.reports)
  }

  function EndGame(g: Game): Game {
    g.(over := true)
  }

  // ---- what reports change ----

  /** A pawn reported here knows itself on row 0, if white, or on the last row, if black. */
  ghost predicate DueAt(w: World, reports: seq<ArrivalReport>, c: Position)
    requires c in w.cells
  {
    var p := w.cells[c];
    p.kind == Pawn && p.cell.row == (if p.color == White then 0 else w.height - 1) && ReportedAt(reports, c)
  }

  /** Exactly the due pawns become queens; the board and the activity lists are otherwise untouched. */
  lemma {:induction false} ReportsPromoteTheDue(g: Game, reports: seq<ArrivalReport>)
    ensures var h := ApplyReports(g, reports);
            && h.world == g.world.(cells := h.world.cells) && h.world.cells.Keys == g.world.cells.Keys
            && h.elapsedMs == g.elapsedMs
            && (forall c :: c in g.world.cells ==>
                  h.world.cells[c] == if DueAt(g.world, reports, c) then g.world.cells[c].(kind := Queen)
                                      else g.world.cells[c])
  {
    if reports != [] {
      var n := |reports| - 1;
      ReportsPromoteTheDue(g, reports[..n]);
      forall c
        ensures ReportedAt(reports, c) <==>
                ReportedAt(reports[..n], c) || (reports[n].landed && reports[n].destination == c)
      {
        if ReportedAt(reports, c) {
          var k :| 0 <= k < |reports| && reports[k].landed && reports[k].destination == c;
          assert k < n ==> reports[..n][k] == reports[k];
        }
        if ReportedAt(reports[..n], c) {
          var k :| 0 <= k < n && reports[..n][k].landed && reports[..n][k].destination == c;
          assert reports[k] == reports[..n][k];
        }
      }
    }
  }

  ghost predicate KingAmong(victims: seq<CapturedPiece>) {
    exists v :: 0 <= v < |victims| && victims[v].kind == King
  }

  /** Every victim is announced, in order, and taking a king ends the game. */
  lemma {:induction false} ReportsAnnounceVictims(g: Game, reports: seq<ArrivalReport>)
    ensures var h := ApplyReports(g, reports);
            var victims := CapturesOf(reports);
            && h.announced == g.announced + seq(|victims|, v requires 0 <= v < |victims| => Took(victims[v]))
            && (h.over <==> g.over || KingAmong(victims))
  {
    if reports != [] {
      var n := |reports| - 1;
      ReportsAnnounceVictims(g, reports[..n]);
      var before, victims := CapturesOf(reports[..n]), CapturesOf(reports);
      if reports[n].captured.Some? {
        assert victims == before + [reports[n].captured.value];
        assert forall v :: 0 <= v < |before| ==> victims[v] == before[v];
        assert victims[|before|] == reports[n].captured.value;
      } else {
        assert victims == before;
      }
    }
  }

  // ---- the game's own invariant ----

  /** Every journey under way is one the game announced, and has travelled ever since. */
  ghost predicate Punctual(g: Game) {
    forall k :: 0 <= k < |g.world.active| ==> WasOrdered(g, g.world.active[k])
  }

  ghost predicate WasOrdered(g: Game, m: Motion) {
    exists e :: 0 <= e < |g.announced| && Ordered(g, g.announced[e], m)
  }

  ghost predicate Ordered(g: Game, a: Announcement, m: Motion) {
    && a.Moved? && !a.move.isJump
    && m.path == TravelPath(a.move.from, a.move.to)
    && m.stepDuration == StepDurationOf(a.move.from, a.move.to, |m.path|)
    && a.move.timeMs + Travelled(m) == g.elapsedMs
  }

  ghost predicate GameInv(g: Game) {
    Inv(g.world) && PawnsPromoted(g.world) && Punctual(g)
  }

  // ---- runs ----

  datatype Command = MoveTo(from: Position, to: Position) | JumpOn(cell: Position) | Elapse(ms: int) | Forfeit

  ghost predicate OrdinaryCommand(g: Game, c: Command) {
    c.Elapse? ==> OrdinaryWait(g.world, c.ms)
  }

  ghost function GameStep(g: Game, c: Command): Game
    requires GameInv(g) && OrdinaryCommand(g, c)
  {
    match c
    case MoveTo(from, to) => RequestMove(g, from, to)
    case JumpOn(cell) => RequestJump(g, cell)
    case Elapse(ms) => Wait(g, ms)
    case Forfeit => EndGame(g)
  }
}
