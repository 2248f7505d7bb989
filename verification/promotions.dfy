/** Promotion, in rows of the board: which pawns become queens, and that no other piece changes its kind. */
module Promotions {
  import opened Model
  import opened Motions
  import opened Rules
  import opened ArbiterSpec
  import opened ArbiterTick
  import opened ArbiterInvariant
  import opened LandingKeeps
  import opened Pawns
  import opened Conservation
  import opened EngineSpec
  import opened EngineRuns
  import opened OrdinaryPlay
  import opened JourneySchedules

  /** Row 0 for white, the last row for black. */
  predicate IsFarRow(color: Color, row: int, height: int) {
    if color == White then row == 0 else row == height - 1
  }

  lemma FarRowIsLast(p: Piece, c: Position, height: int)
    ensures OnLastRow(p, c, height) <==> p.kind == Pawn && IsFarRow(p.color, c.row, height)
  {
  }

  // ---- room ahead ----

  /** The row ahead of a pawn on this square is on the board. */
  predicate HasRoom(color: Color, c: Position, height: int) {
    if color == White then 0 <= c.row - 1 < height else 0 <= c.row + 1 < height
  }

  lemma PawnsHaveRoom(g: Game, c: Position)
    requires GameInv(g) && c in g.world.cells && g.world.cells[c].kind == Pawn
    ensures HasRoom(g.world.cells[c].color, c, g.world.height)
  {
    var p := g.world.cells[c];
    FarRowIsLast(p, c, g.world.height);
    assert InBounds(g.world.width, g.world.height, c);
    assert !OnLastRow(p, c, g.world.height);
  }

  /** Main result: from a set-up board, with no white pawn on row 0 and no black one on the last row, every ordinary run
      leaves every pawn a row ahead of it on the board. */
  lemma PawnsAlwaysHaveRoom(start: Grid, run: seq<Command>, c: Position)
    requires SetUp(start) && GameInv(NewGame(start)) && OrdinaryRun(NewGame(start), run)
    requires var w := Run(NewGame(start), run).world; c in w.cells && w.cells[c].kind == Pawn
    ensures var w := Run(NewGame(start), run).world; HasRoom(w.cells[c].color, c, w.height)
  {
    hide GameInv, SetUp, OrdinaryRun, Run, HasRoom;
    PawnsHaveRoom(Run(NewGame(start), run), c);
  }

  // ---- what a wait does to a kind ----

  /** What a piece has become on this square: a queen, if it was a pawn and this is its far row. */
  function KindNow(x: Identity, c: Position, height: int): Kind {
    if x.kind == Pawn && IsFarRow(x.color, c.row, height) then Queen else x.kind
  }

  lemma IdTellsPiece(cells: Cells, airborne: seq<Jump>, x: Identity, y: Identity)
    requires DistinctPieces(cells, airborne) && InPlay(cells, airborne, x) && InPlay(cells, airborne, y) && x.id == y.id
    ensures x == y
  {
    if OnBoard(cells, x) && OnBoard(cells, y) {
      var c :| c in cells && IdOf(cells[c]) == x;
      var d :| d in cells && IdOf(cells[d]) == y;
    }
  }

  lemma TickKeepsIdentity(w: World, ms: int, x: Identity, c: Position)
    requires Inv(w) && ms >= 0 && GroundedWorld(w) && OrdinaryTick(w, ms) && InPlay(w.cells, w.airborne, x)
    requires LandingsGrounded(AfterCrossings(w, ms).cells, AfterCrossings(w, ms).airborne)
    requires var t := Advance(w, ms); c in t.cells && t.cells[c].id == x.id
    ensures IdOf(Advance(w, ms).cells[c]) == x
  {
    hide GroundedWorld, OrdinaryTick, AfterCrossings, Advance, LandingsGrounded, InPlay, TakenForGood;
    AdvanceConserves(w, ms);
    var t := Advance(w, ms);
    StandsInPlay(t.cells, t.airborne, c);
    IdTellsPiece(w.cells, w.airborne, x, IdOf(t.cells[c]));
  }

  lemma StandsInPlay(cells: Cells, airborne: seq<Jump>, c: Position)
    requires c in cells
    ensures InPlay(cells, airborne, IdOf(cells[c]))
  {
  }

  lemma PawnIsReported(t: Tick, c: Position)
    requires GroundedTick(t) && PawnsWatched(t) && Inv(WorldOf(t)) && c in t.cells && t.cells[c].kind == Pawn
    ensures t.cells[c].cell == c
    ensures DueAt(WorldOf(t), t.reports, c) <==> IsFarRow(t.cells[c].color, c.row, t.height)
  {
    FarRowIsLast(t.cells[c], c, t.height);
  }

  lemma OthersAreNotDue(w: World, reports: seq<ArrivalReport>, c: Position)
    requires c in w.cells && w.cells[c].kind != Pawn
    ensures !DueAt(w, reports, c)
  {
  }

  /** Main result: after an ordinary wait a piece still on the board has its kind and colour, but for a pawn that has come
      to row 0, if white, or to the last row, if black: it is a queen. */
  lemma WaitPromotesExactly(g: Game, ms: int, x: Identity, c: Position)
    requires GameInv(g) && OrdinaryWait(g.world, ms) && InPlay(g.world.cells, g.world.airborne, x)
    requires var w := Wait(g, ms).world; c in w.cells && w.cells[c].id == x.id
    ensures var p := Wait(g, ms).world.cells[c];
            p.color == x.color && p.kind == KindNow(x, c, g.world.height)
  {
    hide Inv, PawnsPromoted, Punctual, Wait, Advance, AfterCrossings, GroundedWorld, OrdinaryTick, LandingsGrounded;
    hide InPlay, DueAt, PawnsWatched, ApplyReports, IsFarRow;
    WaitIsApplyReports(g, ms);
    var t := Advance(g.world, ms);
    var mid := g.(elapsedMs := g.elapsedMs + ms, world := WorldOf(t));
    ReportsPromoteTheDue(mid, t.reports);
    AdvanceKeepsInv(g.world, ms);
    AdvanceReportsPawns(g.world, ms);
    TickKeepsIdentity(g.world, ms, x, c);
    SizesStay(g, ms);
    if x.kind == Pawn {
      PawnIsReported(t, c);
    } else {
      OthersAreNotDue(WorldOf(t), t.reports, c);
    }
  }

  lemma SizesStay(g: Game, ms: int)
    requires GameInv(g) && OrdinaryWait(g.world, ms)
    ensures Wait(g, ms).world.height == g.world.height
  {
    hide Wait;
    WaitKeepsPunctual(g, ms);
  }

  // ---- over a run ----

  /** The same piece, or what a pawn has become. */
  predicate Became(x: Identity, y: Identity) {
    y.id == x.id && y.color == x.color && (y.kind == x.kind || (x.kind == Pawn && y.kind == Queen))
  }

  ghost predicate HasSource(w: World, y: Identity) {
    exists x :: InPlay(w.cells, w.airborne, x) && Became(x, y)
  }

  lemma WaitKeepsKin(g: Game, ms: int, y: Identity)
    requires GameInv(g) && OrdinaryWait(g.world, ms)
    requires var w := Wait(g, ms).world; InPlay(w.cells, w.airborne, y)
    ensures HasSource(g.world, y)
  {
    hide Inv, PawnsPromoted, Punctual, Wait, Advance, AfterCrossings, GroundedWorld, OrdinaryTick, LandingsGrounded;
    hide ApplyReports, TakenForGood, Lifted;
    WaitIsApplyReports(g, ms);
    var t := Advance(g.world, ms);
    ReportsPromoteTheDue(g.(elapsedMs := g.elapsedMs + ms, world := WorldOf(t)), t.reports);
    AdvanceConserves(g.world, ms);
    var h := Wait(g, ms).world;
    if OnBoard(h.cells, y) {
      var c :| c in h.cells && IdOf(h.cells[c]) == y;
      StandsInPlay(t.cells, t.airborne, c);
      assert Became(IdOf(t.cells[c]), y);
    } else {
      assert InPlay(t.cells, t.airborne, y) && Became(y, y);
    }
  }

  lemma SameKin(w: World, v: World, y: Identity)
    requires v.cells.Keys == w.cells.Keys && forall c :: c in w.cells ==> IdOf(v.cells[c]) == IdOf(w.cells[c])
    requires Lifted(v.airborne, y) ==> Lifted(w.airborne, y)
    requires InPlay(v.cells, v.airborne, y)
    ensures HasSource(w, y)
  {
    hide Lifted;
    if OnBoard(v.cells, y) {
      var c :| c in v.cells && IdOf(v.cells[c]) == y;
      StandsInPlay(w.cells, w.airborne, c);
    }
    assert InPlay(w.cells, w.airborne, y) && Became(y, y);
  }

  lemma StepKeepsKin(g: Game, c: Command, y: Identity)
    requires GameInv(g) && OrdinaryCommand(g, c)
    requires var w := GameStep(g, c).world; InPlay(w.cells, w.airborne, y)
    ensures HasSource(g.world, y)
  {
    hide GameInv, OrdinaryWait, Wait, InPlay, HasSource, Lifted, IsLifted, ValidateMove, NewMotion;
    match c
    case MoveTo(from, to) =>
      if MoveReply(g, from, to) == Ok {
        AcceptedMove(g, from, to);
      }
      SameKin(g.world, GameStep(g, c).world, y);
    case JumpOn(cell) =>
      JumpLiftsNobody(g.world.airborne, cell, y);
      SameKin(g.world, GameStep(g, c).world, y);
    case Elapse(ms) => WaitKeepsKin(g, ms, y);
    case Forfeit => SameKin(g.world, g.world, y);
  }

  /** Nobody appears during an ordinary run, and only pawns change: into queens. */
  lemma {:induction false} RunKeepsKin(g: Game, run: seq<Command>, y: Identity)
    requires GameInv(g) && OrdinaryRun(g, run)
    requires var w := Run(g, run).world; InPlay(w.cells, w.airborne, y)
    ensures HasSource(g.world, y)
    decreases |run|
  {
    hide GameInv, OrdinaryCommand, GameStep, InPlay;
    if run != [] {
      StepKeepsGame(g, run[0]);
      var h := GameStep(g, run[0]);
      RunKeepsKin(h, run[1..], y);
      var x :| InPlay(h.world.cells, h.world.airborne, x) && Became(x, y);
      StepKeepsKin(g, run[0], x);
      var z :| InPlay(g.world.cells, g.world.airborne, z) && Became(z, x);
      assert Became(z, y);
    } else {
      assert Became(y, y);
    }
  }

  lemma StepKeepsHeight(g: Game, c: Command)
    requires GameInv(g) && OrdinaryCommand(g, c)
    ensures GameStep(g, c).world.height == g.world.height
  {
    hide GameInv, OrdinaryWait, Wait, ValidateMove, NewMotion;
    match c
    case MoveTo(from, to) =>
      if MoveReply(g, from, to) == Ok {
        AcceptedMove(g, from, to);
      }
    case JumpOn(cell) =>
    case Elapse(ms) => SizesStay(g, ms);
    case Forfeit =>
  }

  lemma {:induction false} RunKeepsHeight(g: Game, run: seq<Command>)
    requires GameInv(g) && OrdinaryRun(g, run)
    ensures Run(g, run).world.height == g.world.height
    decreases |run|
  {
    hide GameInv, OrdinaryCommand, GameStep;
    if run != [] {
      StepKeepsGame(g, run[0]);
      StepKeepsHeight(g, run[0]);
      RunKeepsHeight(GameStep(g, run[0]), run[1..]);
    }
  }

  lemma KinIsUnique(g: Game, from: Position, y: Identity)
    requires GameInv(g) && from in g.world.cells && HasSource(g.world, y) && y.id == g.world.cells[from].id
    ensures Became(IdOf(g.world.cells[from]), y)
  {
    var w := g.world;
    var x :| InPlay(w.cells, w.airborne, x) && Became(x, y);
    StandsInPlay(w.cells, w.airborne, from);
    IdTellsPiece(w.cells, w.airborne, x, IdOf(w.cells[from]));
  }

  lemma RequestKeepsBoard(g: Game, from: Position, to: Position)
    requires GameInv(g) && MoveReply(g, from, to) == Ok
    ensures from in g.world.cells && from in RequestMove(g, from, to).world.cells
    ensures var h := RequestMove(g, from, to);
            h.world.height == g.world.height && IdOf(h.world.cells[from]) == IdOf(g.world.cells[from])
  {
    AcceptedMove(g, from, to);
    hide GameInv, ValidateMove, NewMotion;
  }

  /** Main result: a pawn sent to its far row, its journey left alone, is a queen there once the travel time has passed. */
  lemma PawnArrivesAsQueen(g: Game, from: Position, to: Position, run: seq<Command>)
    requires GameInv(g) && MoveReply(g, from, to) == Ok && NoJumpAt(g.world.airborne, to)
    requires LeavesJourneyAlone(g, from, to, run) && TimeSpent(run) >= TravelDurationMs(from, to)
    requires from in g.world.cells && g.world.cells[from].kind == Pawn
    requires IsFarRow(g.world.cells[from].color, to.row, g.world.height)
    ensures GameInv(RequestMove(g, from, to)) && OrdinaryRun(RequestMove(g, from, to), run)
    ensures var p, cells := g.world.cells[from], Run(RequestMove(g, from, to), run).world.cells;
            to in cells && IdOf(cells[to]) == Identity(p.id, p.color, Queen)
  {
    hide GameInv, MoveReply, RequestMove, LeavesJourneyAlone, OrdinaryRun, Run, InPlay, IsFarRow, TravelDurationMs;
    UnobstructedJourneyArrives(g, from, to, run);
    RequestKeepsBoard(g, from, to);
    var h := RequestMove(g, from, to);
    var w := Run(h, run).world;
    assert to in w.cells && w.cells[to].id == g.world.cells[from].id;
    StandsInPlay(w.cells, w.airborne, to);
    RunKeepsKin(h, run, IdOf(w.cells[to]));
    KinIsUnique(h, from, IdOf(w.cells[to]));
    RunKeepsHeight(h, run);
    if w.cells[to].kind == Pawn {
      NoPawnThere(Run(h, run), to);
    }
  }

  lemma NoPawnThere(g: Game, c: Position)
    requires GameInv(g) && c in g.world.cells && g.world.cells[c].kind == Pawn
    ensures !IsFarRow(g.world.cells[c].color, c.row, g.world.height)
  {
    FarRowIsLast(g.world.cells[c], c, g.world.height);
    assert !OnLastRow(g.world.cells[c], c, g.world.height);
  }
}
