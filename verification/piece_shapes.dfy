/** The moves of each kind by their shape: how far, in which direction, and over what. */
module PieceShapes {
  import opened Model
  import opened Motions
  import opened Rules

  /** Nobody stands on the way, and no friend at its end; all of it is on the board. */
  ghost predicate WayIsClear(g: Grid, mover: Color, from: Position, to: Position) {
    var path := TravelPath(from, to);
    && from != to
    && (forall k :: 0 < k < |path| ==> 0 <= path[k].row < g.height && 0 <= path[k].col < g.width)
    && (forall k :: 0 < k < |path| - 1 ==> path[k] !in g.cells)
    && (to in g.cells ==> g.cells[to].color != mover)
  }

  lemma PathEndsAt(from: Position, to: Position)
    requires from != to
    ensures var path := TravelPath(from, to); |path| >= 2 && path[0] == from && path[|path| - 1] == to
  {
    StepsFillTheJourney(from, to);
  }

  lemma ClearWaySays(g: Grid, mover: Color, from: Position, to: Position)
    ensures ClearWay(g, mover, from, to) <==> WayIsClear(g, mover, from, to)
  {
    if from != to {
      PathEndsAt(from, to);
      hide TravelPath;
      var path := TravelPath(from, to);
      if ClearWay(g, mover, from, to) {
        forall k | 0 < k < |path|
          ensures 0 <= path[k].row < g.height && 0 <= path[k].col < g.width
        {
          assert k < |path| - 1 ==> Classify(g, mover, path[k]) == Empty;
        }
      }
    }
  }

  // ---- sliding ----

  /** Of two straight lines from a square, the direction is the sign of the differences. */
  lemma ClearLineIsSlide(g: Grid, mover: Color, from: Position, to: Position, d: Step)
    requires ClearWay(g, mover, from, to) && IsStraightLine(from, to)
    requires d == Step(DirectionOf(to.row - from.row), DirectionOf(to.col - from.col))
    ensures SlidesTo(g, mover, from, d, to)
  {
    var k := CellSteps(from, to);
    AlongReachesTarget(from, to);
    var path := TravelPath(from, to);
    forall j | 1 <= j < k
      ensures Classify(g, mover, StepsFrom(from, d, j)) == Empty
    {
      assert path[j] == Along(from, to, j) == StepsFrom(from, d, j);
    }
    assert StepsFrom(from, d, k) == Along(from, to, k);
    assert SlidesBy(g, mover, from, d, k);
  }

  lemma SlideGoesStraight(g: Grid, mover: Color, from: Position, d: Step, to: Position)
    requires -1 <= d.dRow <= 1 && -1 <= d.dCol <= 1 && d != Step(0, 0) && SlidesTo(g, mover, from, d, to)
    ensures ClearWay(g, mover, from, to) && IsStraightLine(from, to)
    ensures d == Step(DirectionOf(to.row - from.row), DirectionOf(to.col - from.col))
    ensures d.dRow == 0 || d.dCol == 0 || to.row - from.row == to.col - from.col || to.row - from.row == from.col - to.col
  {
    var k :| SlidesBy(g, mover, from, d, k) && to == StepsFrom(from, d, k);
    SlideHasClearWay(g, mover, from, d, k);
    UnitStepsAreStraight(from, d, k);
    UnitStepsKeepSigns(from, d, k);
  }

  lemma UnitStepsKeepSigns(from: Position, d: Step, k: int)
    requires -1 <= d.dRow <= 1 && -1 <= d.dCol <= 1 && k >= 1
    ensures var to := StepsFrom(from, d, k);
            && d == Step(DirectionOf(to.row - from.row), DirectionOf(to.col - from.col))
            && (d.dRow == 0 || d.dCol == 0 || to.row - from.row == to.col - from.col || to.row - from.row == from.col - to.col)
  {
    assert k * 0 == 0 && k * 1 == k && k * (-1) == -k;
  }

  /** A slide along some of the eight directions is a clear straight way in one of them. */
  lemma SlidesAreLines(g: Grid, mover: Color, from: Position, directions: seq<Step>, to: Position)
    requires forall i :: 0 <= i < |directions| ==> directions[i] in ALL_DIRECTIONS
    ensures Slides(g, mover, from, directions, to) <==>
              && ClearWay(g, mover, from, to) && IsStraightLine(from, to)
              && Step(DirectionOf(to.row - from.row), DirectionOf(to.col - from.col)) in directions
  {
    hide ClearWay, SlidesTo, IsStraightLine, DirectionOf;
    var d := Step(DirectionOf(to.row - from.row), DirectionOf(to.col - from.col));
    if Slides(g, mover, from, directions, to) {
      var i :| 0 <= i < |directions| && SlidesTo(g, mover, from, directions[i], to);
      assert directions[i] in ALL_DIRECTIONS;
      SlideGoesStraight(g, mover, from, directions[i], to);
    }
    if ClearWay(g, mover, from, to) && IsStraightLine(from, to) && d in directions {
      ClearLineIsSlide(g, mover, from, to, d);
    }
  }

  lemma RookLines(from: Position, to: Position)
    ensures forall i :: 0 <= i < |ORTHOGONAL| ==> ORTHOGONAL[i] in ALL_DIRECTIONS
    ensures IsStraightLine(from, to) && Step(DirectionOf(to.row - from.row), DirectionOf(to.col - from.col)) in ORTHOGONAL
            <==> (to.row - from.row == 0) != (to.col - from.col == 0)
  {
  }

  lemma BishopLines(from: Position, to: Position)
    ensures forall i :: 0 <= i < |DIAGONAL| ==> DIAGONAL[i] in ALL_DIRECTIONS
    ensures IsStraightLine(from, to) && Step(DirectionOf(to.row - from.row), DirectionOf(to.col - from.col)) in DIAGONAL
            <==> to.row != from.row
                 && (to.row - from.row == to.col - from.col || to.row - from.row == from.col - to.col)
  {
  }

  lemma QueenLines(from: Position, to: Position)
    ensures forall i :: 0 <= i < |ALL_DIRECTIONS| ==> ALL_DIRECTIONS[i] in ALL_DIRECTIONS
    ensures IsStraightLine(from, to) && Step(DirectionOf(to.row - from.row), DirectionOf(to.col - from.col)) in ALL_DIRECTIONS
            <==> from != to && IsStraightLine(from, to)
  {
  }

  // ---- single steps ----

  lemma HopsAre(g: Grid, mover: Color, from: Position, offsets: seq<Step>, to: Position)
    ensures Hops(g, mover, from, offsets, to) <==>
              Step(to.row - from.row, to.col - from.col) in offsets && MayStandOn(g, mover, to)
  {
    hide MayStandOn;
    if Step(to.row - from.row, to.col - from.col) in offsets {
      var i :| 0 <= i < |offsets| && offsets[i] == Step(to.row - from.row, to.col - from.col);
      assert to == StepsFrom(from, offsets[i], 1);
    }
  }

  lemma ShortWayIsClear(g: Grid, mover: Color, from: Position, to: Position)
    requires from != to && |TravelPath(from, to)| == 2
    ensures ClearWay(g, mover, from, to) <==> MayStandOn(g, mover, to)
  {
    PathEndsAt(from, to);
  }

  lemma KnightHops(from: Position, to: Position)
    ensures var dr, dc := to.row - from.row, to.col - from.col;
            Step(dr, dc) in KNIGHT_STEPS <==>
              || ((dr == 1 || dr == -1) && (dc == 2 || dc == -2)) || ((dr == 2 || dr == -2) && (dc == 1 || dc == -1))
    ensures Step(to.row - from.row, to.col - from.col) in KNIGHT_STEPS ==> from != to && |TravelPath(from, to)| == 2
  {
  }

  lemma KingHops(from: Position, to: Position)
    ensures var dr, dc := to.row - from.row, to.col - from.col;
            Step(dr, dc) in ALL_DIRECTIONS <==> -1 <= dr <= 1 && -1 <= dc <= 1 && (dr != 0 || dc != 0)
    ensures Step(to.row - from.row, to.col - from.col) in ALL_DIRECTIONS ==> from != to && |TravelPath(from, to)| == 2
  {
  }

  // ---- the kinds ----

  /** How a piece other than a pawn may move: so many rows and columns. */
  predicate HasShape(kind: Kind, dr: int, dc: int) {
    match kind
    case Rook => (dr == 0) != (dc == 0)
    case Bishop => dr != 0 && (dr == dc || dr == -dc)
    case Queen => (dr == 0) != (dc == 0) || (dr != 0 && (dr == dc || dr == -dc))
    case King => -1 <= dr <= 1 && -1 <= dc <= 1 && (dr != 0 || dc != 0)
    case Knight => ((dr == 1 || dr == -1) && (dc == 2 || dc == -2)) || ((dr == 2 || dr == -2) && (dc == 1 || dc == -1))
    case Pawn => false
  }

  /** Main result: a piece other than a pawn may go exactly where its shape and a clear way take it. */
  lemma MovesAreShapes(g: Grid, p: Piece, to: Position)
    requires p.kind != Pawn
    ensures LegalMove(g, p, to) <==>
              WayIsClear(g, p.color, p.cell, to) && HasShape(p.kind, to.row - p.cell.row, to.col - p.cell.col)
  {
    var from := p.cell;
    hide WayIsClear, ClearWay, Slides, Hops, MayStandOn, TravelPath;
    ClearWaySays(g, p.color, from, to);
    match p.kind
    case Rook =>
      RookLines(from, to);
      SlidesAreLines(g, p.color, from, ORTHOGONAL, to);
    case Bishop =>
      BishopLines(from, to);
      SlidesAreLines(g, p.color, from, DIAGONAL, to);
    case Queen =>
      QueenLines(from, to);
      SlidesAreLines(g, p.color, from, ALL_DIRECTIONS, to);
    case King =>
      KingHops(from, to);
      HopsAre(g, p.color, from, ALL_DIRECTIONS, to);
      if Step(to.row - from.row, to.col - from.col) in ALL_DIRECTIONS {
        ShortWayIsClear(g, p.color, from, to);
      }
    case Knight =>
      KnightHops(from, to);
      HopsAre(g, p.color, from, KNIGHT_STEPS, to);
      if Step(to.row - from.row, to.col - from.col) in KNIGHT_STEPS {
        ShortWayIsClear(g, p.color, from, to);
      }
  }

  predicate Vacant(g: Grid, row: int, col: int) {
    0 <= row < g.height && 0 <= col < g.width && Position(row, col) !in g.cells
  }

  /** Main result: white pawns walk up the board, black ones down; one square onto an empty one, two from the second row
      over and onto empty ones, and diagonally only to take. */
  lemma PawnMovesAre(g: Grid, p: Piece, to: Position)
    requires p.kind == Pawn
    ensures var r, c := p.cell.row, p.cell.col;
            LegalMove(g, p, to) <==>
              if p.color == White then
                || (to == Position(r - 1, c) && Vacant(g, r - 1, c))
                || (to == Position(r - 2, c) && r == g.height - 2 && Vacant(g, r - 1, c) && Vacant(g, r - 2, c))
                || ((to == Position(r - 1, c - 1) || to == Position(r - 1, c + 1))
                    && 0 <= to.row < g.height && 0 <= to.col < g.width && to in g.cells && g.cells[to].color == Black)
              else
                || (to == Position(r + 1, c) && Vacant(g, r + 1, c))
                || (to == Position(r + 2, c) && r == 1 && Vacant(g, r + 1, c) && Vacant(g, r + 2, c))
                || ((to == Position(r + 1, c - 1) || to == Position(r + 1, c + 1))
                    && 0 <= to.row < g.height && 0 <= to.col < g.width && to in g.cells && g.cells[to].color == White)
  {
  }
}
