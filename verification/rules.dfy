/** Which squares a piece may be sent to, and why the journey there is clear. */
module Rules {
  import opened Model
  import opened Motions

  datatype Step = Step(dRow: int, dCol: int)

  const ORTHOGONAL: seq<Step> := [Step(1, 0), Step(-1, 0), Step(0, 1), Step(0, -1)]
  const DIAGONAL: seq<Step> := [Step(1, 1), Step(1, -1), Step(-1, 1), Step(-1, -1)]
  const ALL_DIRECTIONS: seq<Step> :=
    [Step(1, 0), Step(-1, 0), Step(0, 1), Step(0, -1), Step(1, 1), Step(1, -1), Step(-1, 1), Step(-1, -1)]
  const KNIGHT_STEPS: seq<Step> :=
    [Step(2, 1), Step(2, -1), Step(-2, 1), Step(-2, -1), Step(1, 2), Step(1, -2), Step(-1, 2), Step(-1, -2)]

  datatype Occupant = Empty | Friendly | Enemy | OffBoard

  function Classify(g: Grid, mover: Color, p: Position): Occupant {
    if !InBounds(g.width, g.height, p) then OffBoard
    else if p !in g.cells then Empty
    else if g.cells[p].color == mover then Friendly
    else Enemy
  }

  predicate MayStandOn(g: Grid, mover: Color, p: Position) {
    var o := Classify(g, mover, p);
    o == Empty || o == Enemy
  }

  /** The square k steps away. */
  function StepsFrom(from: Position, d: Step, k: int): Position {
    Position(from.row + k * d.dRow, from.col + k * d.dCol)
  }

  /** Sliding k steps: over empty squares only, onto an empty square or an enemy. */
  ghost predicate SlidesBy(g: Grid, mover: Color, from: Position, d: Step, k: int) {
    && k >= 1
    && (forall j :: 1 <= j < k ==> Classify(g, mover, StepsFrom(from, d, j)) == Empty)
    && MayStandOn(g, mover, StepsFrom(from, d, k))
  }

  ghost predicate SlidesTo(g: Grid, mover: Color, from: Position, d: Step, to: Position) {
    exists k :: SlidesBy(g, mover, from, d, k) && to == StepsFrom(from, d, k)
  }

  ghost predicate Slides(g: Grid, mover: Color, from: Position, directions: seq<Step>, to: Position) {
    exists i :: 0 <= i < |directions| && SlidesTo(g, mover, from, directions[i], to)
  }

  ghost predicate Hops(g: Grid, mover: Color, from: Position, offsets: seq<Step>, to: Position) {
    exists i :: 0 <= i < |offsets| && to == StepsFrom(from, offsets[i], 1) && MayStandOn(g, mover, to)
  }

  function StartRow(color: Color, height: int): int {
    if color == White then height - 2 else 1
  }

  /** Forward onto an empty square, two from the start row over an empty one, or diagonally onto an enemy. */
  predicate PawnGoes(g: Grid, mover: Color, from: Position, to: Position) {
    var dir := ForwardStep(mover);
    var ahead := Position(from.row + dir, from.col);
    var ahead2 := Position(from.row + 2 * dir, from.col);
    || (to == ahead && Classify(g, mover, ahead) == Empty)
    || (to == ahead2 && Classify(g, mover, ahead) == Empty && from.row == StartRow(mover, g.height)
        && Classify(g, mover, ahead2) == Empty)
    || (to.row == from.row + dir && (to.col == from.col - 1 || to.col == from.col + 1)
        && Classify(g, mover, to) == Enemy)
  }

  ghost predicate LegalMove(g: Grid, piece: Piece, to: Position) {
    match piece.kind
    case Rook => Slides(g, piece.color, piece.cell, ORTHOGONAL, to)
    case Bishop => Slides(g, piece.color, piece.cell, DIAGONAL, to)
    case Queen => Slides(g, piece.color, piece.cell, ALL_DIRECTIONS, to)
    case Knight => Hops(g, piece.color, piece.cell, KNIGHT_STEPS, to)
    case King => Hops(g, piece.color, piece.cell, ALL_DIRECTIONS, to)
    case Pawn => PawnGoes(g, piece.color, piece.cell, to)
  }

  datatype MoveReason =
    | Ok | OutsideBoard | EmptySource | FriendlyDestination | IllegalPieceMove
    | GameOver | MotionInProgress | NotIdle | NoPiece

  ghost function ValidateMove(g: Grid, source: Position, destination: Position): MoveReason {
    if !InBounds(g.width, g.height, source) || !InBounds(g.width, g.height, destination) then OutsideBoard
    else if source !in g.cells then EmptySource
    else if destination in g.cells && g.cells[destination].color == g.cells[source].color then FriendlyDestination
    else if !LegalMove(g, g.cells[source], destination) then IllegalPieceMove
    else Ok
  }

  function PromotedKind(height: int, piece: Piece): Option<Kind> {
    if piece.kind == Pawn && piece.cell.row == PromotionRow(piece.color, height) then Some(Queen) else None
  }

  // ---- why an accepted move has a clear way ----

  /** A journey may begin: all its squares are on the board, those in between are empty, the last is not a friend's. */
  ghost predicate ClearWay(g: Grid, mover: Color, from: Position, to: Position) {
    var path := TravelPath(from, to);
    && from != to && |path| >= 2
    && (forall k :: 0 < k < |path| - 1 ==> Classify(g, mover, path[k]) == Empty)
    && MayStandOn(g, mover, path[|path| - 1])
    && path[|path| - 1] == to
  }

  lemma UnitStepsAreStraight(from: Position, d: Step, k: int)
    requires -1 <= d.dRow <= 1 && -1 <= d.dCol <= 1 && d != Step(0, 0) && k >= 1
    ensures var to := StepsFrom(from, d, k);
            && from != to && IsStraightLine(from, to) && CellSteps(from, to) == k
            && forall j :: Along(from, to, j) == StepsFrom(from, d, j)
  {
    var to := StepsFrom(from, d, k);
    assert k * 0 == 0 && k * 1 == k && k * (-1) == -k;
    assert to.row - from.row == k * d.dRow && to.col - from.col == k * d.dCol;
    assert DirectionOf(to.row - from.row) == d.dRow && DirectionOf(to.col - from.col) == d.dCol;
  }

  lemma SlideHasClearWay(g: Grid, mover: Color, from: Position, d: Step, k: int)
    requires -1 <= d.dRow <= 1 && -1 <= d.dCol <= 1 && d != Step(0, 0) && SlidesBy(g, mover, from, d, k)
    ensures ClearWay(g, mover, from, StepsFrom(from, d, k))
  {
    var to := StepsFrom(from, d, k);
    UnitStepsAreStraight(from, d, k);
    var path := TravelPath(from, to);
    assert |path| == k + 1;
    forall j | 0 <= j < |path|
      ensures path[j] == StepsFrom(from, d, j)
    {
      assert path[j] == Along(from, to, j);
    }
  }

  lemma KnightHopHasClearWay(g: Grid, mover: Color, from: Position, d: Step)
    requires d in KNIGHT_STEPS && MayStandOn(g, mover, StepsFrom(from, d, 1))
    ensures ClearWay(g, mover, from, StepsFrom(from, d, 1))
  {
    assert TravelPath(from, StepsFrom(from, d, 1)) == [from, StepsFrom(from, d, 1)];
  }

  lemma PawnHasClearWay(g: Grid, mover: Color, from: Position, to: Position)
    requires PawnGoes(g, mover, from, to)
    ensures ClearWay(g, mover, from, to)
  {
    var dir := ForwardStep(mover);
    if to.col == from.col {
      var d := Step(dir, 0);
      var k := if to.row == from.row + dir then 1 else 2;
      assert StepsFrom(from, d, 1) == Position(from.row + dir, from.col);
      assert StepsFrom(from, d, 2) == Position(from.row + 2 * dir, from.col);
      SlideHasClearWay(g, mover, from, d, k);
    } else {
      var d := Step(dir, to.col - from.col);
      assert StepsFrom(from, d, 1) == to;
      SlideHasClearWay(g, mover, from, d, 1);
    }
  }

  /** Main result: for every kind, an accepted move has a clear way from end to end, on any board. */
  lemma LegalMoveHasClearWay(g: Grid, piece: Piece, to: Position)
    requires LegalMove(g, piece, to)
    ensures ClearWay(g, piece.color, piece.cell, to)
  {
    match piece.kind
    case Knight =>
      var i :| 0 <= i < |KNIGHT_STEPS| && to == StepsFrom(piece.cell, KNIGHT_STEPS[i], 1);
      assert KNIGHT_STEPS[i] in KNIGHT_STEPS;
      KnightHopHasClearWay(g, piece.color, piece.cell, KNIGHT_STEPS[i]);
    case King =>
      var i :| 0 <= i < |ALL_DIRECTIONS| && to == StepsFrom(piece.cell, ALL_DIRECTIONS[i], 1);
      SlideHasClearWay(g, piece.color, piece.cell, ALL_DIRECTIONS[i], 1);
    case Pawn => PawnHasClearWay(g, piece.color, piece.cell, to);
    case _ =>
      var directions := if piece.kind == Rook then ORTHOGONAL else if piece.kind == Bishop then DIAGONAL else ALL_DIRECTIONS;
      var i :| 0 <= i < |directions| && SlidesTo(g, piece.color, piece.cell, directions[i], to);
      var k :| SlidesBy(g, piece.color, piece.cell, directions[i], k) && to == StepsFrom(piece.cell, directions[i], k);
      SlideHasClearWay(g, piece.color, piece.cell, directions[i], k);
  }

  /** A pawn's way meets the promotion row only at its end. */
  lemma PawnWayEndsAtLastRow(g: Grid, piece: Piece, to: Position, k: int)
    requires piece.kind == Pawn && LegalMove(g, piece, to)
    requires InBounds(g.width, g.height, to)
    requires 0 < k < |TravelPath(piece.cell, to)| - 1
    ensures TravelPath(piece.cell, to)[k].row != PromotionRow(piece.color, g.height)
  {
    var from, dir := piece.cell, ForwardStep(piece.color);
    if to.row != from.row + dir {
      UnitStepsAreStraight(from, Step(dir, 0), 2);
      assert to == StepsFrom(from, Step(dir, 0), 2);
      assert TravelPath(from, to)[k] == Along(from, to, k) == StepsFrom(from, Step(dir, 0), 1);
    }
  }
}
