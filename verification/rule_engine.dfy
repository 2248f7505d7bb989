/** The rules as they are computed: loops over the board that find exactly the legal destinations. */
module RuleEngine {
  import opened Model
  import opened Boards
  import opened Rules

  method ClassifySquare(board: Board, mover: Color, p: Position) returns (o: Occupant)
    requires board.Valid()
    ensures o == Classify(board.AsGrid(), mover, p)
  {
    if !board.IsInsideBounds(p) {
      return OffBoard;
    }
    var other := board.PieceAt(p);
    if other.None? {
      return Empty;
    }
    return if other.value.color == mover then Friendly else Enemy;
  }

  /** Squares left between a square and the edge a direction runs to. */
  function ToEdge(g: Grid, p: Position, d: Step): int {
    (if d.dRow > 0 then g.height - p.row else if d.dRow < 0 then p.row + 1 else 0)
    + (if d.dCol > 0 then g.width - p.col else if d.dCol < 0 then p.col + 1 else 0)
  }

  lemma StepNearsEdge(g: Grid, p: Position, d: Step)
    requires InBounds(g.width, g.height, p) && d != Step(0, 0)
    ensures 0 <= ToEdge(g, p, d)
    ensures ToEdge(g, Position(p.row + d.dRow, p.col + d.dCol), d) < ToEdge(g, p, d)
  {
  }

  lemma OneStepOn(from: Position, d: Step, k: int)
    ensures var p := StepsFrom(from, d, k); StepsFrom(from, d, k + 1) == Position(p.row + d.dRow, p.col + d.dCol)
  {
    assert (k + 1) * d.dRow == k * d.dRow + d.dRow && (k + 1) * d.dCol == k * d.dCol + d.dCol;
  }

  /** Outward along one direction until blocked: exactly the squares k steps away that are on the board, reached over
      empty squares only and not held by a friend. */
  method SlideOneWay(board: Board, mover: Color, from: Position, d: Step) returns (found: set<Position>)
    requires board.Valid() && d != Step(0, 0)
    ensures forall p :: p in found <==> SlidesTo(board.AsGrid(), mover, from, d, p)
  {
    found := {};
    ghost var g := board.AsGrid();
    ghost var k := 1;
    var current := Position(from.row + d.dRow, from.col + d.dCol);
    assert current == StepsFrom(from, d, 1);
    while true
      invariant k >= 1 && current == StepsFrom(from, d, k)
      invariant forall j :: 1 <= j < k ==> Classify(g, mover, StepsFrom(from, d, j)) == Empty
      invariant forall p :: p in found <==> exists j :: 1 <= j < k && p == StepsFrom(from, d, j)
      decreases ToEdge(g, current, d)
    {
      var occupant := ClassifySquare(board, mover, current);
      if occupant == OffBoard || occupant == Friendly {
        NothingBeyond(g, mover, from, d, k, found);
        return;
      }
      found := found + {current};
      if occupant == Enemy {
        OnlyUpTo(g, mover, from, d, k, found);
        return;
      }
      StepNearsEdge(g, current, d);
      OneStepOn(from, d, k);
      hide ToEdge, StepsFrom;
      current := Position(current.row + d.dRow, current.col + d.dCol);
      k := k + 1;
    }
  }

  lemma NothingBeyond(g: Grid, mover: Color, from: Position, d: Step, k: int, found: set<Position>)
    requires k >= 1 && !MayStandOn(g, mover, StepsFrom(from, d, k))
    requires forall j :: 1 <= j < k ==> Classify(g, mover, StepsFrom(from, d, j)) == Empty
    requires forall p :: p in found <==> exists j :: 1 <= j < k && p == StepsFrom(from, d, j)
    ensures forall p :: p in found <==> SlidesTo(g, mover, from, d, p)
  {
    forall p
      ensures p in found <==> SlidesTo(g, mover, from, d, p)
    {
      if p in found {
        var j :| 1 <= j < k && p == StepsFrom(from, d, j);
        assert SlidesBy(g, mover, from, d, j);
      }
      if SlidesTo(g, mover, from, d, p) {
        var j :| SlidesBy(g, mover, from, d, j) && p == StepsFrom(from, d, j);
        assert j < k;
      }
    }
  }

  lemma OnlyUpTo(g: Grid, mover: Color, from: Position, d: Step, k: int, found: set<Position>)
    requires k >= 1 && Classify(g, mover, StepsFrom(from, d, k)) == Enemy
    requires forall j :: 1 <= j < k ==> Classify(g, mover, StepsFrom(from, d, j)) == Empty
    requires forall p :: p in found <==> (exists j :: 1 <= j < k && p == StepsFrom(from, d, j)) || p == StepsFrom(from, d, k)
    ensures forall p :: p in found <==> SlidesTo(g, mover, from, d, p)
  {
    forall p
      ensures p in found <==> SlidesTo(g, mover, from, d, p)
    {
      if p in found {
        if p == StepsFrom(from, d, k) {
          assert SlidesBy(g, mover, from, d, k);
        } else {
          var j :| 1 <= j < k && p == StepsFrom(from, d, j);
          assert SlidesBy(g, mover, from, d, j);
        }
      }
      if SlidesTo(g, mover, from, d, p) {
        var j :| SlidesBy(g, mover, from, d, j) && p == StepsFrom(from, d, j);
        assert j <= k;
      }
    }
  }

  method Slide(board: Board, mover: Color, from: Position, directions: seq<Step>) returns (destinations: set<Position>)
    requires board.Valid() && forall i :: 0 <= i < |directions| ==> directions[i] != Step(0, 0)
    ensures forall p :: p in destinations <==> Slides(board.AsGrid(), mover, from, directions, p)
  {
    destinations := {};
    for i := 0 to |directions|
      invariant forall p :: p in destinations <==>
          exists j :: 0 <= j < i && SlidesTo(board.AsGrid(), mover, from, directions[j], p)
    {
      var found := SlideOneWay(board, mover, from, directions[i]);
      destinations := destinations + found;
    }
  }

  method SingleSteps(board: Board, mover: Color, from: Position, offsets: seq<Step>) returns (destinations: set<Position>)
    requires board.Valid()
    ensures forall p :: p in destinations <==> Hops(board.AsGrid(), mover, from, offsets, p)
  {
    destinations := {};
    for i := 0 to |offsets|
      invariant forall p :: p in destinations <==>
          exists j :: 0 <= j < i && p == StepsFrom(from, offsets[j], 1) && MayStandOn(board.AsGrid(), mover, p)
    {
      var target := Position(from.row + offsets[i].dRow, from.col + offsets[i].dCol);
      assert target == StepsFrom(from, offsets[i], 1);
      var occupant := ClassifySquare(board, mover, target);
      if occupant == Empty || occupant == Enemy {
        destinations := destinations + {target};
      }
    }
  }

  method PawnDestinations(board: Board, mover: Color, from: Position) returns (destinations: set<Position>)
    requires board.Valid()
    ensures forall p :: p in destinations <==> PawnGoes(board.AsGrid(), mover, from, p)
  {
    destinations := {};
    var dir := ForwardStep(mover);
    var ahead := Position(from.row + dir, from.col);
    var occupant := ClassifySquare(board, mover, ahead);
    if occupant == Empty {
      destinations := destinations + {ahead};
      if from.row == StartRow(mover, board.height) {
        var ahead2 := Position(from.row + 2 * dir, from.col);
        occupant := ClassifySquare(board, mover, ahead2);
        if occupant == Empty {
          destinations := destinations + {ahead2};
        }
      }
    }
    var left, right := Position(from.row + dir, from.col - 1), Position(from.row + dir, from.col + 1);
    occupant := ClassifySquare(board, mover, left);
    if occupant == Enemy {
      destinations := destinations + {left};
    }
    occupant := ClassifySquare(board, mover, right);
    if occupant == Enemy {
      destinations := destinations + {right};
    }
  }

  /** The rule of the piece's kind, computed. */
  method LegalDestinations(board: Board, piece: Piece) returns (destinations: set<Position>)
    requires board.Valid()
    ensures forall p :: p in destinations <==> LegalMove(board.AsGrid(), piece, p)
  {
    match piece.kind
    case Rook => destinations := Slide(board, piece.color, piece.cell, ORTHOGONAL);
    case Bishop => destinations := Slide(board, piece.color, piece.cell, DIAGONAL);
    case Queen => destinations := Slide(board, piece.color, piece.cell, ALL_DIRECTIONS);
    case Knight => destinations := SingleSteps(board, piece.color, piece.cell, KNIGHT_STEPS);
    case King => destinations := SingleSteps(board, piece.color, piece.cell, ALL_DIRECTIONS);
    case Pawn => destinations := PawnDestinations(board, piece.color, piece.cell);
  }

  /** Empty off the board and on empty squares. */
  method GetLegalDestinations(board: Board, source: Position) returns (destinations: set<Position>)
    requires board.Valid()
    ensures forall p :: p in destinations <==>
        source in board.cells && LegalMove(board.AsGrid(), board.cells[source], p)
  {
    if !board.IsInsideBounds(source) {
      return {};
    }
    var mover := board.PieceAt(source);
    if mover.None? {
      return {};
    }
    destinations := LegalDestinations(board, mover.value);
  }

  method Validate(board: Board, source: Position, destination: Position) returns (reason: MoveReason)
    requires board.Valid()
    ensures reason == ValidateMove(board.AsGrid(), source, destination)
  {
    if !board.IsInsideBounds(source) || !board.IsInsideBounds(destination) {
      return OutsideBoard;
    }
    var mover := board.PieceAt(source);
    if mover.None? {
      return EmptySource;
    }
    var target := board.PieceAt(destination);
    if target.Some? && target.value.color == mover.value.color {
      return FriendlyDestination;
    }
    var destinations := GetLegalDestinations(board, source);
    return if destination in destinations then Ok else IllegalPieceMove;
  }
}
