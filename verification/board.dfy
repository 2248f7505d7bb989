/** The board as it is stored: one flat row-major buffer, which stands for a map from squares to pieces. */
module Boards {
  import opened Model

  datatype BoardError = OutOfBoundsError | CellOccupiedError | CellEmptyError

  /** Row-major place of a square. */
  function Index(width: int, p: Position): int {
    p.row * width + p.col
  }

  lemma IndexInRange(width: int, height: int, p: Position)
    requires width > 0 && InBounds(width, height, p)
    ensures 0 <= Index(width, p) < width * height
  {
    ProductOrder(p.row, height - 1, width);
    assert (height - 1) * width + width == width * height;
  }

  lemma ProductOrder(a: int, b: int, w: int)
    requires 0 <= a <= b && w > 0
    ensures 0 <= a * w <= b * w
  {
  }

  /** Two squares never share a place in the buffer. */
  lemma IndexIsInjective(width: int, height: int, p: Position, q: Position)
    requires width > 0 && InBounds(width, height, p) && InBounds(width, height, q)
    requires Index(width, p) == Index(width, q)
    ensures p == q
  {
    assert (p.row + 1) * width == p.row * width + width && (q.row + 1) * width == q.row * width + width;
    if p.row < q.row {
      ProductOrder(p.row + 1, q.row, width);
    } else if q.row < p.row {
      ProductOrder(q.row + 1, p.row, width);
    }
  }

  /** The buffer shows exactly these pieces. */
  ghost predicate Shows(width: int, height: int, buffer: seq<Option<Piece>>, cells: Cells) {
    && (forall p :: p in cells ==> InBounds(width, height, p))
    && (forall p :: InBounds(width, height, p) ==>
          && 0 <= Index(width, p) < |buffer|
          && buffer[Index(width, p)] == if p in cells then Some(cells[p]) else None)
  }

  lemma WriteShows(
    width: int, height: int, buffer: seq<Option<Piece>>, cells: Cells, p: Position, piece: Option<Piece>)
    requires width > 0 && InBounds(width, height, p) && Shows(width, height, buffer, cells)
    ensures 0 <= Index(width, p) < |buffer|
    ensures Shows(width, height, buffer[Index(width, p) := piece],
                  if piece.Some? then cells[p := piece.value] else cells - {p})
  {
    forall q | InBounds(width, height, q) && Index(width, q) == Index(width, p)
      ensures q == p
    {
      IndexIsInjective(width, height, p, q);
    }
  }

  class Board {
    const width: int
    const height: int
    const grid: array<Option<Piece>>
    /** The pieces by square: what the buffer means. */
    ghost var cells: Cells

    ghost predicate Valid()
      reads this, grid
    {
      width > 0 && height > 0 && Shows(width, height, grid[..], cells)
    }

    /** An empty board. Sizes that are not positive are refused by `Make`. */
    constructor (width: int, height: int)
      requires width > 0 && height > 0
      ensures Valid() && fresh(grid) && cells == map[] && this.width == width && this.height == height
    {
      this.width, this.height := width, height;
      ProductOrder(0, height, width);
      assert height * width == width * height;
      grid := new Option<Piece>[width * height](_ => None);
      cells := map[];
      new;
      forall p | InBounds(width, height, p)
        ensures 0 <= Index(width, p) < grid.Length
      {
        IndexInRange(width, height, p);
      }
    }

    static method Make(width: int, height: int) returns (board: Board?)
      ensures board == null <==> width <= 0 || height <= 0
      ensures board != null ==> fresh(board) && fresh(board.grid) && board.Valid() && board.cells == map[]
                                && board.width == width && board.height == height
    {
      if width <= 0 || height <= 0 {
        return null;
      }
      board := new Board(width, height);
    }

    predicate IsInsideBounds(p: Position)
      ensures IsInsideBounds(p) <==> InBounds(width, height, p)
    {
      p.row >= 0 && p.row < height && p.col >= 0 && p.col < width
    }

    ghost function AsGrid(): Grid
      reads this
    {
      Grid(width, height, cells)
    }

    /** What stands on a square of the board. */
    function PieceAt(p: Position): (piece: Option<Piece>)
      requires Valid() && InBounds(width, height, p)
      reads this, grid
      ensures piece == if p in cells then Some(cells[p]) else None
    {
      assert grid[..][Index(width, p)] == if p in cells then Some(cells[p]) else None;
      grid[Index(width, p)]
    }

    /** Looking at a square off the board is an error. */
    method GetPieceAt(p: Position) returns (piece: Option<Piece>, error: Option<BoardError>)
      requires Valid()
      ensures error == (if InBounds(width, height, p) then None else Some(OutOfBoundsError))
      ensures piece == if p in cells then Some(cells[p]) else None
    {
      if !IsInsideBounds(p) {
        return None, Some(OutOfBoundsError);
      }
      return PieceAt(p), None;
    }

    /** Overwrite one square of the buffer. */
    method Write(p: Position, piece: Option<Piece>)
      requires Valid() && InBounds(width, height, p)
      modifies this, grid
      ensures Valid() && cells == if piece.Some? then old(cells)[p := piece.value] else old(cells) - {p}
    {
      WriteShows(width, height, grid[..], cells, p, piece);
      grid[Index(width, p)] := piece;
      cells := if piece.Some? then cells[p := piece.value] else cells - {p};
      assert grid[..] == old(grid[..])[Index(width, p) := piece];
    }

    method AddPiece(piece: Piece) returns (error: Option<BoardError>)
      requires Valid()
      modifies this, grid
      ensures Valid()
      ensures error == if !InBounds(width, height, piece.cell) then Some(OutOfBoundsError)
                       else if piece.cell in old(cells) then Some(CellOccupiedError) else None
      ensures cells == if error.None? then old(cells)[piece.cell := piece] else old(cells)
    {
      if !IsInsideBounds(piece.cell) {
        return Some(OutOfBoundsError);
      }
      if PieceAt(piece.cell).Some? {
        return Some(CellOccupiedError);
      }
      Write(piece.cell, Some(piece));
      return None;
    }

    method RemovePiece(p: Position) returns (error: Option<BoardError>)
      requires Valid()
      modifies this, grid
      ensures Valid()
      ensures error == if !InBounds(width, height, p) then Some(OutOfBoundsError) else None
      ensures cells == if error.None? then old(cells) - {p} else old(cells)
    {
      if !IsInsideBounds(p) {
        return Some(OutOfBoundsError);
      }
      Write(p, None);
      return None;
    }

    /** The piece leaves its square, stands on the other, and knows it. */
    method MovePiece(from: Position, to: Position) returns (error: Option<BoardError>)
      requires Valid()
      modifies this, grid
      ensures Valid()
      ensures error == if !InBounds(width, height, from) || !InBounds(width, height, to) then Some(OutOfBoundsError)
                       else if from !in old(cells) then Some(CellEmptyError)
                       else if to in old(cells) then Some(CellOccupiedError) else None
      ensures cells == if error.None? then (old(cells) - {from})[to := old(cells)[from].(cell := to)] else old(cells)
    {
      if !IsInsideBounds(from) || !IsInsideBounds(to) {
        return Some(OutOfBoundsError);
      }
      var piece := PieceAt(from);
      if piece.None? {
        return Some(CellEmptyError);
      }
      if PieceAt(to).Some? {
        return Some(CellOccupiedError);
      }
      Write(to, Some(piece.value.(cell := to)));
      Write(from, None);
      return None;
    }

    method SetPieceState(p: Position, state: State) returns (error: Option<BoardError>)
      requires Valid()
      modifies this, grid
      ensures Valid()
      ensures error == if !InBounds(width, height, p) then Some(OutOfBoundsError)
                       else if p !in old(cells) then Some(CellEmptyError) else None
      ensures cells == if error.None? then old(cells)[p := old(cells)[p].(state := state)] else old(cells)
    {
      if !IsInsideBounds(p) {
        return Some(OutOfBoundsError);
      }
      var piece := PieceAt(p);
      if piece.None? {
        return Some(CellEmptyError);
      }
      Write(p, Some(piece.value.(state := state)));
      return None;
    }

    /** Promotion. */
    method SetPieceKind(p: Position, kind: Kind)
      requires Valid() && p in cells
      modifies this, grid
      ensures Valid() && cells == old(cells)[p := old(cells)[p].(kind := kind)]
    {
      var piece := PieceAt(p);
      Write(p, Some(piece.value.(kind := kind)));
    }
  }
}
