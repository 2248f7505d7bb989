/** Reading a board from rows of tokens: where every game starts. */
module BoardParser {
  import opened Model
  import opened Boards
  import opened Text
  import opened Notation
  import opened OrdinaryPlay

  datatype ParseFault = EmptyBoard | RowWidthMismatch | UnknownToken

  type Tokens = seq<seq<string>>

  const EMPTY_TOKEN := "."

  function TokensOf(rows: seq<string>): Tokens {
    seq(|rows|, i requires 0 <= i < |rows| => Tokenize(rows[i]))
  }

  predicate Rectangular(grid: Tokens) {
    |grid| > 0 && |grid[0]| > 0 && forall i :: 0 <= i < |grid| ==> |grid[i]| == |grid[0]|
  }

  function TokenAt(grid: Tokens, p: Position): string
    requires Rectangular(grid) && InBounds(|grid[0]|, |grid|, p)
  {
    grid[p.row][p.col]
  }

  /** The token is a piece or an empty square. */
  predicate Known(token: string) {
    token == EMPTY_TOKEN || PieceFromToken(token).Some?
  }

  ghost predicate AllKnown(grid: Tokens)
    requires Rectangular(grid)
  {
    forall p :: InBounds(|grid[0]|, |grid|, p) ==> Known(TokenAt(grid, p))
  }

  /** The square shows what its token says, idle. */
  ghost predicate ShowsToken(cells: Cells, grid: Tokens, p: Position)
    requires Rectangular(grid) && InBounds(|grid[0]|, |grid|, p)
  {
    var token := TokenAt(grid, p);
    if token == "." then p !in cells
    else p in cells && PieceFromToken(token) == Some(PieceCode(cells[p].color, cells[p].kind))
         && cells[p].cell == p && cells[p].state == Idle
  }

  ghost predicate IsGiven(cells: Cells, id: nat) {
    exists p :: p in cells && cells[p].id == id
  }

  /** Identities count up along the rows, from 1, leaving none out. */
  ghost predicate Numbered(width: int, cells: Cells, nextId: nat) {
    && (forall p :: p in cells ==> 1 <= cells[p].id < nextId)
    && (forall id: nat :: 1 <= id < nextId ==> IsGiven(cells, id))
    && (forall p, q :: p in cells && q in cells && Index(width, p) < Index(width, q) ==> cells[p].id < cells[q].id)
  }

  /** What the squares before the n-th show; the others are still empty. */
  ghost predicate ReadSoFar(cells: Cells, grid: Tokens, n: int)
    requires Rectangular(grid)
  {
    var width, height := |grid[0]|, |grid|;
    && (forall p :: p in cells ==> InBounds(width, height, p) && Index(width, p) < n)
    && (forall p :: InBounds(width, height, p) && Index(width, p) < n ==> ShowsToken(cells, grid, p))
  }

  lemma OneMoreRead(cells: Cells, after: Cells, grid: Tokens, n: int, p: Position, nextId: nat, more: nat)
    requires Rectangular(grid) && InBounds(|grid[0]|, |grid|, p) && Index(|grid[0]|, p) == n
    requires ReadSoFar(cells, grid, n) && Numbered(|grid[0]|, cells, nextId) && nextId >= 1
    requires if TokenAt(grid, p) == EMPTY_TOKEN then after == cells && more == nextId
             else var code := PieceFromToken(TokenAt(grid, p));
                  code.Some? && after == cells[p := Piece(nextId, code.value.color, code.value.kind, p, Idle)]
                  && more == nextId + 1
    ensures ReadSoFar(after, grid, n + 1)
  {
    hide Numbered;
    forall q | InBounds(|grid[0]|, |grid|, q) && Index(|grid[0]|, q) < n + 1
      ensures ShowsToken(after, grid, q)
    {
      if Index(|grid[0]|, q) == n {
        IndexIsInjective(|grid[0]|, |grid|, p, q);
      } else {
        assert ShowsToken(cells, grid, q);
      }
    }
  }

  lemma OneMoreNumbered(cells: Cells, after: Cells, grid: Tokens, n: int, p: Position, nextId: nat, more: nat)
    requires Rectangular(grid) && InBounds(|grid[0]|, |grid|, p) && Index(|grid[0]|, p) == n
    requires ReadSoFar(cells, grid, n) && Numbered(|grid[0]|, cells, nextId) && nextId >= 1
    requires if TokenAt(grid, p) == EMPTY_TOKEN then after == cells && more == nextId
             else p !in cells && p in after && after == cells[p := after[p]] && after[p].id == nextId && more == nextId + 1
    ensures Numbered(|grid[0]|, after, more)
  {
    hide ShowsToken;
    forall id: nat | 1 <= id < more
      ensures IsGiven(after, id)
    {
      if id < nextId {
        assert IsGiven(cells, id);
        var q :| q in cells && cells[q].id == id;
        assert q in after && after[q].id == id;
      } else {
        assert p in after && after[p].id == id;
      }
    }
  }

  /** Rows that do not make a rectangle, and tokens that are no piece, are refused; anything else becomes the board. */
  method BuildBoard(rows: seq<string>) returns (board: Board?, fault: Option<ParseFault>)
    ensures board == null <==> fault.Some?
    ensures fault == if |rows| == 0 || |Tokenize(rows[0])| == 0 then Some(EmptyBoard)
                     else if !Rectangular(TokensOf(rows)) then Some(RowWidthMismatch)
                     else if !AllKnown(TokensOf(rows)) then Some(UnknownToken) else None
    ensures board != null ==>
              && fresh(board) && fresh(board.grid) && board.Valid()
              && board.height == |rows| && board.width == |Tokenize(rows[0])|
              && (forall p :: p in board.cells ==> InBounds(board.width, board.height, p))
              && (forall p :: InBounds(board.width, board.height, p) ==> ShowsToken(board.cells, TokensOf(rows), p))
              && exists nextId: nat :: Numbered(board.width, board.cells, nextId)
  {
    hide Shows, Tokenize, PieceFromToken;
    if |rows| == 0 {
      return null, Some(EmptyBoard);
    }
    var grid: Tokens := [];
    for i := 0 to |rows|
      invariant grid == TokensOf(rows)[..i]
    {
      grid := grid + [Tokenize(rows[i])];
    }
    assert grid == TokensOf(rows);
    var height, width := |grid|, |grid[0]|;
    if width == 0 {
      return null, Some(EmptyBoard);
    }
    for i := 0 to |grid|
      invariant forall j :: 0 <= j < i ==> |grid[j]| == width
    {
      if |grid[i]| != width {
        return null, Some(RowWidthMismatch);
      }
    }
    board, fault := FillBoard(grid);
  }

  method FillBoard(grid: Tokens) returns (board: Board?, fault: Option<ParseFault>)
    requires Rectangular(grid)
    ensures board == null <==> fault.Some?
    ensures fault == if AllKnown(grid) then None else Some(UnknownToken)
    ensures board != null ==>
              && fresh(board) && fresh(board.grid) && board.Valid()
              && board.height == |grid| && board.width == |grid[0]|
              && (forall p :: p in board.cells ==> InBounds(board.width, board.height, p))
              && (forall p :: InBounds(board.width, board.height, p) ==> ShowsToken(board.cells, grid, p))
              && exists nextId: nat :: Numbered(board.width, board.cells, nextId)
  {
    hide Shows, PieceFromToken, Numbered, ShowsToken;
    var height, width := |grid|, |grid[0]|;
    var made := new Board(width, height);
    var nextId: nat := 1;
    ghost var n := 0;
    NothingRead(grid, made.cells);
    for row := 0 to height
      invariant made.Valid() && made.width == width && made.height == height && fresh(made) && fresh(made.grid)
      invariant n == row * width && nextId >= 1
      invariant ReadSoFar(made.cells, grid, n) && Numbered(width, made.cells, nextId)
      invariant KnownBefore(grid, n)
    {
      for col := 0 to width
        invariant made.Valid() && made.width == width && made.height == height && fresh(made) && fresh(made.grid)
        invariant n == row * width + col && nextId >= 1
        invariant ReadSoFar(made.cells, grid, n) && Numbered(width, made.cells, nextId)
        invariant KnownBefore(grid, n)
      {
        var p := Position(row, col);
        var token := grid[row][col];
        ghost var before, id := made.cells, nextId;
        if token != EMPTY_TOKEN {
          var code := PieceFromToken(token);
          if code.None? {
            assert !Known(TokenAt(grid, p));
            return null, Some(UnknownToken);
          }
          assert p !in made.cells;
          var error := made.AddPiece(Piece(nextId, code.value.color, code.value.kind, p, Idle));
          nextId := nextId + 1;
        }
        OneMoreRead(before, made.cells, grid, n, p, id, nextId);
        OneMoreNumbered(before, made.cells, grid, n, p, id, nextId);
        OneMoreKnown(grid, n, p);
        n := n + 1;
      }
    }
    AllRead(grid, made.cells, n);
    board, fault := made, None;
  }

  ghost predicate KnownBefore(grid: Tokens, n: int)
    requires Rectangular(grid)
  {
    forall p :: InBounds(|grid[0]|, |grid|, p) && Index(|grid[0]|, p) < n ==> Known(TokenAt(grid, p))
  }

  lemma OneMoreKnown(grid: Tokens, n: int, p: Position)
    requires Rectangular(grid) && InBounds(|grid[0]|, |grid|, p) && Index(|grid[0]|, p) == n
    requires KnownBefore(grid, n) && Known(TokenAt(grid, p))
    ensures KnownBefore(grid, n + 1)
  {
    forall q | InBounds(|grid[0]|, |grid|, q) && Index(|grid[0]|, q) < n + 1
      ensures Known(TokenAt(grid, q))
    {
      if Index(|grid[0]|, q) == n {
        IndexIsInjective(|grid[0]|, |grid|, p, q);
      }
    }
  }

  lemma NothingRead(grid: Tokens, cells: Cells)
    requires Rectangular(grid) && cells == map[]
    ensures ReadSoFar(cells, grid, 0) && Numbered(|grid[0]|, cells, 1) && KnownBefore(grid, 0)
  {
    forall p | InBounds(|grid[0]|, |grid|, p)
      ensures Index(|grid[0]|, p) >= 0
    {
      IndexInRange(|grid[0]|, |grid|, p);
    }
  }

  lemma AllRead(grid: Tokens, cells: Cells, n: int)
    requires Rectangular(grid) && ReadSoFar(cells, grid, n) && KnownBefore(grid, n) && n == |grid| * |grid[0]|
    ensures AllKnown(grid) && forall p :: InBounds(|grid[0]|, |grid|, p) ==> ShowsToken(cells, grid, p)
  {
    forall p | InBounds(|grid[0]|, |grid|, p)
      ensures Index(|grid[0]|, p) < n
    {
      IndexInRange(|grid[0]|, |grid|, p);
    }
  }

  /** A board read this way is set up for ordinary play exactly when no pawn stands on its far row. */
  lemma ReadBoardIsSetUp(grid: Tokens, cells: Cells, nextId: nat)
    requires Rectangular(grid) && Numbered(|grid[0]|, cells, nextId)
    requires forall p :: p in cells ==> InBounds(|grid[0]|, |grid|, p)
    requires forall p :: InBounds(|grid[0]|, |grid|, p) ==> ShowsToken(cells, grid, p)
    ensures SetUp(Grid(|grid[0]|, |grid|, cells)) <==> NoPawnOnFarRow(|grid|, cells)
  {
    forall p, q | p in cells && q in cells && cells[p].id == cells[q].id
      ensures p == q
    {
      if Index(|grid[0]|, p) == Index(|grid[0]|, q) {
        IndexIsInjective(|grid[0]|, |grid|, p, q);
      }
    }
  }
}
