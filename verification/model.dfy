/** The domain values every layer shares: squares, pieces and what is announced about them. */
module Model {

  datatype Option<+T> = None | Some(value: T)

  /** A square. Rows count down from the top of the board. */
  datatype Position = Position(row: int, col: int)

  datatype Color = White | Black

  datatype Kind = King | Queen | Rook | Bishop | Knight | Pawn

  datatype State = Idle | Moving | Airborne | Resting | Captured

  datatype Piece = Piece(id: nat, color: Color, kind: Kind, cell: Position, state: State)

  /** The victim of a capture, as it is announced. */
  datatype CapturedPiece = CapturedPiece(kind: Kind, color: Color)

  /** A command the engine accepted. */
  datatype MoveEvent = MoveEvent(
    timeMs: int, player: Color, kind: Kind, from: Position, to: Position, isCapture: bool, isJump: bool)

  /** What stands where. An absent key is an empty square. */
  type Cells = map<Position, Piece>

  /** A board as a value: its size and what stands on it. */
  datatype Grid = Grid(width: int, height: int, cells: Cells)

  predicate InBounds(width: int, height: int, p: Position) {
    0 <= p.row < height && 0 <= p.col < width
  }

  function OpponentOf(color: Color): Color {
    if color == White then Black else White
  }

  function CostOf(kind: Kind): int {
    match kind
    case King => 0
    case Queen => 9
    case Rook => 5
    case Bishop => 3
    case Knight => 3
    case Pawn => 1
  }

  /** White walks toward row 0, Black away from it. */
  function ForwardStep(color: Color): int {
    if color == White then -1 else 1
  }

  function PromotionRow(color: Color, height: int): int {
    if ForwardStep(color) < 0 then 0 else height - 1
  }

  /** The list with item k gone; the others keep their order. */
  function Without<T>(items: seq<T>, k: nat): seq<T>
    requires k < |items|
  {
    items[..k] + items[k + 1..]
  }

  function Max(a: int, b: int): int {
    if a > b then a else b
  }

  function Abs(a: int): int {
    if a < 0 then -a else a
  }
}
