/** Pieces, squares, commands and events as text, and exactly when the text reads back as what was written. */
module Notation {
  import opened Model
  import opened Text

  // ---- pieces ----

  function ColorLetter(color: Color): char {
    if color == White then 'w' else 'b'
  }

  function KindLetter(kind: Kind): char {
    match kind
    case King => 'K'
    case Queen => 'Q'
    case Rook => 'R'
    case Bishop => 'B'
    case Knight => 'N'
    case Pawn => 'P'
  }

  function ColorOf(c: char): Option<Color> {
    if c == 'w' then Some(White) else if c == 'b' then Some(Black) else None
  }

  function KindOf(c: char): Option<Kind> {
    match c
    case 'K' => Some(King)
    case 'Q' => Some(Queen)
    case 'R' => Some(Rook)
    case 'B' => Some(Bishop)
    case 'N' => Some(Knight)
    case 'P' => Some(Pawn)
    case _ => None
  }

  datatype PieceCode = PieceCode(color: Color, kind: Kind)

  function PieceFromToken(token: string): Option<PieceCode> {
    if |token| != 2 then None
    else if ColorOf(token[0]).None? || KindOf(token[1]).None? then None
    else Some(PieceCode(ColorOf(token[0]).value, KindOf(token[1]).value))
  }

  function EncodePieceToken(color: Color, kind: Kind): string {
    [ColorLetter(color), KindLetter(kind)]
  }

  /** The two tables are inverse, both ways: exactly the twelve written tokens are read. */
  lemma PieceTokensAreExact(token: string, code: PieceCode)
    ensures PieceFromToken(token) == Some(code) <==> token == EncodePieceToken(code.color, code.kind)
    ensures IsWord(EncodePieceToken(code.color, code.kind))
  {
  }

  // ---- squares ----

  /** The file letter is one byte: columns far off to the right wrap around. */
  function FileLetter(col: int): char {
    (('a' as int + col) % 256) as char
  }

  /** A byte read as a signed character. */
  function SignedByte(c: char): int {
    if c as int < 128 then c as int else c as int - 256
  }

  function SquareName(cell: Position, boardHeight: int): string {
    [FileLetter(cell.col)] + IntText(boardHeight - cell.row)
  }

  function SquareFromName(name: string, boardHeight: int): Option<Position> {
    if |name| < 2 then None
    else
      var col := SignedByte(name[0]) - 'a' as int;
      if col < 0 || !AllDigits(name[1..]) then None
      else
        var rank := DigitsValue(name[1..]);
        if rank < 1 || rank > boardHeight then None
        else Some(Position(boardHeight - rank, col))
  }

  /** The last column whose letter is still a plain character. */
  const LAST_COLUMN := 30

  predicate OnNamedBoard(p: Position, boardHeight: int) {
    0 <= p.row < boardHeight && 0 <= p.col <= LAST_COLUMN
  }

  /** What the name of any square, on the board or off it, reads as: columns are told apart only up to 256, and most of
      their letters are refused. */
  function SquareRead(p: Position, boardHeight: int): Option<Position> {
    if 0 <= p.row < boardHeight && p.col % 256 <= LAST_COLUMN then Some(Position(p.row, p.col % 256)) else None
  }

  lemma SquareNameParts(p: Position, boardHeight: int)
    ensures var name := SquareName(p, boardHeight);
            && |name| >= 2 && name[0] == FileLetter(p.col) && name[1..] == IntText(boardHeight - p.row)
            && (forall i :: 2 <= i < |name| ==> IsDigit(name[i])) && (IsDigit(name[1]) || name[1] == '-')
            && (p.row <= boardHeight ==> AllDigits(name[1..]) && DigitsValue(name[1..]) == boardHeight - p.row)
            && (p.row > boardHeight ==> name[1] == '-')
  {
    var rank := boardHeight - p.row;
    var name := SquareName(p, boardHeight);
    assert name[1..] == IntText(rank);
    NatTextReadsBack(if rank < 0 then -rank else rank);
    var digits := NatText(if rank < 0 then -rank else rank);
    assert forall i :: 0 <= i < |digits| ==> IsDigit(digits[i]);
    hide NatText, DigitsValue;
  }

  /** Square names read back exactly for squares of boards up to 31 columns wide. Of all other squares the name is
      refused, or, from column 256 on, reads as the square whose column has the same letter. */
  lemma SquareNameReadsBack(cell: Position, boardHeight: int)
    ensures SquareFromName(SquareName(cell, boardHeight), boardHeight) == SquareRead(cell, boardHeight)
    ensures SquareRead(cell, boardHeight) == Some(cell) <==> OnNamedBoard(cell, boardHeight)
    ensures OnNamedBoard(cell, boardHeight) ==> IsWord(SquareName(cell, boardHeight))
  {
    var name := SquareName(cell, boardHeight);
    SquareNameParts(cell, boardHeight);
    assert name[1..] != "" && name[1..][0] == name[1];
    hide SquareName, DigitsValue, IntText;
  }

  // ---- commands ----

  datatype PlayerCommand = PlayerCommand(player: Color, kind: Kind, from: Position, to: Position)

  /** The colour letter is upper case on the wire. */
  function WireToken(color: Color, kind: Kind): string {
    [if color == White then 'W' else 'B', KindLetter(kind)]
  }

  function ToLower(c: char): char {
    if 'A' <= c <= 'Z' then (c as int + 32) as char else c
  }

  function FromWireToken(token: string): Option<PieceCode>
    requires |token| == 2
  {
    PieceFromToken([ToLower(token[0]), token[1]])
  }

  function EncodeCommand(c: PlayerCommand, boardHeight: int): string {
    WireToken(c.player, c.kind) + SquareName(c.from, boardHeight) + SquareName(c.to, boardHeight)
  }

  /** After the piece token the text is split down the middle into two square names. */
  function DecodeCommand(text: string, boardHeight: int): Option<PlayerCommand> {
    if |text| <= 2 || (|text| - 2) % 2 != 0 then None
    else
      var half := (|text| - 2) / 2;
      var piece := FromWireToken(text[..2]);
      var from := SquareFromName(text[2..2 + half], boardHeight);
      var to := SquareFromName(text[2 + half..], boardHeight);
      if piece.None? || from.None? || to.None? then None
      else Some(PlayerCommand(piece.value.color, piece.value.kind, from.value, to.value))
  }

  /** How many characters the rank of a square takes. */
  function RankLength(p: Position, boardHeight: int): nat {
    |IntText(boardHeight - p.row)|
  }

  /** What a command reads as, if anything. */
  function CommandRead(c: PlayerCommand, boardHeight: int): Option<PlayerCommand> {
    var from, to := SquareRead(c.from, boardHeight), SquareRead(c.to, boardHeight);
    if from.None? || to.None? || RankLength(c.from, boardHeight) != RankLength(c.to, boardHeight) then None
    else Some(c.(from := from.value, to := to.value))
  }

  /** No name of a square begins with a character of a rank. */
  lemma RankFirst(name: string, boardHeight: int)
    requires name != "" && (IsDigit(name[0]) || name[0] == '-')
    ensures SquareFromName(name, boardHeight) == None
  {
  }

  predicate LetterAndRank(name: string) {
    |name| >= 2 && forall i :: 1 <= i < |name| ==> IsDigit(name[i]) || name[i] == '-'
  }

  /** Split anywhere but between them, of two names the second half begins inside a rank. */
  lemma UnevenSplit(a: string, b: string, boardHeight: int)
    requires LetterAndRank(a) && LetterAndRank(b) && |a| != |b| && (|a| + |b|) % 2 == 0
    ensures SquareFromName((a + b)[(|a| + |b|) / 2..], boardHeight) == None
  {
    var half := (|a| + |b|) / 2;
    var back := (a + b)[half..];
    assert back[0] == if half < |a| then a[half] else b[half - |a|];
    hide SquareFromName;
    RankFirst(back, boardHeight);
  }

  lemma SplitAfterToken(c: PlayerCommand, boardHeight: int)
    ensures var text := EncodeCommand(c, boardHeight);
            var a, b := SquareName(c.from, boardHeight), SquareName(c.to, boardHeight);
            && |text| == 2 + |a| + |b| && text[..2] == WireToken(c.player, c.kind) && text[2..] == a + b
            && FromWireToken(text[..2]) == Some(PieceCode(c.player, c.kind))
  {
    var text := EncodeCommand(c, boardHeight);
    assert text == WireToken(c.player, c.kind) + (SquareName(c.from, boardHeight) + SquareName(c.to, boardHeight));
  }

  /** What any command reads as. It comes back exactly when both squares are on a board up to 31 columns wide and their
      ranks are equally long; ranks of different lengths are never read; and from column 256 on a command reads, if it
      does, as the different one whose columns have the same letters. */
  lemma CommandReadsBack(c: PlayerCommand, boardHeight: int)
    ensures DecodeCommand(EncodeCommand(c, boardHeight), boardHeight) == CommandRead(c, boardHeight)
    ensures CommandRead(c, boardHeight) == Some(c) <==>
              && OnNamedBoard(c.from, boardHeight) && OnNamedBoard(c.to, boardHeight)
              && RankLength(c.from, boardHeight) == RankLength(c.to, boardHeight)
  {
    var a, b := SquareName(c.from, boardHeight), SquareName(c.to, boardHeight);
    var text := EncodeCommand(c, boardHeight);
    SquareNameParts(c.from, boardHeight);
    SquareNameParts(c.to, boardHeight);
    SquareNameReadsBack(c.from, boardHeight);
    SquareNameReadsBack(c.to, boardHeight);
    SplitAfterToken(c, boardHeight);
    hide SquareName, IntText, SquareFromName, FromWireToken, EncodeCommand, DigitsValue, FileLetter;
    var half := (|a| + |b|) / 2;
    assert text[2..2 + half] == (a + b)[..half] && text[2 + half..] == (a + b)[half..];
    if |a| == |b| {
      assert (a + b)[..|a|] == a && (a + b)[|a|..] == b;
    } else if (|a| + |b|) % 2 == 0 {
      UnevenSplit(a, b, boardHeight);
    }
  }

  // ---- events ----

  function EncodeMoveEvent(e: MoveEvent, boardHeight: int): string {
    Join([EncodePieceToken(e.player, e.kind), SquareName(e.from, boardHeight), SquareName(e.to, boardHeight),
          IntText(e.timeMs), EncodeFlag(e.isCapture), EncodeFlag(e.isJump)])
  }

  function DecodeMoveEvent(text: string, boardHeight: int): Option<MoveEvent> {
    var fields := Tokenize(text);
    if |fields| != 6 then None
    else
      var piece := PieceFromToken(fields[0]);
      var from, to := SquareFromName(fields[1], boardHeight), SquareFromName(fields[2], boardHeight);
      var timeMs, isCapture, isJump := Stoi(fields[3]), DecodeFlag(fields[4]), DecodeFlag(fields[5]);
      if piece.None? || from.None? || to.None? || isCapture.None? || isJump.None? || timeMs.None? then None
      else Some(MoveEvent(timeMs.value, piece.value.color, piece.value.kind, from.value, to.value,
                          isCapture.value, isJump.value))
  }

  lemma MoveEventReadsBack(e: MoveEvent, boardHeight: int)
    requires OnNamedBoard(e.from, boardHeight) && OnNamedBoard(e.to, boardHeight)
    ensures DecodeMoveEvent(EncodeMoveEvent(e, boardHeight), boardHeight) == Some(e)
  {
    var fields := [EncodePieceToken(e.player, e.kind), SquareName(e.from, boardHeight), SquareName(e.to, boardHeight),
                   IntText(e.timeMs), EncodeFlag(e.isCapture), EncodeFlag(e.isJump)];
    PieceTokensAreExact(fields[0], PieceCode(e.player, e.kind));
    SquareNameReadsBack(e.from, boardHeight);
    SquareNameReadsBack(e.to, boardHeight);
    StoiReadsBack(e.timeMs);
    assert IsWord(fields[4]) && IsWord(fields[5]);
    TokenizeJoin(fields);
  }

  function EncodeCapturedPiece(p: CapturedPiece): string {
    EncodePieceToken(p.color, p.kind)
  }

  function DecodeCapturedPiece(text: string): Option<CapturedPiece> {
    var fields := Tokenize(text);
    if |fields| != 1 then None
    else
      var piece := PieceFromToken(fields[0]);
      if piece.None? then None else Some(CapturedPiece(piece.value.kind, piece.value.color))
  }

  lemma CapturedPieceReadsBack(p: CapturedPiece)
    ensures DecodeCapturedPiece(EncodeCapturedPiece(p)) == Some(p)
  {
    var token := EncodePieceToken(p.color, p.kind);
    PieceTokensAreExact(token, PieceCode(p.color, p.kind));
    assert Join([token]) == token;
    TokenizeJoin([token]);
  }
}
