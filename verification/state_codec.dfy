/** A whole frame of the game as text, and back into a board of one's own. */
module StateCodec {
  import opened Model
  import opened Boards
  import opened Text
  import opened Notation

  datatype MotionState = MotionState(from: Position, to: Position, progress: real)
  datatype CooldownState = CooldownState(cell: Position, progress: real)

  /** What a frame shows of a game. */
  datatype Snapshot = Snapshot(grid: Grid, over: bool, motions: seq<MotionState>, cooldowns: seq<CooldownState>)

  datatype DecodedState = DecodedState(over: bool, motions: seq<MotionState>, cooldowns: seq<CooldownState>)

  type Fields = seq<string>

  // ---- single fields ----

  function StateLetter(s: State): char {
    match s
    case Idle => 'I'
    case Moving => 'M'
    case Airborne => 'A'
    case Resting => 'R'
    case Captured => 'C'
  }

  function StateFromLetter(c: char): Option<State> {
    match c
    case 'I' => Some(Idle)
    case 'M' => Some(Moving)
    case 'A' => Some(Airborne)
    case 'R' => Some(Resting)
    case 'C' => Some(Captured)
    case _ => None
  }

  /** Progress is written with three decimals. */
  function Thousandths(p: real): int {
    (p * 1000.0 + 0.5).Floor
  }

  function Rounded(p: real): real {
    Thousandths(p) as real / 1000.0
  }

  function ThreeDigits(k: nat): string
    requires k < 1000
  {
    [DigitChar(k / 100), DigitChar(k / 10 % 10), DigitChar(k % 10)]
  }

  function ThousandthsText(t: nat): string {
    NatText(t / 1000) + ("." + ThreeDigits(t % 1000))
  }

  function EncodeProgress(p: real): string {
    var t := Thousandths(p);
    if t < 0 then "-" + ThousandthsText(-t) else ThousandthsText(t)
  }

  function Pow10(n: nat): int
    ensures Pow10(n) > 0
  {
    if n == 0 then 1 else 10 * Pow10(n - 1)
  }

  /** Reading a decimal number off the front of a text; what follows is ignored. */
  function Stod(s: string): Option<real> {
    var t := SkipSpaces(s);
    var signed := t != "" && (t[0] == '-' || t[0] == '+');
    var body := if signed then t[1..] else t;
    var n := DigitRun(body);
    var fraction := if n < |body| && body[n] == '.' then body[n + 1..] else "";
    var m := DigitRun(fraction);
    if n + m == 0 then None
    else
      var value := (DigitsValue(body[..n]) * Pow10(m) + DigitsValue(fraction[..m])) as real / Pow10(m) as real;
      Some(if signed && t[0] == '-' then -value else value)
  }

  lemma DigitsValueMore(s: string, d: int)
    requires AllDigits(s) && 0 <= d < 10
    ensures AllDigits(s + [DigitChar(d)]) && DigitsValue(s + [DigitChar(d)]) == 10 * DigitsValue(s) + d
  {
    assert (s + [DigitChar(d)])[..|s|] == s;
  }

  lemma ThreeDigitsReadBack(k: nat)
    requires k < 1000
    ensures |ThreeDigits(k)| == 3 && AllDigits(ThreeDigits(k)) && DigitsValue(ThreeDigits(k)) == k
  {
    assert DigitsValue("") == 0;
    hide DigitsValue;
    var a, b, c := k / 100, k / 10 % 10, k % 10;
    DigitsValueMore("", a);
    DigitsValueMore("" + [DigitChar(a)], b);
    DigitsValueMore("" + [DigitChar(a)] + [DigitChar(b)], c);
    assert "" + [DigitChar(a)] + [DigitChar(b)] + [DigitChar(c)] == ThreeDigits(k);
    assert k == 10 * (k / 10) + c && k / 10 == 10 * (k / 100) + b;
  }

  lemma PowerOfThree()
    ensures Pow10(3) == 1000
  {
    assert Pow10(1) == 10;
    assert Pow10(2) == 100;
  }

  lemma DecimalValue(whole: nat, rest: nat, t: nat)
    requires t == whole * 1000 + rest
    ensures (whole * 1000 + rest) as real / 1000 as real == t as real / 1000.0
  {
  }

  lemma ThousandthsReadBack(t: nat)
    ensures IsWord(ThousandthsText(t)) && Stod(ThousandthsText(t)) == Some(t as real / 1000.0)
  {
    hide DigitsValue, Pow10, NatText, ThreeDigits, DigitRun;
    var whole, rest := NatText(t / 1000), ThreeDigits(t % 1000);
    var s := ThousandthsText(t);
    NatTextReadsBack(t / 1000);
    ThreeDigitsReadBack(t % 1000);
    DigitRunOf(whole, "." + rest);
    DigitRunOf(rest, "");
    assert rest + "" == rest && rest[..3] == rest;
    assert s[..|whole|] == whole && s[|whole|] == '.' && s[|whole| + 1..] == rest;
    assert IsDigit(whole[0]) && s[0] == whole[0];
    assert SkipSpaces(s) == s;
    PowerOfThree();
    DecimalValue(t / 1000, t % 1000, t);
    ReadsDecimal(s, |whole|, t / 1000, t % 1000);
    forall i | 0 <= i < |s|
      ensures !IsSpace(s[i])
    {
      assert s[i] == '.' || IsDigit(s[i]);
    }
  }

  /** Digits, a point and three more digits. */
  lemma ReadsDecimal(s: string, n: nat, whole: nat, rest: nat)
    requires 0 < n < |s| && s[n] == '.' && IsDigit(s[0])
    requires DigitRun(s) == n && DigitsValue(s[..n]) == whole
    requires DigitRun(s[n + 1..]) == 3 && DigitsValue(s[n + 1..][..3]) == rest
    ensures Stod(s) == Some((whole * 1000 + rest) as real / 1000 as real)
  {
    hide DigitsValue, Pow10, DigitRun;
    PowerOfThree();
    assert SkipSpaces(s) == s;
  }

  // ---- single lines ----

  function PieceFields(p: Piece, cell: Position, h: int): Fields {
    ["piece", NatText(p.id), EncodePieceToken(p.color, p.kind), SquareName(cell, h), [StateLetter(p.state)]]
  }

  function MotionFields(m: MotionState, h: int): Fields {
    ["motion", SquareName(m.from, h), SquareName(m.to, h), EncodeProgress(m.progress)]
  }

  function CooldownFields(c: CooldownState, h: int): Fields {
    ["cooldown", SquareName(c.cell, h), EncodeProgress(c.progress)]
  }

  /** Identities are 32 bits wide. */
  const ID_RANGE := 0x1_0000_0000

  function DecodePiece(f: Fields, h: int): Option<Piece> {
    if |f| != 5 then None
    else
      var id, code, cell := Stoi(f[1]), PieceFromToken(f[2]), SquareFromName(f[3], h);
      var state := if |f[4]| == 1 then StateFromLetter(f[4][0]) else None;
      if id.None? || code.None? || cell.None? || state.None? then None
      else Some(Piece(id.value % ID_RANGE, code.value.color, code.value.kind, cell.value, state.value))
  }

  function DecodeMotion(f: Fields, h: int): Option<MotionState> {
    if |f| != 4 then None
    else
      var from, to, progress := SquareFromName(f[1], h), SquareFromName(f[2], h), Stod(f[3]);
      if from.None? || to.None? || progress.None? then None
      else Some(MotionState(from.value, to.value, progress.value))
  }

  function DecodeCooldown(f: Fields, h: int): Option<CooldownState> {
    if |f| != 3 then None
    else
      var cell, progress := SquareFromName(f[1], h), Stod(f[2]);
      if cell.None? || progress.None? then None else Some(CooldownState(cell.value, progress.value))
  }

  function DecodeSize(f: Fields): Option<(int, int)> {
    if |f| != 3 then None
    else
      var width, height := Stoi(f[1]), Stoi(f[2]);
      if width.None? || height.None? || width.value <= 0 || height.value <= 0 then None
      else Some((width.value, height.value))
  }

  lemma StateLettersReadBack(s: State)
    ensures StateFromLetter(StateLetter(s)) == Some(s) && IsWord([StateLetter(s)])
  {
  }

  lemma PieceLineReadsBack(p: Piece, h: int)
    requires OnNamedBoard(p.cell, h) && p.id < ID_RANGE
    ensures DecodePiece(PieceFields(p, p.cell, h), h) == Some(p)
    ensures forall i :: 0 <= i < 5 ==> IsWord(PieceFields(p, p.cell, h)[i])
  {
    StateLettersReadBack(p.state);
    hide StateLetter, StateFromLetter;
    hide Stoi, SquareFromName, SquareName, IntText, PieceFromToken, EncodePieceToken, IsWord;
    StoiReadsBack(p.id);
    PieceTokensAreExact(EncodePieceToken(p.color, p.kind), PieceCode(p.color, p.kind));
    SquareNameReadsBack(p.cell, h);
    KeywordsAreWords();
    NatIsInt(p.id);
  }

  lemma NatIsInt(n: nat)
    ensures IntText(n) == NatText(n)
  {
  }

  lemma ProgressReadsBack(p: real)
    requires p >= 0.0
    ensures IsWord(EncodeProgress(p)) && Stod(EncodeProgress(p)) == Some(Rounded(p))
  {
    ThousandthsReadBack(Thousandths(p));
  }

  lemma MotionLineReadsBack(m: MotionState, h: int)
    requires OnNamedBoard(m.from, h) && OnNamedBoard(m.to, h) && m.progress >= 0.0
    ensures DecodeMotion(MotionFields(m, h), h) == Some(m.(progress := Rounded(m.progress)))
    ensures forall i :: 0 <= i < 4 ==> IsWord(MotionFields(m, h)[i])
  {
    hide SquareFromName, SquareName, Stod, EncodeProgress, IsWord, Rounded;
    SquareNameReadsBack(m.from, h);
    SquareNameReadsBack(m.to, h);
    ProgressReadsBack(m.progress);
    KeywordsAreWords();
  }

  lemma KeywordsAreWords()
    ensures IsWord("over") && IsWord("size") && IsWord("piece") && IsWord("motion") && IsWord("cooldown")
  {
  }

  lemma CooldownLineReadsBack(c: CooldownState, h: int)
    requires OnNamedBoard(c.cell, h) && c.progress >= 0.0
    ensures DecodeCooldown(CooldownFields(c, h), h) == Some(c.(progress := Rounded(c.progress)))
    ensures forall i :: 0 <= i < 3 ==> IsWord(CooldownFields(c, h)[i])
  {
    hide SquareFromName, SquareName, Stod, EncodeProgress, IsWord, Rounded;
    SquareNameReadsBack(c.cell, h);
    ProgressReadsBack(c.progress);
    KeywordsAreWords();
  }

  // ---- a frame ----

  function SquareAt(width: int, n: nat): Position
    requires width > 0
  {
    Position(n / width, n % width)
  }

  /** The pieces on the first n squares, row by row. */
  function PieceLines(g: Grid, n: nat): seq<Fields>
    requires g.width > 0
  {
    if n == 0 then []
    else
      var p := SquareAt(g.width, n - 1);
      PieceLines(g, n - 1) + if p in g.cells then [PieceFields(g.cells[p], p, g.height)] else []
  }

  function MotionLines(motions: seq<MotionState>, h: int): seq<Fields> {
    seq(|motions|, i requires 0 <= i < |motions| => MotionFields(motions[i], h))
  }

  function CooldownLines(cooldowns: seq<CooldownState>, h: int): seq<Fields> {
    seq(|cooldowns|, i requires 0 <= i < |cooldowns| => CooldownFields(cooldowns[i], h))
  }

  function HeadLines(g: Grid, over: bool): seq<Fields> {
    [["over", EncodeFlag(over)], ["size", IntText(g.width), IntText(g.height)]]
  }

  function Frame(s: Snapshot): seq<Fields>
    requires s.grid.width > 0 && s.grid.height > 0
  {
    HeadLines(s.grid, s.over) + PieceLines(s.grid, s.grid.width * s.grid.height)
    + MotionLines(s.motions, s.grid.height) + CooldownLines(s.cooldowns, s.grid.height)
  }

  function JoinAll(lines: seq<Fields>): seq<string> {
    seq(|lines|, i requires 0 <= i < |lines| => Join(lines[i]))
  }

  function EncodeState(s: Snapshot): string
    requires s.grid.width > 0 && s.grid.height > 0
  {
    Unlines(JoinAll(Frame(s)))
  }

  /** The lines of a frame sorted by their first word. */
  datatype Draft = Draft(
    over: Option<bool>, size: Option<(int, int)>, pieces: seq<Fields>, motions: seq<Fields>, cooldowns: seq<Fields>)

  const EMPTY_DRAFT := Draft(None, None, [], [], [])

  /** A line whose first word is unknown is skipped; a malformed mandatory line refuses the frame. */
  function SortLine(d: Draft, f: Fields): Option<Draft> {
    if f == [] then Some(d)
    else if f[0] == "over" then
      if |f| != 2 || DecodeFlag(f[1]).None? then None else Some(d.(over := DecodeFlag(f[1])))
    else if f[0] == "size" then
      if DecodeSize(f).None? then None else Some(d.(size := DecodeSize(f)))
    else if f[0] == "piece" then Some(d.(pieces := d.pieces + [f]))
    else if f[0] == "motion" then Some(d.(motions := d.motions + [f]))
    else if f[0] == "cooldown" then Some(d.(cooldowns := d.cooldowns + [f]))
    else Some(d)
  }

  function SortLines(lines: seq<Fields>): Option<Draft> {
    if lines == [] then Some(EMPTY_DRAFT)
    else
      var d := SortLines(lines[..|lines| - 1]);
      if d.None? then None else SortLine(d.value, lines[|lines| - 1])
  }

  /** Pieces put on an empty board one by one; none may be malformed, off the board or on another. */
  function PlaceAll(width: int, height: int, lines: seq<Fields>): Option<Cells> {
    if lines == [] then Some(map[])
    else
      var cells := PlaceAll(width, height, lines[..|lines| - 1]);
      var p := DecodePiece(lines[|lines| - 1], height);
      if cells.None? || p.None? || !InBounds(width, height, p.value.cell) || p.value.cell in cells.value then None
      else Some(cells.value[p.value.cell := p.value])
  }

  function DecodeMotions(lines: seq<Fields>, h: int): Option<seq<MotionState>> {
    if lines == [] then Some([])
    else
      var front, last := DecodeMotions(lines[..|lines| - 1], h), DecodeMotion(lines[|lines| - 1], h);
      if front.None? || last.None? then None else Some(front.value + [last.value])
  }

  function DecodeCooldowns(lines: seq<Fields>, h: int): Option<seq<CooldownState>> {
    if lines == [] then Some([])
    else
      var front, last := DecodeCooldowns(lines[..|lines| - 1], h), DecodeCooldown(lines[|lines| - 1], h);
      if front.None? || last.None? then None else Some(front.value + [last.value])
  }

  function TokenizeAll(lines: seq<string>): seq<Fields> {
    seq(|lines|, i requires 0 <= i < |lines| => Tokenize(lines[i]))
  }

  function BuildFrame(d: Draft): Option<(Grid, DecodedState)> {
    if d.over.None? || d.size.None? then None
    else
      var (width, height) := d.size.value;
      var cells := PlaceAll(width, height, d.pieces);
      var motions, cooldowns := DecodeMotions(d.motions, height), DecodeCooldowns(d.cooldowns, height);
      if cells.None? || motions.None? || cooldowns.None? then None
      else Some((Grid(width, height, cells.value), DecodedState(d.over.value, motions.value, cooldowns.value)))
  }

  function DecodeFrame(text: string): Option<(Grid, DecodedState)> {
    var d := SortLines(TokenizeAll(Lines(text)));
    if d.None? then None else BuildFrame(d.value)
  }

  // ---- reading back ----

  ghost predicate Wordy(lines: seq<Fields>) {
    forall i, k :: 0 <= i < |lines| && 0 <= k < |lines[i]| ==> IsWord(lines[i][k])
  }

  /** Lines of words survive the trip through text. */
  lemma TextReadsBack(lines: seq<Fields>)
    requires Wordy(lines)
    ensures TokenizeAll(Lines(Unlines(JoinAll(lines)))) == lines
  {
    forall i | 0 <= i < |lines|
      ensures IsLine(JoinAll(lines)[i]) && Tokenize(JoinAll(lines)[i]) == lines[i]
    {
      JoinIsLine(lines[i]);
      TokenizeJoin(lines[i]);
    }
    LinesUnlines(JoinAll(lines));
  }

  function FiledUnder(d: Draft, keyword: string, more: seq<Fields>): Draft {
    if keyword == "piece" then d.(pieces := d.pieces + more)
    else if keyword == "motion" then d.(motions := d.motions + more)
    else d.(cooldowns := d.cooldowns + more)
  }

  lemma SortOneMore(lines: seq<Fields>, line: Fields, d: Draft)
    requires SortLines(lines) == Some(d) && line != []
    requires line[0] == "piece" || line[0] == "motion" || line[0] == "cooldown"
    ensures SortLines(lines + [line]) == Some(FiledUnder(d, line[0], [line]))
  {
    assert (lines + [line])[..|lines|] == lines;
  }

  lemma FiledTogether(d: Draft, keyword: string, more: seq<Fields>, line: Fields)
    ensures FiledUnder(FiledUnder(d, keyword, more), keyword, [line]) == FiledUnder(d, keyword, more + [line])
    ensures FiledUnder(d, keyword, []) == d
  {
    assert d.pieces + more + [line] == d.pieces + (more + [line]) && d.pieces + [] == d.pieces;
    assert d.motions + more + [line] == d.motions + (more + [line]) && d.motions + [] == d.motions;
    assert d.cooldowns + more + [line] == d.cooldowns + (more + [line]) && d.cooldowns + [] == d.cooldowns;
  }

  lemma {:induction false} SortMore(lines: seq<Fields>, more: seq<Fields>, d: Draft, keyword: string)
    requires SortLines(lines) == Some(d)
    requires keyword == "piece" || keyword == "motion" || keyword == "cooldown"
    requires forall i :: 0 <= i < |more| ==> more[i] != [] && more[i][0] == keyword
    ensures SortLines(lines + more) == Some(FiledUnder(d, keyword, more))
  {
    hide SortLines, FiledUnder;
    if more == [] {
      assert lines + more == lines;
      FiledTogether(d, keyword, [], []);
    } else {
      var n := |more| - 1;
      SortMore(lines, more[..n], d, keyword);
      SortOneMore(lines + more[..n], more[n], FiledUnder(d, keyword, more[..n]));
      assert lines + more == lines + more[..n] + [more[n]];
      assert more == more[..n] + [more[n]];
      FiledTogether(d, keyword, more[..n], more[n]);
    }
  }

  // ---- the round trip ----

  predicate WellPlaced(g: Grid) {
    && 0 < g.width <= LAST_COLUMN + 1 && 0 < g.height
    && forall p :: p in g.cells ==> InBounds(g.width, g.height, p) && g.cells[p].cell == p && g.cells[p].id < ID_RANGE
  }

  /** What a frame can show: a board no wider than the letters, activity on it, progress not negative. */
  predicate Presentable(s: Snapshot) {
    && WellPlaced(s.grid)
    && (forall m :: m in s.motions ==>
          OnNamedBoard(m.from, s.grid.height) && OnNamedBoard(m.to, s.grid.height) && m.progress >= 0.0)
    && (forall c :: c in s.cooldowns ==> OnNamedBoard(c.cell, s.grid.height) && c.progress >= 0.0)
  }

  function RoundedMotions(motions: seq<MotionState>): seq<MotionState> {
    seq(|motions|, i requires 0 <= i < |motions| => motions[i].(progress := Rounded(motions[i].progress)))
  }

  function RoundedCooldowns(cooldowns: seq<CooldownState>): seq<CooldownState> {
    seq(|cooldowns|, i requires 0 <= i < |cooldowns| => cooldowns[i].(progress := Rounded(cooldowns[i].progress)))
  }

  /** The pieces on the first n squares. */
  ghost function FirstSquares(g: Grid, n: nat): Cells {
    map p | p in g.cells && Index(g.width, p) < n :: g.cells[p]
  }

  lemma SquareAtIndex(width: int, height: int, n: nat)
    requires width > 0 && n < width * height
    ensures InBounds(width, height, SquareAt(width, n)) && Index(width, SquareAt(width, n)) == n
  {
    var row := n / width;
    assert n == row * width + n % width;
    if row >= height {
      ProductOrder(height, row, width);
    }
  }

  lemma OneMoreSquare(g: Grid, n: nat)
    requires WellPlaced(g) && n < g.width * g.height
    ensures var p := SquareAt(g.width, n);
            && p !in FirstSquares(g, n)
            && FirstSquares(g, n + 1) == if p in g.cells then FirstSquares(g, n)[p := g.cells[p]] else FirstSquares(g, n)
  {
    var p := SquareAt(g.width, n);
    SquareAtIndex(g.width, g.height, n);
    forall q | q in g.cells && Index(g.width, q) == n
      ensures q == p
    {
      IndexIsInjective(g.width, g.height, p, q);
    }
  }

  lemma {:induction false} PiecesReadBack(g: Grid, n: nat)
    requires WellPlaced(g) && n <= g.width * g.height
    ensures PlaceAll(g.width, g.height, PieceLines(g, n)) == Some(FirstSquares(g, n))
  {
    hide Index, DecodePiece, PieceFields;
    if n == 0 {
      assert FirstSquares(g, 0) == map[] by { NothingBelowZero(g); }
    } else {
      var p := SquareAt(g.width, n - 1);
      var front := PieceLines(g, n - 1);
      PiecesReadBack(g, n - 1);
      OneMoreSquare(g, n - 1);
      SquareAtIndex(g.width, g.height, n - 1);
      if p in g.cells {
        var last := PieceFields(g.cells[p], p, g.height);
        PieceLineReadsBack(g.cells[p], g.height);
        assert (front + [last])[..|front|] == front;
      } else {
        assert front + [] == front;
      }
    }
  }

  lemma NothingBelowZero(g: Grid)
    requires WellPlaced(g)
    ensures FirstSquares(g, 0) == map[]
  {
    forall p | p in g.cells
      ensures Index(g.width, p) >= 0
    {
      IndexInRange(g.width, g.height, p);
    }
  }

  lemma AllSquares(g: Grid)
    requires WellPlaced(g)
    ensures g.width * g.height >= 0 && FirstSquares(g, g.width * g.height) == g.cells
  {
    ProductOrder(0, g.height, g.width);
    forall p | p in g.cells
      ensures Index(g.width, p) < g.width * g.height
    {
      IndexInRange(g.width, g.height, p);
    }
  }

  lemma {:induction false} PieceLinesAreWords(g: Grid, n: nat)
    requires WellPlaced(g) && n <= g.width * g.height
    ensures Wordy(PieceLines(g, n))
    ensures forall i :: 0 <= i < |PieceLines(g, n)| ==> PieceLines(g, n)[i] != [] && PieceLines(g, n)[i][0] == "piece"
  {
    if n > 0 {
      hide IsWord, OnNamedBoard, Index;
      var p := SquareAt(g.width, n - 1);
      PieceLinesAreWords(g, n - 1);
      if p in g.cells {
        SquareIsNamed(g, p);
        PieceLineReadsBack(g.cells[p], g.height);
      }
    }
  }

  lemma SquareIsNamed(g: Grid, p: Position)
    requires WellPlaced(g) && p in g.cells
    ensures OnNamedBoard(p, g.height)
  {
  }

  lemma {:induction false} MotionsReadBack(motions: seq<MotionState>, h: int)
    requires forall m :: m in motions ==> OnNamedBoard(m.from, h) && OnNamedBoard(m.to, h) && m.progress >= 0.0
    ensures DecodeMotions(MotionLines(motions, h), h) == Some(RoundedMotions(motions))
  {
    hide DecodeMotion, MotionFields, OnNamedBoard, Rounded;
    if motions != [] {
      var n := |motions| - 1;
      MotionsReadBack(motions[..n], h);
      MotionLineReadsBack(motions[n], h);
      assert MotionLines(motions, h)[..n] == MotionLines(motions[..n], h);
      assert RoundedMotions(motions) == RoundedMotions(motions[..n]) + [RoundedMotions(motions)[n]];
    }
  }

  lemma {:induction false} CooldownsReadBack(cooldowns: seq<CooldownState>, h: int)
    requires forall c :: c in cooldowns ==> OnNamedBoard(c.cell, h) && c.progress >= 0.0
    ensures DecodeCooldowns(CooldownLines(cooldowns, h), h) == Some(RoundedCooldowns(cooldowns))
  {
    hide DecodeCooldown, CooldownFields, OnNamedBoard, Rounded;
    if cooldowns != [] {
      var n := |cooldowns| - 1;
      CooldownsReadBack(cooldowns[..n], h);
      CooldownLineReadsBack(cooldowns[n], h);
      assert CooldownLines(cooldowns, h)[..n] == CooldownLines(cooldowns[..n], h);
      assert RoundedCooldowns(cooldowns) == RoundedCooldowns(cooldowns[..n]) + [RoundedCooldowns(cooldowns)[n]];
    }
  }

  lemma MotionLinesAreWords(motions: seq<MotionState>, h: int)
    requires forall m :: m in motions ==> OnNamedBoard(m.from, h) && OnNamedBoard(m.to, h) && m.progress >= 0.0
    ensures Wordy(MotionLines(motions, h))
  {
    hide IsWord, OnNamedBoard, MotionFields;
    forall i | 0 <= i < |motions|
      ensures forall k :: 0 <= k < |MotionLines(motions, h)[i]| ==> IsWord(MotionLines(motions, h)[i][k])
    {
      MotionLineReadsBack(motions[i], h);
      MotionFieldCount(motions[i], h);
    }
  }

  lemma MotionFieldCount(m: MotionState, h: int)
    ensures |MotionFields(m, h)| == 4 && MotionFields(m, h)[0] == "motion"
  {
  }

  lemma CooldownFieldCount(c: CooldownState, h: int)
    ensures |CooldownFields(c, h)| == 3 && CooldownFields(c, h)[0] == "cooldown"
  {
  }

  lemma CooldownLinesAreWords(cooldowns: seq<CooldownState>, h: int)
    requires forall c :: c in cooldowns ==> OnNamedBoard(c.cell, h) && c.progress >= 0.0
    ensures Wordy(CooldownLines(cooldowns, h))
  {
    hide IsWord, OnNamedBoard, CooldownFields;
    forall i | 0 <= i < |cooldowns|
      ensures forall k :: 0 <= k < |CooldownLines(cooldowns, h)[i]| ==> IsWord(CooldownLines(cooldowns, h)[i][k])
    {
      CooldownLineReadsBack(cooldowns[i], h);
      CooldownFieldCount(cooldowns[i], h);
    }
  }

  lemma HeadReadsBack(g: Grid, over: bool)
    requires WellPlaced(g)
    ensures Wordy(HeadLines(g, over))
    ensures SortLines(HeadLines(g, over)) == Some(Draft(Some(over), Some((g.width, g.height)), [], [], []))
  {
    hide Stoi, IntText;
    var lines := HeadLines(g, over);
    StoiReadsBack(g.width);
    StoiReadsBack(g.height);
    KeywordsAreWords();
    assert IsWord("0") && IsWord("1");
    assert lines[..1][..0] == [];
    assert SortLines(lines[..1]) == Some(EMPTY_DRAFT.(over := Some(over)));
  }

  lemma FrameIsWordy(s: Snapshot)
    requires Presentable(s)
    ensures s.grid.width * s.grid.height >= 0 && Wordy(Frame(s))
  {
    hide IsWord, OnNamedBoard, HeadLines, PieceLines, MotionLines, CooldownLines;
    AllSquares(s.grid);
    HeadReadsBack(s.grid, s.over);
    PieceLinesAreWords(s.grid, s.grid.width * s.grid.height);
    MotionLinesAreWords(s.motions, s.grid.height);
    CooldownLinesAreWords(s.cooldowns, s.grid.height);
  }

  ghost function DraftOf(s: Snapshot): Draft
    requires WellPlaced(s.grid) && s.grid.width * s.grid.height >= 0
  {
    Draft(Some(s.over), Some((s.grid.width, s.grid.height)), PieceLines(s.grid, s.grid.width * s.grid.height),
          MotionLines(s.motions, s.grid.height), CooldownLines(s.cooldowns, s.grid.height))
  }

  lemma FrameIsSorted(s: Snapshot)
    requires Presentable(s)
    ensures s.grid.width * s.grid.height >= 0 && SortLines(Frame(s)) == Some(DraftOf(s))
  {
    hide IsWord, OnNamedBoard, HeadLines, PieceLines, MotionFields, CooldownFields, SortLines;
    AllSquares(s.grid);
    var h := s.grid.height;
    var head := HeadLines(s.grid, s.over);
    var pieces := PieceLines(s.grid, s.grid.width * h);
    var motions, cooldowns := MotionLines(s.motions, h), CooldownLines(s.cooldowns, h);
    HeadReadsBack(s.grid, s.over);
    PieceLinesAreWords(s.grid, s.grid.width * h);
    var d := Draft(Some(s.over), Some((s.grid.width, h)), [], [], []);
    SortMore(head, pieces, d, "piece");
    forall i | 0 <= i < |motions| ensures motions[i] != [] && motions[i][0] == "motion" {
      MotionFieldCount(s.motions[i], h);
    }
    assert [] + pieces == pieces && [] + motions == motions && [] + cooldowns == cooldowns;
    SortMore(head + pieces, motions, d.(pieces := pieces), "motion");
    forall i | 0 <= i < |cooldowns| ensures cooldowns[i] != [] && cooldowns[i][0] == "cooldown" {
      CooldownFieldCount(s.cooldowns[i], h);
    }
    SortMore(head + pieces + motions, cooldowns, d.(pieces := pieces, motions := motions), "cooldown");
  }

  function Seen(s: Snapshot): DecodedState {
    DecodedState(s.over, RoundedMotions(s.motions), RoundedCooldowns(s.cooldowns))
  }

  /** A frame rebuilds the same pieces on the same squares, the same flag and the same activity, with
      progress to the nearest thousandth. */
  lemma FrameReadsBack(s: Snapshot)
    requires Presentable(s)
    ensures DecodeFrame(EncodeState(s)) == Some((s.grid, Seen(s)))
  {
    hide Wordy, Frame, SortLines, PlaceAll, DecodeMotions, DecodeCooldowns, FirstSquares, PieceLines, MotionLines,
         CooldownLines, OnNamedBoard, Unlines, JoinAll, Lines, TokenizeAll;
    FrameIsWordy(s);
    TextReadsBack(Frame(s));
    FrameIsSorted(s);
    AllSquares(s.grid);
    PiecesReadBack(s.grid, s.grid.width * s.grid.height);
    MotionsReadBack(s.motions, s.grid.height);
    CooldownsReadBack(s.cooldowns, s.grid.height);
  }

  lemma DecodedPieceIsNarrow(f: Fields, h: int)
    ensures DecodePiece(f, h).Some? ==> DecodePiece(f, h).value.id < ID_RANGE
  {
  }

  lemma {:induction false} PlacedPiecesAreSound(width: int, height: int, lines: seq<Fields>)
    ensures PlaceAll(width, height, lines).Some? ==>
              forall p :: p in PlaceAll(width, height, lines).value ==>
                var piece := PlaceAll(width, height, lines).value[p];
                InBounds(width, height, p) && piece.cell == p && piece.id < ID_RANGE
  {
    if lines != [] {
      PlacedPiecesAreSound(width, height, lines[..|lines| - 1]);
      DecodedPieceIsNarrow(lines[|lines| - 1], height);
      hide DecodePiece;
    }
  }

  /** Whatever text is accepted, from whatever sender, the board read from it is a proper one: positive sizes, every
      piece on a square of the board that it knows as its own. */
  lemma AcceptedFramesAreSound(text: string)
    ensures DecodeFrame(text).Some? ==>
              var g := DecodeFrame(text).value.0;
              && g.width > 0 && g.height > 0
              && forall p :: p in g.cells ==>
                   InBounds(g.width, g.height, p) && g.cells[p].cell == p && g.cells[p].id < ID_RANGE
  {
    var d := SortLines(TokenizeAll(Lines(text)));
    SizesArePositive(TokenizeAll(Lines(text)));
    hide TokenizeAll, Lines, SortLines, DecodeMotions, DecodeCooldowns;
    if DecodeFrame(text).Some? {
      PlacedPiecesAreSound(d.value.size.value.0, d.value.size.value.1, d.value.pieces);
      hide PlaceAll;
    }
  }

  // ---- writing a frame, line after line ----

  lemma {:induction false} UnlinesMore(lines: seq<string>, line: string)
    ensures Unlines(lines + [line]) == Unlines(lines) + line + "\n"
  {
    if lines == [] {
      assert [line][1..] == [];
      assert line + "\n" + "" == "" + line + "\n";
    } else {
      UnlinesMore(lines[1..], line);
      assert (lines + [line])[1..] == lines[1..] + [line];
      assert lines[0] + "\n" + (Unlines(lines[1..]) + line + "\n") == lines[0] + "\n" + Unlines(lines[1..]) + line + "\n";
    }
  }

  lemma WrittenMore(lines: seq<Fields>, f: Fields)
    ensures Unlines(JoinAll(lines + [f])) == Unlines(JoinAll(lines)) + Join(f) + "\n"
  {
    assert JoinAll(lines + [f]) == JoinAll(lines) + [Join(f)];
    UnlinesMore(JoinAll(lines), Join(f));
  }

  method EncodePieces(board: Board, start: string, ghost lines: seq<Fields>) returns (text: string)
    requires board.Valid() && start == Unlines(JoinAll(lines))
    ensures board.width * board.height >= 0
    ensures text == Unlines(JoinAll(lines + PieceLines(board.AsGrid(), board.width * board.height)))
  {
    hide Unlines, JoinAll, Join, PieceFields;
    text := start;
    var row, col := 0, 0;
    ghost var n: nat := 0;
    assert lines + PieceLines(board.AsGrid(), 0) == lines;
    while row < board.height
      invariant 0 <= row <= board.height
      invariant n == row * board.width
      invariant text == Unlines(JoinAll(lines + PieceLines(board.AsGrid(), n)))
    {
      col := 0;
      while col < board.width
        invariant 0 <= col <= board.width
        invariant n == row * board.width + col
        invariant text == Unlines(JoinAll(lines + PieceLines(board.AsGrid(), n)))
      {
        var cell := Position(row, col);
        SquareFromIndex(board.width, n, cell);
        var piece := board.PieceAt(cell);
        if piece.Some? {
          WrittenMore(lines + PieceLines(board.AsGrid(), n), PieceFields(piece.value, cell, board.height));
          text := text + Join(PieceFields(piece.value, cell, board.height)) + "\n";
          assert lines + (PieceLines(board.AsGrid(), n) + [PieceFields(piece.value, cell, board.height)])
              == lines + PieceLines(board.AsGrid(), n) + [PieceFields(piece.value, cell, board.height)];
        } else {
          assert PieceLines(board.AsGrid(), n) + [] == PieceLines(board.AsGrid(), n);
        }
        col := col + 1;
        n := n + 1;
      }
      RowsAdd(row, board.width);
      row := row + 1;
    }
    ProductOrder(0, board.height, board.width);
  }

  lemma RowsAdd(row: int, width: int)
    ensures row * width + width == (row + 1) * width
  {
  }

  lemma SquareFromIndex(width: int, n: nat, cell: Position)
    requires width > 0 && 0 <= cell.col < width && n == cell.row * width + cell.col
    ensures SquareAt(width, n) == cell
  {
    var row := n / width;
    assert n == row * width + n % width;
    assert (cell.row - row) * width == cell.row * width - row * width;
    if row < cell.row {
      ProductOrder(1, cell.row - row, width);
    } else if row > cell.row {
      ProductOrder(1, row - cell.row, width);
    }
  }

  method WriteState(board: Board, over: bool, motions: seq<MotionState>, cooldowns: seq<CooldownState>)
    returns (text: string)
    requires board.Valid()
    ensures text == EncodeState(Snapshot(board.AsGrid(), over, motions, cooldowns))
  {
    hide Unlines, JoinAll, Join, MotionFields, CooldownFields, PieceLines, EncodeFlag, IntText;
    var h := board.height;
    ghost var g := board.AsGrid();
    ghost var head := HeadLines(g, over);
    text := Join(["over", EncodeFlag(over)]) + "\n" + Join(["size", IntText(board.width), IntText(h)]) + "\n";
    HeadText(g, over);
    text := EncodePieces(board, text, head);
    ghost var front := head + PieceLines(g, g.width * g.height);
    assert front + MotionLines(motions[..0], h) == front;
    var i := 0;
    while i < |motions|
      invariant 0 <= i <= |motions|
      invariant text == Unlines(JoinAll(front + MotionLines(motions[..i], h)))
    {
      WrittenMore(front + MotionLines(motions[..i], h), MotionFields(motions[i], h));
      text := text + Join(MotionFields(motions[i], h)) + "\n";
      assert front + MotionLines(motions[..i + 1], h) == front + MotionLines(motions[..i], h) + [MotionFields(motions[i], h)];
      i := i + 1;
    }
    assert motions[..i] == motions;
    front := front + MotionLines(motions, h);
    assert front + CooldownLines(cooldowns[..0], h) == front;
    i := 0;
    while i < |cooldowns|
      invariant 0 <= i <= |cooldowns|
      invariant text == Unlines(JoinAll(front + CooldownLines(cooldowns[..i], h)))
    {
      WrittenMore(front + CooldownLines(cooldowns[..i], h), CooldownFields(cooldowns[i], h));
      text := text + Join(CooldownFields(cooldowns[i], h)) + "\n";
      assert front + CooldownLines(cooldowns[..i + 1], h)
          == front + CooldownLines(cooldowns[..i], h) + [CooldownFields(cooldowns[i], h)];
      i := i + 1;
    }
    assert cooldowns[..i] == cooldowns;
  }

  lemma HeadText(g: Grid, over: bool)
    ensures Unlines(JoinAll(HeadLines(g, over)))
         == Join(["over", EncodeFlag(over)]) + "\n" + Join(["size", IntText(g.width), IntText(g.height)]) + "\n"
  {
    hide Join;
    var f0, f1 := HeadLines(g, over)[0], HeadLines(g, over)[1];
    assert JoinAll([]) == [];
    assert [] + [f0] == [f0] && [f0] + [f1] == HeadLines(g, over);
    WrittenMore([], f0);
    WrittenMore([f0], f1);
  }

  // ---- reading a frame, line after line ----

  lemma {:induction false} SortStops(lines: seq<Fields>, i: nat)
    requires i <= |lines| && SortLines(lines[..i]).None?
    ensures SortLines(lines).None?
    decreases |lines| - i
  {
    if i == |lines| {
      assert lines[..i] == lines;
    } else {
      assert lines[..i + 1][..i] == lines[..i];
      SortStops(lines, i + 1);
    }
  }

  lemma {:induction false} PlaceStops(width: int, height: int, lines: seq<Fields>, i: nat)
    requires i <= |lines| && PlaceAll(width, height, lines[..i]).None?
    ensures PlaceAll(width, height, lines).None?
    decreases |lines| - i
  {
    if i == |lines| {
      assert lines[..i] == lines;
    } else {
      assert lines[..i + 1][..i] == lines[..i];
      PlaceStops(width, height, lines, i + 1);
    }
  }

  lemma {:induction false} MotionsStop(lines: seq<Fields>, h: int, i: nat)
    requires i <= |lines| && DecodeMotions(lines[..i], h).None?
    ensures DecodeMotions(lines, h).None?
    decreases |lines| - i
  {
    if i == |lines| {
      assert lines[..i] == lines;
    } else {
      assert lines[..i + 1][..i] == lines[..i];
      MotionsStop(lines, h, i + 1);
    }
  }

  lemma {:induction false} CooldownsStop(lines: seq<Fields>, h: int, i: nat)
    requires i <= |lines| && DecodeCooldowns(lines[..i], h).None?
    ensures DecodeCooldowns(lines, h).None?
    decreases |lines| - i
  {
    if i == |lines| {
      assert lines[..i] == lines;
    } else {
      assert lines[..i + 1][..i] == lines[..i];
      CooldownsStop(lines, h, i + 1);
    }
  }

  method SortText(text: string) returns (d: Option<Draft>)
    ensures d == SortLines(TokenizeAll(Lines(text)))
  {
    hide Tokenize, Lines, DecodeSize, DecodeFlag;
    var isOver: Option<bool>, size: Option<(int, int)> := None, None;
    var pieceLines, motionLines, cooldownLines: seq<Fields> := [], [], [];
    var lines := Lines(text);
    ghost var all := TokenizeAll(lines);
    var i := 0;
    while i < |lines|
      invariant 0 <= i <= |lines|
      invariant SortLines(all[..i]) == Some(Draft(isOver, size, pieceLines, motionLines, cooldownLines))
    {
      var fields := Tokenize(lines[i]);
      ghost var next := SortLine(Draft(isOver, size, pieceLines, motionLines, cooldownLines), fields);
      assert SortLines(all[..i + 1]) == next by { assert all[..i + 1][..i] == all[..i]; }
      i := i + 1;
      if |fields| == 0 {
        continue;
      }
      if fields[0] == "over" {
        if |fields| == 2 {
          isOver := DecodeFlag(fields[1]);
        }
        if |fields| != 2 || isOver.None? {
          SortStops(all, i);
          return None;
        }
      } else if fields[0] == "size" {
        size := DecodeSize(fields);
        if size.None? {
          SortStops(all, i);
          return None;
        }
      } else if fields[0] == "piece" {
        pieceLines := pieceLines + [fields];
      } else if fields[0] == "motion" {
        motionLines := motionLines + [fields];
      } else if fields[0] == "cooldown" {
        cooldownLines := cooldownLines + [fields];
      }
    }
    assert all[..i] == all;
    d := Some(Draft(isOver, size, pieceLines, motionLines, cooldownLines));
  }

  /** Put the pieces of a frame on a fresh board; null when a line is malformed or its square is refused. */
  method PlacePieces(width: int, height: int, lines: seq<Fields>) returns (board: Board?)
    requires width > 0 && height > 0
    ensures board == null <==> PlaceAll(width, height, lines).None?
    ensures board != null ==> fresh(board) && fresh(board.grid) && board.Valid() && board.width == width && board.height == height
                              && PlaceAll(width, height, lines) == Some(board.cells)
  {
    hide DecodePiece, Shows;
    var rebuilt := new Board(width, height);
    var i := 0;
    while i < |lines|
      invariant 0 <= i <= |lines| && rebuilt.Valid()
      invariant PlaceAll(width, height, lines[..i]) == Some(rebuilt.cells)
    {
      var piece := DecodePiece(lines[i], height);
      assert lines[..i + 1][..i] == lines[..i];
      if piece.None? {
        PlaceStops(width, height, lines, i + 1);
        return null;
      }
      var error := rebuilt.AddPiece(piece.value);
      if error.Some? {
        PlaceStops(width, height, lines, i + 1);
        return null;
      }
      i := i + 1;
    }
    assert lines[..i] == lines;
    board := rebuilt;
  }

  /** Reading a frame. `after` is the board the caller then holds: a rebuilt one, or, when the text is
      refused, the very board it had, which no branch writes to. */
  method DecodeState(text: string, board: Board) returns (state: Option<DecodedState>, after: Board)
    requires board.Valid()
    ensures state.None? <==> DecodeFrame(text).None?
    ensures state.None? ==> after == board
    ensures state.Some? ==> fresh(after) && fresh(after.grid) && after.Valid()
                            && DecodeFrame(text) == Some((after.AsGrid(), state.value))
  {
    hide SortLines, PlaceAll, DecodeMotion, DecodeCooldown, Lines, TokenizeAll;
    state, after := None, board;
    var d := SortText(text);
    if d.None? || d.value.over.None? || d.value.size.None? {
      return;
    }
    var (width, height) := d.value.size.value;
    SizesArePositive(TokenizeAll(Lines(text)));
    var rebuilt := PlacePieces(width, height, d.value.pieces);
    if rebuilt == null {
      return;
    }
    var motions := ReadMotions(d.value.motions, height);
    if motions.None? {
      return;
    }
    var cooldowns := ReadCooldowns(d.value.cooldowns, height);
    if cooldowns.None? {
      return;
    }
    state, after := Some(DecodedState(d.value.over.value, motions.value, cooldowns.value)), rebuilt;
  }

  method ReadMotions(lines: seq<Fields>, height: int) returns (motions: Option<seq<MotionState>>)
    ensures motions == DecodeMotions(lines, height)
  {
    hide DecodeMotion;
    var read := [];
    var i := 0;
    while i < |lines|
      invariant 0 <= i <= |lines|
      invariant DecodeMotions(lines[..i], height) == Some(read)
    {
      var motion := DecodeMotion(lines[i], height);
      assert lines[..i + 1][..i] == lines[..i];
      if motion.None? {
        MotionsStop(lines, height, i + 1);
        return None;
      }
      read := read + [motion.value];
      i := i + 1;
    }
    assert lines[..i] == lines;
    motions := Some(read);
  }

  method ReadCooldowns(lines: seq<Fields>, height: int) returns (cooldowns: Option<seq<CooldownState>>)
    ensures cooldowns == DecodeCooldowns(lines, height)
  {
    hide DecodeCooldown;
    var read := [];
    var i := 0;
    while i < |lines|
      invariant 0 <= i <= |lines|
      invariant DecodeCooldowns(lines[..i], height) == Some(read)
    {
      var cooldown := DecodeCooldown(lines[i], height);
      assert lines[..i + 1][..i] == lines[..i];
      if cooldown.None? {
        CooldownsStop(lines, height, i + 1);
        return None;
      }
      read := read + [cooldown.value];
      i := i + 1;
    }
    assert lines[..i] == lines;
    cooldowns := Some(read);
  }

  lemma {:induction false} SizesArePositive(lines: seq<Fields>)
    ensures SortLines(lines).Some? && SortLines(lines).value.size.Some? ==>
      SortLines(lines).value.size.value.0 > 0 && SortLines(lines).value.size.value.1 > 0
  {
    if lines != [] {
      SizesArePositive(lines[..|lines| - 1]);
    }
  }
}
