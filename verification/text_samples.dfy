/** The text formats letter by letter: one sample of each. */
module TextSamples {
  import opened Model
  import opened Text
  import opened Notation
  import opened StateCodec
  import Wire

  const BOARD := 8

  lemma NumbersLookLikeThis()
    ensures IntText(0) == "0" && IntText(8) == "8" && IntText(-30) == "-30" && IntText(1200) == "1200"
  {
    assert NatText(1) == "1" && NatText(12) == "12" && NatText(120) == "120" && NatText(1200) == "1200";
    assert NatText(3) == "3" && NatText(30) == "30";
  }

  lemma WordsLookLikeThis()
    ensures Tokenize(" a\tb\r\n") == ["a", "b"]
  {
    var s := " a\tb\r\n";
    assert s[1..] == "a\tb\r\n";
    assert WordLength("a\tb\r\n") == 1 by { assert "a\tb\r\n"[1..] == "\tb\r\n"; }
    assert "a\tb\r\n"[..1] == "a" && "a\tb\r\n"[1..] == "\tb\r\n" && "\tb\r\n"[1..] == "b\r\n";
    assert WordLength("b\r\n") == 1 by { assert "b\r\n"[1..] == "\r\n"; }
    assert "b\r\n"[..1] == "b" && "b\r\n"[1..] == "\r\n" && "\r\n"[1..] == "\n" && "\n"[1..] == "";
    assert Tokenize("\r\n") == [];
    assert Tokenize("b\r\n") == ["b"];
  }

  /** Ranks count up from the bottom of the board, files from a. */
  lemma SquaresLookLikeThis()
    ensures SquareName(Position(7, 0), BOARD) == "a1" && SquareName(Position(0, 7), BOARD) == "h8"
    ensures SquareName(Position(6, 4), BOARD) == "e2" && SquareName(Position(3, 4), BOARD) == "e5"
  {
  }

  lemma PiecesLookLikeThis()
    ensures EncodePieceToken(White, King) == "wK" && EncodePieceToken(Black, Queen) == "bQ"
    ensures EncodePieceToken(White, Rook) == "wR" && EncodePieceToken(Black, Bishop) == "bB"
    ensures EncodePieceToken(White, Knight) == "wN" && EncodePieceToken(Black, Pawn) == "bP"
  {
  }

  /** A command, and a jump: onto its own square. */
  lemma CommandsLookLikeThis()
    ensures EncodeCommand(PlayerCommand(White, Queen, Position(6, 4), Position(3, 4)), BOARD) == "WQe2e5"
    ensures EncodeCommand(PlayerCommand(White, Queen, Position(6, 4), Position(6, 4)), BOARD) == "WQe2e2"
    ensures EncodeCommand(PlayerCommand(Black, Pawn, Position(1, 0), Position(2, 0)), BOARD) == "BPa7a6"
  {
  }

  lemma MessagesLookLikeThis()
    ensures Wire.Encode(Wire.Command(PlayerCommand(White, Queen, Position(6, 4), Position(3, 4))), BOARD) == "CMD WQe2e5"
    ensures Wire.Encode(Wire.Role(Some(White)), BOARD) == "ROLE w" && Wire.Encode(Wire.Role(None), BOARD) == "ROLE -"
    ensures Wire.Encode(Wire.Capture(CapturedPiece(Rook, Black)), BOARD) == "CAPTURE bR"
    ensures Wire.Encode(Wire.JoinRoom("AB12CD"), BOARD) == "JOIN AB12CD"
    ensures Wire.Encode(Wire.OpponentDisconnected(8), BOARD) == "OPPGONE 8"
    ensures Wire.Encode(Wire.SeekGame, BOARD) == "SEEK "
  {
    hide EncodeCommand;
    CommandsLookLikeThis();
    NumbersLookLikeThis();
    PiecesLookLikeThis();
  }

  lemma OtherTagsLookLikeThis()
    ensures Wire.Encode(Wire.CancelSeek, BOARD) == "CANCEL " && Wire.Encode(Wire.CreateRoom, BOARD) == "CREATE "
    ensures Wire.Encode(Wire.EnteredRoom("AB12CD"), BOARD) == "ROOM AB12CD" && Wire.Encode(Wire.NoMatch, BOARD) == "NOMATCH "
    ensures Wire.Encode(Wire.RoomError("no"), BOARD) == "ROOMERR no"
    ensures Wire.Encode(Wire.AuthRejected("no"), BOARD) == "AUTHFAIL no"
    ensures Wire.Encode(Wire.OpponentReconnected, BOARD) == "OPPBACK " && Wire.Encode(Wire.StateUpdate("x"), BOARD) == "STATE x"
  {
  }

  lemma TrimsBefore(c: char, s: string)
    requires IsTrimmed(c)
    ensures TrimLeft([c] + s) == TrimLeft(s)
  {
    assert ([c] + s)[1..] == s;
  }

  lemma TrimsAfter(s: string, c: char)
    requires IsTrimmed(c)
    ensures TrimRight(s + [c]) == TrimRight(s)
  {
    assert (s + [c])[..|s|] == s;
  }

  /** Outer blanks, tabs and line ends are trimmed, inner ones are not. */
  lemma TrimmedLooksLikeThis()
    ensures Trim(" \ta b\n\r") == "a b"
  {
    assert TrimLeft("a b\n\r") == "a b\n\r" && TrimRight("a b") == "a b";
    hide TrimLeft, TrimRight;
    TrimsBefore('\t', "a b\n\r");
    TrimsBefore(' ', "\ta b\n\r");
    assert "\ta b\n\r" == ['\t'] + "a b\n\r" && " \ta b\n\r" == [' '] + "\ta b\n\r";
    TrimsAfter("a b", '\n');
    TrimsAfter("a b\n", '\r');
    assert "a b\n" == "a b" + ['\n'] && "a b\n\r" == "a b\n" + ['\r'];
  }

  /** A move event: who, from, to, when, whether it captures and whether it jumps. */
  lemma MovesLookLikeThis()
    ensures EncodeMoveEvent(MoveEvent(1200, White, Queen, Position(6, 4), Position(3, 4), true, false), BOARD)
         == "wQ e2 e5 1200 1 0"
  {
    NumbersLookLikeThis();
    SquaresLookLikeThis();
    hide IntText, SquareName, Join;
    JoinSix("wQ", "e2", "e5", "1200", "1", "0");
  }

  lemma JoinTwo(a: string, b: string)
    ensures Join([a, b]) == a + " " + b
  {
    assert [a, b][1..] == [b];
  }

  lemma JoinThree(a: string, b: string, c: string)
    ensures Join([a, b, c]) == a + " " + b + " " + c
  {
    JoinTwo(b, c);
    assert [a, b, c][1..] == [b, c];
  }

  lemma JoinFour(a: string, b: string, c: string, d: string)
    ensures Join([a, b, c, d]) == a + " " + b + " " + c + " " + d
  {
    JoinThree(b, c, d);
    assert [a, b, c, d][1..] == [b, c, d];
  }

  lemma JoinFive(a: string, b: string, c: string, d: string, e: string)
    ensures Join([a, b, c, d, e]) == a + " " + b + " " + c + " " + d + " " + e
  {
    JoinFour(b, c, d, e);
    assert [a, b, c, d, e][1..] == [b, c, d, e];
  }

  lemma JoinSix(a: string, b: string, c: string, d: string, e: string, f: string)
    ensures Join([a, b, c, d, e, f]) == a + " " + b + " " + c + " " + d + " " + e + " " + f
  {
    JoinFive(b, c, d, e, f);
    assert [a, b, c, d, e, f][1..] == [b, c, d, e, f];
  }

  /** A login and a roster: a line each for the two halves. */
  lemma LoginsLookLikeThis()
    ensures Wire.EncodeLogin("ann", "secret") == "user ann\npass secret\n"
  {
    hide Unlines;
    assert "user " + "ann" == "user ann" && "pass " + "secret" == "pass secret";
    Wire.UnlinesTwo("user ann", "pass secret");
    assert "user ann" + "\n" + "pass secret" + "\n" == "user ann\npass secret\n";
  }

  lemma RostersLookLikeThis()
    ensures Wire.EncodePayload(Wire.Roster(Some("ann"), Some(1200), None, None), BOARD) == "white 1200 ann\n"
  {
    hide IntText;
    NumbersLookLikeThis();
    assert "1200" + " " + "ann" == "1200 ann" && "white" + " " + "1200 ann" == "white 1200 ann";
    assert Wire.SeatLines("white", Some("ann"), Some(1200)) == ["white 1200 ann"];
    assert Wire.SeatLines("black", None, None) == [];
    assert ["white 1200 ann"] + [] == ["white 1200 ann"] && ["white 1200 ann"][1..] == [];
    assert Unlines([]) == "";
  }

  /** Progress is written with three decimals. */
  lemma ProgressLooksLikeThis()
    ensures EncodeProgress(0.25) == "0.250" && EncodeProgress(1.0) == "1.000"
  {
    assert Thousandths(0.25) == 250 && Thousandths(1.0) == 1000;
    assert ThreeDigits(250) == "250" && ThreeDigits(0) == "000";
  }

  lemma SmallBoardLooksLikeThis()
    ensures SquareName(Position(0, 0), 1) == "a1" && SquareName(Position(0, 1), 1) == "b1"
    ensures NatText(12) == "12" && IntText(2) == "2" && IntText(1) == "1"
  {
    assert NatText(1) == "1";
  }

  /** The lines of a frame: the flag, the size, a king under way, its journey, and a rest on its next square. */
  lemma PieceLinesLookLikeThis()
    ensures Join(PieceFields(Piece(12, White, King, Position(0, 0), Moving), Position(0, 0), 1)) == "piece 12 wK a1 M"
  {
    hide Join, NatText, SquareName;
    SmallBoardLooksLikeThis();
    JoinFive("piece", "12", "wK", "a1", "M");
    assert "piece" + " " + "12" + " " + "wK" + " " + "a1" + " " + "M" == "piece 12 wK a1 M";
  }

  lemma ActivityLinesLookLikeThis()
    ensures Join(MotionFields(MotionState(Position(0, 0), Position(0, 1), 0.25), 1)) == "motion a1 b1 0.250"
    ensures Join(CooldownFields(CooldownState(Position(0, 1), 1.0), 1)) == "cooldown b1 1.000"
  {
    hide Join, NatText, SquareName, EncodeProgress;
    SmallBoardLooksLikeThis();
    ProgressLooksLikeThis();
    JoinFour("motion", "a1", "b1", "0.250");
    JoinThree("cooldown", "b1", "1.000");
    assert "motion" + " " + "a1" + " " + "b1" + " " + "0.250" == "motion a1 b1 0.250";
    assert "cooldown" + " " + "b1" + " " + "1.000" == "cooldown b1 1.000";
  }

  lemma HeadLinesLookLikeThis()
    ensures var head := HeadLines(Grid(2, 1, map[]), true);
            |head| == 2 && Join(head[0]) == "over 1" && Join(head[1]) == "size 2 1"
  {
    hide Join, IntText;
    SmallBoardLooksLikeThis();
    JoinTwo("over", "1");
    JoinThree("size", "2", "1");
    assert "over" + " " + "1" == "over 1" && "size" + " " + "2" + " " + "1" == "size 2 1";
  }

  lemma StatesLookLikeThis()
    ensures StateLetter(Idle) == 'I' && StateLetter(Moving) == 'M' && StateLetter(Airborne) == 'A'
    ensures StateLetter(Resting) == 'R' && StateLetter(Captured) == 'C'
  {
  }
}
