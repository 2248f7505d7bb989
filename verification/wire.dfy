/** Every message between client and server as text, and when it reads back as itself. */
module Wire {
  import opened Model
  import opened Text
  import opened Notation

  datatype WireMessage =
    | Command(command: PlayerCommand)
    | Role(role: Option<Color>)
    | Move(event: MoveEvent)
    | Capture(captured: CapturedPiece)
    | StateUpdate(frame: string)
    | Login(username: string, password: string)
    | Roster(whiteName: Option<string>, whiteRating: Option<int>, blackName: Option<string>, blackRating: Option<int>)
    | AuthRejected(reason: string)
    | SeekGame
    | CancelSeek
    | CreateRoom
    | JoinRoom(joinId: string)
    | EnteredRoom(enteredId: string)
    | NoMatch
    | RoomError(error: string)
    | OpponentDisconnected(secondsLeft: int)
    | OpponentReconnected

  // ---- splitting at the first space ----

  function SpaceAt(s: string): (n: nat)
    ensures n <= |s| && (n < |s| ==> s[n] == ' ')
    ensures forall i :: 0 <= i < n ==> s[i] != ' '
  {
    if s == "" || s[0] == ' ' then 0 else 1 + SpaceAt(s[1..])
  }

  datatype KeyValue = KeyValue(keyword: string, value: string)

  /** A keyword, one space, and all the rest as its value. */
  function ReadKeyValue(line: string): Option<KeyValue> {
    var n := SpaceAt(line);
    if n == |line| then None else Some(KeyValue(line[..n], line[n + 1..]))
  }

  /** A message's tag and payload; a message with no space is all tag. */
  function Split(message: string): KeyValue {
    var n := SpaceAt(message);
    if n == |message| then KeyValue(message, "") else KeyValue(message[..n], message[n + 1..])
  }

  predicate HasNoSpace(s: string) {
    forall i :: 0 <= i < |s| ==> s[i] != ' '
  }

  lemma SpaceAfter(keyword: string, value: string)
    requires HasNoSpace(keyword)
    ensures ReadKeyValue(keyword + " " + value) == Some(KeyValue(keyword, value))
    ensures Split(keyword + " " + value) == KeyValue(keyword, value)
  {
    var s := keyword + " " + value;
    assert s[|keyword|] == ' ';
    assert forall i :: 0 <= i < |keyword| ==> s[i] == keyword[i];
    assert SpaceAt(s) == |keyword|;
    assert s[..|keyword|] == keyword && s[|keyword| + 1..] == value;
  }

  // ---- the payloads with a structure of their own ----

  function EncodeRole(role: Option<Color>): string {
    [if role.Some? then ColorLetter(role.value) else '-']
  }

  function DecodeRole(payload: string): Option<WireMessage> {
    if |payload| != 1 then None
    else if payload[0] == 'w' then Some(Role(Some(White)))
    else if payload[0] == 'b' then Some(Role(Some(Black)))
    else if payload[0] == '-' then Some(Role(None))
    else None
  }

  function EncodeLogin(username: string, password: string): string {
    Unlines(["user " + username, "pass " + password])
  }

  /** The last user line and the last pass line count. */
  function LastValue(lines: seq<string>, keyword: string): Option<string> {
    if lines == [] then None
    else
      var field := ReadKeyValue(lines[|lines| - 1]);
      if field.Some? && field.value.keyword == keyword then Some(field.value.value)
      else LastValue(lines[..|lines| - 1], keyword)
  }

  function DecodeLogin(payload: string): Option<WireMessage> {
    var username, password := LastValue(Lines(payload), "user"), LastValue(Lines(payload), "pass");
    if username.None? || password.None? then None
    else if Trim(username.value) == "" || Trim(password.value) == "" then None
    else Some(Login(username.value, password.value))
  }

  function RosterLine(seat: string, rating: int, name: string): string {
    seat + " " + (IntText(rating) + " " + name)
  }

  function RatingOr0(rating: Option<int>): int {
    if rating.Some? then rating.value else 0
  }

  function SeatLines(seat: string, name: Option<string>, rating: Option<int>): seq<string> {
    if name.Some? then [RosterLine(seat, RatingOr0(rating), name.value)] else []
  }

  datatype Seat = Seat(name: string, rating: int)

  /** A seat line needs a rating that reads as a number and a name after it. */
  function ReadSeat(line: string, seat: string): Option<Seat> {
    var field := ReadKeyValue(line);
    if field.None? || field.value.keyword != seat then None
    else
      var rest := ReadKeyValue(field.value.value);
      if rest.None? || Stoi(rest.value.keyword).None? then None
      else Some(Seat(rest.value.value, Stoi(rest.value.keyword).value))
  }

  function LastSeat(lines: seq<string>, seat: string): Option<Seat> {
    if lines == [] then None
    else
      var read := ReadSeat(lines[|lines| - 1], seat);
      if read.Some? then read else LastSeat(lines[..|lines| - 1], seat)
  }

  function DecodeRoster(payload: string): WireMessage {
    var white, black := LastSeat(Lines(payload), "white"), LastSeat(Lines(payload), "black");
    Roster(if white.Some? then Some(white.value.name) else None,
           if white.Some? then Some(white.value.rating) else None,
           if black.Some? then Some(black.value.name) else None,
           if black.Some? then Some(black.value.rating) else None)
  }

  function NonEmptyId(payload: string): Option<string> {
    if Trim(payload) == "" then None else Some(Trim(payload))
  }

  // ---- messages ----

  function Tag(m: WireMessage): string {
    match m
    case Command(_) => "CMD"
    case Role(_) => "ROLE"
    case Move(_) => "MOVE"
    case Capture(_) => "CAPTURE"
    case StateUpdate(_) => "STATE"
    case Login(_, _) => "LOGIN"
    case Roster(_, _, _, _) => "ROSTER"
    case AuthRejected(_) => "AUTHFAIL"
    case SeekGame => "SEEK"
    case CancelSeek => "CANCEL"
    case CreateRoom => "CREATE"
    case JoinRoom(_) => "JOIN"
    case EnteredRoom(_) => "ROOM"
    case NoMatch => "NOMATCH"
    case RoomError(_) => "ROOMERR"
    case OpponentDisconnected(_) => "OPPGONE"
    case OpponentReconnected => "OPPBACK"
  }

  function EncodePayload(m: WireMessage, h: int): string {
    match m
    case Command(c) => EncodeCommand(c, h)
    case Role(r) => EncodeRole(r)
    case Move(e) => EncodeMoveEvent(e, h)
    case Capture(p) => EncodeCapturedPiece(p)
    case StateUpdate(frame) => frame
    case Login(u, p) => EncodeLogin(u, p)
    case Roster(wn, wr, bn, br) => Unlines(SeatLines("white", wn, wr) + SeatLines("black", bn, br))
    case AuthRejected(reason) => reason
    case JoinRoom(id) => id
    case EnteredRoom(id) => id
    case RoomError(reason) => reason
    case OpponentDisconnected(s) => IntText(s)
    case _ => ""
  }

  function DecodePayload(tag: string, p: string, h: int): Option<WireMessage> {
    if tag == "CMD" then
      var c := DecodeCommand(p, h); if c.Some? then Some(Command(c.value)) else None
    else if tag == "ROLE" then DecodeRole(p)
    else if tag == "MOVE" then
      var e := DecodeMoveEvent(p, h); if e.Some? then Some(Move(e.value)) else None
    else if tag == "CAPTURE" then
      var c := DecodeCapturedPiece(p); if c.Some? then Some(Capture(c.value)) else None
    else if tag == "STATE" then Some(StateUpdate(p))
    else if tag == "LOGIN" then DecodeLogin(p)
    else if tag == "ROSTER" then Some(DecodeRoster(p))
    else if tag == "AUTHFAIL" then Some(AuthRejected(p))
    else if tag == "SEEK" then Some(SeekGame)
    else if tag == "CANCEL" then Some(CancelSeek)
    else if tag == "CREATE" then Some(CreateRoom)
    else if tag == "JOIN" then
      var id := NonEmptyId(p); if id.Some? then Some(JoinRoom(id.value)) else None
    else if tag == "ROOM" then
      var id := NonEmptyId(p); if id.Some? then Some(EnteredRoom(id.value)) else None
    else if tag == "NOMATCH" then Some(NoMatch)
    else if tag == "ROOMERR" then Some(RoomError(p))
    else if tag == "OPPGONE" then
      var s := Stoi(p); if s.Some? then Some(OpponentDisconnected(s.value)) else None
    else if tag == "OPPBACK" then Some(OpponentReconnected)
    else None
  }

  function Encode(m: WireMessage, h: int): string {
    Tag(m) + " " + EncodePayload(m, h)
  }

  function Decode(text: string, h: int): Option<WireMessage> {
    var parts := Split(text);
    DecodePayload(parts.keyword, parts.value, h)
  }

  // ---- reading back ----

  lemma LastLineRead(lines: seq<string>, keyword: string)
    requires lines != [] && ReadKeyValue(lines[|lines| - 1]).Some?
    ensures var field := ReadKeyValue(lines[|lines| - 1]).value;
            LastValue(lines, keyword) == if field.keyword == keyword then Some(field.value)
                                         else LastValue(lines[..|lines| - 1], keyword)
  {
  }

  lemma LoginReadsBack(username: string, password: string)
    requires IsLine(username) && IsLine(password)
    ensures DecodeLogin(EncodeLogin(username, password)) ==
              if Trim(username) == "" || Trim(password) == "" then None else Some(Login(username, password))
  {
    var user, pass := "user " + username, "pass " + password;
    var lines := [user, pass];
    assert IsLine(user) && IsLine(pass);
    hide IsLine, Lines, Unlines, ReadKeyValue, Trim, Split, LastValue;
    assert "user" + " " + username == user && "pass" + " " + password == pass;
    SpaceAfter("user", username);
    SpaceAfter("pass", password);
    LinesUnlines(lines);
    assert "pass"[0] != "user"[0];
    assert lines[..1] == [user];
    LastLineRead(lines, "pass");
    LastLineRead(lines, "user");
    LastLineRead(lines[..1], "user");
  }

  lemma SeatReadsBack(seat: string, rating: int, name: string)
    requires HasNoSpace(seat)
    ensures ReadSeat(RosterLine(seat, rating, name), seat) == Some(Seat(name, rating))
    ensures forall other :: other != seat ==> ReadSeat(RosterLine(seat, rating, name), other) == None
  {
    StoiReadsBack(rating);
    SpaceAfter(seat, IntText(rating) + " " + name);
    SpaceAfter(IntText(rating), name);
  }

  ghost predicate SeatWritten(name: Option<string>, rating: Option<int>) {
    (name.Some? <==> rating.Some?) && (name.Some? ==> IsLine(name.value))
  }

  lemma RosterLineIsLine(seat: string, rating: int, name: string)
    requires IsLine(seat) && IsLine(name)
    ensures IsLine(RosterLine(seat, rating, name))
  {
    StoiReadsBack(rating);
  }

  lemma SeatLinesReadBack(seat: string, name: Option<string>, rating: Option<int>, other: string)
    requires HasNoSpace(seat) && IsLine(seat) && SeatWritten(name, rating) && other != seat
    ensures var lines := SeatLines(seat, name, rating);
            && |lines| == (if name.Some? then 1 else 0)
            && (forall i :: 0 <= i < |lines| ==> IsLine(lines[i]))
            && (name.Some? ==> ReadSeat(lines[0], seat) == Some(Seat(name.value, rating.value)))
            && (name.Some? ==> ReadSeat(lines[0], other) == None)
  {
    if name.Some? {
      SeatReadsBack(seat, rating.value, name.value);
      RosterLineIsLine(seat, rating.value, name.value);
    }
  }

  lemma LastSeatOfTwo(lines: seq<string>, seat: string)
    requires |lines| <= 2
    ensures LastSeat(lines, seat) ==
              if |lines| == 2 && ReadSeat(lines[1], seat).Some? then ReadSeat(lines[1], seat)
              else if |lines| >= 1 then ReadSeat(lines[0], seat) else None
  {
    if |lines| == 2 {
      assert lines[..1] == [lines[0]];
    }
  }

  /** The white line first, the black line second, either of them possibly missing. */
  lemma SeatsFound(white: seq<string>, black: seq<string>, w: Option<Seat>, b: Option<Seat>)
    requires |white| == (if w.Some? then 1 else 0) && |black| == (if b.Some? then 1 else 0)
    requires w.Some? ==> ReadSeat(white[0], "white") == w && ReadSeat(white[0], "black") == None
    requires b.Some? ==> ReadSeat(black[0], "black") == b && ReadSeat(black[0], "white") == None
    ensures LastSeat(white + black, "white") == w && LastSeat(white + black, "black") == b
  {
    hide ReadSeat;
    LastSeatOfTwo(white + black, "white");
    LastSeatOfTwo(white + black, "black");
  }

  lemma SeatTagsDiffer()
    ensures "white" != "black" && HasNoSpace("white") && HasNoSpace("black") && IsLine("white") && IsLine("black")
  {
    assert "white"[0] != "black"[0];
  }

  lemma RosterReadsBack(wn: Option<string>, wr: Option<int>, bn: Option<string>, br: Option<int>)
    requires SeatWritten(wn, wr) && SeatWritten(bn, br)
    ensures DecodeRoster(Unlines(SeatLines("white", wn, wr) + SeatLines("black", bn, br))) == Roster(wn, wr, bn, br)
  {
    var white, black := SeatLines("white", wn, wr), SeatLines("black", bn, br);
    SeatTagsDiffer();
    hide ReadSeat, SeatLines, LastSeat, Lines, Unlines, IsLine, HasNoSpace;
    SeatLinesReadBack("white", wn, wr, "black");
    SeatLinesReadBack("black", bn, br, "white");
    LinesUnlines(white + black);
    SeatsFound(white, black,
               if wn.Some? then Some(Seat(wn.value, wr.value)) else None,
               if bn.Some? then Some(Seat(bn.value, br.value)) else None);
  }

  /** A message the other side can be trusted to read: see each kind. */
  ghost predicate WellFormed(m: WireMessage, h: int) {
    match m
    case Command(c) =>
      OnNamedBoard(c.from, h) && OnNamedBoard(c.to, h) && RankLength(c.from, h) == RankLength(c.to, h)
    case Move(e) => OnNamedBoard(e.from, h) && OnNamedBoard(e.to, h)
    case Login(u, p) => IsLine(u) && IsLine(p) && Trim(u) != "" && Trim(p) != ""
    case Roster(wn, wr, bn, br) => SeatWritten(wn, wr) && SeatWritten(bn, br)
    case JoinRoom(id) => id != "" && Trim(id) == id
    case EnteredRoom(id) => id != "" && Trim(id) == id
    case _ => true
  }

  lemma GameMessageReadsBack(m: WireMessage, h: int)
    requires WellFormed(m, h) && (m.Command? || m.Role? || m.Move? || m.Capture? || m.StateUpdate?)
    ensures DecodePayload(Tag(m), EncodePayload(m, h), h) == Some(m)
  {
    match m
    case Command(c) => CommandReadsBack(c, h);
    case Move(e) => MoveEventReadsBack(e, h);
    case Capture(p) => CapturedPieceReadsBack(p);
    case _ =>
  }

  lemma AccountMessageReadsBack(m: WireMessage, h: int)
    requires WellFormed(m, h) && (m.Login? || m.Roster? || m.AuthRejected?)
    ensures DecodePayload(Tag(m), EncodePayload(m, h), h) == Some(m)
  {
    match m
    case Login(u, p) => LoginReadsBack(u, p);
    case Roster(wn, wr, bn, br) => RosterReadsBack(wn, wr, bn, br);
    case _ =>
  }

  lemma LobbyRequestReadsBack(m: WireMessage, h: int)
    requires WellFormed(m, h) && (m.SeekGame? || m.CancelSeek? || m.CreateRoom? || m.JoinRoom?)
    ensures DecodePayload(Tag(m), EncodePayload(m, h), h) == Some(m)
  {
  }

  lemma LobbyAnswerReadsBack(m: WireMessage, h: int)
    requires WellFormed(m, h)
    requires m.EnteredRoom? || m.NoMatch? || m.RoomError? || m.OpponentDisconnected? || m.OpponentReconnected?
    ensures DecodePayload(Tag(m), EncodePayload(m, h), h) == Some(m)
  {
    hide Trim, Stoi, IntText, DecodeLogin, DecodeRoster, DecodeRole;
    hide DecodeMoveEvent, DecodeCommand, DecodeCapturedPiece;
    if m.OpponentDisconnected? {
      StoiReadsBack(m.secondsLeft);
    }
  }

  lemma TagHasNoSpace(m: WireMessage)
    ensures HasNoSpace(Tag(m))
  {
  }

  /** Main result: each of the seventeen kinds of message, when well formed, reads back as itself. */
  lemma MessageReadsBack(m: WireMessage, h: int)
    requires WellFormed(m, h)
    ensures Decode(Encode(m, h), h) == Some(m)
  {
    hide Split, DecodePayload, EncodePayload, Tag, WellFormed, HasNoSpace;
    TagHasNoSpace(m);
    SpaceAfter(Tag(m), EncodePayload(m, h));
    match m
    case Command(_) => GameMessageReadsBack(m, h);
    case Role(_) => GameMessageReadsBack(m, h);
    case Move(_) => GameMessageReadsBack(m, h);
    case Capture(_) => GameMessageReadsBack(m, h);
    case StateUpdate(_) => GameMessageReadsBack(m, h);
    case Login(_, _) => AccountMessageReadsBack(m, h);
    case Roster(_, _, _, _) => AccountMessageReadsBack(m, h);
    case AuthRejected(_) => AccountMessageReadsBack(m, h);
    case SeekGame => LobbyRequestReadsBack(m, h);
    case CancelSeek => LobbyRequestReadsBack(m, h);
    case CreateRoom => LobbyRequestReadsBack(m, h);
    case JoinRoom(_) => LobbyRequestReadsBack(m, h);
    case _ => LobbyAnswerReadsBack(m, h);
  }

  // ---- what else is read ----

  lemma {:induction false} LineLengthStops(s: string)
    ensures forall i :: 0 <= i < LineLength(s) ==> s[i] != '\n'
  {
    if s != "" && s[0] != '\n' {
      LineLengthStops(s[1..]);
      assert forall i :: 0 < i < LineLength(s) ==> s[i] == s[1..][i - 1];
    }
  }

  lemma {:induction false} LinesAreLines(s: string)
    ensures forall k :: 0 <= k < |Lines(s)| ==> IsLine(Lines(s)[k])
    decreases |s|
  {
    LineLengthStops(s);
    var n := LineLength(s);
    if s != "" && n < |s| {
      LinesAreLines(s[n + 1..]);
    }
  }

  lemma {:induction false} LastValueIsLine(lines: seq<string>, keyword: string)
    requires forall k :: 0 <= k < |lines| ==> IsLine(lines[k])
    ensures LastValue(lines, keyword).Some? ==> IsLine(LastValue(lines, keyword).value)
  {
    if lines != [] {
      assert IsLine(lines[|lines| - 1]);
      LastValueIsLine(lines[..|lines| - 1], keyword);
    }
  }

  /** A login reads back exactly when neither text breaks its line nor is blank. */
  lemma LoginReadsBackExactly(username: string, password: string)
    ensures DecodeLogin(EncodeLogin(username, password)) == Some(Login(username, password)) <==>
              IsLine(username) && IsLine(password) && Trim(username) != "" && Trim(password) != ""
  {
    var lines := Lines(EncodeLogin(username, password));
    LinesAreLines(EncodeLogin(username, password));
    LastValueIsLine(lines, "user");
    LastValueIsLine(lines, "pass");
    hide IsLine, Lines, EncodeLogin, Trim, LastValue;
    if IsLine(username) && IsLine(password) {
      LoginReadsBack(username, password);
    }
  }

  /** Main result: commands and logins read back exactly when well formed, and of the ill-formed it is known what is read
      instead: a command, nothing or the one with the same file letters; a login without line breaks, nothing. */
  lemma IllFormedIsNotReadBack(m: WireMessage, h: int)
    requires m.Command? || m.Login?
    ensures Decode(Encode(m, h), h) == Some(m) <==> WellFormed(m, h)
    ensures m.Command? ==>
              var read := CommandRead(m.command, h);
              Decode(Encode(m, h), h) == if read.Some? then Some(Command(read.value)) else None
    ensures m.Login? && IsLine(m.username) && IsLine(m.password) && !WellFormed(m, h) ==> Decode(Encode(m, h), h) == None
  {
    hide Split, Trim, IsLine, DecodeLogin, EncodeLogin, DecodeCommand, EncodeCommand, CommandRead, OnNamedBoard, HasNoSpace;
    TagHasNoSpace(m);
    SpaceAfter(Tag(m), EncodePayload(m, h));
    match m
    case Command(c) => CommandReadsBack(c, h);
    case Login(u, p) =>
      LoginReadsBackExactly(u, p);
      if IsLine(u) && IsLine(p) {
        LoginReadsBack(u, p);
      }
  }

  lemma UnlinesThree(a: string, b: string, c: string)
    ensures Unlines([a, b, c]) == a + "\n" + b + "\n" + c + "\n"
    ensures Unlines([a + "\n" + b, c]) == a + "\n" + b + "\n" + c + "\n"
  {
    UnlinesTwo(b, c);
    assert [a, b, c][1..] == [b, c];
    UnlinesTwo(a + "\n" + b, c);
  }

  lemma UnlinesTwo(a: string, b: string)
    ensures Unlines([a, b]) == a + "\n" + b + "\n"
  {
    assert [a, b][1..] == [b] && [b][1..] == [];
    assert Unlines([b]) == b + "\n";
    assert a + "\n" + (b + "\n") == a + "\n" + b + "\n";
  }

  /** A line break in a name can make it read as another name. */
  lemma BrokenNameIsMisread(before: string, name: string, password: string)
    requires IsLine(before) && IsLine(name) && IsLine(password) && Trim(name) != "" && Trim(password) != ""
    ensures DecodeLogin(EncodeLogin(before + "\nuser " + name, password)) == Some(Login(name, password))
  {
    var user, other, pass := "user " + before, "user " + name, "pass " + password;
    var lines := [user, other, pass];
    assert IsLine(user) && IsLine(other) && IsLine(pass);
    hide IsLine, Lines, Unlines, ReadKeyValue, Trim, Split, LastValue;
    UnlinesThree(user, other, pass);
    assert "user " + (before + "\nuser " + name) == user + "\n" + other;
    assert "user" + " " + name == other && "pass" + " " + password == pass;
    SpaceAfter("user", name);
    SpaceAfter("pass", password);
    LinesUnlines(lines);
    assert "pass"[0] != "user"[0];
    assert lines[..2] == [user, other];
    LastLineRead(lines, "pass");
    LastLineRead(lines, "user");
    LastLineRead(lines[..2], "user");
  }
}
