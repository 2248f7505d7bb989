/** The client's copy of the game: what messages do to it, what it highlights and what it sends. */
module RemoteGames {
  import opened Model
  import opened Boards
  import opened Motions
  import opened Rules
  import RuleEngine
  import opened ArbiterInvariant
  import opened CommandsKeep
  import opened EngineSpec
  import opened EngineRuns
  import opened Notation
  import opened StateCodec
  import opened Snapshots
  import Wire

  datatype Lobby = Lobby(searching: bool, inGame: bool, roomId: string, status: string)

  datatype Players = Players(whiteName: string, blackName: string, whiteRating: Option<int>, blackRating: Option<int>)

  datatype Sent = Sent(mover: Color, text: string)

  /** All that a client knows, as a value. */
  datatype Client = Client(
    grid: Grid, over: bool, motions: seq<MotionState>, cooldowns: seq<CooldownState>, own: set<Color>,
    published: seq<Announcement>, players: Players, authError: Option<string>, lobby: Lobby,
    countdown: Option<int>, sent: seq<Sent>)

  function ValueOr<T>(value: Option<T>, fallback: T): T {
    if value.Some? then value.value else fallback
  }

  function Understood(v: Client, m: Wire.WireMessage): Client {
    match m
    case StateUpdate(frame) =>
      var read := DecodeFrame(frame);
      if read.None? then v
      else v.(grid := read.value.0, over := read.value.1.over,
              motions := read.value.1.motions, cooldowns := read.value.1.cooldowns)
    case Move(event) => v.(published := v.published + [Moved(event)])
    case Capture(captured) => v.(published := v.published + [Took(captured)])
    case Role(role) => if role.Some? then v.(own := v.own + {role.value}) else v
    case Roster(wn, wr, bn, br) => v.(players := Players(ValueOr(wn, ""), ValueOr(bn, ""), wr, br))
    case AuthRejected(reason) => v.(authError := Some(reason))
    case EnteredRoom(id) => v.(lobby := Lobby(false, true, id, ""))
    case NoMatch => v.(lobby := v.lobby.(searching := false, status := "Couldn't find a match"))
    case RoomError(reason) => v.(lobby := v.lobby.(searching := false, status := reason))
    case OpponentDisconnected(seconds) => v.(countdown := Some(seconds))
    case OpponentReconnected => v.(countdown := None)
    case _ => v
  }

  function Received(v: Client, message: string): Client {
    var m := Wire.Decode(message, v.grid.height);
    if m.None? then v else Understood(v, m.value)
  }

  predicate IsBusy(v: Client, cell: Position) {
    || (exists i :: 0 <= i < |v.motions| && v.motions[i].from == cell)
    || (exists i :: 0 <= i < |v.cooldowns| && v.cooldowns[i].cell == cell)
  }

  /** The client offers `to` as a place to go for the piece on `source`. */
  ghost predicate Highlights(v: Client, source: Position, to: Position) {
    && !v.over && !IsBusy(v, source)
    && source in v.grid.cells && v.grid.cells[source].color in v.own
    && LegalMove(v.grid, v.grid.cells[source], to)
  }

  // ---- a frame received is the game seen ----

  function FrameMessage(frame: string, height: int): string {
    Wire.Encode(Wire.StateUpdate(frame), height)
  }

  /** Receiving the game's own frame leaves the client with its board, its flag and its activity. */
  lemma FrameArrives(g: Game, v: Client)
    requires Inv(g.world) && Narrow(g.world)
    ensures OnPaths(g.world.active)
    ensures var s := SnapshotOf(g);
            Received(v, FrameMessage(EncodeState(s), g.world.height))
              == v.(grid := s.grid, over := g.over, motions := RoundedMotions(s.motions),
                    cooldowns := RoundedCooldowns(s.cooldowns))
  {
    GamesArePresentable(g);
    var s := SnapshotOf(g);
    FrameReadsBack(s);
    var m := Wire.StateUpdate(EncodeState(s));
    Wire.MessageReadsBack(m, v.grid.height);
    hide DecodeFrame, EncodeState, Wire.Decode, Wire.Split, SnapshotOf, Presentable, Inv;
    assert FrameMessage(EncodeState(s), g.world.height) == Wire.Encode(m, v.grid.height);
  }

  ghost predicate Follows(g: Game, v: Client)
    requires OnPaths(g.world.active)
  {
    && v.grid == Grid(g.world.width, g.world.height, g.world.cells) && v.over == g.over
    && |v.motions| == |g.world.active| && |v.cooldowns| == |g.world.resting|
    && (forall i :: 0 <= i < |v.motions| ==> v.motions[i].from == CurrentCell(g.world.active[i]))
    && (forall i :: 0 <= i < |v.cooldowns| ==> v.cooldowns[i].cell == g.world.resting[i].cell)
  }

  lemma RestHasIndex(resting: seq<Cooldown>, r: Cooldown)
    requires r in resting
    ensures exists i :: 0 <= i < |resting| && resting[i] == r
  {
  }

  lemma IndexedRest(resting: seq<Cooldown>, i: int)
    requires 0 <= i < |resting|
    ensures resting[i] in resting
  {
  }

  lemma RestsSeen(g: Game, v: Client, c: Position)
    requires GameInv(g) && OnPaths(g.world.active) && Follows(g, v) && c in g.world.cells
    ensures (exists i :: 0 <= i < |v.cooldowns| && v.cooldowns[i].cell == c) ==>
              g.world.cells[c].state == Moving || g.world.cells[c].state == Resting
    ensures g.world.cells[c].state == Resting ==> exists i :: 0 <= i < |v.cooldowns| && v.cooldowns[i].cell == c
  {
    var w := g.world;
    assert RestsTrack(w.cells, w.airborne, w.resting);
    if i :| 0 <= i < |v.cooldowns| && v.cooldowns[i].cell == c {
      IndexedRest(w.resting, i);
    }
    if w.cells[c].state == Resting {
      var r :| r in w.resting && r.pieceId == w.cells[c].id;
      RestHasIndex(w.resting, r);
      var i :| 0 <= i < |w.resting| && w.resting[i] == r;
      assert v.cooldowns[i].cell == c;
    }
  }

  /** What looks busy is exactly what is moving or resting: no rest of a captured piece lingers under an idle one, and a
      piece in the air cannot be told from an idle one. */
  lemma BusyTellsState(g: Game, v: Client, c: Position)
    requires GameInv(g) && OnPaths(g.world.active) && Follows(g, v) && c in g.world.cells
    ensures IsBusy(v, c) <==> g.world.cells[c].state == Moving || g.world.cells[c].state == Resting
  {
    RestsSeen(g, v, c);
    StatesTellActivities(g, c);
    hide GameInv;
    var w := g.world;
    if w.cells[c].state == Moving {
      var i :| 0 <= i < |w.active| && CurrentCell(w.active[i]) == c;
      assert v.motions[i].from == c;
    }
  }

  lemma AcceptedIffLegal(g: Game, c: Position, to: Position)
    requires GameInv(g)
    ensures MoveReply(g, c, to) == Ok <==>
              !g.over && c in g.world.cells && g.world.cells[c].state == Idle && LegalMove(GridOf(g.world), g.world.cells[c], to)
  {
    var w := g.world;
    if c in w.cells && LegalMove(GridOf(w), w.cells[c], to) {
      assert w.cells[c].cell == c;
      LegalMoveHasClearWay(GridOf(w), w.cells[c], to);
      hide LegalMove, TravelPath;
      assert MayStandOn(GridOf(w), w.cells[c].color, to);
    }
  }

  /** The client that has just received the game's frame. */
  ghost function Informed(g: Game, v: Client): Client
    requires OnPaths(g.world.active) && g.world.width > 0 && g.world.height > 0
  {
    Received(v, FrameMessage(EncodeState(SnapshotOf(g)), g.world.height))
  }

  lemma InformedFollows(g: Game, v: Client)
    requires GameInv(g) && Narrow(g.world)
    ensures OnPaths(g.world.active) && Follows(g, Informed(g, v)) && Informed(g, v).own == v.own
  {
    FrameArrives(g, v);
    hide DecodeFrame, EncodeState, Wire.Decode, FrameMessage, Received;
    var s := SnapshotOf(g);
    assert Informed(g, v).motions == RoundedMotions(s.motions);
    forall i | 0 <= i < |s.motions|
      ensures RoundedMotions(s.motions)[i].from == CurrentCell(g.world.active[i])
    {
      assert s.motions[i] == MotionStateOf(g.world.active[i]);
    }
  }

  /** Main result. Right after a frame the client highlights a move of its own exactly when the engine would accept it,
      for every piece that is not in the air; for one in the air the engine accepts nothing, and the client, which cannot
      tell, highlights what its rule allows. */
  lemma HighlightsAreAcceptedMoves(g: Game, v: Client, c: Position, to: Position)
    requires GameInv(g) && Narrow(g.world) && c in g.world.cells && g.world.cells[c].color in v.own
    ensures OnPaths(g.world.active)
    ensures g.world.cells[c].state != Airborne ==>
              (Highlights(Informed(g, v), c, to) <==> MoveReply(g, c, to) == Ok)
    ensures g.world.cells[c].state == Airborne ==>
              && MoveReply(g, c, to) != Ok
              && (Highlights(Informed(g, v), c, to) <==> !g.over && LegalMove(GridOf(g.world), g.world.cells[c], to))
  {
    InformedFollows(g, v);
    BusyTellsState(g, Informed(g, v), c);
    AcceptedIffLegal(g, c, to);
    StatesTellActivities(g, c);
    hide GameInv, LegalMove, IsBusy, Informed, MoveReply;
  }

  /** Nobody else's pieces, and no empty square, are ever highlighted. */
  lemma OthersAreNotHighlighted(g: Game, v: Client, c: Position, to: Position)
    requires GameInv(g) && Narrow(g.world)
    requires c !in g.world.cells || g.world.cells[c].color !in v.own
    ensures OnPaths(g.world.active) && !Highlights(Informed(g, v), c, to)
  {
    InformedFollows(g, v);
    hide GameInv, LegalMove, IsBusy, Informed;
  }

  // ---- what the client sends ----

  function SendCommand(v: Client, from: Position, to: Position): Client {
    if from !in v.grid.cells || v.grid.cells[from].color !in v.own then v
    else
      var p := v.grid.cells[from];
      v.(sent := v.sent + [Sent(p.color, Wire.Encode(Wire.Command(PlayerCommand(p.color, p.kind, from, to)), v.grid.height))])
  }

  /** What is sent names the mover truly, and the server reads exactly what the squares sent for can be read as: the very
      command meant when both squares are on a board up to 31 columns wide and their ranks are equally long. */
  lemma SentCommandsAreTrue(v: Client, from: Position, to: Position)
    requires from in v.grid.cells && v.grid.cells[from].color in v.own
    ensures var p, h := v.grid.cells[from], v.grid.height;
            var c := PlayerCommand(p.color, p.kind, from, to);
            var sent := SendCommand(v, from, to).sent;
            && |sent| == |v.sent| + 1 && sent[|v.sent|].mover == p.color
            && (var read := CommandRead(c, h);
                Wire.Decode(sent[|v.sent|].text, h) == if read.Some? then Some(Wire.Command(read.value)) else None)
            && (Wire.Decode(sent[|v.sent|].text, h) == Some(Wire.Command(c)) <==>
                  OnNamedBoard(from, h) && OnNamedBoard(to, h) && RankLength(from, h) == RankLength(to, h))
  {
    var p := v.grid.cells[from];
    Wire.IllFormedIsNotReadBack(Wire.Command(PlayerCommand(p.color, p.kind, from, to)), v.grid.height);
  }

  // ---- the object ----

  class RemoteGame {
    var replica: Board
    var over: bool
    var motions: seq<MotionState>
    var cooldowns: seq<CooldownState>
    var ownColors: set<Color>
    /** Events republished to the client's own listeners, in order. */
    var published: seq<Announcement>
    var players: Players
    var authError: Option<string>
    var lobby: Lobby
    var opponentCountdown: Option<int>
    /** What went out through the sink, in order. */
    var sent: seq<Sent>

    ghost predicate Valid()
      reads this, replica, replica.grid
    {
      replica.Valid()
    }

    ghost function View(): Client
      reads this, replica
    {
      Client(replica.AsGrid(), over, motions, cooldowns, ownColors, published, players, authError, lobby,
             opponentCountdown, sent)
    }

    constructor (replica: Board)
      requires replica.Valid()
      ensures Valid() && this.replica == replica
      ensures View() == Client(replica.AsGrid(), false, [], [], {}, [], Players("", "", None, None), None,
                               Lobby(false, false, "", ""), None, [])
    {
      this.replica := replica;
      over, motions, cooldowns, ownColors, published := false, [], [], {}, [];
      players, authError, lobby := Players("", "", None, None), None, Lobby(false, false, "", "");
      opponentCountdown, sent := None, [];
    }

    /** A state frame replaces the replica, or, when it is refused, touches nothing. */
    method ReceiveState(frame: string)
      requires Valid()
      modifies this`replica, this`over, this`motions, this`cooldowns
      ensures Valid() && View() == Understood(old(View()), Wire.StateUpdate(frame))
      ensures DecodeFrame(frame).None? ==> replica == old(replica)
    {
      hide DecodeFrame;
      var state, after := DecodeState(frame, replica);
      if state.Some? {
        replica := after;
        over, motions, cooldowns := state.value.over, state.value.motions, state.value.cooldowns;
      }
    }

    method Receive(message: string)
      requires Valid()
      modifies this
      ensures Valid() && View() == Received(old(View()), message)
    {
      hide DecodeFrame, Wire.Decode;
      var decoded := Wire.Decode(message, replica.height);
      if decoded.None? {
        return;
      }
      match decoded.value
      case StateUpdate(frame) => ReceiveState(frame);
      case Move(event) => published := published + [Moved(event)];
      case Capture(captured) => published := published + [Took(captured)];
      case Role(role) =>
        if role.Some? {
          ownColors := ownColors + {role.value};
        }
      case Roster(wn, wr, bn, br) => players := Players(ValueOr(wn, ""), ValueOr(bn, ""), wr, br);
      case AuthRejected(reason) => authError := Some(reason);
      case EnteredRoom(id) => lobby := Lobby(false, true, id, "");
      case NoMatch => lobby := lobby.(searching := false, status := "Couldn't find a match");
      case RoomError(reason) => lobby := lobby.(searching := false, status := reason);
      case OpponentDisconnected(seconds) => opponentCountdown := Some(seconds);
      case OpponentReconnected => opponentCountdown := None;
      case _ =>
    }

    method LooksBusy(cell: Position) returns (busy: bool)
      ensures busy == IsBusy(View(), cell)
    {
      for k := 0 to |motions|
        invariant forall i :: 0 <= i < k ==> motions[i].from != cell
      {
        if motions[k].from == cell {
          return true;
        }
      }
      for k := 0 to |cooldowns|
        invariant forall i :: 0 <= i < k ==> cooldowns[i].cell != cell
      {
        if cooldowns[k].cell == cell {
          return true;
        }
      }
      busy := false;
    }

    /** Asking about a square off the board is a board error, unless the game is over or the square looks busy. */
    method LegalDestinationsFor(source: Position) returns (destinations: set<Position>, error: Option<BoardError>)
      requires Valid()
      ensures error == if !over && !IsBusy(View(), source) && !InBounds(replica.width, replica.height, source)
                       then Some(OutOfBoundsError) else None
      ensures forall to :: to in destinations <==> Highlights(View(), source, to)
    {
      destinations, error := {}, None;
      hide LegalMove, IsBusy;
      var busy := LooksBusy(source);
      if over || busy {
        return;
      }
      var piece;
      piece, error := replica.GetPieceAt(source);
      if piece.None? || piece.value.color !in ownColors {
        return;
      }
      destinations := RuleEngine.GetLegalDestinations(replica, source);
    }

    method RequestMove(from: Position, to: Position) returns (error: Option<BoardError>)
      requires Valid()
      modifies this`sent
      ensures Valid() && View() == SendCommand(old(View()), from, to)
      ensures error == if InBounds(replica.width, replica.height, from) then None else Some(OutOfBoundsError)
    {
      hide Wire.Encode;
      var piece;
      piece, error := replica.GetPieceAt(from);
      if piece.None? || piece.value.color !in ownColors {
        return;
      }
      var command := PlayerCommand(piece.value.color, piece.value.kind, from, to);
      sent := sent + [Sent(piece.value.color, Wire.Encode(Wire.Command(command), replica.height))];
    }

    method RequestJump(cell: Position) returns (error: Option<BoardError>)
      requires Valid()
      modifies this`sent
      ensures Valid() && View() == SendCommand(old(View()), cell, cell)
      ensures error == if InBounds(replica.width, replica.height, cell) then None else Some(OutOfBoundsError)
    {
      error := RequestMove(cell, cell);
    }
  }
}
