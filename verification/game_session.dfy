/** One hosted game: who may command what, what the clients are told, and when ratings are settled. */
module Sessions {
  import opened Model
  import opened Boards
  import opened ArbiterSpec
  import Conservation
  import opened ArbiterTick
  import opened ArbiterInvariant
  import opened Pawns
  import opened EngineSpec
  import opened EngineRuns
  import opened Engines
  import opened Notation
  import opened StateCodec
  import opened Snapshots
  import opened Ratings
  import opened Seats
  import Wire

  /** One message, and whom it went to. */
  datatype Outgoing = Outgoing(to: set<ClientId>, message: Wire.WireMessage)

  /** `settled` and `forfeited` record the losing colour of every settlement and of every forfeit so far. */
  datatype Session = Session(
    odds: Odds, game: Game, seats: Table, members: set<ClientId>,
    persisted: seq<Settlement>, settled: seq<Color>, forfeited: seq<Color>, sent: seq<Outgoing>)

  // ---- what goes out ----

  function SendTo(s: Session, client: ClientId, message: Wire.WireMessage): Session {
    s.(sent := s.sent + [Outgoing({client}, message)])
  }

  function Broadcast(s: Session, message: Wire.WireMessage): Session {
    s.(sent := s.sent + [Outgoing(s.members, message)])
  }

  function NameOf(o: Option<Occupant>): Option<string> {
    if o.Some? then Some(o.value.username) else None
  }

  function RatingOf(o: Option<Occupant>): Option<int> {
    if o.Some? then Some(o.value.rating) else None
  }

  ghost function RosterOf(t: Table): Wire.WireMessage {
    var white, black := OccupantOf(t, White), OccupantOf(t, Black);
    Wire.Roster(NameOf(white), RatingOf(white), NameOf(black), RatingOf(black))
  }

  lemma RosterIsRoster(t: Table)
    ensures RosterOf(t).Roster?
  {
  }

  ghost function FrameOf(g: Game): Wire.WireMessage
    requires OnPaths(g.world.active) && g.world.width > 0 && g.world.height > 0
  {
    Wire.StateUpdate(EncodeState(SnapshotOf(g)))
  }

  // ---- seats ----

  ghost function PlayerSeat(t: Table, client: ClientId): Option<Occupant> {
    var color := ColorHeldBy(t, client);
    if color.None? then None else OccupantOf(t, color.value)
  }

  ghost function SeatIn(s: Session, client: ClientId, color: Option<Color>, username: string, rating: int): Session {
    var seated := s.(seats := s.seats[client := Occupant(color, username, rating)]);
    Broadcast(SendTo(seated, client, Wire.Role(color)), RosterOf(seated.seats))
  }

  ghost function Add(s: Session, client: ClientId, username: string, rating: int): Session {
    SeatIn(s, client, AssignColor(s.seats), username, rating)
  }

  function Vacate(s: Session, client: ClientId): Session {
    s.(seats := s.seats - {client})
  }

  // ---- results ----

  ghost function Settle(s: Session, loser: Color): Session
    requires Reciprocal(s.odds)
  {
    var after := s.(seats := Settled(s.odds, s.seats, loser),
                    persisted := s.persisted + Persisted(s.odds, s.seats, loser),
                    settled := s.settled + [loser]);
    if IsTaken(s.seats, White) && IsTaken(s.seats, Black) then Broadcast(after, RosterOf(after.seats)) else after
  }

  /** What the session does with one event of the engine: it passes it on, and a taken king settles the game. */
  ghost function Forward(s: Session, a: Announcement): (u: Session)
    requires Reciprocal(s.odds)
    ensures u.odds == s.odds
  {
    match a
    case Moved(event) => Broadcast(s, Wire.Move(event))
    case Took(captured) =>
      var told := Broadcast(s, Wire.Capture(captured));
      if captured.kind == King then Settle(told, captured.color) else told
  }

  ghost function ForwardAll(s: Session, news: seq<Announcement>): (u: Session)
    requires Reciprocal(s.odds)
    ensures u.odds == s.odds
  {
    if news == [] then s
    else Forward(ForwardAll(s, news[..|news| - 1]), news[|news| - 1])
  }

  /** The engine has gone on to `game`; everything it announced on the way is passed on. */
  ghost function GoOn(s: Session, game: Game): Session
    requires Reciprocal(s.odds) && s.game.announced <= game.announced
  {
    ForwardAll(s.(game := game), game.announced[|s.game.announced|..])
  }

  ghost function ApplyCommand(s: Session, client: ClientId, c: PlayerCommand): Session
    requires Reciprocal(s.odds)
  {
    if ColorHeldBy(s.seats, client) != Some(c.player) then s
    else if c.from == c.to then GoOn(s, RequestJump(s.game, c.from))
    else GoOn(s, RequestMove(s.game, c.from, c.to))
  }

  ghost function Forfeited(s: Session, loser: Color): Session
    requires Reciprocal(s.odds) && OnPaths(s.game.world.active) && s.game.world.width > 0 && s.game.world.height > 0
  {
    if s.game.over then s
    else
      var over := s.(game := EndGame(s.game), forfeited := s.forfeited + [loser]);
      var settled := Settle(over, loser);
      Broadcast(settled, FrameOf(over.game))
  }

  // ---- what stays true ----

  /** The colours of the kings taken, in order. */
  function KingColors(announced: seq<Announcement>): seq<Color> {
    if announced == [] then []
    else
      var last := announced[|announced| - 1];
      KingColors(announced[..|announced| - 1]) + if last.Took? && last.piece.kind == King then [last.piece.color] else []
  }

  function KingsTaken(announced: seq<Announcement>): nat {
    |KingColors(announced)|
  }

  /** Ratings are settled against the one who forfeited, if anybody did, and then against the owner of each king taken, in
      order; the game is over exactly when one of these has happened. */
  ghost predicate SessionInv(s: Session) {
    && Reciprocal(s.odds) && GameInv(s.game) && s.game.world.width > 0 && s.game.world.height > 0
    && |s.forfeited| <= 1
    && s.settled == s.forfeited + KingColors(s.game.announced)
    && (s.game.over <==> s.settled != [])
  }

  lemma {:induction false} KingColorsMore(announced: seq<Announcement>, news: seq<Announcement>)
    ensures KingColors(announced + news) == KingColors(announced) + KingColors(news)
  {
    if news == [] {
      assert announced + news == announced;
    } else {
      var n := |news| - 1;
      assert (announced + news)[..|announced + news| - 1] == announced + news[..n];
      KingColorsMore(announced, news[..n]);
    }
  }

  /** Passing one event on. */
  lemma ForwardingOne(s: Session, a: Announcement)
    requires Reciprocal(s.odds)
    ensures var u, taken := Forward(s, a), a.Took? && a.piece.kind == King;
            && u.game == s.game && u.members == s.members && u.forfeited == s.forfeited && u.odds == s.odds
            && u.settled == s.settled + (if taken then [a.piece.color] else [])
            && u.seats == (if taken then Settled(s.odds, s.seats, a.piece.color) else s.seats)
            && u.persisted == s.persisted + (if taken then Persisted(s.odds, s.seats, a.piece.color) else [])
  {
    hide Settled, Persisted, RosterOf, IsTaken, Reciprocal;
  }

  /** Passing events on settles against the owner of each king among them, in order, and changes nobody's seat. */
  lemma {:induction false} ForwardingSettlesKings(s: Session, news: seq<Announcement>)
    requires Reciprocal(s.odds)
    ensures var u := ForwardAll(s, news);
            && u.game == s.game && u.members == s.members && u.forfeited == s.forfeited && u.odds == s.odds
            && u.settled == s.settled + KingColors(news)
            && u.seats == SettledAll(s.odds, s.seats, KingColors(news))
            && SameSeats(s.seats, u.seats)
  {
    hide Forward, Settled, Reciprocal, SettledAll, SameSeats;
    SettlementsConserve(s.odds, s.seats, KingColors(news));
    if news == [] {
      NobodySettled(s.odds, s.seats);
    } else {
      var n := |news| - 1;
      ForwardingSettlesKings(s, news[..n]);
      ForwardingOne(ForwardAll(s, news[..n]), news[n]);
      var front := KingColors(news[..n]);
      assert front + [] == front && s.settled + front + [] == s.settled + front;
      if news[n].Took? {
        OneMoreSettled(s.odds, s.seats, front, news[n].piece.color);
      }
    }
  }

  lemma NobodySettled(odds: Odds, t: Table)
    requires Reciprocal(odds)
    ensures SettledAll(odds, t, []) == t
  {
  }

  lemma OneMoreSettled(odds: Odds, t: Table, losers: seq<Color>, loser: Color)
    requires Reciprocal(odds)
    ensures SettledAll(odds, t, losers + [loser]) == Settled(odds, SettledAll(odds, t, losers), loser)
  {
    assert (losers + [loser])[..|losers|] == losers;
  }

  /** When one king is among the events, its owner's rating does not rise and the opponent's does not fall; with both
      seats taken the opponent gains its share of 32, to the nearest point. */
  lemma KingsOwnerLoses(s: Session, news: seq<Announcement>, owner: Color)
    requires Reciprocal(s.odds) && KingColors(news) == [owner]
    ensures var u, other := ForwardAll(s, news), OpponentOf(owner);
            && RatingOn(u.seats, owner) <= RatingOn(s.seats, owner) && RatingOn(u.seats, other) >= RatingOn(s.seats, other)
            && (IsTaken(s.seats, White) && IsTaken(s.seats, Black) ==>
                  IsNearestShare(RatingOn(u.seats, other) - RatingOn(s.seats, other),
                                 s.odds(RatingOn(s.seats, owner) - RatingOn(s.seats, other))))
  {
    hide Settled, IsTaken, Reciprocal, ForwardAll, IsNearestShare;
    ForwardingSettlesKings(s, news);
    assert [owner][..0] == [];
    assert SettledAll(s.odds, s.seats, [owner]) == Settled(s.odds, s.seats, owner);
    SettlingIsFair(s.odds, s.seats, owner);
    if IsTaken(s.seats, White) && IsTaken(s.seats, Black) {
      SettledGainIsNearestShare(s.odds, s.seats, owner);
    }
  }

  lemma {:induction false} KingsEndTheGame(victims: seq<CapturedPiece>)
    ensures var told := seq(|victims|, v requires 0 <= v < |victims| => Took(victims[v]));
            KingsTaken(told) > 0 <==> KingAmong(victims)
  {
    if victims != [] {
      var n := |victims| - 1;
      KingsEndTheGame(victims[..n]);
      var told := seq(|victims|, v requires 0 <= v < |victims| => Took(victims[v]));
      assert told[..n] == seq(n, v requires 0 <= v < n => Took(victims[..n][v]));
      assert KingAmong(victims) <==> KingAmong(victims[..n]) || victims[n].kind == King by {
        if KingAmong(victims[..n]) {
          var v :| 0 <= v < n && victims[..n][v].kind == King;
          assert victims[v].kind == King;
        }
        if v :| 0 <= v < |victims| && victims[v].kind == King {
          assert v < n ==> victims[..n][v].kind == King;
        }
      }
    }
  }

  /** A wait only adds announcements, and it is over afterwards exactly when it was before or a king is among them. */
  lemma WaitAnnounces(g: Game, ms: int)
    requires GameInv(g) && OrdinaryWait(g.world, ms)
    ensures g.announced <= Wait(g, ms).announced
    ensures Wait(g, ms).over <==> g.over || KingsTaken(Wait(g, ms).announced[|g.announced|..]) > 0
    ensures Wait(g, ms).world.width == g.world.width && Wait(g, ms).world.height == g.world.height
  {
    WaitIsApplyReports(g, ms);
    WaitKeepsPunctual(g, ms);
    var t := Advance(g.world, ms);
    var mid := g.(elapsedMs := g.elapsedMs + ms, world := WorldOf(t));
    ReportsAnnounceVictims(mid, t.reports);
    var victims := Conservation.CapturesOf(t.reports);
    KingsEndTheGame(victims);
    hide Wait, ApplyReports, Advance, GameInv, OrdinaryWait, KingsTaken, KingAmong;
    var told := seq(|victims|, v requires 0 <= v < |victims| => Took(victims[v]));
    assert Wait(g, ms).announced == g.announced + told;
    assert (g.announced + told)[|g.announced|..] == told;
  }

  lemma GoOnKeepsSession(s: Session, game: Game)
    requires SessionInv(s) && GameInv(game) && s.game.announced <= game.announced
    requires game.world.width == s.game.world.width && game.world.height == s.game.world.height
    requires game.over <==> s.game.over || KingsTaken(game.announced[|s.game.announced|..]) > 0
    ensures SessionInv(GoOn(s, game)) && GoOn(s, game).game == game
    ensures SameSeats(s.seats, GoOn(s, game).seats) && GoOn(s, game).members == s.members
    ensures GoOn(s, game).forfeited == s.forfeited
  {
    hide GameInv, ForwardAll, KingColors, Reciprocal, SameSeats, SettledAll;
    var news := game.announced[|s.game.announced|..];
    assert game.announced == s.game.announced + news;
    KingColorsMore(s.game.announced, news);
    ForwardingSettlesKings(s.(game := game), news);
    Grouped(s.forfeited, KingColors(s.game.announced), KingColors(news));
  }

  lemma Grouped(a: seq<Color>, b: seq<Color>, c: seq<Color>)
    ensures a + b + c == a + (b + c)
  {
  }

  lemma NoKingInOneMove(announced: seq<Announcement>, a: Announcement)
    requires a.Moved?
    ensures announced <= announced + [a] && KingsTaken((announced + [a])[|announced|..]) == 0
  {
    assert (announced + [a])[|announced|..] == [a];
    assert [a][..0] == [] && KingColors([]) == [];
  }

  lemma CommandAnnounces(g: Game, h: Game, c: PlayerCommand)
    requires GameInv(g)
    requires h == RequestMove(g, c.from, c.to) || h == RequestJump(g, c.from)
    ensures GameInv(h) && g.announced <= h.announced && KingsTaken(h.announced[|g.announced|..]) == 0
    ensures h.over == g.over && h.world.width == g.world.width && h.world.height == g.world.height
  {
    MoveRequestKeepsGame(g, c.from, c.to);
    JumpRequestKeepsGame(g, c.from);
    hide GameInv, KingsTaken, MoveReply;
    if h.announced != g.announced {
      NoKingInOneMove(g.announced, h.announced[|g.announced|]);
    } else {
      assert h.announced[|g.announced|..] == [];
      NoKingInNothing();
    }
  }

  lemma NoKingInNothing()
    ensures KingsTaken([]) == 0
  {
  }

  /** A client commands only the colour it sits on, and a command moves nobody's seat. */
  lemma CommandKeepsSession(s: Session, client: ClientId, c: PlayerCommand)
    requires SessionInv(s)
    ensures var u := ApplyCommand(s, client, c);
            && SessionInv(u) && SameSeats(s.seats, u.seats) && u.members == s.members && u.forfeited == s.forfeited
            && u.game.over == s.game.over
            && (ColorHeldBy(s.seats, client) != Some(c.player) ==> u == s)
  {
    if ColorHeldBy(s.seats, client) == Some(c.player) {
      var h := if c.from == c.to then RequestJump(s.game, c.from) else RequestMove(s.game, c.from, c.to);
      CommandAnnounces(s.game, h, c);
      hide GameInv, GoOn, RequestMove, RequestJump, KingsTaken;
      GoOnKeepsSession(s, h);
    }
  }

  lemma ForwardedMove(s: Session, e: MoveEvent)
    requires Reciprocal(s.odds)
    ensures ForwardAll(s, [Moved(e)]) == Broadcast(s, Wire.Move(e))
    ensures ForwardAll(s, []) == s
  {
    assert [Moved(e)][..0] == [];
  }

  lemma GoOnAfterOne(s: Session, game: Game, e: MoveEvent)
    requires Reciprocal(s.odds) && game.announced == s.game.announced + [Moved(e)]
    ensures GoOn(s, game) == Broadcast(s.(game := game), Wire.Move(e))
  {
    assert game.announced[|s.game.announced|..] == [Moved(e)];
    hide ForwardAll, Broadcast, Reciprocal;
    ForwardedMove(s.(game := game), e);
  }

  lemma GoOnNowhere(s: Session, e: MoveEvent)
    requires Reciprocal(s.odds)
    ensures GoOn(s, s.game) == s
  {
    assert s.game.announced[|s.game.announced|..] == [];
    hide ForwardAll, Reciprocal;
    ForwardedMove(s.(game := s.game), e);
  }

  /** The engine's command a client's command stands for: onto its own square it is a jump. */
  function CommandOf(c: PlayerCommand): Command {
    if c.from == c.to then JumpOn(c.from) else MoveTo(c.from, c.to)
  }

  /** From its own seat a client's command reaches the engine, and if the engine accepts it every member is told the event
      the engine announced, and nothing else. */
  lemma OwnCommandReachesEngine(s: Session, client: ClientId, c: PlayerCommand)
    requires SessionInv(s) && ColorHeldBy(s.seats, client) == Some(c.player)
    ensures GameInv(s.game)
    ensures var u, h := ApplyCommand(s, client, c), GameStep(s.game, CommandOf(c));
            && u.game == h && u.seats == s.seats && u.settled == s.settled
            && (if h == s.game then u.sent == s.sent
                else |h.announced| == |s.game.announced| + 1 && h.announced[|s.game.announced|].Moved?
                     && u.sent == s.sent + [Outgoing(s.members, Wire.Move(h.announced[|s.game.announced|].move))])
  {
    SessionIsInAgreement(s);
    hide SessionInv, GameInv, GoOn, MoveReply, Reciprocal;
    RefusedRequestsChangeNothing(s.game, c.from, c.to);
    var h := GameStep(s.game, CommandOf(c));
    if h == s.game {
      GoOnNowhere(s, MoveEvent(0, White, King, c.from, c.to, false, false));
    } else {
      if c.from == c.to {
        AcceptedJumpIsPublished(s.game, c.from);
      } else {
        AcceptedMoveIsPublished(s.game, c.from, c.to);
      }
      hide RequestMove, RequestJump;
      GoOnAfterOne(s, h, h.announced[|s.game.announced|].move);
    }
  }

  /** A newcomer is told the colour of the seat it got, and everybody the new roster. */
  lemma SeatIsTold(s: Session, client: ClientId, color: Option<Color>, username: string, rating: int)
    ensures var u := SeatIn(s, client, color, username, rating);
            && u.sent == s.sent + [Outgoing({client}, Wire.Role(ColorHeldBy(u.seats, client))),
                                   Outgoing(u.members, RosterOf(u.seats))]
            && client in u.seats && u.seats[client].username == username && u.seats[client].rating == rating
            && (forall other :: other in s.seats && other != client ==> other in u.seats && u.seats[other] == s.seats[other])
            && u.game == s.game
  {
    hide RosterOf;
  }

  /** Joining, the first player free to sit gets white, the next black, and others watch. */
  lemma NewcomerSits(s: Session, client: ClientId, username: string, rating: int)
    ensures var u := Add(s, client, username, rating);
            ColorHeldBy(u.seats, client) ==
              if !IsTaken(s.seats, White) then Some(White) else if !IsTaken(s.seats, Black) then Some(Black) else None
  {
    hide RosterOf, IsTaken;
  }

  ghost function Ticked(s: Session, ms: int): Session
    requires SessionInv(s) && OrdinaryWait(s.game.world, ms)
  {
    hide GameInv, OrdinaryWait, KingColors;
    TickAgrees(s, ms);
    WaitAnnounces(s.game, ms);
    var g := Wait(s.game, ms);
    Broadcast(GoOn(s, g), FrameOf(g))
  }

  lemma TickAgrees(s: Session, ms: int)
    requires SessionInv(s) && OrdinaryWait(s.game.world, ms)
    ensures ms >= 0 && GameInv(s.game) && Inv(s.game.world) && GameInv(Wait(s.game, ms))
    ensures OnPaths(Wait(s.game, ms).world.active) && s.game.world.width > 0 && s.game.world.height > 0
  {
    hide KingsTaken, Reciprocal, GameInv, Wait, Inv, OnPaths, GroundedWorld, OrdinaryTick;
    GameAgrees(s.game);
    StepKeepsGame(s.game, Elapse(ms));
    GameAgrees(Wait(s.game, ms));
    JourneysAreOnPaths(Wait(s.game, ms).world);
  }

  lemma TickKeepsSession(s: Session, ms: int)
    requires SessionInv(s) && OrdinaryWait(s.game.world, ms)
    ensures var u := Ticked(s, ms);
            && SessionInv(u) && SameSeats(s.seats, u.seats) && u.members == s.members && u.forfeited == s.forfeited
            && u.game == Wait(s.game, ms) && (s.game.over ==> u.game.over)
            && OnPaths(u.game.world.active) && |u.sent| > 0
            && u.sent[|u.sent| - 1] == Outgoing(u.members, FrameOf(u.game))
  {
    hide SessionInv, GameInv, Wait, GoOn, SameSeats, OrdinaryWait, FrameOf, OnPaths, KingsTaken;
    SessionIsInAgreement(s);
    TickAgrees(s, ms);
    WaitAnnounces(s.game, ms);
    GoOnKeepsSession(s, Wait(s.game, ms));
    SentDoesNotMatter(GoOn(s, Wait(s.game, ms)), FrameOf(Wait(s.game, ms)));
  }

  /** A tick is the engine's wait, its news passed on, and a frame. */
  lemma TickedInSteps(s: Session, ms: int)
    requires SessionInv(s) && OrdinaryWait(s.game.world, ms)
    ensures ms >= 0 && GameInv(s.game) && Reciprocal(s.odds) && Inv(s.game.world)
    ensures var g := Wait(s.game, ms);
            && GameInv(g) && s.game.announced <= g.announced && OnPaths(g.world.active)
            && g.world.width > 0 && g.world.height > 0
            && (var u := ForwardAll(s.(game := g), g.announced[|s.game.announced|..]);
                u.game == g && Ticked(s, ms) == Broadcast(u, FrameOf(g)))
    ensures SessionInv(Ticked(s, ms))
  {
    hide SessionInv, GameInv, Wait, SameSeats, OrdinaryWait, FrameOf, OnPaths, KingsTaken;
    SessionIsInAgreement(s);
    TickAgrees(s, ms);
    WaitAnnounces(s.game, ms);
    TickKeepsSession(s, ms);
    GoOnKeepsSession(s, Wait(s.game, ms));
  }

  lemma SentDoesNotMatter(s: Session, message: Wire.WireMessage)
    requires SessionInv(s)
    ensures SessionInv(Broadcast(s, message))
  {
  }

  lemma SessionIsInAgreement(s: Session)
    requires SessionInv(s)
    ensures GameInv(s.game) && OnPaths(s.game.world.active) && Reciprocal(s.odds)
    ensures GameInv(EndGame(s.game)) && OnPaths(EndGame(s.game).world.active)
  {
    StepKeepsGame(s.game, Forfeit);
    JourneysAreOnPaths(s.game.world);
  }

  /** A forfeit counts once, and never after the game is over. */
  lemma ForfeitKeepsSession(s: Session, loser: Color)
    requires SessionInv(s)
    ensures OnPaths(s.game.world.active)
    ensures var u := Forfeited(s, loser);
            && SessionInv(u) && u.game.over && SameSeats(s.seats, u.seats) && u.members == s.members
            && u.forfeited == (if s.game.over then s.forfeited else [loser])
            && (s.game.over ==> u == s)
  {
    hide GameInv, Settled, Persisted, RosterOf, FrameOf, KingsTaken, OnPaths, IsTaken, Reciprocal;
    SessionIsInAgreement(s);
    SettlingKeepsSeats(s.odds, s.seats, loser);
  }

  /** A forfeit ends with its word to every member: the frame of the game, now over. */
  lemma ForfeitIsTold(s: Session, loser: Color)
    requires SessionInv(s) && !s.game.over
    ensures OnPaths(s.game.world.active)
    ensures var u := Forfeited(s, loser);
            && u.game == s.game.(over := true) && OnPaths(u.game.world.active)
            && |u.sent| > |s.sent| && u.sent[|u.sent| - 1] == Outgoing(s.members, FrameOf(u.game))
            && u.settled == s.settled + [loser] && u.seats == Settled(s.odds, s.seats, loser)
            && u.persisted == s.persisted + Persisted(s.odds, s.seats, loser)
  {
    hide GameInv, Settled, Persisted, RosterOf, FrameOf, KingColors, OnPaths, IsTaken, Reciprocal;
    SessionIsInAgreement(s);
  }

  // ---- the objects ----

  /** Broadcasts reach the room's members as they are at that moment. */
  class RoomTransport {
    var members: set<ClientId>
    /** What went out, in order. */
    var sent: seq<Outgoing>

    constructor ()
      ensures members == {} && sent == []
    {
      members, sent := {}, [];
    }

    method Send(client: ClientId, message: Wire.WireMessage)
      modifies this`sent
      ensures sent == old(sent) + [Outgoing({client}, message)]
    {
      sent := sent + [Outgoing({client}, message)];
    }

    method Broadcast(message: Wire.WireMessage)
      modifies this`sent
      ensures sent == old(sent) + [Outgoing(members, message)]
    {
      sent := sent + [Outgoing(members, message)];
    }
  }

  class GameSession {
    const engine: GameEngine
    const transport: RoomTransport
    const seats: SeatTable
    const settler: RatingSettler
    ghost var settled: seq<Color>
    ghost var forfeited: seq<Color>

    constructor (board: Board, transport: RoomTransport, odds: Odds)
      requires board.Valid() && Reciprocal(odds)
      requires GameInv(Game(World(board.width, board.height, board.cells, [], [], []), false, 0, [], []))
      ensures Valid() && this.transport == transport && engine.board == board
      ensures fresh(engine) && fresh(engine.arbiter) && fresh(seats) && fresh(settler)
      ensures SessionInv(View())
      ensures View() == Session(odds, Game(World(board.width, board.height, board.cells, [], [], []), false, 0, [], []),
                                map[], transport.members, [], [], [], transport.sent)
    {
      this.transport := transport;
      engine := new GameEngine(board);
      var table := new SeatTable();
      seats := table;
      settler := new RatingSettler(table, odds);
      settled, forfeited := [], [];
    }

    ghost predicate Valid()
      reads this, engine, engine.board, engine.board.grid, engine.arbiter
    {
      engine.Valid() && settler.seats == seats && Reciprocal(settler.odds)
    }

    ghost function View(): Session
      reads this, engine, engine.arbiter, engine.arbiter.board, transport, seats, settler
    {
      Session(settler.odds, engine.View(), seats.occupants, transport.members, settler.persisted, settled, forfeited,
              transport.sent)
    }

    method SendRole(client: ClientId, color: Option<Color>)
      requires Valid()
      modifies transport`sent
      ensures Valid() && View() == SendTo(old(View()), client, Wire.Role(color))
    {
      transport.Send(client, Wire.Role(color));
    }

    method BroadcastRoster()
      requires Valid()
      modifies transport`sent
      ensures Valid() && View() == Broadcast(old(View()), RosterOf(old(View()).seats))
    {
      var white := seats.FindOccupantOf(White);
      var black := seats.FindOccupantOf(Black);
      transport.Broadcast(Wire.Roster(NameOf(white), RatingOf(white), NameOf(black), RatingOf(black)));
    }

    method AddClient(client: ClientId, username: string, rating: int)
      requires Valid()
      modifies seats, transport`sent
      ensures Valid() && View() == Add(old(View()), client, username, rating)
    {
      var color := seats.FreeColor();
      seats.Seat(client, color, username, rating);
      SendRole(client, color);
      BroadcastRoster();
    }

    method FindPlayerSeat(client: ClientId) returns (seat: Option<Occupant>)
      requires Valid()
      ensures seat == PlayerSeat(seats.occupants, client)
    {
      var color := ColorHeldBy(seats.occupants, client);
      if color.None? {
        return None;
      }
      seat := seats.FindOccupantOf(color.value);
    }

    method VacateSeat(client: ClientId)
      requires Valid()
      modifies seats
      ensures Valid() && View() == Vacate(old(View()), client)
    {
      seats.Remove(client);
    }

    method SeatReturning(client: ClientId, color: Color, username: string, rating: int)
      requires Valid()
      modifies seats, transport`sent
      ensures Valid() && View() == SeatIn(old(View()), client, Some(color), username, rating)
    {
      seats.Seat(client, Some(color), username, rating);
      SendRole(client, Some(color));
      BroadcastRoster();
    }

    method SettleGame(loser: Color)
      requires Valid()
      modifies this, settler, seats, transport`sent
      ensures Valid() && View() == Settle(old(View()), loser)
    {
      hide IsTaken, Settled, Persisted;
      var rated := settler.Settle(loser);
      settled := settled + [loser];
      if rated {
        BroadcastRoster();
      }
    }

    /** Pass on everything the engine has announced from the given event on. */
    method ForwardFrom(first: nat)
      requires Valid() && first <= |engine.announced|
      modifies this, settler, seats, transport`sent
      ensures Valid() && View() == ForwardAll(old(View()), engine.announced[first..])
      ensures engine.announced == old(engine.announced)
    {
      hide Settle, RosterOf;
      ghost var s := View();
      ghost var news := engine.announced[first..];
      for k := first to |engine.announced|
        invariant Valid() && View() == ForwardAll(s, news[..k - first])
      {
        assert news[..k + 1 - first][..k - first] == news[..k - first];
        var a := engine.announced[k];
        match a
        case Moved(event) => transport.Broadcast(Wire.Move(event));
        case Took(captured) =>
          transport.Broadcast(Wire.Capture(captured));
          if captured.kind == King {
            SettleGame(captured.color);
          }
      }
      assert news[..|engine.announced| - first] == news;
    }

    /** Authorization first; whether the move itself is legal is the engine's answer. */
    method ApplyClientCommand(client: ClientId, command: PlayerCommand)
      requires Valid() && SessionInv(View())
      modifies this, settler, seats, transport`sent, engine, engine.arbiter, engine.board, engine.board.grid
      ensures Valid() && SessionInv(View()) && View() == ApplyCommand(old(View()), client, command)
    {
      hide GameInv, ForwardAll, RequestMove, RequestJump, KingsTaken, Reciprocal;
      CommandKeepsSession(View(), client, command);
      var role := ColorHeldBy(seats.occupants, client);
      if role != Some(command.player) {
        return;
      }
      var known := |engine.announced|;
      ghost var g := engine.View();
      if command.from == command.to {
        var reply := engine.RequestJump(command.from);
      } else {
        var reason := engine.RequestMove(command.from, command.to);
      }
      CommandAnnounces(g, engine.View(), command);
      ForwardFrom(known);
    }

    method BroadcastFrame()
      requires Valid() && GameInv(engine.View())
      modifies transport`sent
      ensures Valid() && OnPaths(engine.View().world.active) && engine.View() == old(engine.View())
      ensures engine.board.width > 0 && engine.board.height > 0
      ensures View() == Broadcast(old(View()), FrameOf(old(View()).game))
    {
      hide GameInv;
      var frame := WriteGame(engine);
      transport.Broadcast(Wire.StateUpdate(frame));
    }

    method Forfeit(loser: Color)
      requires Valid() && SessionInv(View())
      modifies this, settler, seats, transport`sent, engine
      ensures OnPaths(old(View()).game.world.active)
      ensures Valid() && SessionInv(View()) && View() == Forfeited(old(View()), loser)
    {
      hide Settle, FrameOf, SessionInv, OnPaths;
      ForfeitKeepsSession(View(), loser);
      SessionIsInAgreement(View());
      if engine.over {
        return;
      }
      engine.EndGame();
      forfeited := forfeited + [loser];
      SettleGame(loser);
      BroadcastFrame();
    }

    method Tick(ms: int)
      requires Valid() && SessionInv(View()) && OrdinaryWait(View().game.world, ms)
      modifies this, settler, seats, transport`sent, engine, engine.arbiter, engine.board, engine.board.grid
      ensures Valid() && SessionInv(View()) && View() == Ticked(old(View()), ms)
    {
      hide SessionInv, GameInv, Inv, OrdinaryWait, EngineSpec.Wait, ForwardAll, FrameOf, Ticked, OnPaths, Reciprocal;
      TickedInSteps(View(), ms);
      var known := |engine.announced|;
      engine.Wait(ms);
      ForwardFrom(known);
      BroadcastFrame();
    }
  }
}
