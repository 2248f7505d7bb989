/** From the server's messages to what a client knows: members hear exactly what the engine announced, in order. */
module Hearing {
  import opened Model
  import opened Text
  import opened ArbiterInvariant
  import opened EngineSpec
  import opened EngineRuns
  import opened Notation
  import opened Ratings
  import opened Seats
  import opened Snapshots
  import opened StateCodec
  import opened Sessions
  import opened Rooms
  import opened RemoteGames
  import ArbiterTick
  import Wire

  /** A client that gets these messages, one after the other. */
  function Heard(v: Client, messages: seq<Outgoing>, h: int): Client {
    if messages == [] then v
    else
      var n := |messages| - 1;
      Received(Heard(v, messages[..n], h), Wire.Encode(messages[n].message, h))
  }

  lemma OneMoreHeard(v: Client, messages: seq<Outgoing>, o: Outgoing, h: int)
    ensures Heard(v, messages + [o], h) == Received(Heard(v, messages, h), Wire.Encode(o.message, h))
    ensures Heard(v, [], h) == v
  {
    assert (messages + [o])[..|messages|] == messages;
  }

  // ---- one message ----

  /** Everything else the client knows is as before. */
  ghost predicate SameBesidesNews(v: Client, u: Client) {
    && u.grid == v.grid && u.over == v.over && u.motions == v.motions && u.cooldowns == v.cooldowns
    && u.own == v.own && u.authError == v.authError && u.lobby == v.lobby && u.countdown == v.countdown && u.sent == v.sent
  }

  function MessageOf(a: Announcement): Wire.WireMessage {
    match a
    case Moved(e) => Wire.Move(e)
    case Took(p) => Wire.Capture(p)
  }

  predicate Nameable(a: Announcement, h: int) {
    a.Moved? ==> OnNamedBoard(a.move.from, h) && OnNamedBoard(a.move.to, h)
  }

  lemma NewsIsHeard(v: Client, a: Announcement, h: int)
    requires v.grid.height == h && Nameable(a, h)
    ensures var u := Received(v, Wire.Encode(MessageOf(a), h));
            u.published == v.published + [a] && SameBesidesNews(v, u) && u.players == v.players
  {
    hide Wire.Encode, Wire.Decode, OnNamedBoard;
    Wire.MessageReadsBack(MessageOf(a), h);
  }

  /** A roster is no news, whatever names it bears. */
  lemma RosterIsNoNews(v: Client, m: Wire.WireMessage, h: int)
    requires m.Roster?
    ensures var u := Received(v, Wire.Encode(m, h)); u.published == v.published && SameBesidesNews(v, u)
  {
    RosterDecodes(m, h, v.grid.height);
    hide Wire.Encode, Wire.Decode;
  }

  lemma RosterDecodes(m: Wire.WireMessage, h: int, k: int)
    requires m.Roster?
    ensures Wire.Decode(Wire.Encode(m, h), k).Some? && Wire.Decode(Wire.Encode(m, h), k).value.Roster?
  {
    hide Wire.DecodeRoster;
    assert Wire.Tag(m) == "ROSTER" && Wire.HasNoSpace("ROSTER");
    Wire.SpaceAfter("ROSTER", Wire.EncodePayload(m, h));
    assert Wire.DecodePayload("ROSTER", Wire.EncodePayload(m, h), k) == Some(Wire.DecodeRoster(Wire.EncodePayload(m, h)));
    IsRoster(Wire.EncodePayload(m, h));
  }

  lemma IsRoster(payload: string)
    ensures Wire.DecodeRoster(payload).Roster?
  {
  }

  // ---- the news of a session ----

  /** Everything sent since goes to these, and tells these news and no others. */
  ghost predicate Tells(sent: seq<Outgoing>, more: seq<Outgoing>, to: set<ClientId>, news: seq<Announcement>, v: Client, h: int) {
    && sent <= more
    && (forall k :: |sent| <= k < |more| ==> more[k].to == to)
    && var u := Heard(v, more[|sent|..], h); u.published == v.published + news && SameBesidesNews(v, u)
  }

  lemma ForwardSends(s: Session, a: Announcement)
    requires Reciprocal(s.odds)
    ensures var u := Forward(s, a);
            || u.sent == s.sent + [Outgoing(s.members, MessageOf(a))]
            || (u.sent == s.sent + [Outgoing(s.members, MessageOf(a))] + [Outgoing(s.members, RosterOf(u.seats))])
  {
    hide Settled, Persisted, RosterOf, IsTaken, Reciprocal;
  }

  lemma TellsMore(
    sent: seq<Outgoing>, more: seq<Outgoing>, to: set<ClientId>, news: seq<Announcement>, v: Client, h: int, a: Announcement)
    requires Tells(sent, more, to, news, v, h) && v.grid.height == h && Nameable(a, h)
    ensures Tells(sent, more + [Outgoing(to, MessageOf(a))], to, news + [a], v, h)
  {
    hide Heard, Received, MessageOf, Nameable, OnNamedBoard;
    var o := Outgoing(to, MessageOf(a));
    assert (more + [o])[|sent|..] == more[|sent|..] + [o];
    OneMoreHeard(v, more[|sent|..], o, h);
    assert v.published + news + [a] == v.published + (news + [a]);
    NewsIsHeard(Heard(v, more[|sent|..], h), a, h);
  }

  lemma RosterTellsNothing(
    sent: seq<Outgoing>, more: seq<Outgoing>, to: set<ClientId>, news: seq<Announcement>, v: Client, h: int,
    m: Wire.WireMessage)
    requires Tells(sent, more, to, news, v, h) && m.Roster?
    ensures Tells(sent, more + [Outgoing(to, m)], to, news, v, h)
  {
    hide Heard, Received;
    var o := Outgoing(to, m);
    assert (more + [o])[|sent|..] == more[|sent|..] + [o];
    OneMoreHeard(v, more[|sent|..], o, h);
    RosterIsNoNews(Heard(v, more[|sent|..], h), m, h);
  }

  lemma TellsNothing(sent: seq<Outgoing>, to: set<ClientId>, v: Client, h: int)
    ensures Tells(sent, sent, to, [], v, h)
  {
    assert sent[|sent|..] == [];
  }

  /** Main result: whatever the engine has announced is told to every member, and a member that hears it has it published
      to its own listeners: the same events, in the same order, and nothing else changes. */
  lemma {:induction false} NewsArrive(s: Session, news: seq<Announcement>, v: Client, h: int)
    requires Reciprocal(s.odds) && v.grid.height == h
    requires forall k :: 0 <= k < |news| ==> Nameable(news[k], h)
    ensures Tells(s.sent, ForwardAll(s, news).sent, s.members, news, v, h)
  {
    hide Tells, Nameable, Forward, MessageOf, RosterOf, Reciprocal;
    if news == [] {
      TellsNothing(s.sent, s.members, v, h);
    } else {
      var n := |news| - 1;
      NewsArrive(s, news[..n], v, h);
      ForwardingSettlesKings(s, news[..n]);
      var mid := ForwardAll(s, news[..n]);
      ForwardSends(mid, news[n]);
      assert Nameable(news[n], h);
      TellsMore(s.sent, mid.sent, s.members, news[..n], v, h, news[n]);
      assert news[..n] + [news[n]] == news;
      var told := mid.sent + [Outgoing(s.members, MessageOf(news[n]))];
      var seats := Forward(mid, news[n]).seats;
      RosterIsRoster(seats);
      RosterTellsNothing(s.sent, told, s.members, news, v, h, RosterOf(seats));
    }
  }

  // ---- a tick ----

  /** A wait announces victims only. */
  lemma WaitAnnouncesVictims(g: Game, ms: int, k: int)
    requires GameInv(g) && OrdinaryWait(g.world, ms)
    requires |g.announced| <= k < |Wait(g, ms).announced|
    ensures Wait(g, ms).announced[k].Took?
  {
    hide Inv, Wait, OrdinaryWait, ApplyReports, ArbiterTick.Advance;
    WaitMatters(g, ms);
    WaitIsApplyReports(g, ms);
    var t := ArbiterTick.Advance(g.world, ms);
    ReportsAnnounceVictims(g.(elapsedMs := g.elapsedMs + ms, world := ArbiterTick.WorldOf(t)), t.reports);
  }

  lemma WaitMatters(g: Game, ms: int)
    requires GameInv(g) && OrdinaryWait(g.world, ms)
    ensures ms >= 0 && Inv(g.world)
  {
  }

  /** Main result: a member that hears all of a tick has the tick's victims published, in order, and then the board, the
      flag and the activity of the game as it is now. */
  lemma TickIsHeard(s: Session, ms: int, v: Client)
    requires SessionInv(s) && OrdinaryWait(s.game.world, ms) && v.grid.height == s.game.world.height
    requires ms >= 0 && Inv(s.game.world) && Narrow(Wait(s.game, ms).world)
    ensures var u, g := Ticked(s, ms), Wait(s.game, ms);
            && s.sent <= u.sent && u.game == g && s.game.announced <= g.announced && OnPaths(g.world.active)
            && var x := Heard(v, u.sent[|s.sent|..], s.game.world.height);
               && x.published == v.published + g.announced[|s.game.announced|..]
               && x.grid == Grid(g.world.width, g.world.height, g.world.cells) && x.over == g.over
               && x.motions == RoundedMotions(SnapshotOf(g).motions)
               && x.cooldowns == RoundedCooldowns(SnapshotOf(g).cooldowns)
  {
    hide SessionInv, GameInv, Inv, OrdinaryWait, Wait, ForwardAll, Ticked, Received, OnPaths, Heard, SnapshotOf, EncodeState;
    hide Narrow;
    TickedInSteps(s, ms);
    WaitAnnounces(s.game, ms);
    GameAgrees(Wait(s.game, ms));
    var g, h := Wait(s.game, ms), s.game.world.height;
    var news := g.announced[|s.game.announced|..];
    forall k | 0 <= k < |news|
      ensures Nameable(news[k], h)
    {
      WaitAnnouncesVictims(s.game, ms, |s.game.announced| + k);
    }
    NewsArrive(s.(game := g), news, v, h);
    var told := ForwardAll(s.(game := g), news);
    ForwardingSettlesKings(s.(game := g), news);
    var o := Outgoing(told.members, FrameOf(g));
    assert Ticked(s, ms).sent == told.sent + [o];
    assert (told.sent + [o])[|s.sent|..] == told.sent[|s.sent|..] + [o];
    OneMoreHeard(v, told.sent[|s.sent|..], o, h);
    var x := Heard(v, told.sent[|s.sent|..], h);
    FrameArrives(g, x);
    FrameMessageIs(g, h);
    SnapshotShows(g);
  }

  lemma FrameMessageIs(g: Game, h: int)
    requires OnPaths(g.world.active) && g.world.width > 0 && g.world.height > 0
    ensures Wire.Encode(FrameOf(g), h) == FrameMessage(EncodeState(SnapshotOf(g)), g.world.height)
  {
    hide EncodeState, SnapshotOf;
  }

  lemma SnapshotShows(g: Game)
    requires OnPaths(g.world.active)
    ensures SnapshotOf(g).grid == Grid(g.world.width, g.world.height, g.world.cells) && SnapshotOf(g).over == g.over
  {
  }

  // ---- seats, countdowns and the lobby's answers ----

  /** A newcomer that hears its role plays exactly the colour of the seat it was given, besides any it had. */
  lemma SeatIsHeard(s: Session, client: ClientId, username: string, rating: int, v: Client, h: int)
    ensures var u := Add(s, client, username, rating);
            && |u.sent| > |s.sent| && u.sent[|s.sent|].to == {client}
            && var x := Received(v, Wire.Encode(u.sent[|s.sent|].message, h));
               && (forall color :: color in x.own <==> color in v.own || ColorHeldBy(u.seats, client) == Some(color))
               && x == v.(own := x.own)
  {
    hide Wire.Encode, Wire.Decode, RosterOf, IsTaken;
    var role := AssignColor(s.seats);
    SeatIsTold(s, client, role, username, rating);
    Wire.MessageReadsBack(Wire.Role(role), v.grid.height);
    RoleHasNoHeight(role, h, v.grid.height);
  }

  lemma RoleHasNoHeight(role: Option<Color>, h: int, k: int)
    ensures Wire.Encode(Wire.Role(role), h) == Wire.Encode(Wire.Role(role), k)
  {
  }

  /** While a seat is held the others hear the time left, in seconds rounded up. */
  lemma CountdownIsHeard(s: Session, held: Vacancy, ms: int, v: Client)
    requires SessionInv(s) && held.graceMsLeft > ms && |CountOne(s, held, ms).sent| > |s.sent|
    ensures var left, o := held.graceMsLeft - ms, CountOne(s, held, ms).sent[|s.sent|];
            && o.to == s.members
            && var x := Received(v, Wire.Encode(o.message, v.grid.height));
               x.countdown.Some? && x.countdown.value * 1000 - 1000 < left <= x.countdown.value * 1000
               && x == v.(countdown := x.countdown)
  {
    hide Wire.Encode, Wire.Decode, SessionInv;
    CountOneSays(s, held, ms);
    SecondsAreRoundedUp(held.graceMsLeft - ms);
    Wire.MessageReadsBack(Wire.OpponentDisconnected(SecondsLeft(held.graceMsLeft - ms)), v.grid.height);
  }

  /** The client is searching no more, and has not moved otherwise. */
  ghost predicate StoppedSearching(v: Client, x: Client) {
    && !x.lobby.searching && x == v.(lobby := x.lobby)
  }

  /** The lobby's answers: a room entered ends the search in the game; no match and a refusal end it outside, with a word
      of why; a refused login is an error kept; an opponent who is back needs no countdown. */
  lemma AnswersAreHeard(v: Client, id: string, reason: string, h: int)
    requires id != "" && Trim(id) == id && h == v.grid.height
    ensures var x := Received(v, Wire.Encode(Wire.EnteredRoom(id), h));
            StoppedSearching(v, x) && x.lobby.inGame && x.lobby.roomId == id && x.lobby.status == ""
    ensures var x := Received(v, Wire.Encode(Wire.NoMatch, h));
            StoppedSearching(v, x) && x.lobby.inGame == v.lobby.inGame && x.lobby.roomId == v.lobby.roomId
            && x.lobby.status == "Couldn't find a match"
    ensures var x := Received(v, Wire.Encode(Wire.RoomError(reason), h));
            StoppedSearching(v, x) && x.lobby.inGame == v.lobby.inGame && x.lobby.roomId == v.lobby.roomId
            && x.lobby.status == reason
    ensures var x := Received(v, Wire.Encode(Wire.AuthRejected(reason), h));
            x.authError == Some(reason) && x == v.(authError := x.authError)
    ensures var x := Received(v, Wire.Encode(Wire.OpponentReconnected, h));
            x.countdown == None && x == v.(countdown := x.countdown)
  {
    hide Wire.Encode, Wire.Decode, Trim;
    Wire.MessageReadsBack(Wire.EnteredRoom(id), h);
    Wire.MessageReadsBack(Wire.NoMatch, h);
    Wire.MessageReadsBack(Wire.RoomError(reason), h);
    Wire.MessageReadsBack(Wire.AuthRejected(reason), h);
    Wire.MessageReadsBack(Wire.OpponentReconnected, h);
  }
}
