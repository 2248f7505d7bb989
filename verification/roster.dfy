/** The names and ratings the clients were last told are the ones in the seats. */
module Rosters {
  import opened Model
  import opened EngineSpec
  import opened EngineRuns
  import opened Notation
  import opened Ratings
  import opened Seats
  import opened Sessions
  import opened Rooms
  import opened RoomRuns
  import RemoteGames
  import Text
  import Wire

  function LastRoster(sent: seq<Outgoing>): Option<Wire.WireMessage> {
    if sent == [] then None
    else if sent[|sent| - 1].message.Roster? then Some(sent[|sent| - 1].message)
    else LastRoster(sent[..|sent| - 1])
  }

  lemma LastRosterOf(sent: seq<Outgoing>, o: Outgoing)
    ensures LastRoster(sent + [o]) == if o.message.Roster? then Some(o.message) else LastRoster(sent)
  {
    assert (sent + [o])[..|sent|] == sent;
  }

  /** As soon as anybody plays, the roster last broadcast shows who sits white and black and at what rating. */
  ghost predicate RosterIsCurrent(s: Session) {
    IsTaken(s.seats, White) || IsTaken(s.seats, Black) ==> LastRoster(s.sent) == Some(RosterOf(s.seats))
  }

  lemma OtherNewsKeepsRoster(s: Session, m: Wire.WireMessage)
    requires RosterIsCurrent(s) && !m.Roster?
    ensures RosterIsCurrent(Broadcast(s, m))
  {
    LastRosterOf(s.sent, Outgoing(s.members, m));
  }

  lemma SeatingTellsRoster(s: Session, client: ClientId, color: Option<Color>, username: string, rating: int)
    ensures RosterIsCurrent(SeatIn(s, client, color, username, rating))
  {
    var seats := s.seats[client := Occupant(color, username, rating)];
    hide RosterOf, IsTaken;
    RosterIsRoster(seats);
    LastRosterOf(s.sent + [Outgoing({client}, Wire.Role(color))], Outgoing(s.members, RosterOf(seats)));
  }

  lemma SettlingTellsRoster(s: Session, loser: Color)
    requires Reciprocal(s.odds) && RosterIsCurrent(s)
    ensures RosterIsCurrent(Settle(s, loser))
  {
    if IsTaken(s.seats, White) && IsTaken(s.seats, Black) {
      hide RosterOf, Settled, Persisted, IsTaken;
      RosterIsRoster(Settled(s.odds, s.seats, loser));
      LastRosterOf(s.sent, Outgoing(s.members, RosterOf(Settled(s.odds, s.seats, loser))));
    }
  }

  lemma {:induction false} ForwardingTellsRoster(s: Session, news: seq<Announcement>)
    requires Reciprocal(s.odds) && RosterIsCurrent(s)
    ensures RosterIsCurrent(ForwardAll(s, news))
  {
    hide RosterIsCurrent, Settle, Reciprocal;
    if news != [] {
      var n := |news| - 1;
      ForwardingTellsRoster(s, news[..n]);
      var mid := ForwardAll(s, news[..n]);
      match news[n]
      case Moved(event) => OtherNewsKeepsRoster(mid, Wire.Move(event));
      case Took(captured) =>
        OtherNewsKeepsRoster(mid, Wire.Capture(captured));
        SettlingTellsRoster(Broadcast(mid, Wire.Capture(captured)), captured.color);
    }
  }

  lemma GoingOnTellsRoster(s: Session, game: Game)
    requires Reciprocal(s.odds) && RosterIsCurrent(s) && s.game.announced <= game.announced
    ensures RosterIsCurrent(GoOn(s, game))
  {
    ForwardingTellsRoster(s.(game := game), game.announced[|s.game.announced|..]);
  }

  lemma CommandTellsRoster(s: Session, client: ClientId, c: PlayerCommand)
    requires SessionInv(s) && RosterIsCurrent(s)
    ensures RosterIsCurrent(ApplyCommand(s, client, c))
  {
    SessionIsInAgreement(s);
    hide RosterIsCurrent, GoOn, Reciprocal, RequestMove, RequestJump, SessionInv;
    if ColorHeldBy(s.seats, client) == Some(c.player) {
      var h := if c.from == c.to then RequestJump(s.game, c.from) else RequestMove(s.game, c.from, c.to);
      CommandAnnounces(s.game, h, c);
      GoingOnTellsRoster(s, h);
    }
  }

  lemma TickTellsRoster(s: Session, ms: int)
    requires SessionInv(s) && OrdinaryWait(s.game.world, ms) && RosterIsCurrent(s)
    ensures RosterIsCurrent(Ticked(s, ms))
  {
    SessionIsInAgreement(s);
    hide RosterIsCurrent, GoOn, Reciprocal, Wait, SessionInv, OrdinaryWait, FrameOf, OnPaths, GameInv;
    TickKeepsSession(s, ms);
    WaitAnnounces(s.game, ms);
    var game := Wait(s.game, ms);
    GoingOnTellsRoster(s, game);
    FramesAreNoNotices(game);
    OtherNewsKeepsRoster(GoOn(s, game), FrameOf(game));
  }

  lemma ForfeitTellsRoster(s: Session, loser: Color)
    requires SessionInv(s) && RosterIsCurrent(s)
    ensures OnPaths(s.game.world.active)
    ensures RosterIsCurrent(Forfeited(s, loser))
  {
    SessionIsInAgreement(s);
    if !s.game.over {
      var over := s.(game := EndGame(s.game), forfeited := s.forfeited + [loser]);
      assert RosterIsCurrent(over);
      assert over.game.world == s.game.world && s.game.world.width > 0 && s.game.world.height > 0;
      hide RosterIsCurrent, Settle, Reciprocal, SessionInv, FrameOf, OnPaths, GameInv;
      SettlingTellsRoster(over, loser);
      FramesAreNoNotices(over.game);
      OtherNewsKeepsRoster(Settle(over, loser), FrameOf(over.game));
    }
  }

  lemma CountOneTellsRoster(s: Session, v: Vacancy, ms: int)
    requires SessionInv(s) && RosterIsCurrent(s)
    ensures RosterIsCurrent(CountOne(s, v, ms))
  {
    hide SessionInv, RosterIsCurrent, Forfeited, OnPaths, SecondsLeft;
    ForfeitTellsRoster(s, v.color);
    OtherNewsKeepsRoster(s, Wire.OpponentDisconnected(SecondsLeft(v.graceMsLeft - ms)));
  }

  lemma {:induction false} CountDownTellsRoster(s: Session, vacancies: seq<Vacancy>, ms: int)
    requires SessionInv(s) && RosterIsCurrent(s)
    ensures RosterIsCurrent(CountDown(s, vacancies, ms))
  {
    hide SessionInv, RosterIsCurrent, CountOne;
    if vacancies != [] {
      var n := |vacancies| - 1;
      CountDownTellsRoster(s, vacancies[..n], ms);
      CountOneTellsRoster(CountDown(s, vacancies[..n], ms), vacancies[n], ms);
    }
  }

  /** A spectator who leaves is not missed by the roster. */
  lemma SpectatorsAreNotListed(t: Table, client: ClientId)
    requires ColorHeldBy(t, client) == None
    ensures RosterOf(t - {client}) == RosterOf(t)
    ensures forall color :: IsTaken(t - {client}, color) <==> IsTaken(t, color)
  {
    var u := t - {client};
    assert forall id, color :: SitsOn(u, id, color) <==> SitsOn(t, id, color);
    forall color
      ensures (IsTaken(u, color) <==> IsTaken(t, color)) && OccupantOf(u, color) == OccupantOf(t, color)
    {
      SameSitters(t, u, color);
    }
  }

  lemma SameSitters(t: Table, u: Table, color: Color)
    requires forall id :: SitsOn(u, id, color) <==> SitsOn(t, id, color)
    requires forall id :: id in u && id in t ==> u[id] == t[id]
    ensures (IsTaken(u, color) <==> IsTaken(t, color)) && OccupantOf(u, color) == OccupantOf(t, color)
  {
    if IsTaken(u, color) {
      assert SitsOn(t, ClientOn(u, color).value, color);
    }
    if IsTaken(t, color) {
      assert SitsOn(u, ClientOn(t, color).value, color);
    }
  }

  lemma JoiningTellsRoster(r: RoomState, client: ClientId, username: string, rating: int)
    ensures RosterIsCurrent(Joined(r, client, username, rating).session)
  {
    hide RosterIsCurrent, SeatIn;
    var k := HeldFor(r.vacancies, username);
    if k < |r.vacancies| {
      var v := r.vacancies[k];
      var gone := Vacate(r.session, v.oldClient);
      SeatingTellsRoster(gone, client, Some(v.color), username, rating);
      var seated := SeatIn(gone, client, Some(v.color), username, rating);
      MembersAreNotListed(seated, client);
      OtherNewsKeepsRoster(WithMember(seated, client), Wire.OpponentReconnected);
    } else {
      SeatingTellsRoster(WithMember(r.session, client), client, AssignColor(r.session.seats), username, rating);
    }
  }

  lemma MembersAreNotListed(s: Session, client: ClientId)
    requires RosterIsCurrent(s)
    ensures RosterIsCurrent(WithMember(s, client))
  {
  }

  lemma DroppingTellsRoster(r: RoomState, client: ClientId)
    requires RosterIsCurrent(r.session)
    ensures RosterIsCurrent(Dropped(r, client).session)
  {
    var color := ColorHeldBy(r.session.seats, client);
    if color.Some? {
      assert SitsOn(r.session.seats, client, color.value);
    } else {
      SpectatorsAreNotListed(r.session.seats, client);
    }
    hide RosterOf, IsTaken;
  }

  lemma EventTellsRoster(r: RoomState, e: RoomEvent)
    requires RoomInv(r) && OrdinaryEvent(r, e) && RosterIsCurrent(r.session)
    ensures RosterIsCurrent(RoomStep(r, e).session)
  {
    hide RosterIsCurrent, SessionInv, OneEach, VacanciesHold, OrdinaryWait, Joined, Dropped, ApplyCommand, Ticked, CountDown;
    match e
    case Join(client, username, rating) => JoiningTellsRoster(r, client, username, rating);
    case Drop(client) => DroppingTellsRoster(r, client);
    case Play(client, command) => CommandTellsRoster(r.session, client, command);
    case TimePasses(ms) =>
      TickTellsRoster(r.session, ms);
      TickKeepsSession(r.session, ms);
      CountDownTellsRoster(Ticked(r.session, ms), r.vacancies, ms);
  }

  /** Main result, over every ordinary run of a room: joins, returns, drops, settlements and forfeits never leave the
      clients with a roster that differs from the seats. */
  lemma {:induction false} RosterStaysCurrent(r: RoomState, run: seq<RoomEvent>)
    requires RoomInv(r) && OrdinaryRoomRun(r, run) && RosterIsCurrent(r.session)
    ensures RosterIsCurrent(RoomRun(r, run).session)
    decreases |run|
  {
    hide RosterIsCurrent, RoomInv, OrdinaryEvent, RoomStep;
    if run != [] {
      EventKeepsRoom(r, run[0]);
      EventTellsRoster(r, run[0]);
      RosterStaysCurrent(RoomStep(r, run[0]), run[1..]);
    }
  }

  /** And a client that receives that roster shows these players, provided their names fit on a line. */
  lemma RosterArrives(t: Table, v: RemoteGames.Client)
    requires forall id :: id in t ==> Text.IsLine(t[id].username)
    ensures var white, black := OccupantOf(t, White), OccupantOf(t, Black);
            RemoteGames.Received(v, Wire.Encode(RosterOf(t), v.grid.height))
              == v.(players := RemoteGames.Players(
                      if white.Some? then white.value.username else "", if black.Some? then black.value.username else "",
                      if white.Some? then Some(white.value.rating) else None,
                      if black.Some? then Some(black.value.rating) else None))
  {
    Wire.MessageReadsBack(RosterOf(t), v.grid.height);
    hide Wire.Decode, Wire.Encode, IsTaken;
  }

}
