/** A room: who is in it, whose seat is held for them, and for how long. */
module Rooms {
  import opened Model
  import opened Boards
  import opened ArbiterSpec
  import opened EngineSpec
  import opened EngineRuns
  import opened Notation
  import opened Ratings
  import opened Seats
  import opened Sessions
  import Wire

  const GRACE_MS := 20000

  /** A seat held for a player who dropped. `oldClient` is the dead connection. */
  datatype Vacancy = Vacancy(
    color: Color, username: string, rating: int, oldClient: ClientId, graceMsLeft: int, lastSecondSent: int)

  datatype RoomState = RoomState(session: Session, vacancies: seq<Vacancy>)

  // ---- one event ----

  /** The first seat held for this name, or the number of held seats. */
  function HeldFor(vacancies: seq<Vacancy>, username: string): (k: nat)
    ensures k <= |vacancies|
    ensures k < |vacancies| ==> vacancies[k].username == username
    ensures forall j :: 0 <= j < k ==> vacancies[j].username != username
  {
    if vacancies == [] || vacancies[0].username == username then 0
    else
      var k := HeldFor(vacancies[1..], username);
      assert forall j :: 0 < j < k + 1 ==> vacancies[j] == vacancies[1..][j - 1];
      k + 1
  }

  function WithMember(s: Session, client: ClientId): Session {
    s.(members := s.members + {client})
  }

  ghost function Joined(r: RoomState, client: ClientId, username: string, rating: int): RoomState {
    var k := HeldFor(r.vacancies, username);
    if k < |r.vacancies| then
      var v := r.vacancies[k];
      var seated := SeatIn(Vacate(r.session, v.oldClient), client, Some(v.color), username, rating);
      RoomState(Broadcast(WithMember(seated, client), Wire.OpponentReconnected), Without(r.vacancies, k))
    else RoomState(Add(WithMember(r.session, client), client, username, rating), r.vacancies)
  }

  ghost function Dropped(r: RoomState, client: ClientId): RoomState {
    var seat := PlayerSeat(r.session.seats, client);
    var left := r.session.(members := r.session.members - {client});
    if seat.None? then RoomState(Vacate(left, client), r.vacancies)
    else if left.game.over then RoomState(left, r.vacancies)
    else RoomState(left, r.vacancies
           + [Vacancy(seat.value.color.value, seat.value.username, seat.value.rating, client, GRACE_MS, -1)])
  }

  function SecondsLeft(ms: int): int {
    (ms + 999) / 1000
  }

  /** Seconds are rounded up. */
  lemma SecondsAreRoundedUp(ms: int)
    ensures SecondsLeft(ms) * 1000 - 1000 < ms <= SecondsLeft(ms) * 1000
  {
  }

  /** From s to u the session went on: same seats, same members, and a finished game stays finished. */
  ghost predicate WentOn(s: Session, u: Session) {
    SessionInv(u) && SameSeats(s.seats, u.seats) && u.members == s.members && (s.game.over ==> u.game.over)
  }

  lemma SayingGoesOn(s: Session, message: Wire.WireMessage)
    requires SessionInv(s)
    ensures WentOn(s, s) && WentOn(s, Broadcast(s, message))
  {
    SentDoesNotMatter(s, message);
  }

  lemma ForfeitGoesOn(s: Session, loser: Color)
    requires SessionInv(s)
    ensures OnPaths(s.game.world.active)
    ensures WentOn(s, Forfeited(s, loser)) && Forfeited(s, loser).game.over
    ensures Forfeited(s, loser).forfeited == if s.game.over then s.forfeited else [loser]
  {
    ForfeitKeepsSession(s, loser);
  }

  lemma GoingOnJoins(s: Session, u: Session, w: Session)
    requires WentOn(s, u) && WentOn(u, w)
    ensures WentOn(s, w)
  {
  }

  /** One held seat at a tick, once the room's own tick is done. */
  ghost function CountOne(s: Session, v: Vacancy, ms: int): Session
    requires SessionInv(s)
  {
    ForfeitGoesOn(s, v.color);
    var left := v.graceMsLeft - ms;
    if left <= 0 then Forfeited(s, v.color)
    else if SecondsLeft(left) == v.lastSecondSent then s
    else Broadcast(s, Wire.OpponentDisconnected(SecondsLeft(left)))
  }

  lemma CountOneGoesOn(s: Session, v: Vacancy, ms: int)
    requires SessionInv(s)
    ensures WentOn(s, CountOne(s, v, ms))
  {
    hide SessionInv, WentOn, Forfeited, OnPaths;
    ForfeitGoesOn(s, v.color);
    SayingGoesOn(s, Wire.OpponentDisconnected(SecondsLeft(v.graceMsLeft - ms)));
  }

  ghost function CountDown(s: Session, vacancies: seq<Vacancy>, ms: int): (u: Session)
    requires SessionInv(s)
    ensures SessionInv(u)
  {
    if vacancies == [] then s
    else
      var n := |vacancies| - 1;
      var u := CountDown(s, vacancies[..n], ms);
      CountOneGoesOn(u, vacancies[n], ms);
      CountOne(u, vacancies[n], ms)
  }

  lemma {:induction false} CountDownGoesOn(s: Session, vacancies: seq<Vacancy>, ms: int)
    requires SessionInv(s)
    ensures WentOn(s, CountDown(s, vacancies, ms))
  {
    SayingGoesOn(s, Wire.OpponentReconnected);
    if vacancies != [] {
      var n := |vacancies| - 1;
      var u := CountDown(s, vacancies[..n], ms);
      CountDownGoesOn(s, vacancies[..n], ms);
      hide SessionInv, WentOn, CountOne;
      CountOneGoesOn(u, vacancies[n], ms);
      GoingOnJoins(s, u, CountOne(u, vacancies[n], ms));
    }
  }

  /** The same held seat, so much later. */
  function Later(v: Vacancy, ms: int): Vacancy {
    v.(graceMsLeft := v.graceMsLeft - ms, lastSecondSent := SecondsLeft(v.graceMsLeft - ms))
  }

  /** The seats still held after a tick. */
  function Kept(vacancies: seq<Vacancy>, ms: int): seq<Vacancy> {
    if vacancies == [] then []
    else
      var n := |vacancies| - 1;
      Kept(vacancies[..n], ms) + if vacancies[n].graceMsLeft > ms then [Later(vacancies[n], ms)] else []
  }

  ghost function Elapsed(r: RoomState, ms: int): RoomState
    requires SessionInv(r.session) && OrdinaryWait(r.session.game.world, ms)
  {
    TickKeepsSession(r.session, ms);
    RoomState(CountDown(Ticked(r.session, ms), r.vacancies, ms), Kept(r.vacancies, ms))
  }

  datatype RoomEvent =
    | Join(client: ClientId, username: string, rating: int)
    | Drop(client: ClientId)
    | Play(client: ClientId, command: PlayerCommand)
    | TimePasses(ms: int)

  /** This connection is dead and its seat is held. */
  ghost predicate IsGone(r: RoomState, client: ClientId) {
    exists k :: 0 <= k < |r.vacancies| && r.vacancies[k].oldClient == client
  }

  /** A dead connection does not join, unless to take back its own seat. */
  ghost predicate MayJoin(r: RoomState, client: ClientId, username: string) {
    var k := HeldFor(r.vacancies, username);
    !IsGone(r, client) || (k < |r.vacancies| && r.vacancies[k].oldClient == client)
  }

  /** A dead connection does not drop again while the game is on. */
  ghost predicate MayDrop(r: RoomState, client: ClientId) {
    !IsGone(r, client) || r.session.game.over
  }

  /** What fresh identifiers for new connections give, and ordinary ticks. */
  ghost predicate OrdinaryEvent(r: RoomState, e: RoomEvent) {
    match e
    case Join(client, username, _) => MayJoin(r, client, username)
    case Drop(client) => MayDrop(r, client)
    case Play(_, _) => true
    case TimePasses(ms) => OrdinaryWait(r.session.game.world, ms)
  }

  ghost function RoomStep(r: RoomState, e: RoomEvent): RoomState
    requires RoomInv(r) && OrdinaryEvent(r, e)
  {
    match e
    case Join(client, username, rating) => Joined(r, client, username, rating)
    case Drop(client) => Dropped(r, client)
    case Play(client, command) => RoomState(ApplyCommand(r.session, client, command), r.vacancies)
    case TimePasses(ms) => Elapsed(r, ms)
  }

  // ---- what every event keeps ----

  /** The dead connection still has its seat, under its name. */
  ghost predicate Reserved(t: Table, v: Vacancy) {
    SitsOn(t, v.oldClient, v.color) && t[v.oldClient].username == v.username
  }

  ghost predicate InTime(v: Vacancy) {
    0 < v.graceMsLeft <= GRACE_MS && (v.lastSecondSent == -1 || v.lastSecondSent == SecondsLeft(v.graceMsLeft))
  }

  ghost predicate VacanciesHold(t: Table, members: set<ClientId>, vacancies: seq<Vacancy>) {
    && (forall k :: 0 <= k < |vacancies| ==>
          Reserved(t, vacancies[k]) && vacancies[k].oldClient !in members && InTime(vacancies[k]))
    && (forall j, k :: 0 <= j < k < |vacancies| ==> vacancies[j].color != vacancies[k].color)
  }

  /** At most one player and at most one held seat to a colour, each held seat still its owner's. */
  ghost predicate RoomInv(r: RoomState) {
    && SessionInv(r.session) && OneEach(r.session.seats)
    && VacanciesHold(r.session.seats, r.session.members, r.vacancies)
  }

  lemma SeatingKeepsSession(s: Session, t: Table, members: set<ClientId>, sent: seq<Outgoing>)
    requires SessionInv(s)
    ensures SessionInv(s.(seats := t, members := members, sent := sent))
  {
  }

  lemma SameSeatsHold(t: Table, u: Table, members: set<ClientId>, vacancies: seq<Vacancy>)
    requires SameSeats(t, u) && OneEach(t) && VacanciesHold(t, members, vacancies)
    ensures OneEach(u) && VacanciesHold(u, members, vacancies)
  {
    SameSeatsKeepClients(t, u);
    forall k | 0 <= k < |vacancies|
      ensures Reserved(u, vacancies[k])
    {
      assert Reserved(t, vacancies[k]);
    }
  }

  lemma HoldWithout(t: Table, members: set<ClientId>, vacancies: seq<Vacancy>, k: nat)
    requires VacanciesHold(t, members, vacancies) && k < |vacancies|
    ensures VacanciesHold(t, members, Without(vacancies, k))
  {
    var rest := Without(vacancies, k);
    forall j | 0 <= j < |rest|
      ensures rest[j] == vacancies[if j < k then j else j + 1]
    {
    }
  }

  lemma SeatingKeepsSeats(t: Table, members: set<ClientId>, vacancies: seq<Vacancy>, client: ClientId, o: Occupant)
    requires OneEach(t) && VacanciesHold(t, members, vacancies)
    requires o.color.Some? ==> forall id :: SitsOn(t, id, o.color.value) ==> id == client
    requires forall k :: 0 <= k < |vacancies| ==> vacancies[k].oldClient != client
    ensures OneEach(t[client := o]) && VacanciesHold(t[client := o], members + {client}, vacancies)
  {
    var u := t[client := o];
    forall a, b, color | SitsOn(u, a, color) && SitsOn(u, b, color)
      ensures a == b
    {
      assert a != client ==> SitsOn(t, a, color);
      assert b != client ==> SitsOn(t, b, color);
    }
    forall k | 0 <= k < |vacancies|
      ensures Reserved(u, vacancies[k])
    {
      assert Reserved(t, vacancies[k]);
    }
  }

  lemma VacatingKeepsSeats(t: Table, members: set<ClientId>, vacancies: seq<Vacancy>, client: ClientId)
    requires OneEach(t) && VacanciesHold(t, members, vacancies)
    requires forall k :: 0 <= k < |vacancies| ==> vacancies[k].oldClient != client
    ensures OneEach(t - {client}) && VacanciesHold(t - {client}, members, vacancies)
  {
    var u := t - {client};
    forall a, b, color | SitsOn(u, a, color) && SitsOn(u, b, color)
      ensures a == b
    {
      assert SitsOn(t, a, color) && SitsOn(t, b, color);
    }
    forall k | 0 <= k < |vacancies|
      ensures Reserved(u, vacancies[k])
    {
      assert Reserved(t, vacancies[k]);
    }
  }

  /** Two held seats never belong to the same dead connection. */
  lemma OldClientsDiffer(r: RoomState, j: nat, k: nat)
    requires RoomInv(r) && j < |r.vacancies| && k < |r.vacancies| && j != k
    ensures r.vacancies[j].oldClient != r.vacancies[k].oldClient
  {
    assert Reserved(r.session.seats, r.vacancies[j]) && Reserved(r.session.seats, r.vacancies[k]);
    assert r.vacancies[j].color != r.vacancies[k].color;
  }

  lemma ReclaimKeepsRoom(r: RoomState, client: ClientId, username: string, rating: int)
    requires RoomInv(r) && MayJoin(r, client, username) && HeldFor(r.vacancies, username) < |r.vacancies|
    ensures RoomInv(Joined(r, client, username, rating))
  {
    var k := HeldFor(r.vacancies, username);
    var v, rest := r.vacancies[k], Without(r.vacancies, k);
    var t := r.session.seats;
    assert Reserved(t, v);
    HoldWithout(t, r.session.members, r.vacancies, k);
    forall j | 0 <= j < |rest|
      ensures rest[j].oldClient != v.oldClient && rest[j].oldClient != client
    {
      var i := if j < k then j else j + 1;
      assert rest[j] == r.vacancies[i];
      OldClientsDiffer(r, i, k);
    }
    VacatingKeepsSeats(t, r.session.members, rest, v.oldClient);
    forall id
      ensures !SitsOn(t - {v.oldClient}, id, v.color)
    {
      assert SitsOn(t - {v.oldClient}, id, v.color) ==> SitsOn(t, id, v.color);
    }
    SeatingKeepsSeats(t - {v.oldClient}, r.session.members, rest, client, Occupant(Some(v.color), username, rating));
    var u := Joined(r, client, username, rating);
    hide RosterOf, SessionInv, VacanciesHold, OneEach;
    SeatingKeepsSession(r.session, u.session.seats, u.session.members, u.session.sent);
  }

  lemma JoinKeepsRoom(r: RoomState, client: ClientId, username: string, rating: int)
    requires RoomInv(r) && MayJoin(r, client, username)
    ensures RoomInv(Joined(r, client, username, rating))
  {
    if HeldFor(r.vacancies, username) < |r.vacancies| {
      ReclaimKeepsRoom(r, client, username, rating);
    } else {
      var color := AssignColor(r.session.seats);
      SeatingKeepsSeats(r.session.seats, r.session.members, r.vacancies, client, Occupant(color, username, rating));
      var u := Joined(r, client, username, rating);
      hide RosterOf, SessionInv, VacanciesHold, OneEach, AssignColor;
      SeatingKeepsSession(r.session, u.session.seats, u.session.members, u.session.sent);
    }
  }

  lemma FreshIsInTime(client: ClientId)
    ensures forall color, name, rating :: InTime(Vacancy(color, name, rating, client, GRACE_MS, -1))
  {
  }

  lemma DropKeepsRoom(r: RoomState, client: ClientId)
    requires RoomInv(r) && !IsGone(r, client)
    ensures RoomInv(Dropped(r, client))
  {
    hide SessionInv, InTime, SecondsLeft;
    FreshIsInTime(client);
    var t, u := r.session.seats, Dropped(r, client);
    var seat := PlayerSeat(t, client);
    SeatingKeepsSession(r.session, u.session.seats, u.session.members, u.session.sent);
    assert VacanciesHold(t, u.session.members, r.vacancies);
    if seat.None? {
      VacatingKeepsSeats(t, u.session.members, r.vacancies, client);
    } else {
      var color := seat.value.color.value;
      TheClientOn(t, client, color);
      forall k | 0 <= k < |r.vacancies|
        ensures r.vacancies[k].color != color
      {
        assert Reserved(t, r.vacancies[k]);
      }
      assert Reserved(t, Vacancy(color, seat.value.username, seat.value.rating, client, GRACE_MS, -1));
    }
  }

  lemma OverDropKeepsRoom(r: RoomState, client: ClientId)
    requires RoomInv(r) && IsGone(r, client) && r.session.game.over
    ensures RoomInv(Dropped(r, client)) && Dropped(r, client).vacancies == r.vacancies
  {
    var k :| 0 <= k < |r.vacancies| && r.vacancies[k].oldClient == client;
    assert Reserved(r.session.seats, r.vacancies[k]);
    TheClientOn(r.session.seats, client, r.vacancies[k].color);
    var u := Dropped(r, client);
    SeatingKeepsSession(r.session, u.session.seats, u.session.members, u.session.sent);
  }

  lemma SecondDropBreaksRoom(r: RoomState, client: ClientId)
    requires RoomInv(r) && IsGone(r, client) && !r.session.game.over
    ensures !RoomInv(Dropped(r, client))
  {
    var k :| 0 <= k < |r.vacancies| && r.vacancies[k].oldClient == client;
    assert Reserved(r.session.seats, r.vacancies[k]);
    TheClientOn(r.session.seats, client, r.vacancies[k].color);
    var u := Dropped(r, client);
    assert u.vacancies[|r.vacancies|].color == u.vacancies[k].color;
  }

  /** A drop keeps the room sound exactly when it is not a second drop of the same connection in a game that is on. */
  lemma DropKeepsRoomExactly(r: RoomState, client: ClientId)
    requires RoomInv(r)
    ensures RoomInv(Dropped(r, client)) <==> MayDrop(r, client)
  {
    hide RoomInv;
    if !IsGone(r, client) {
      DropKeepsRoom(r, client);
    } else if r.session.game.over {
      OverDropKeepsRoom(r, client);
    } else {
      SecondDropBreaksRoom(r, client);
    }
  }

  lemma StrayJoinBreaksRoom(r: RoomState, client: ClientId, username: string, rating: int)
    requires RoomInv(r) && !MayJoin(r, client, username)
    ensures !RoomInv(Joined(r, client, username, rating))
  {
    var g :| 0 <= g < |r.vacancies| && r.vacancies[g].oldClient == client;
    var v, k := r.vacancies[g], HeldFor(r.vacancies, username);
    var u := Joined(r, client, username, rating);
    assert Reserved(r.session.seats, v);
    hide RosterOf, SessionInv, OneEach;
    if k < |r.vacancies| {
      assert r.vacancies[k].color != v.color by {
        assert if k < g then r.vacancies[k].color != r.vacancies[g].color else r.vacancies[g].color != r.vacancies[k].color;
      }
      var h := if g < k then g else g - 1;
      assert u.vacancies[h] == v;
      assert !Reserved(u.session.seats, u.vacancies[h]);
    } else {
      assert IsTaken(r.session.seats, v.color);
      assert !Reserved(u.session.seats, u.vacancies[g]);
    }
  }

  /** A join keeps the room sound exactly when it is not a dead connection taking another place than its own seat. */
  lemma JoinKeepsRoomExactly(r: RoomState, client: ClientId, username: string, rating: int)
    requires RoomInv(r)
    ensures RoomInv(Joined(r, client, username, rating)) <==> MayJoin(r, client, username)
  {
    hide RoomInv, MayJoin;
    if MayJoin(r, client, username) {
      JoinKeepsRoom(r, client, username, rating);
    } else {
      StrayJoinBreaksRoom(r, client, username, rating);
    }
  }

  lemma PlayKeepsRoom(r: RoomState, client: ClientId, command: PlayerCommand)
    requires RoomInv(r)
    ensures RoomInv(RoomState(ApplyCommand(r.session, client, command), r.vacancies))
  {
    CommandKeepsSession(r.session, client, command);
    hide SessionInv, SameSeats, OneEach, VacanciesHold, ApplyCommand;
    SameSeatsHold(r.session.seats, ApplyCommand(r.session, client, command).seats, r.session.members, r.vacancies);
  }

  lemma {:induction false} KeptAreLater(vacancies: seq<Vacancy>, ms: int, w: Vacancy)
    requires w in Kept(vacancies, ms)
    ensures exists i :: 0 <= i < |vacancies| && vacancies[i].graceMsLeft > ms && w == Later(vacancies[i], ms)
  {
    var n := |vacancies| - 1;
    if w in Kept(vacancies[..n], ms) {
      KeptAreLater(vacancies[..n], ms, w);
      var i :| 0 <= i < n && vacancies[..n][i].graceMsLeft > ms && w == Later(vacancies[..n][i], ms);
      assert w == Later(vacancies[i], ms);
    } else {
      assert w == Later(vacancies[n], ms);
    }
  }

  lemma {:induction false} LaterAreKept(vacancies: seq<Vacancy>, ms: int, i: nat)
    requires i < |vacancies| && vacancies[i].graceMsLeft > ms
    ensures Later(vacancies[i], ms) in Kept(vacancies, ms)
  {
    var n := |vacancies| - 1;
    if i < n {
      LaterAreKept(vacancies[..n], ms, i);
    }
  }

  lemma OneMoreHolds(t: Table, members: set<ClientId>, kept: seq<Vacancy>, w: Vacancy)
    requires VacanciesHold(t, members, kept)
    requires Reserved(t, w) && w.oldClient !in members && InTime(w)
    requires forall j :: 0 <= j < |kept| ==> kept[j].color != w.color
    ensures VacanciesHold(t, members, kept + [w])
  {
  }

  lemma ReservedStill(t: Table, v: Vacancy, ms: int)
    requires Reserved(t, v) && InTime(v) && 0 <= ms < v.graceMsLeft
    ensures Reserved(t, Later(v, ms)) && InTime(Later(v, ms))
  {
  }

  lemma {:induction false} KeptHold(t: Table, members: set<ClientId>, vacancies: seq<Vacancy>, ms: int)
    requires ms >= 0 && VacanciesHold(t, members, vacancies)
    ensures VacanciesHold(t, members, Kept(vacancies, ms))
  {
    if vacancies != [] {
      var n := |vacancies| - 1;
      var v := vacancies[n];
      var kept := Kept(vacancies[..n], ms);
      KeptHold(t, members, vacancies[..n], ms);
      assert Reserved(t, v) && InTime(v) && v.oldClient !in members;
      if v.graceMsLeft > ms {
        forall j | 0 <= j < |kept|
          ensures kept[j].color != v.color
        {
          KeptAreLater(vacancies[..n], ms, kept[j]);
          var i :| 0 <= i < n && kept[j] == Later(vacancies[..n][i], ms);
          assert vacancies[i].color != vacancies[n].color;
        }
        hide VacanciesHold, Reserved, InTime, Later;
        ReservedStill(t, v, ms);
        assert Later(v, ms).oldClient == v.oldClient && Later(v, ms).color == v.color by { LaterIsSameSeat(v, ms); }
        OneMoreHolds(t, members, kept, Later(v, ms));
      } else {
        assert kept + [] == kept;
      }
    }
  }

  lemma LaterIsSameSeat(v: Vacancy, ms: int)
    ensures var w := Later(v, ms); w.color == v.color && w.oldClient == v.oldClient && w.username == v.username
  {
  }

  lemma TickKeepsRoom(r: RoomState, ms: int)
    requires RoomInv(r) && OrdinaryWait(r.session.game.world, ms)
    ensures RoomInv(Elapsed(r, ms))
  {
    TickKeepsSession(r.session, ms);
    var s := Ticked(r.session, ms);
    var u := CountDown(s, r.vacancies, ms);
    assert ms >= 0;
    CountDownGoesOn(s, r.vacancies, ms);
    hide SessionInv, SameSeats, OneEach, VacanciesHold, Ticked, CountDown, OrdinaryWait;
    SameSeatsHold(r.session.seats, s.seats, s.members, r.vacancies);
    KeptHold(s.seats, s.members, r.vacancies, ms);
    SameSeatsHold(s.seats, u.seats, s.members, Kept(r.vacancies, ms));
  }

  /** Main step: no event ever gives a colour two players or two held seats, or a held seat to somebody else. */
  lemma EventKeepsRoom(r: RoomState, e: RoomEvent)
    requires RoomInv(r) && OrdinaryEvent(r, e)
    ensures RoomInv(RoomStep(r, e))
  {
    match e
    case Join(client, username, rating) => JoinKeepsRoom(r, client, username, rating);
    case Drop(client) => DropKeepsRoomExactly(r, client);
    case Play(client, command) => PlayKeepsRoom(r, client, command);
    case TimePasses(ms) => TickKeepsRoom(r, ms);
  }

  /** Whoever joins hears from the room until it drops, and nobody else's membership changes. */
  lemma MembersComeAndGo(r: RoomState, e: RoomEvent)
    requires RoomInv(r) && OrdinaryEvent(r, e)
    ensures var before, after := r.session.members, RoomStep(r, e).session.members;
            forall id :: id in after <==> if e.Join? && id == e.client then true
                                          else if e.Drop? && id == e.client then false else id in before
  {
    hide RoomInv, OneEach, VacanciesHold, Ticked, CountDown, ApplyCommand, RosterOf, IsTaken, OrdinaryWait, SameSeats;
    RoomIsSound(r);
    match e
    case Join(_, _, _) =>
    case Drop(_) =>
    case Play(client, command) => CommandKeepsSession(r.session, client, command);
    case TimePasses(ms) =>
      TickKeepsSession(r.session, ms);
      CountDownGoesOn(Ticked(r.session, ms), r.vacancies, ms);
  }

  lemma RoomIsSound(r: RoomState)
    requires RoomInv(r)
    ensures SessionInv(r.session)
  {
  }

  /** What a drop does: a spectator's seat is free, a player's stays, and is held while the game is on. */
  lemma DropsAre(r: RoomState, client: ClientId)
    requires RoomInv(r)
    ensures var u := Dropped(r, client);
            && u.session.game == r.session.game && u.session.sent == r.session.sent
            && (ColorHeldBy(r.session.seats, client).None? ==>
                  u.session.seats == r.session.seats - {client} && u.vacancies == r.vacancies)
            && (ColorHeldBy(r.session.seats, client).Some? ==> u.session.seats == r.session.seats)
            && (ColorHeldBy(r.session.seats, client).Some? && r.session.game.over ==> u.vacancies == r.vacancies)
            && (ColorHeldBy(r.session.seats, client).Some? && !r.session.game.over ==>
                  && |u.vacancies| == |r.vacancies| + 1 && u.vacancies[..|r.vacancies|] == r.vacancies
                  && u.vacancies[|r.vacancies|].oldClient == client && u.vacancies[|r.vacancies|].graceMsLeft == 20000
                  && Some(u.vacancies[|r.vacancies|].color) == ColorHeldBy(r.session.seats, client)
                  && u.vacancies[|r.vacancies|].username == r.session.seats[client].username)
  {
    hide SessionInv, VacanciesHold;
    var color := ColorHeldBy(r.session.seats, client);
    if color.Some? {
      TheClientOn(r.session.seats, client, color.value);
    }
  }

  /** A returning player is told the colour of the seat that was held, then everybody, the player too, the roster and that
      the opponent is back. */
  lemma ReturnIsTold(r: RoomState, client: ClientId, username: string, rating: int)
    requires HeldFor(r.vacancies, username) < |r.vacancies|
    ensures var v, u := r.vacancies[HeldFor(r.vacancies, username)], Joined(r, client, username, rating);
            && v.username == username && ColorHeldBy(u.session.seats, client) == Some(v.color)
            && |u.session.sent| == |r.session.sent| + 3
            && u.session.sent[|r.session.sent|] == Outgoing({client}, Wire.Role(Some(v.color)))
            && u.session.sent[|r.session.sent| + 1].message == RosterOf(u.session.seats)
            && u.session.sent[|r.session.sent| + 2]
               == Outgoing(r.session.members + {client}, Wire.OpponentReconnected)
            && u.vacancies == Without(r.vacancies, HeldFor(r.vacancies, username))
  {
    hide RosterOf;
  }

  lemma NothingCounted(s: Session, held: seq<Vacancy>, ms: int)
    requires SessionInv(s)
    ensures Kept(held[..0], ms) == [] && held[0..] == held && CountDown(s, held[..0], ms) == s
  {
  }

  lemma OneMoreCounted(s: Session, held: seq<Vacancy>, n: nat, ms: int)
    requires SessionInv(s) && n < |held|
    ensures CountDown(s, held[..n + 1], ms) == CountOne(CountDown(s, held[..n], ms), held[n], ms)
    ensures Kept(held[..n + 1], ms)
         == Kept(held[..n], ms) + if held[n].graceMsLeft > ms then [Later(held[n], ms)] else []
  {
    assert held[..n + 1][..n] == held[..n];
  }

  /** Working on one item of a list, the front of which is done. */
  lemma Spliced(done: seq<Vacancy>, held: seq<Vacancy>, n: nat, later: Vacancy)
    requires n < |held|
    ensures var all := done + held[n..];
            && all[|done|] == held[n]
            && Without(all, |done|) == done + [] + held[n + 1..]
            && all[|done| := later] == done + [later] + held[n + 1..]
  {
  }

  lemma CountOneExpires(s: Session, v: Vacancy, ms: int)
    requires SessionInv(s) && v.graceMsLeft <= ms
    ensures OnPaths(s.game.world.active) && s.game.world.width > 0 && s.game.world.height > 0
    ensures CountOne(s, v, ms) == Forfeited(s, v.color)
  {
    ForfeitGoesOn(s, v.color);
  }

  lemma CountOneSays(s: Session, v: Vacancy, ms: int)
    requires SessionInv(s) && v.graceMsLeft > ms
    ensures var seconds := SecondsLeft(v.graceMsLeft - ms);
            CountOne(s, v, ms) == if seconds == v.lastSecondSent then s else Broadcast(s, Wire.OpponentDisconnected(seconds))
    ensures SessionInv(CountOne(s, v, ms))
  {
    CountOneGoesOn(s, v, ms);
  }

  // ---- the object ----

  class Room {
    const session: GameSession
    var vacancies: seq<Vacancy>

    ghost predicate Valid()
      reads this, session, session.engine, session.engine.board, session.engine.board.grid, session.engine.arbiter
    {
      session.Valid()
    }

    ghost function View(): RoomState
      reads this, session, session.engine, session.engine.arbiter, session.engine.arbiter.board
      reads session.transport, session.seats, session.settler
    {
      RoomState(session.View(), vacancies)
    }

    constructor (board: Board, odds: Odds)
      requires board.Valid() && Reciprocal(odds)
      requires GameInv(Game(World(board.width, board.height, board.cells, [], [], []), false, 0, [], []))
      ensures Valid() && fresh(session) && RoomInv(View())
      ensures View().vacancies == [] && View().session.seats == map[] && View().session.members == {}
      ensures View().session.game == Game(World(board.width, board.height, board.cells, [], [], []), false, 0, [], [])
    {
      var transport := new RoomTransport();
      session := new GameSession(board, transport, odds);
      vacancies := [];
    }

    /** A returning player takes the seat held for them; anyone else is seated by join order. */
    method AddClient(client: ClientId, username: string, rating: int)
      requires Valid()
      modifies this, session.seats, session.transport
      ensures Valid() && View() == Joined(old(View()), client, username, rating)
      ensures old(RoomInv(View())) ==> (RoomInv(View()) <==> old(MayJoin(View(), client, username)))
    {
      hide RoomInv, RosterOf, AssignColor, MayJoin;
      if RoomInv(View()) {
        JoinKeepsRoomExactly(View(), client, username, rating);
      }
      var k := 0;
      while k < |vacancies|
        invariant 0 <= k <= |vacancies|
        invariant forall j :: 0 <= j < k ==> vacancies[j].username != username
      {
        if vacancies[k].username == username {
          assert HeldFor(vacancies, username) == k;
          session.VacateSeat(vacancies[k].oldClient);
          session.SeatReturning(client, vacancies[k].color, username, rating);
          session.transport.members := session.transport.members + {client};
          vacancies := vacancies[..k] + vacancies[k + 1..];
          session.transport.Broadcast(Wire.OpponentReconnected);
          return;
        }
        k := k + 1;
      }
      assert HeldFor(vacancies, username) == |vacancies|;
      session.transport.members := session.transport.members + {client};
      session.AddClient(client, username, rating);
    }

    method HandleDisconnect(client: ClientId)
      requires Valid()
      modifies this, session.seats, session.transport
      ensures Valid() && View() == Dropped(old(View()), client)
      ensures old(RoomInv(View())) ==> (RoomInv(View()) <==> old(MayDrop(View(), client)))
    {
      hide RoomInv, MayDrop;
      if RoomInv(View()) {
        DropKeepsRoomExactly(View(), client);
      }
      var seat := session.FindPlayerSeat(client);
      session.transport.members := session.transport.members - {client};
      if seat.None? {
        session.VacateSeat(client);
        return;
      }
      if session.engine.over {
        return;
      }
      vacancies := vacancies
        + [Vacancy(seat.value.color.value, seat.value.username, seat.value.rating, client, GRACE_MS, -1)];
    }

    method ApplyClientCommand(client: ClientId, command: PlayerCommand)
      requires Valid() && RoomInv(View())
      modifies this, session, session.settler, session.seats, session.transport
      modifies session.engine, session.engine.arbiter, session.engine.board, session.engine.board.grid
      ensures Valid() && RoomInv(View())
      ensures View() == RoomState(ApplyCommand(old(View()).session, client, command), old(View()).vacancies)
    {
      PlayKeepsRoom(View(), client, command);
      hide OneEach, VacanciesHold, SessionInv, ApplyCommand;
      session.ApplyClientCommand(client, command);
    }

    /** One held seat: it is counted down, or forfeited and taken off the list. */
    method CountVacancy(k: nat, ms: int) returns (expired: bool)
      requires Valid() && SessionInv(session.View()) && k < |vacancies|
      modifies this, session, session.settler, session.seats, session.transport, session.engine
      ensures Valid() && SessionInv(session.View())
      ensures session.View() == CountOne(old(session.View()), old(vacancies[k]), ms)
      ensures expired <==> old(vacancies[k].graceMsLeft) <= ms
      ensures vacancies == if expired then Without(old(vacancies), k)
                           else old(vacancies)[k := Later(old(vacancies[k]), ms)]
    {
      hide SessionInv, Forfeited, OnPaths, WentOn, CountOne;
      var v := vacancies[k];
      var left := v.graceMsLeft - ms;
      expired := left <= 0;
      if expired {
        CountOneExpires(session.View(), v, ms);
        session.Forfeit(v.color);
        vacancies := vacancies[..k] + vacancies[k + 1..];
        return;
      }
      CountOneSays(session.View(), v, ms);
      v := v.(graceMsLeft := left);
      if SecondsLeft(left) != v.lastSecondSent {
        v := v.(lastSecondSent := SecondsLeft(left));
        session.transport.Broadcast(Wire.OpponentDisconnected(SecondsLeft(left)));
      }
      vacancies := vacancies[k := v];
    }

    /** The held seats, one after the other. */
    method CountVacancies(ms: int)
      requires Valid() && SessionInv(session.View())
      modifies this, session, session.settler, session.seats, session.transport, session.engine
      ensures Valid() && SessionInv(session.View())
      ensures session.View() == CountDown(old(session.View()), old(vacancies), ms)
      ensures vacancies == Kept(old(vacancies), ms)
    {
      hide *;
      ghost var held, s := vacancies, session.View();
      ghost var seen: nat := 0;
      NothingCounted(s, held, ms);
      var k := 0;
      while k < |vacancies|
        invariant seen <= |held| && 0 <= k <= |vacancies|
        invariant vacancies == Kept(held[..seen], ms) + held[seen..] && k == |Kept(held[..seen], ms)|
        invariant Valid() && SessionInv(session.View()) && session.View() == CountDown(s, held[..seen], ms)
        decreases |held| - seen
      {
        Spliced(Kept(held[..seen], ms), held, seen, Later(held[seen], ms));
        OneMoreCounted(s, held, seen, ms);
        var expired := CountVacancy(k, ms);
        seen := seen + 1;
        if !expired {
          k := k + 1;
        }
      }
      assert held[..seen] == held;
    }

    method Tick(ms: int)
      requires Valid() && RoomInv(View()) && OrdinaryWait(View().session.game.world, ms)
      modifies this, session, session.settler, session.seats, session.transport
      modifies session.engine, session.engine.arbiter, session.engine.board, session.engine.board.grid
      ensures Valid() && RoomInv(View()) && View() == Elapsed(old(View()), ms)
    {
      hide OneEach, VacanciesHold, SessionInv, Ticked, CountDown, Kept, OrdinaryWait;
      TickKeepsRoom(View(), ms);
      session.Tick(ms);
      CountVacancies(ms);
    }
  }
}
