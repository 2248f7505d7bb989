/** Rooms over whole runs: held seats, the countdown, and the one forfeit. */
module RoomRuns {
  import opened Model
  import opened EngineSpec
  import opened EngineRuns
  import opened OrdinaryPlay
  import opened Ratings
  import opened Seats
  import opened Sessions
  import opened Rooms
  import Wire

  // ---- runs ----

  ghost predicate OrdinaryRoomRun(r: RoomState, run: seq<RoomEvent>)
    requires RoomInv(r)
    decreases |run|
  {
    || run == []
    || (OrdinaryEvent(r, run[0]) && (EventKeepsRoom(r, run[0]); OrdinaryRoomRun(RoomStep(r, run[0]), run[1..])))
  }

  /** The room after a run: still one player and one held seat to a colour. */
  ghost function RoomRun(r: RoomState, run: seq<RoomEvent>): (u: RoomState)
    requires RoomInv(r) && OrdinaryRoomRun(r, run)
    ensures RoomInv(u)
    decreases |run|
  {
    if run == [] then r
    else
      EventKeepsRoom(r, run[0]);
      RoomRun(RoomStep(r, run[0]), run[1..])
  }

  function NewRoom(odds: Odds, g: Grid): RoomState {
    RoomState(Session(odds, NewGame(g), map[], {}, [], [], [], []), [])
  }

  lemma NewRoomIsSound(odds: Odds, g: Grid)
    requires Reciprocal(odds) && SetUp(g)
    ensures RoomInv(NewRoom(odds, g))
  {
    NewGameIsInAgreement(g);
  }

  // ---- one held seat through one event ----

  /** The seat went to the one who came back for it. */
  ghost predicate ClaimedBy(u: RoomState, v: Vacancy, client: ClientId) {
    && ClientOn(u.session.seats, v.color) == Some(client)
    && client in u.session.seats && u.session.seats[client].username == v.username
    && forall w :: w in u.vacancies ==> w.color != v.color
  }

  /** The owner comes back. */
  lemma ReturningClaims(r: RoomState, client: ClientId, username: string, rating: int)
    requires RoomInv(r) && MayJoin(r, client, username) && HeldFor(r.vacancies, username) < |r.vacancies|
    ensures ClaimedBy(Joined(r, client, username, rating), r.vacancies[HeldFor(r.vacancies, username)], client)
  {
    var u, k := Joined(r, client, username, rating), HeldFor(r.vacancies, username);
    var v := r.vacancies[k];
    JoinKeepsRoom(r, client, username, rating);
    assert SitsOn(u.session.seats, client, v.color);
    TheClientOn(u.session.seats, client, v.color);
    hide RosterOf, SessionInv, OneEach, IsTaken;
    forall w | w in u.vacancies
      ensures w.color != v.color
    {
      var j :| 0 <= j < |u.vacancies| && u.vacancies[j] == w;
      assert w == r.vacancies[if j < k then j else j + 1];
    }
  }

  lemma JoiningHoldsSeats(r: RoomState, client: ClientId, username: string, rating: int, k: nat)
    requires RoomInv(r) && MayJoin(r, client, username) && k < |r.vacancies|
    ensures var u, v := Joined(r, client, username, rating), r.vacancies[k];
            v in u.vacancies || (username == v.username && ClaimedBy(u, v, client))
  {
    hide RoomInv, MayJoin, ClaimedBy, RosterOf;
    var u, v := Joined(r, client, username, rating), r.vacancies[k];
    var h := HeldFor(r.vacancies, username);
    if h == k {
      ReturningClaims(r, client, username, rating);
    } else if h < |r.vacancies| {
      assert v == u.vacancies[if k < h then k else k - 1];
    }
  }

  /** The first held seat whose time is up, or the number of held seats. */
  ghost function FirstExpired(vacancies: seq<Vacancy>, ms: int): (k: nat)
    ensures k <= |vacancies|
    ensures k < |vacancies| ==> vacancies[k].graceMsLeft <= ms
    ensures forall j :: 0 <= j < k ==> vacancies[j].graceMsLeft > ms
  {
    if vacancies == [] then 0
    else
      var n := |vacancies| - 1;
      var k := FirstExpired(vacancies[..n], ms);
      assert forall j :: 0 <= j < n ==> vacancies[..n][j] == vacancies[j];
      if k < n then k else if vacancies[n].graceMsLeft <= ms then n else n + 1
  }

  lemma CountOneForfeits(s: Session, v: Vacancy, ms: int)
    requires SessionInv(s)
    ensures var u := CountOne(s, v, ms);
            && (u.game.over <==> s.game.over || v.graceMsLeft <= ms)
            && u.forfeited == if s.game.over || v.graceMsLeft > ms then s.forfeited else [v.color]
  {
    hide SessionInv, Forfeited, WentOn, OnPaths;
    ForfeitGoesOn(s, v.color);
  }

  /** Counting down forfeits for the first seat that runs out, unless the game is already over; no other forfeit
      happens, however many seats run out together. */
  lemma {:induction false} CountDownForfeits(s: Session, vacancies: seq<Vacancy>, ms: int)
    requires SessionInv(s)
    ensures var u, k := CountDown(s, vacancies, ms), FirstExpired(vacancies, ms);
            && (u.game.over <==> s.game.over || k < |vacancies|)
            && u.forfeited == if s.game.over || k == |vacancies| then s.forfeited else [vacancies[k].color]
  {
    if vacancies != [] {
      var n := |vacancies| - 1;
      CountDownForfeits(s, vacancies[..n], ms);
      var u := CountDown(s, vacancies[..n], ms);
      hide SessionInv, CountOne;
      CountOneForfeits(u, vacancies[n], ms);
    }
  }

  /** A tick forfeits exactly for the first held seat whose time has run out, if the game is still on then. */
  lemma TickForfeits(r: RoomState, ms: int)
    requires RoomInv(r) && OrdinaryEvent(r, TimePasses(ms))
    ensures var u, k := RoomStep(r, TimePasses(ms)), FirstExpired(r.vacancies, ms);
            && Ticked(r.session, ms).forfeited == r.session.forfeited
            && u.session.forfeited == (if Ticked(r.session, ms).game.over || k == |r.vacancies| then r.session.forfeited
                                       else [r.vacancies[k].color])
            && (k < |r.vacancies| ==> u.session.game.over)
            && |u.session.forfeited| <= 1
  {
    TickKeepsSession(r.session, ms);
    CountDownForfeits(Ticked(r.session, ms), r.vacancies, ms);
    EventKeepsRoom(r, TimePasses(ms));
  }

  /** Nobody's seat is held any longer for this dead connection. */
  ghost predicate NotHeld(r: RoomState, client: ClientId) {
    forall w :: w in r.vacancies ==> w.oldClient != client
  }

  lemma TickHoldsSeats(r: RoomState, ms: int, k: nat)
    requires RoomInv(r) && OrdinaryEvent(r, TimePasses(ms)) && k < |r.vacancies|
    ensures var u, v := RoomStep(r, TimePasses(ms)), r.vacancies[k];
            if v.graceMsLeft > ms then Later(v, ms) in u.vacancies else u.session.game.over && NotHeld(u, v.oldClient)
  {
    var u, v := RoomStep(r, TimePasses(ms)), r.vacancies[k];
    if v.graceMsLeft > ms {
      LaterAreKept(r.vacancies, ms, k);
    } else {
      TickForfeits(r, ms);
      forall w | w in u.vacancies
        ensures w.oldClient != v.oldClient
      {
        KeptAreLater(r.vacancies, ms, w);
        var i :| 0 <= i < |r.vacancies| && r.vacancies[i].graceMsLeft > ms && w == Later(r.vacancies[i], ms);
        OldClientsDiffer(r, i, k);
      }
    }
  }

  /** Main step. A held seat is counted down by ticks and touched by nothing else: it stays held, or the one it is held
      for takes it, or its time runs out and the game is over. */
  lemma HeldSeatsAreSafe(r: RoomState, e: RoomEvent, k: nat)
    requires RoomInv(r) && OrdinaryEvent(r, e) && k < |r.vacancies|
    ensures var u, v := RoomStep(r, e), r.vacancies[k];
            match e
            case TimePasses(ms) =>
              if v.graceMsLeft > ms then Later(v, ms) in u.vacancies else u.session.game.over && NotHeld(u, v.oldClient)
            case Join(client, username, _) => v in u.vacancies || (username == v.username && ClaimedBy(u, v, client))
            case _ => v in u.vacancies
  {
    match e
    case Join(client, username, rating) => JoiningHoldsSeats(r, client, username, rating, k);
    case TimePasses(ms) => TickHoldsSeats(r, ms, k);
    case _ =>
  }

  // ---- one held seat through a run ----

  function Spent(run: seq<RoomEvent>): int {
    if run == [] then 0 else (if run[0].TimePasses? then run[0].ms else 0) + Spent(run[1..])
  }

  lemma {:induction false} TimeOnlyPasses(r: RoomState, run: seq<RoomEvent>)
    requires RoomInv(r) && OrdinaryRoomRun(r, run)
    ensures Spent(run) >= 0
    decreases |run|
  {
    if run != [] {
      EventKeepsRoom(r, run[0]);
      TimeOnlyPasses(RoomStep(r, run[0]), run[1..]);
    }
  }

  lemma TickStaysOver(r: RoomState, ms: int, client: ClientId)
    requires RoomInv(r) && OrdinaryEvent(r, TimePasses(ms)) && r.session.game.over && NotHeld(r, client)
    ensures RoomStep(r, TimePasses(ms)).session.game.over && NotHeld(RoomStep(r, TimePasses(ms)), client)
  {
    hide SessionInv, OneEach, VacanciesHold, OrdinaryWait, Ticked, CountDown, FirstExpired, SameSeats, FrameOf, OnPaths;
    TickKeepsSession(r.session, ms);
    CountDownForfeits(Ticked(r.session, ms), r.vacancies, ms);
    forall w | w in Kept(r.vacancies, ms)
      ensures w.oldClient != client
    {
      KeptAreLater(r.vacancies, ms, w);
    }
  }

  lemma OverStays(r: RoomState, e: RoomEvent, client: ClientId)
    requires RoomInv(r) && OrdinaryEvent(r, e) && r.session.game.over && NotHeld(r, client)
    ensures RoomStep(r, e).session.game.over && NotHeld(RoomStep(r, e), client)
  {
    hide SessionInv, OneEach, VacanciesHold, OrdinaryWait, Elapsed, ApplyCommand, RosterOf;
    match e
    case TimePasses(ms) => TickStaysOver(r, ms, client);
    case Play(c, command) => CommandKeepsSession(r.session, c, command);
    case _ =>
  }

  lemma {:induction false} OverStaysOver(r: RoomState, run: seq<RoomEvent>, client: ClientId)
    requires RoomInv(r) && OrdinaryRoomRun(r, run) && r.session.game.over && NotHeld(r, client)
    ensures RoomRun(r, run).session.game.over && NotHeld(RoomRun(r, run), client)
    decreases |run|
  {
    if run != [] {
      EventKeepsRoom(r, run[0]);
      OverStays(r, run[0], client);
      hide RoomInv, RoomStep, NotHeld;
      OverStaysOver(RoomStep(r, run[0]), run[1..], client);
    }
  }

  /** v is held still, `spent` ms later, and its seat is its owner's and no one else's. */
  ghost predicate HeldStill(r: RoomState, v: Vacancy, spent: int) {
    && (exists w :: w in r.vacancies && w == v.(graceMsLeft := v.graceMsLeft - spent, lastSecondSent := w.lastSecondSent))
    && ClientOn(r.session.seats, v.color) == Some(v.oldClient)
    && v.oldClient in r.session.seats && r.session.seats[v.oldClient].username == v.username
  }

  lemma HeldNow(r: RoomState, v: Vacancy)
    requires RoomInv(r) && v in r.vacancies
    ensures HeldStill(r, v, 0)
  {
    var k :| 0 <= k < |r.vacancies| && r.vacancies[k] == v;
    assert Reserved(r.session.seats, v);
    TheClientOn(r.session.seats, v.oldClient, v.color);
  }

  lemma HeldLonger(r: RoomState, v: Vacancy, ms: int, spent: int)
    requires HeldStill(r, Later(v, ms), spent)
    ensures HeldStill(r, v, spent + ms)
  {
    var w :| w in r.vacancies && w == Later(v, ms).(graceMsLeft := v.graceMsLeft - ms - spent, lastSecondSent := w.lastSecondSent);
    assert w == v.(graceMsLeft := v.graceMsLeft - (spent + ms), lastSecondSent := w.lastSecondSent);
  }

  ghost predicate NobodyReturns(run: seq<RoomEvent>, username: string) {
    forall i :: 0 <= i < |run| && run[i].Join? ==> run[i].username != username
  }

  /** One event, when it is not the owner coming back. */
  lemma HeldThroughOne(r: RoomState, e: RoomEvent, v: Vacancy)
    requires RoomInv(r) && OrdinaryEvent(r, e) && v in r.vacancies && (e.Join? ==> e.username != v.username)
    ensures var u := RoomStep(r, e);
            if e.TimePasses? && v.graceMsLeft <= e.ms then u.session.game.over && NotHeld(u, v.oldClient)
            else (if e.TimePasses? then Later(v, e.ms) else v) in u.vacancies
  {
    var k :| 0 <= k < |r.vacancies| && r.vacancies[k] == v;
    hide RoomInv, OrdinaryEvent, RoomStep, NotHeld, Later, ClaimedBy;
    HeldSeatsAreSafe(r, e, k);
  }

  /** Main result. However a run mixes joins, drops, commands and ticks, a held seat that nobody comes back for is held
      until exactly 20000 ms of ticks have gone by since the drop (its grace at the start of the run); then it is gone
      and the game is over. */
  lemma {:induction false} HeldUntilTimeRunsOut(r: RoomState, run: seq<RoomEvent>, v: Vacancy)
    requires RoomInv(r) && OrdinaryRoomRun(r, run) && v in r.vacancies && NobodyReturns(run, v.username)
    ensures var u := RoomRun(r, run);
            if Spent(run) < v.graceMsLeft then HeldStill(u, v, Spent(run))
            else u.session.game.over && NotHeld(u, v.oldClient)
    decreases |run|
  {
    hide RoomInv, RoomStep, OrdinaryEvent, NotHeld, HeldStill, InTime, Later;
    if run == [] {
      HeldNow(r, v);
      HeldHasTime(r, v);
    } else {
      var e, rest := run[0], run[1..];
      EventKeepsRoom(r, e);
      var mid := RoomStep(r, e);
      HeldThroughOne(r, e, v);
      TimeOnlyPasses(mid, rest);
      LaterIs(v, if e.TimePasses? then e.ms else 0);
      assert NobodyReturns(rest, v.username);
      if e.TimePasses? && v.graceMsLeft <= e.ms {
        OverStaysOver(mid, rest, v.oldClient);
      } else if e.TimePasses? {
        HeldUntilTimeRunsOut(mid, rest, Later(v, e.ms));
        if Spent(run) < v.graceMsLeft {
          HeldLonger(RoomRun(r, run), v, e.ms, Spent(rest));
        }
      } else {
        HeldUntilTimeRunsOut(mid, rest, v);
      }
    }
  }

  lemma HeldHasTime(r: RoomState, v: Vacancy)
    requires RoomInv(r) && v in r.vacancies
    ensures 0 < v.graceMsLeft <= GRACE_MS
  {
    var k :| 0 <= k < |r.vacancies| && r.vacancies[k] == v;
    assert InTime(r.vacancies[k]);
  }

  lemma LaterIs(v: Vacancy, ms: int)
    ensures var w := Later(v, ms);
            w.username == v.username && w.oldClient == v.oldClient && w.graceMsLeft == v.graceMsLeft - ms
  {
  }

  /** A drop holds the seat for the full time, unless the client had no seat or the game was over. */
  lemma DropHoldsSeat(r: RoomState, client: ClientId)
    requires RoomInv(r) && OrdinaryEvent(r, Drop(client))
    ensures var u, color := RoomStep(r, Drop(client)), ColorHeldBy(r.session.seats, client);
            if color.None? || r.session.game.over then u.vacancies == r.vacancies
            else
              var o := r.session.seats[client];
              u.vacancies == r.vacancies + [Vacancy(color.value, o.username, o.rating, client, 20000, -1)]
  {
    var color := ColorHeldBy(r.session.seats, client);
    if color.Some? {
      TheClientOn(r.session.seats, client, color.value);
    }
  }

  // ---- the countdown ----

  /** The seconds a room has announced, in order. */
  function Notices(sent: seq<Outgoing>): seq<int> {
    if sent == [] then []
    else
      var m := sent[|sent| - 1].message;
      Notices(sent[..|sent| - 1]) + if m.OpponentDisconnected? then [m.secondsLeft] else []
  }

  lemma OneMoreSent(sent: seq<Outgoing>, o: Outgoing)
    ensures Notices(sent + [o])
         == Notices(sent) + if o.message.OpponentDisconnected? then [o.message.secondsLeft] else []
  {
    assert (sent + [o])[..|sent|] == sent;
  }

  lemma BroadcastSays(s: Session, m: Wire.WireMessage)
    ensures Notices(Broadcast(s, m).sent) == Notices(s.sent) + if m.OpponentDisconnected? then [m.secondsLeft] else []
  {
    OneMoreSent(s.sent, Outgoing(s.members, m));
  }

  lemma SettlingSaysNothing(s: Session, loser: Color)
    requires Reciprocal(s.odds)
    ensures Notices(Settle(s, loser).sent) == Notices(s.sent)
  {
    hide Notices, Settled, Persisted, IsTaken;
    if IsTaken(s.seats, White) && IsTaken(s.seats, Black) {
      OneMoreSent(s.sent, Outgoing(s.members, RosterOf(Settled(s.odds, s.seats, loser))));
    }
  }

  lemma {:induction false} ForwardingSaysNothing(s: Session, news: seq<Announcement>)
    requires Reciprocal(s.odds)
    ensures Notices(ForwardAll(s, news).sent) == Notices(s.sent)
  {
    if news != [] {
      var n := |news| - 1;
      ForwardingSaysNothing(s, news[..n]);
      var mid := ForwardAll(s, news[..n]);
      hide Notices, Settle, Reciprocal;
      match news[n]
      case Moved(event) => BroadcastSays(mid, Wire.Move(event));
      case Took(captured) =>
        BroadcastSays(mid, Wire.Capture(captured));
        SettlingSaysNothing(Broadcast(mid, Wire.Capture(captured)), captured.color);
    }
  }

  /** What one held seat says at a tick: the seconds left, if that number is new. */
  function SecondsSaid(v: Vacancy, ms: int): seq<int> {
    var left := v.graceMsLeft - ms;
    if left <= 0 || SecondsLeft(left) == v.lastSecondSent then [] else [SecondsLeft(left)]
  }

  function AllSaid(vacancies: seq<Vacancy>, ms: int): seq<int> {
    if vacancies == [] then []
    else AllSaid(vacancies[..|vacancies| - 1], ms) + SecondsSaid(vacancies[|vacancies| - 1], ms)
  }

  lemma ForfeitSaysNothing(s: Session, loser: Color)
    requires SessionInv(s)
    ensures OnPaths(s.game.world.active)
    ensures Notices(Forfeited(s, loser).sent) == Notices(s.sent)
  {
    ForfeitGoesOn(s, loser);
    hide Notices, Settle, WentOn, OnPaths, FrameOf, GameInv;
    if !s.game.over {
      var over := s.(game := EndGame(s.game), forfeited := s.forfeited + [loser]);
      SettlingSaysNothing(over, loser);
      BroadcastSays(Settle(over, loser), FrameOf(over.game));
      FramesAreNoNotices(over.game);
    }
  }

  lemma FramesAreNoNotices(g: Game)
    requires OnPaths(g.world.active) && g.world.width > 0 && g.world.height > 0
    ensures FrameOf(g).StateUpdate?
  {
  }

  lemma CountOneNotices(s: Session, v: Vacancy, ms: int)
    requires SessionInv(s)
    ensures Notices(CountOne(s, v, ms).sent) == Notices(s.sent) + SecondsSaid(v, ms)
  {
    hide SessionInv, Notices, Forfeited, OnPaths, SecondsLeft;
    ForfeitSaysNothing(s, v.color);
    BroadcastSays(s, Wire.OpponentDisconnected(SecondsLeft(v.graceMsLeft - ms)));
  }

  lemma {:induction false} CountDownSays(s: Session, vacancies: seq<Vacancy>, ms: int)
    requires SessionInv(s)
    ensures Notices(CountDown(s, vacancies, ms).sent) == Notices(s.sent) + AllSaid(vacancies, ms)
  {
    hide SessionInv, Notices, CountOne, SecondsSaid, CountDown, Kept;
    if vacancies == [] {
      NothingCounted(s, vacancies, ms);
      assert vacancies[..0] == vacancies;
    } else {
      var n := |vacancies| - 1;
      CountDownSays(s, vacancies[..n], ms);
      OneMoreCounted(s, vacancies, n, ms);
      assert vacancies[..n + 1] == vacancies;
      CountOneNotices(CountDown(s, vacancies[..n], ms), vacancies[n], ms);
    }
  }

  /** A room announces, at each tick, what its held seats say, in the order they fell vacant. */
  lemma TickSays(r: RoomState, ms: int)
    requires RoomInv(r) && OrdinaryEvent(r, TimePasses(ms))
    ensures Notices(RoomStep(r, TimePasses(ms)).session.sent) == Notices(r.session.sent) + AllSaid(r.vacancies, ms)
  {
    TickedSaysNothing(r.session, ms);
    TickKeepsSession(r.session, ms);
    hide Notices, SessionInv, OrdinaryWait, Ticked, CountDown;
    CountDownSays(Ticked(r.session, ms), r.vacancies, ms);
  }

  lemma TickedSaysNothing(s: Session, ms: int)
    requires SessionInv(s) && OrdinaryWait(s.game.world, ms)
    ensures Notices(Ticked(s, ms).sent) == Notices(s.sent)
  {
    TickKeepsSession(s, ms);
    WaitAnnounces(s.game, ms);
    hide Notices, GameInv, OrdinaryWait, Wait, ForwardAll, FrameOf, OnPaths, KingsTaken;
    var game := Wait(s.game, ms);
    ForwardingSaysNothing(s.(game := game), game.announced[|s.game.announced|..]);
    var u := GoOn(s, game);
    FramesAreNoNotices(game);
    BroadcastSays(u, FrameOf(game));
  }

  function VacancyOf(vacancies: seq<Vacancy>, client: ClientId): (k: nat)
    ensures k <= |vacancies|
    ensures k < |vacancies| ==> vacancies[k].oldClient == client
    ensures forall j :: 0 <= j < k ==> vacancies[j].oldClient != client
  {
    if vacancies == [] || vacancies[0].oldClient == client then 0
    else
      var k := VacancyOf(vacancies[1..], client);
      assert forall j :: 0 < j < k + 1 ==> vacancies[j] == vacancies[1..][j - 1];
      k + 1
  }

  /** All that the seat held for `client` says during a run, for as long as it is held. */
  ghost function Said(r: RoomState, run: seq<RoomEvent>, client: ClientId): seq<int>
    requires RoomInv(r) && OrdinaryRoomRun(r, run)
    decreases |run|
  {
    var k := VacancyOf(r.vacancies, client);
    if run == [] || k == |r.vacancies| then []
    else
      EventKeepsRoom(r, run[0]);
      (if run[0].TimePasses? then SecondsSaid(r.vacancies[k], run[0].ms) else [])
      + Said(RoomStep(r, run[0]), run[1..], client)
  }

  ghost predicate FallsBelow(said: seq<int>, bound: int) {
    && (forall i :: 0 <= i < |said| ==> 1 <= said[i] < bound)
    && (forall i, j :: 0 <= i < j < |said| ==> said[j] < said[i])
  }

  /** The first number a held seat has not announced yet. */
  function NextBound(v: Vacancy): int {
    if v.lastSecondSent == -1 then SecondsLeft(GRACE_MS) + 1 else v.lastSecondSent
  }

  lemma SecondsFall(a: int, b: int)
    requires a <= b
    ensures SecondsLeft(a) <= SecondsLeft(b) && (a > 0 ==> SecondsLeft(a) >= 1)
  {
  }

  lemma OneTickFalls(v: Vacancy, ms: int, more: seq<int>)
    requires InTime(v) && ms >= 0
    requires if v.graceMsLeft > ms then FallsBelow(more, NextBound(Later(v, ms))) else more == []
    ensures FallsBelow(SecondsSaid(v, ms) + more, NextBound(v))
  {
    SecondsFall(v.graceMsLeft - ms, v.graceMsLeft);
    SecondsFall(v.graceMsLeft - ms, GRACE_MS);
  }

  /** Held seats come from held seats, or from a drop. */
  lemma NothingNew(r: RoomState, e: RoomEvent, w: Vacancy)
    requires RoomInv(r) && OrdinaryEvent(r, e) && w in RoomStep(r, e).vacancies
    ensures match e
            case TimePasses(ms) =>
              exists i :: 0 <= i < |r.vacancies| && r.vacancies[i].graceMsLeft > ms && w == Later(r.vacancies[i], ms)
            case Drop(client) => w in r.vacancies || (w.oldClient == client && !IsGone(r, client))
            case _ => w in r.vacancies
  {
    hide SessionInv, OneEach, VacanciesHold, OrdinaryWait, ApplyCommand, Ticked, CountDown, RosterOf;
    match e
    case TimePasses(ms) => KeptAreLater(r.vacancies, ms, w);
    case Drop(client) =>
      if IsGone(r, client) {
        OverDropKeepsRoom(r, client);
      }
    case _ =>
  }

  lemma SameOldClient(r: RoomState, w: Vacancy, v: Vacancy)
    requires RoomInv(r) && w in r.vacancies && v in r.vacancies && w.oldClient == v.oldClient
    ensures w == v
  {
    var i :| 0 <= i < |r.vacancies| && r.vacancies[i] == w;
    var h :| 0 <= h < |r.vacancies| && r.vacancies[h] == v;
    hide RoomInv;
    if i != h {
      OldClientsDiffer(r, i, h);
    }
  }

  /** What an event leaves of a held seat: itself, a tick later if time passed, if anything. */
  lemma HeldSeatNext(r: RoomState, e: RoomEvent, v: Vacancy, w: Vacancy)
    requires RoomInv(r) && OrdinaryEvent(r, e) && v in r.vacancies
    requires w in RoomStep(r, e).vacancies && w.oldClient == v.oldClient
    ensures w == if e.TimePasses? then Later(v, e.ms) else v
    ensures e.TimePasses? ==> v.graceMsLeft > e.ms
  {
    assert IsGone(r, v.oldClient);
    hide RoomInv, OrdinaryEvent, RoomStep, Later;
    NothingNew(r, e, w);
    match e
    case TimePasses(ms) =>
      var i :| 0 <= i < |r.vacancies| && r.vacancies[i].graceMsLeft > ms && w == Later(r.vacancies[i], ms);
      LaterIs(r.vacancies[i], ms);
      SameOldClient(r, r.vacancies[i], v);
    case _ => SameOldClient(r, w, v);
  }

  /** Main result: the numbers announced for one held seat fall strictly from at most 20 to no less than 1. */
  lemma {:induction false} CountdownFalls(r: RoomState, run: seq<RoomEvent>, client: ClientId)
    requires RoomInv(r) && OrdinaryRoomRun(r, run)
    ensures var said, k := Said(r, run, client), VacancyOf(r.vacancies, client);
            if k == |r.vacancies| then said == []
            else FallsBelow(said, NextBound(r.vacancies[k])) && NextBound(r.vacancies[k]) <= 21
    decreases |run|
  {
    hide RoomInv, RoomStep, OrdinaryEvent, InTime, FallsBelow, SecondsSaid, SecondsLeft, NextBound, Later;
    var k := VacancyOf(r.vacancies, client);
    if k < |r.vacancies| {
      var v := r.vacancies[k];
      BoundIsLow(r, k);
      NothingFalls(NextBound(v));
      if run != [] {
        var e := run[0];
        EventKeepsRoom(r, e);
        var mid := RoomStep(r, e);
        CountdownFalls(mid, run[1..], client);
        var more := Said(mid, run[1..], client);
        var h := VacancyOf(mid.vacancies, client);
        if h < |mid.vacancies| {
          HeldSeatNext(r, e, v, mid.vacancies[h]);
        } else if e.TimePasses? {
          NothingFalls(NextBound(Later(v, e.ms)));
        }
        if e.TimePasses? {
          TimeIsNotNegative(r, e.ms);
          OneTickFalls(v, e.ms, more);
        } else {
          assert [] + more == more;
        }
      }
    }
  }

  lemma BoundIsLow(r: RoomState, k: nat)
    requires RoomInv(r) && k < |r.vacancies|
    ensures InTime(r.vacancies[k]) && NextBound(r.vacancies[k]) <= 21
  {
    var v := r.vacancies[k];
    assert InTime(v);
    SecondsFall(v.graceMsLeft, GRACE_MS);
  }

  lemma TimeIsNotNegative(r: RoomState, ms: int)
    requires OrdinaryEvent(r, TimePasses(ms))
    ensures ms >= 0
  {
  }

  lemma NothingFalls(bound: int)
    ensures FallsBelow([], bound)
  {
  }
}
