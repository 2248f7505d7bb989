/** The Play queue and the lobby's table of clients that feeds it. */
module Matchmaking {
  import opened Model
  import opened Ratings
  import opened Seats
  import opened Sessions
  import opened Rooms
  import opened OrdinaryPlay
  import RoomRuns
  import Wire

  const ELO_MATCH_RANGE := 100
  const TIMEOUT_MS := 60000

  datatype Seeker = Seeker(client: ClientId, rating: int, waitedMs: int)

  predicate InRange(a: int, b: int) {
    Abs(a - b) <= ELO_MATCH_RANGE
  }

  predicate IsWaiting(queue: seq<Seeker>, client: ClientId) {
    exists k :: 0 <= k < |queue| && queue[k].client == client
  }

  // ---- what the queue keeps ----

  /** Nobody waits twice, nobody waits beside an opponent in range, and those who have waited longest come first. */
  ghost predicate QueueInv(queue: seq<Seeker>) {
    && (forall i :: 0 <= i < |queue| ==> 0 <= queue[i].waitedMs < TIMEOUT_MS)
    && (forall i, j :: 0 <= i < j < |queue| ==>
          && queue[i].client != queue[j].client
          && !InRange(queue[i].rating, queue[j].rating)
          && queue[i].waitedMs >= queue[j].waitedMs)
  }

  lemma RemovingKeepsQueue(queue: seq<Seeker>, k: nat)
    requires QueueInv(queue) && k < |queue|
    ensures QueueInv(Without(queue, k))
    ensures forall client :: IsWaiting(Without(queue, k), client) <==> IsWaiting(queue, client) && client != queue[k].client
  {
    var rest := Without(queue, k);
    forall i | 0 <= i < |rest|
      ensures rest[i] == queue[if i < k then i else i + 1]
    {
    }
    forall client
      ensures IsWaiting(rest, client) <==> IsWaiting(queue, client) && client != queue[k].client
    {
      if IsWaiting(queue, client) && client != queue[k].client {
        var i :| 0 <= i < |queue| && queue[i].client == client;
        assert rest[if i < k then i else i - 1].client == client;
      }
      if IsWaiting(rest, client) {
        var i :| 0 <= i < |rest| && rest[i].client == client;
        assert queue[if i < k then i else i + 1].client == client;
      }
    }
  }

  lemma JoiningKeepsQueue(queue: seq<Seeker>, client: ClientId, rating: int)
    requires QueueInv(queue) && !IsWaiting(queue, client)
    requires forall i :: 0 <= i < |queue| ==> !InRange(queue[i].rating, rating)
    ensures QueueInv(queue + [Seeker(client, rating, 0)])
  {
  }

  // ---- seeking ----

  /** Who is found: the first in range, who is the one in range that has waited longest. */
  ghost predicate IsMatchFor(queue: seq<Seeker>, rating: int, k: int) {
    && 0 <= k < |queue| && InRange(queue[k].rating, rating)
    && forall j :: 0 <= j < |queue| && j != k && InRange(queue[j].rating, rating) ==>
         k < j && queue[j].waitedMs <= queue[k].waitedMs
  }

  ghost predicate SomeoneInRange(queue: seq<Seeker>, rating: int) {
    exists k :: 0 <= k < |queue| && InRange(queue[k].rating, rating)
  }

  /** In numbers: those waiting are more than 100 points apart, none for a minute yet, and a match is within 100 points. */
  lemma WaitersAndMatches(queue: seq<Seeker>, i: nat, j: nat, rating: int, k: int)
    requires QueueInv(queue) && i < j < |queue|
    ensures queue[i].rating - queue[j].rating > 100 || queue[j].rating - queue[i].rating > 100
    ensures 0 <= queue[j].waitedMs <= queue[i].waitedMs < 60000
    ensures IsMatchFor(queue, rating, k) ==> -100 <= queue[k].rating - rating <= 100
    ensures 0 <= k < |queue| && -100 <= queue[k].rating - rating <= 100 ==> SomeoneInRange(queue, rating)
  {
  }

  class Matchmaker {
    var queue: seq<Seeker>

    constructor ()
      ensures queue == []
    {
      queue := [];
    }

    method HasWaiting(client: ClientId) returns (waiting: bool)
      ensures waiting == IsWaiting(queue, client)
    {
      for k := 0 to |queue|
        invariant forall j :: 0 <= j < k ==> queue[j].client != client
      {
        if queue[k].client == client {
          return true;
        }
      }
      waiting := false;
    }

    /** A match is the longest waiter in range, who leaves the queue; without one the seeker joins it, and one who
        waits already stays as they are. */
    method Seek(client: ClientId, rating: int) returns (opponent: Option<ClientId>)
      requires QueueInv(queue)
      modifies this
      ensures QueueInv(queue)
      ensures old(IsWaiting(queue, client)) ==> opponent == None && queue == old(queue)
      ensures !old(IsWaiting(queue, client)) ==> (opponent.Some? <==> SomeoneInRange(old(queue), rating))
      ensures !old(IsWaiting(queue, client)) && opponent == None ==> queue == old(queue) + [Seeker(client, rating, 0)]
      ensures opponent.Some? ==>
                && opponent.value != client
                && exists k :: IsMatchFor(old(queue), rating, k) && old(queue)[k].client == opponent.value
                               && queue == Without(old(queue), k)
    {
      var waiting := HasWaiting(client);
      if waiting {
        return None;
      }
      for k := 0 to |queue|
        invariant queue == old(queue)
        invariant forall j :: 0 <= j < k ==> !InRange(queue[j].rating, rating)
      {
        if InRange(queue[k].rating, rating) {
          opponent := Some(queue[k].client);
          RemovingKeepsQueue(queue, k);
          assert IsMatchFor(queue, rating, k);
          queue := queue[..k] + queue[k + 1..];
          return;
        }
      }
      JoiningKeepsQueue(queue, client, rating);
      queue := queue + [Seeker(client, rating, 0)];
      opponent := None;
    }

    method Cancel(client: ClientId)
      requires QueueInv(queue)
      modifies this
      ensures QueueInv(queue)
      ensures forall other :: IsWaiting(queue, other) <==> old(IsWaiting(queue, other)) && other != client
      ensures if !old(IsWaiting(queue, client)) then queue == old(queue)
              else exists k :: 0 <= k < |old(queue)| && old(queue)[k].client == client && queue == Without(old(queue), k)
    {
      for k := 0 to |queue|
        invariant queue == old(queue)
        invariant forall j :: 0 <= j < k ==> queue[j].client != client
      {
        if queue[k].client == client {
          RemovingKeepsQueue(queue, k);
          queue := queue[..k] + queue[k + 1..];
          return;
        }
      }
    }

    /** Those who have waited a minute leave: always the front of the queue. The others wait on in the same order. */
    method Tick(ms: int) returns (timedOut: seq<ClientId>)
      requires QueueInv(queue) && ms >= 0
      modifies this
      ensures QueueInv(queue)
      ensures timedOut == ClientsOf(old(queue)[..TimedOut(old(queue), ms)])
      ensures queue == Aged(old(queue)[TimedOut(old(queue), ms)..], ms)
    {
      hide *;
      timedOut := [];
      ghost var all := queue;
      ghost var seen: nat := 0;
      var k := 0;
      NothingAged(all, ms);
      while k < |queue|
        invariant seen <= |all| && 0 <= k <= |queue|
        invariant queue == Staying(all[..seen], ms) + all[seen..] && k == |Staying(all[..seen], ms)|
        invariant timedOut == ClientsOf(Leaving(all[..seen], ms))
        decreases |all| - seen
      {
        OneMoreTicked(all, ms, seen);
        var s := queue[k].(waitedMs := queue[k].waitedMs + ms);
        if s.waitedMs >= TIMEOUT_MS {
          timedOut := timedOut + [s.client];
          queue := queue[..k] + queue[k + 1..];
        } else {
          queue := queue[k := s];
          k := k + 1;
        }
        seen := seen + 1;
      }
      FrontLeaves(all, ms);
      assert all[..seen] == all && queue == Staying(all[..seen], ms);
    }
  }

  // ---- a tick ----

  function ClientsOf(seekers: seq<Seeker>): seq<ClientId> {
    seq(|seekers|, i requires 0 <= i < |seekers| => seekers[i].client)
  }

  function Aged(seekers: seq<Seeker>, ms: int): seq<Seeker> {
    seq(|seekers|, i requires 0 <= i < |seekers| => seekers[i].(waitedMs := seekers[i].waitedMs + ms))
  }

  predicate IsOut(s: Seeker, ms: int) {
    s.waitedMs + ms >= TIMEOUT_MS
  }

  function Leaving(queue: seq<Seeker>, ms: int): seq<Seeker> {
    if queue == [] then []
    else
      var n := |queue| - 1;
      Leaving(queue[..n], ms) + if IsOut(queue[n], ms) then [queue[n]] else []
  }

  function Staying(queue: seq<Seeker>, ms: int): seq<Seeker> {
    if queue == [] then []
    else
      var n := |queue| - 1;
      Staying(queue[..n], ms) + if IsOut(queue[n], ms) then [] else [queue[n].(waitedMs := queue[n].waitedMs + ms)]
  }

  /** How many at the front of the queue have waited long enough. */
  function TimedOut(queue: seq<Seeker>, ms: int): (k: nat)
    ensures k <= |queue|
    ensures forall j :: 0 <= j < k ==> IsOut(queue[j], ms)
    ensures k < |queue| ==> !IsOut(queue[k], ms)
  {
    if queue == [] || !IsOut(queue[0], ms) then 0
    else
      var k := TimedOut(queue[1..], ms);
      assert forall j :: 0 < j < k + 1 ==> queue[j] == queue[1..][j - 1];
      k + 1
  }

  lemma NothingAged(all: seq<Seeker>, ms: int)
    ensures Staying(all[..0], ms) == [] && Leaving(all[..0], ms) == [] && all[0..] == all
    ensures ClientsOf(Leaving(all[..0], ms)) == []
  {
  }

  lemma OneMoreAged(all: seq<Seeker>, ms: int, n: nat)
    requires n < |all|
    ensures Staying(all[..n + 1], ms)
         == if IsOut(all[n], ms) then Staying(all[..n], ms)
            else Staying(all[..n], ms) + [all[n].(waitedMs := all[n].waitedMs + ms)]
    ensures Leaving(all[..n + 1], ms)
         == if IsOut(all[n], ms) then Leaving(all[..n], ms) + [all[n]] else Leaving(all[..n], ms)
  {
    assert all[..n + 1][..n] == all[..n];
    assert Leaving(all[..n], ms) + [] == Leaving(all[..n], ms) && Staying(all[..n], ms) + [] == Staying(all[..n], ms);
  }

  /** Working on one seeker of the queue, the front of which is done. */
  lemma OneMoreTicked(all: seq<Seeker>, ms: int, n: nat)
    requires n < |all|
    ensures var done, more := Staying(all[..n], ms), Staying(all[..n + 1], ms);
            var queue, s := done + all[n..], all[n].(waitedMs := all[n].waitedMs + ms);
            && queue[|done|] == all[n]
            && (if s.waitedMs >= TIMEOUT_MS then
                  && more + all[n + 1..] == queue[..|done|] + queue[|done| + 1..] && |more| == |done|
                  && ClientsOf(Leaving(all[..n + 1], ms)) == ClientsOf(Leaving(all[..n], ms)) + [s.client]
                else
                  && more + all[n + 1..] == queue[|done| := s] && |more| == |done| + 1
                  && ClientsOf(Leaving(all[..n + 1], ms)) == ClientsOf(Leaving(all[..n], ms)))
  {
    hide Staying, Leaving, ClientsOf, IsOut;
    OneMoreAged(all, ms, n);
    var s := all[n].(waitedMs := all[n].waitedMs + ms);
    QueueSplit(Staying(all[..n], ms), all, n, s);
    OneMoreClient(Leaving(all[..n], ms), all[n]);
    OutIsTimedOut(all[n], ms);
  }

  lemma OutIsTimedOut(s: Seeker, ms: int)
    ensures IsOut(s, ms) <==> s.waitedMs + ms >= TIMEOUT_MS
  {
  }

  lemma OneMoreClient(seekers: seq<Seeker>, s: Seeker)
    ensures ClientsOf(seekers + [s]) == ClientsOf(seekers) + [s.client]
  {
  }

  lemma QueueSplit(done: seq<Seeker>, all: seq<Seeker>, n: nat, s: Seeker)
    requires n < |all|
    ensures var queue := done + all[n..];
            && queue[|done|] == all[n] && queue[..|done|] + queue[|done| + 1..] == done + all[n + 1..]
            && queue[|done| := s] == done + [s] + all[n + 1..]
  {
  }

  /** Those who are out come before those who are not. */
  lemma OutIsFront(queue: seq<Seeker>, ms: int, j: nat)
    requires QueueInv(queue) && j < |queue|
    ensures IsOut(queue[j], ms) <==> j < TimedOut(queue, ms)
  {
    var k := TimedOut(queue, ms);
    if k < j {
      assert queue[k].waitedMs >= queue[j].waitedMs;
    }
  }

  lemma {:induction false} FrontIsOut(queue: seq<Seeker>, ms: int, n: nat)
    requires n <= TimedOut(queue, ms)
    ensures Leaving(queue[..n], ms) == queue[..n] && Staying(queue[..n], ms) == []
  {
    hide *;
    if n == 0 {
      NothingAged(queue, ms);
    } else {
      FrontIsOut(queue, ms, n - 1);
      OneMoreAged(queue, ms, n - 1);
      assert IsOut(queue[n - 1], ms);
      assert queue[..n] == queue[..n - 1] + [queue[n - 1]];
    }
  }

  lemma NothingToAge(queue: seq<Seeker>, ms: int, n: nat)
    requires n <= |queue|
    ensures Aged(queue[n..n], ms) == []
  {
  }

  lemma AgedMore(queue: seq<Seeker>, ms: int, k: nat, n: nat)
    requires k <= n < |queue|
    ensures Aged(queue[k..n + 1], ms) == Aged(queue[k..n], ms) + [queue[n].(waitedMs := queue[n].waitedMs + ms)]
  {
  }

  /** Sorted by waiting time, a queue loses a front part of itself and nothing else. */
  lemma {:induction false} LongestLeave(queue: seq<Seeker>, ms: int, n: nat)
    requires QueueInv(queue) && TimedOut(queue, ms) <= n <= |queue|
    ensures var k := TimedOut(queue, ms);
            Leaving(queue[..n], ms) == queue[..k] && Staying(queue[..n], ms) == Aged(queue[k..n], ms)
  {
    hide *;
    var k := TimedOut(queue, ms);
    if n == k {
      FrontIsOut(queue, ms, n);
      NothingToAge(queue, ms, k);
    } else {
      LongestLeave(queue, ms, n - 1);
      OneMoreAged(queue, ms, n - 1);
      OutIsFront(queue, ms, n - 1);
      AgedMore(queue, ms, k, n - 1);
    }
  }

  lemma FrontLeaves(queue: seq<Seeker>, ms: int)
    requires QueueInv(queue) && ms >= 0
    ensures var k := TimedOut(queue, ms);
            Leaving(queue, ms) == queue[..k] && Staying(queue, ms) == Aged(queue[k..], ms)
    ensures QueueInv(Aged(queue[TimedOut(queue, ms)..], ms))
  {
    LongestLeave(queue, ms, |queue|);
    StayingKeepQueue(queue, ms, TimedOut(queue, ms));
    hide *;
    assert queue[..|queue|] == queue;
    assert queue[TimedOut(queue, ms)..|queue|] == queue[TimedOut(queue, ms)..];
  }

  lemma StayingKeepQueue(queue: seq<Seeker>, ms: int, k: nat)
    requires QueueInv(queue) && ms >= 0 && k == TimedOut(queue, ms)
    ensures QueueInv(Aged(queue[k..], ms))
    ensures forall client :: IsWaiting(Aged(queue[k..], ms), client) ==> IsWaiting(queue, client)
  {
    var rest := Aged(queue[k..], ms);
    forall i | 0 <= i < |rest|
      ensures rest[i] == queue[k + i].(waitedMs := queue[k + i].waitedMs + ms) && 0 <= rest[i].waitedMs < TIMEOUT_MS
    {
      assert queue[k].waitedMs >= queue[k + i].waitedMs;
    }
    forall client | IsWaiting(rest, client)
      ensures IsWaiting(queue, client)
    {
      var i :| 0 <= i < |rest| && rest[i].client == client;
      assert queue[k + i].client == client;
    }
  }

  // ---- the lobby's table ----

  datatype LobbyClient = LobbyClient(username: string, rating: int, authed: bool, room: Option<string>)

  datatype Answer = Answer(client: ClientId, message: Wire.WireMessage)

  /** The lobby as far as seeking goes: rooms are named by identifiers given to it. */
  class Lobby {
    const matchmaker: Matchmaker
    var clients: map<ClientId, LobbyClient>
    /** What the lobby answered, in order. */
    var answers: seq<Answer>
    /** The pairs put in a room together, waiting player first. */
    ghost var matched: seq<(ClientId, ClientId)>

    /** Whoever waits is a client the lobby knows and has let in. */
    ghost predicate Valid()
      reads this, matchmaker
    {
      && QueueInv(matchmaker.queue)
      && (forall c :: IsWaiting(matchmaker.queue, c) ==> c in clients)
      && (forall c :: c in clients ==> clients[c].authed)
    }

    constructor ()
      ensures Valid() && fresh(matchmaker) && clients == map[] && answers == [] && matched == []
    {
      matchmaker := new Matchmaker();
      clients, answers, matched := map[], [], [];
    }

    /** `rating` is what the account store says when it accepts the login. */
    method HandleLogin(client: ClientId, username: string, rating: Option<int>)
      requires Valid()
      modifies this
      ensures Valid() && matched == old(matched)
      ensures clients == if rating.Some? then old(clients)[client := LobbyClient(username, rating.value, true, None)]
                         else old(clients)
      ensures answers == if rating.Some? then old(answers)
                         else old(answers) + [Answer(client, Wire.AuthRejected("incorrect password for " + username))]
    {
      if rating.None? {
        answers := answers + [Answer(client, Wire.AuthRejected("incorrect password for " + username))];
        return;
      }
      clients := clients[client := LobbyClient(username, rating.value, true, None)];
    }

    method EnterRoom(client: ClientId, room: string)
      requires Valid() && client in clients
      modifies this`clients, this`answers
      ensures Valid()
      ensures clients == old(clients)[client := old(clients)[client].(room := Some(room))]
      ensures answers == old(answers) + [Answer(client, Wire.EnteredRoom(room))]
    {
      clients := clients[client := clients[client].(room := Some(room))];
      answers := answers + [Answer(client, Wire.EnteredRoom(room))];
    }

    /** Looking up the opponent never fails, and the two enter the new room together. */
    method HandleSeek(client: ClientId, newRoom: string)
      requires Valid()
      modifies this, matchmaker
      ensures Valid()
      ensures client !in old(clients) ==>
                answers == old(answers) + [Answer(client, Wire.RoomError("log in before searching for a game"))]
                && clients == old(clients) && matchmaker.queue == old(matchmaker.queue) && matched == old(matched)
      ensures client in old(clients) && matched == old(matched) ==>
                clients == old(clients) && answers == old(answers) && IsWaiting(matchmaker.queue, client)
      ensures client in old(clients) ==>
                (matched != old(matched) <==> !old(IsWaiting(matchmaker.queue, client))
                                              && SomeoneInRange(old(matchmaker.queue), old(clients)[client].rating))
      ensures matched != old(matched) ==> client in old(clients)
      ensures matched != old(matched) ==>
                exists opponent ::
                  && opponent != client && matched == old(matched) + [(opponent, client)]
                  && old(IsWaiting(matchmaker.queue, opponent)) && opponent in old(clients)
                  && !IsWaiting(matchmaker.queue, opponent) && !IsWaiting(matchmaker.queue, client)
                  && answers == old(answers)
                                + [Answer(opponent, Wire.EnteredRoom(newRoom)), Answer(client, Wire.EnteredRoom(newRoom))]
                  && clients == old(clients)[opponent := old(clients)[opponent].(room := Some(newRoom))]
                                            [client := old(clients)[client].(room := Some(newRoom))]
    {
      if client !in clients || !clients[client].authed {
        answers := answers + [Answer(client, Wire.RoomError("log in before searching for a game"))];
        return;
      }
      hide QueueInv, InRange, SomeoneInRange;
      ghost var before := matchmaker.queue;
      var opponent := matchmaker.Seek(client, clients[client].rating);
      if opponent.None? {
        SeekerJoins(before, matchmaker.queue, client, clients[client].rating);
        return;
      }
      ghost var k :| IsMatchFor(before, clients[client].rating, k) && before[k].client == opponent.value
                     && matchmaker.queue == Without(before, k);
      RemovingKeepsQueue(before, k);
      assert IsWaiting(before, opponent.value);
      EnterRoom(opponent.value, newRoom);
      EnterRoom(client, newRoom);
      matched := matched + [(opponent.value, client)];
    }

    method HandleCancel(client: ClientId)
      requires Valid()
      modifies matchmaker
      ensures Valid() && !IsWaiting(matchmaker.queue, client)
    {
      matchmaker.Cancel(client);
    }

    /** A client that is gone is neither waited for nor known. */
    method HandleDisconnected(client: ClientId)
      requires Valid()
      modifies this`clients, matchmaker
      ensures Valid() && clients == old(clients) - {client}
      ensures forall other :: IsWaiting(matchmaker.queue, other) <==>
                old(IsWaiting(matchmaker.queue, other)) && other != client
    {
      matchmaker.Cancel(client);
      clients := clients - {client};
    }

    method Tick(ms: int)
      requires Valid() && ms >= 0
      modifies this`answers, matchmaker
      ensures Valid()
      ensures var k := TimedOut(old(matchmaker.queue), ms);
              && answers == old(answers) + NoMatches(ClientsOf(old(matchmaker.queue)[..k]))
              && matchmaker.queue == Aged(old(matchmaker.queue)[k..], ms)
    {
      ghost var before := matchmaker.queue;
      StayingKeepQueue(before, ms, TimedOut(before, ms));
      var timedOut := matchmaker.Tick(ms);
      ghost var said := answers;
      for k := 0 to |timedOut|
        invariant Valid() && answers == said + NoMatches(timedOut[..k])
        invariant matchmaker.queue == Aged(before[TimedOut(before, ms)..], ms)
      {
        assert NoMatches(timedOut[..k + 1]) == NoMatches(timedOut[..k]) + [Answer(timedOut[k], Wire.NoMatch)];
        answers := answers + [Answer(timedOut[k], Wire.NoMatch)];
      }
      assert timedOut[..|timedOut|] == timedOut;
    }
  }

  function NoMatches(clients: seq<ClientId>): seq<Answer> {
    seq(|clients|, i requires 0 <= i < |clients| => Answer(clients[i], Wire.NoMatch))
  }

  lemma SeekerJoins(before: seq<Seeker>, after: seq<Seeker>, client: ClientId, rating: int)
    requires after == before + [Seeker(client, rating, 0)] || (after == before && IsWaiting(before, client))
    ensures forall c :: IsWaiting(after, c) <==> IsWaiting(before, c) || c == client
  {
    if after == before + [Seeker(client, rating, 0)] {
      assert after[|before|].client == client;
      forall c | IsWaiting(before, c)
        ensures IsWaiting(after, c)
      {
        var i :| 0 <= i < |before| && before[i].client == c;
        assert after[i].client == c;
      }
    }
  }

  lemma FirstSitsWhite(r: RoomState, client: ClientId, o: Occupant)
    requires r.vacancies == [] && r.session.seats == map[]
    ensures var u := Joined(r, client, o.username, o.rating);
            u.vacancies == [] && u.session.seats == map[client := Occupant(Some(White), o.username, o.rating)]
  {
    hide RosterOf;
  }

  lemma SecondSitsBlack(r: RoomState, first: ClientId, f: Occupant, client: ClientId, o: Occupant)
    requires r.vacancies == [] && r.session.seats == map[first := f] && f.color == Some(White)
    ensures Joined(r, client, o.username, o.rating).session.seats
         == map[first := f][client := Occupant(Some(Black), o.username, o.rating)]
  {
    assert SitsOn(r.session.seats, first, White);
    assert !IsTaken(r.session.seats, Black);
    hide RosterOf, IsTaken;
  }

  /** In the room of a match the waiting player sits white and the arriving one black. */
  lemma MatchedPairSits(odds: Odds, board: Grid, waiting: ClientId, arriving: ClientId, w: Occupant, a: Occupant)
    requires Reciprocal(odds) && SetUp(board) && waiting != arriving
    ensures var first := Joined(RoomRuns.NewRoom(odds, board), waiting, w.username, w.rating);
            var r := Joined(first, arriving, a.username, a.rating);
            && RoomInv(r)
            && ClientOn(r.session.seats, White) == Some(waiting) && ClientOn(r.session.seats, Black) == Some(arriving)
  {
    hide SetUp, Reciprocal, SessionInv, VacanciesHold, Joined, OneEach;
    var empty := RoomRuns.NewRoom(odds, board);
    RoomRuns.NewRoomIsSound(odds, board);
    FirstSitsWhite(empty, waiting, w);
    JoinKeepsRoom(empty, waiting, w.username, w.rating);
    var first := Joined(empty, waiting, w.username, w.rating);
    SecondSitsBlack(first, waiting, first.session.seats[waiting], arriving, a);
    JoinKeepsRoom(first, arriving, a.username, a.rating);
    var r := Joined(first, arriving, a.username, a.rating);
    TheClientOn(r.session.seats, waiting, White);
    TheClientOn(r.session.seats, arriving, Black);
  }
}
