/** Who sits where, and what a settled game does to their ratings. */
module Seats {
  import opened Model
  import opened Ratings

  type ClientId = nat

  datatype Occupant = Occupant(color: Option<Color>, username: string, rating: int)

  type Table = map<ClientId, Occupant>

  predicate SitsOn(t: Table, id: ClientId, color: Color) {
    id in t && t[id].color == Some(color)
  }

  ghost predicate IsTaken(t: Table, color: Color) {
    exists id :: SitsOn(t, id, color)
  }

  ghost predicate IsFirstOn(t: Table, id: ClientId, color: Color) {
    SitsOn(t, id, color) && forall other :: SitsOn(t, other, color) ==> id <= other
  }

  predicate IsLeast(ids: set<ClientId>, id: ClientId) {
    id in ids && forall other :: other in ids ==> id <= other
  }

  lemma LeastOfMore(rest: set<ClientId>, least: ClientId, some: ClientId)
    requires IsLeast(rest, least)
    ensures IsLeast(rest + {some}, if some < least then some else least)
  {
  }

  lemma {:induction false} LeastExists(ids: set<ClientId>)
    requires ids != {}
    ensures exists id :: IsLeast(ids, id)
    decreases |ids|
  {
    var some :| some in ids;
    var rest := ids - {some};
    assert ids == rest + {some};
    if rest == {} {
      assert ids == {some} && IsLeast(ids, some);
    } else {
      LeastExists(rest);
      var least :| IsLeast(rest, least);
      LeastOfMore(rest, least, some);
    }
  }

  lemma FirstExists(t: Table, color: Color)
    requires IsTaken(t, color)
    ensures exists id :: IsFirstOn(t, id, color)
  {
    var ids := set id | id in t && SitsOn(t, id, color);
    var some :| SitsOn(t, some, color);
    assert some in ids;
    LeastExists(ids);
    var id :| IsLeast(ids, id);
    forall other | SitsOn(t, other, color)
      ensures id <= other
    {
      assert other in ids;
    }
    assert IsFirstOn(t, id, color);
  }

  /** The client on a colour: the first in the table's order, should there be several. */
  ghost function ClientOn(t: Table, color: Color): (found: Option<ClientId>)
    ensures found.Some? <==> IsTaken(t, color)
    ensures found.Some? ==> IsFirstOn(t, found.value, color)
  {
    if IsTaken(t, color) then
      FirstExists(t, color);
      var id :| IsFirstOn(t, id, color);
      Some(id)
    else None
  }

  ghost function OccupantOf(t: Table, color: Color): (found: Option<Occupant>)
    ensures found.Some? <==> IsTaken(t, color)
    ensures found.Some? ==> found.value.color == Some(color)
  {
    var id := ClientOn(t, color);
    if id.Some? then Some(t[id.value]) else None
  }

  function ColorHeldBy(t: Table, id: ClientId): Option<Color> {
    if id in t then t[id].color else None
  }

  ghost function AssignColor(t: Table): Option<Color> {
    if !IsTaken(t, White) then Some(White) else if !IsTaken(t, Black) then Some(Black) else None
  }

  /** At most one player to a colour. */
  ghost predicate OneEach(t: Table) {
    forall a, b, color :: SitsOn(t, a, color) && SitsOn(t, b, color) ==> a == b
  }

  lemma TheClientOn(t: Table, id: ClientId, color: Color)
    requires OneEach(t) && SitsOn(t, id, color)
    ensures ClientOn(t, color) == Some(id) && OccupantOf(t, color) == Some(t[id])
  {
  }

  function WithRating(t: Table, id: ClientId, rating: int): Table {
    if id in t then t[id := t[id].(rating := rating)] else t
  }

  // ---- settling ----

  datatype Settlement = Settlement(username: string, rating: int)

  ghost function SettledRatings(odds: Odds, t: Table, loser: Color): (int, int)
    requires Reciprocal(odds) && IsTaken(t, White) && IsTaken(t, Black)
  {
    var w, l := OccupantOf(t, OpponentOf(loser)).value.rating, OccupantOf(t, loser).value.rating;
    (UpdatedRating(odds, w, l, WIN), UpdatedRating(odds, l, w, LOSS))
  }

  /** Both ratings move, unless a seat is empty. */
  ghost function Settled(odds: Odds, t: Table, loser: Color): Table
    requires Reciprocal(odds)
  {
    if !IsTaken(t, White) || !IsTaken(t, Black) then t
    else
      var (w, l) := SettledRatings(odds, t, loser);
      var once := WithRating(t, ClientOn(t, OpponentOf(loser)).value, w);
      WithRating(once, ClientOn(t, loser).value, l)
  }

  ghost function Persisted(odds: Odds, t: Table, loser: Color): seq<Settlement>
    requires Reciprocal(odds)
  {
    if !IsTaken(t, White) || !IsTaken(t, Black) then []
    else
      var (w, l) := SettledRatings(odds, t, loser);
      [Settlement(OccupantOf(t, OpponentOf(loser)).value.username, w), Settlement(OccupantOf(t, loser).value.username, l)]
  }

  /** Same people in the same seats; only ratings may differ. */
  ghost predicate SameSeats(t: Table, u: Table) {
    t.Keys == u.Keys && forall id :: id in t ==> u[id] == t[id].(rating := u[id].rating)
  }

  lemma SameSeatsKeepClients(t: Table, u: Table)
    requires SameSeats(t, u)
    ensures forall id, color :: SitsOn(u, id, color) <==> SitsOn(t, id, color)
    ensures forall color :: IsTaken(u, color) <==> IsTaken(t, color)
    ensures forall color :: ClientOn(u, color) == ClientOn(t, color)
  {
    forall color
      ensures IsTaken(u, color) <==> IsTaken(t, color)
    {
      if IsTaken(t, color) {
        var id :| SitsOn(t, id, color);
        assert SitsOn(u, id, color);
      }
      if IsTaken(u, color) {
        var id :| SitsOn(u, id, color);
        assert SitsOn(t, id, color);
      }
    }
    forall color
      ensures ClientOn(u, color) == ClientOn(t, color)
    {
      if IsTaken(t, color) {
        assert SitsOn(t, ClientOn(u, color).value, color) && SitsOn(u, ClientOn(t, color).value, color);
      }
    }
  }

  lemma SettlingKeepsSeats(odds: Odds, t: Table, loser: Color)
    requires Reciprocal(odds)
    ensures SameSeats(t, Settled(odds, t, loser))
  {
  }

  ghost function RatingOn(t: Table, color: Color): int {
    if IsTaken(t, color) then OccupantOf(t, color).value.rating else 0
  }

  lemma SettledMoves(odds: Odds, t: Table, loser: Color)
    requires Reciprocal(odds) && IsTaken(t, White) && IsTaken(t, Black)
    ensures var u, winner := Settled(odds, t, loser), OpponentOf(loser);
            && RatingOn(u, winner) == UpdatedRating(odds, RatingOn(t, winner), RatingOn(t, loser), WIN)
            && RatingOn(u, loser) == UpdatedRating(odds, RatingOn(t, loser), RatingOn(t, winner), LOSS)
            && SettledRatings(odds, t, loser) == (RatingOn(u, winner), RatingOn(u, loser))
  {
    var u, winner := Settled(odds, t, loser), OpponentOf(loser);
    var (w, l) := SettledRatings(odds, t, loser);
    var once := WithRating(t, ClientOn(t, winner).value, w);
    SameSeatsKeepClients(t, once);
    SettlingKeepsSeats(odds, t, loser);
    SameSeatsKeepClients(t, u);
    assert ClientOn(t, winner) != ClientOn(t, loser);
    hide IsFirstOn, UpdatedRating, SameSeats;
  }

  /** One settlement: the winner never loses, the loser never gains, neither moves by more than 32, and together they
      have what they had. */
  lemma SettlingIsFair(odds: Odds, t: Table, loser: Color)
    requires Reciprocal(odds)
    ensures var u, winner := Settled(odds, t, loser), OpponentOf(loser);
            && RatingOn(u, White) + RatingOn(u, Black) == RatingOn(t, White) + RatingOn(t, Black)
            && RatingOn(t, winner) <= RatingOn(u, winner) <= RatingOn(t, winner) + K_FACTOR
            && RatingOn(t, loser) - K_FACTOR <= RatingOn(u, loser) <= RatingOn(t, loser)
  {
    var u, winner := Settled(odds, t, loser), OpponentOf(loser);
    if IsTaken(t, White) && IsTaken(t, Black) {
      SettledMoves(odds, t, loser);
      SettlementIsFair(odds, RatingOn(t, winner), RatingOn(t, loser));
      hide IsTaken, UpdatedRating, Settled;
    }
  }

  /** What is persisted of a settlement are the names in the two seats, the winner's first, with their new ratings. */
  lemma PersistedAreNewRatings(odds: Odds, t: Table, loser: Color)
    requires Reciprocal(odds) && IsTaken(t, White) && IsTaken(t, Black)
    ensures var winner, news := OpponentOf(loser), Persisted(odds, t, loser);
            && |news| == 2
            && news[0] == Settlement(OccupantOf(t, winner).value.username, RatingOn(Settled(odds, t, loser), winner))
            && news[1] == Settlement(OccupantOf(t, loser).value.username, RatingOn(Settled(odds, t, loser), loser))
  {
    SettledMoves(odds, t, loser);
    hide IsFirstOn, UpdatedRating, IsTaken;
  }

  lemma NothingPersisted(odds: Odds, t: Table, loser: Color)
    requires Reciprocal(odds) && !(IsTaken(t, White) && IsTaken(t, Black))
    ensures Settled(odds, t, loser) == t && Persisted(odds, t, loser) == []
  {
  }

  /** The seat of the loser's opponent gains what a winner gains against the loser's rating: to the nearest point, the
      share of 32 that the odds against it make up. */
  lemma SettledGainIsNearestShare(odds: Odds, t: Table, loser: Color)
    requires Reciprocal(odds) && IsTaken(t, White) && IsTaken(t, Black)
    ensures var winner, u := OpponentOf(loser), Settled(odds, t, loser);
            IsNearestShare(RatingOn(u, winner) - RatingOn(t, winner), odds(RatingOn(t, loser) - RatingOn(t, winner)))
  {
    SettledMoves(odds, t, loser);
    hide Settled, IsTaken, UpdatedRating, Reciprocal, IsNearestShare;
    GainIsNearestShare(odds, RatingOn(t, OpponentOf(loser)), RatingOn(t, loser));
  }

  ghost function SettledAll(odds: Odds, t: Table, losers: seq<Color>): Table
    requires Reciprocal(odds)
  {
    if losers == [] then t
    else Settled(odds, SettledAll(odds, t, losers[..|losers| - 1]), losers[|losers| - 1])
  }

  /** Main result: any number of settlements only passes points between the two seats. */
  lemma {:induction false} SettlementsConserve(odds: Odds, t: Table, losers: seq<Color>)
    requires Reciprocal(odds)
    ensures var u := SettledAll(odds, t, losers);
            SameSeats(t, u) && RatingOn(u, White) + RatingOn(u, Black) == RatingOn(t, White) + RatingOn(t, Black)
  {
    if losers != [] {
      var n := |losers| - 1;
      SettlementsConserve(odds, t, losers[..n]);
      var mid := SettledAll(odds, t, losers[..n]);
      SettlingIsFair(odds, mid, losers[n]);
      SettlingKeepsSeats(odds, mid, losers[n]);
    }
  }

  // ---- the objects ----

  method Least(ids: set<ClientId>) returns (id: ClientId)
    requires ids != {}
    ensures IsLeast(ids, id)
  {
    LeastExists(ids);
    id :| id in ids && IsLeast(ids, id);
  }

  class SeatTable {
    var occupants: Table

    constructor ()
      ensures occupants == map[]
    {
      occupants := map[];
    }

    method Seat(client: ClientId, color: Option<Color>, username: string, rating: int)
      modifies this
      ensures occupants == old(occupants)[client := Occupant(color, username, rating)]
    {
      occupants := occupants[client := Occupant(color, username, rating)];
    }

    method Remove(client: ClientId)
      modifies this
      ensures occupants == old(occupants) - {client}
    {
      occupants := occupants - {client};
    }

    method SetRating(client: ClientId, rating: int)
      modifies this
      ensures occupants == WithRating(old(occupants), client, rating)
    {
      if client in occupants {
        occupants := occupants[client := occupants[client].(rating := rating)];
      }
    }

    method FreeColor() returns (color: Option<Color>)
      ensures color == AssignColor(occupants)
    {
      var whiteTaken, blackTaken := false, false;
      var ids := occupants.Keys;
      while ids != {}
        invariant ids <= occupants.Keys
        invariant whiteTaken <==> exists id :: id !in ids && SitsOn(occupants, id, White)
        invariant blackTaken <==> exists id :: id !in ids && SitsOn(occupants, id, Black)
        decreases ids
      {
        var id := Least(ids);
        ids := ids - {id};
        if occupants[id].color == Some(White) {
          assert SitsOn(occupants, id, White);
          whiteTaken := true;
        }
        if occupants[id].color == Some(Black) {
          assert SitsOn(occupants, id, Black);
          blackTaken := true;
        }
      }
      return if !whiteTaken then Some(White) else if !blackTaken then Some(Black) else None;
    }

    method FindClientOn(color: Color) returns (client: Option<ClientId>)
      ensures client == ClientOn(occupants, color)
    {
      var ids := occupants.Keys;
      while ids != {}
        invariant ids <= occupants.Keys
        invariant forall id :: SitsOn(occupants, id, color) ==> id in ids
        decreases ids
      {
        var id := Least(ids);
        if occupants[id].color == Some(color) {
          assert IsFirstOn(occupants, id, color);
          return Some(id);
        }
        ids := ids - {id};
      }
      client := None;
    }

    method FindOccupantOf(color: Color) returns (occupant: Option<Occupant>)
      ensures occupant == OccupantOf(occupants, color)
    {
      var client := FindClientOn(color);
      occupant := if client.Some? then Some(occupants[client.value]) else None;
    }
  }

  class RatingSettler {
    const seats: SeatTable
    const odds: Odds
    /** What went out through the sink, in order. */
    var persisted: seq<Settlement>

    constructor (seats: SeatTable, odds: Odds)
      ensures this.seats == seats && this.odds == odds && persisted == []
    {
      this.seats, this.odds, persisted := seats, odds, [];
    }

    /** True when there was a pair to rate. */
    method Settle(loser: Color) returns (rated: bool)
      requires Reciprocal(odds)
      modifies this, seats
      ensures rated <==> old(IsTaken(seats.occupants, White) && IsTaken(seats.occupants, Black))
      ensures seats.occupants == old(Settled(odds, seats.occupants, loser))
      ensures persisted == old(persisted + Persisted(odds, seats.occupants, loser))
    {
      hide IsTaken, UpdatedRating;
      var winner := OpponentOf(loser);
      var winnerSeat := seats.FindOccupantOf(winner);
      var loserSeat := seats.FindOccupantOf(loser);
      if winnerSeat.None? || loserSeat.None? {
        return false;
      }
      var newWinner := UpdatedRating(odds, winnerSeat.value.rating, loserSeat.value.rating, WIN);
      var newLoser := UpdatedRating(odds, loserSeat.value.rating, winnerSeat.value.rating, LOSS);
      persisted := persisted + [Settlement(winnerSeat.value.username, newWinner),
                                Settlement(loserSeat.value.username, newLoser)];
      SameSeatsKeepClients(seats.occupants, WithRating(seats.occupants, ClientOn(seats.occupants, winner).value, newWinner));
      var client := seats.FindClientOn(winner);
      seats.SetRating(client.value, newWinner);
      client := seats.FindClientOn(loser);
      seats.SetRating(client.value, newLoser);
      rated := true;
    }
  }
}
