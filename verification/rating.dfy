/** The Elo rule, exactly, over any odds curve that is positive and reciprocal. */
module Ratings {

  /** Odds against a player as a function of the opponent's lead: what 10^(lead/400) is in the rating rule. */
  type Odds = int -> real

  ghost predicate Reciprocal(odds: Odds) {
    forall lead :: odds(lead) > 0.0 && odds(lead) * odds(-lead) == 1.0
  }

  ghost predicate Rising(odds: Odds) {
    forall a, b :: a <= b ==> odds(a) <= odds(b)
  }

  const K_FACTOR := 32
  const WIN := 1.0
  const LOSS := 0.0

  function ExpectedScore(odds: Odds, rating: int, opponentRating: int): real
    requires Reciprocal(odds)
  {
    assert odds(opponentRating - rating) > 0.0;
    1.0 / (1.0 + odds(opponentRating - rating))
  }

  /** To the nearest whole number, halves away from zero. */
  function Nearest(x: real): int {
    if x >= 0.0 then (x + 0.5).Floor else -((-x + 0.5).Floor)
  }

  function Change(odds: Odds, rating: int, opponentRating: int, score: real): real
    requires Reciprocal(odds)
  {
    K_FACTOR as real * (score - ExpectedScore(odds, rating, opponentRating))
  }

  function UpdatedRating(odds: Odds, rating: int, opponentRating: int, score: real): int
    requires Reciprocal(odds)
  {
    rating + Nearest(Change(odds, rating, opponentRating, score))
  }

  /** Rounding halves away from zero treats a gain and a loss alike. */
  lemma NearestIsOdd(x: real)
    ensures Nearest(-x) == -Nearest(x)
  {
  }

  lemma NearestIsMonotone(x: real, y: real)
    requires x <= y
    ensures Nearest(x) <= Nearest(y)
  {
  }

  lemma SharesOfOne(p: real, q: real)
    requires p > 0.0 && q > 0.0 && p * q == 1.0
    ensures 1.0 / (1.0 + q) + 1.0 / (1.0 + p) == 1.0
    ensures 0.0 < 1.0 / (1.0 + q) < 1.0
  {
    var x, y := 1.0 / (1.0 + q), 1.0 / (1.0 + p);
    assert x * (1.0 + q) == 1.0 && y * (1.0 + p) == 1.0;
    assert (1.0 + p) * q == q + 1.0;
    assert y * ((1.0 + p) * q) == (y * (1.0 + p)) * q == q;
    assert y * (1.0 + q) == q;
    assert (x + y) * (1.0 + q) == 1.0 + q;
    SameFactor(x + y, 1.0, 1.0 + q);
  }

  lemma SameFactor(a: real, b: real, c: real)
    requires c > 0.0 && a * c == b * c
    ensures a == b
  {
    assert (a - b) * c == 0.0;
  }

  /** What the two players expect adds up to one game. */
  lemma ExpectationsShareTheGame(odds: Odds, a: int, b: int)
    requires Reciprocal(odds)
    ensures ExpectedScore(odds, a, b) + ExpectedScore(odds, b, a) == 1.0
    ensures 0.0 < ExpectedScore(odds, a, b) < 1.0
  {
    assert odds(a - b) > 0.0 && odds(b - a) > 0.0;
    assert odds(a - b) * odds(-(a - b)) == 1.0;
    assert -(a - b) == b - a;
    SharesOfOne(odds(a - b), odds(b - a));
  }

  /** What the two expect stands in the ratio of the odds between them: with their sum this fixes both. */
  lemma ExpectationsFollowOdds(odds: Odds, a: int, b: int)
    requires Reciprocal(odds)
    ensures ExpectedScore(odds, b, a) == odds(b - a) * ExpectedScore(odds, a, b)
  {
    var p, q := odds(a - b), odds(b - a);
    assert p > 0.0 && q > 0.0;
    assert p * odds(-(a - b)) == 1.0 && -(a - b) == b - a;
    ShareOfOdds(p, q);
  }

  lemma ShareOfOdds(p: real, q: real)
    requires p > 0.0 && q > 0.0 && p * q == 1.0
    ensures 1.0 / (1.0 + p) == q * (1.0 / (1.0 + q))
  {
    var x, y := 1.0 / (1.0 + q), 1.0 / (1.0 + p);
    assert x * (1.0 + q) == 1.0 && y * (1.0 + p) == 1.0;
    assert (1.0 + p) * q == q + 1.0;
    Regroup(y, 1.0 + p, q);
    assert y * (1.0 + q) == q;
    Regroup(q, x, 1.0 + q);
    SameFactor(y, q * x, 1.0 + q);
  }

  lemma Regroup(a: real, b: real, c: real)
    ensures (a * b) * c == a * (b * c)
  {
  }

  lemma NearestIsClose(x: real)
    ensures -0.5 <= Nearest(x) as real - x <= 0.5
    ensures x >= 0.0 ==> Nearest(x) as real - x > -0.5
    ensures x <= 0.0 ==> Nearest(x) as real - x < 0.5
  {
  }

  lemma WithinHalf(n: real, x: real, c: real, gain: real, share: real)
    requires -0.5 <= n - x <= 0.5 && c > 0.0 && gain == n * c && share == x * c
    ensures -c <= 2.0 * (gain - share) <= c
  {
    LessTimes(n, x, c);
    NotNegative(0.5 - (n - x), c);
    LessTimes(0.5, n - x, c);
    NotNegative(n - x + 0.5, c);
    LessTimes(n - x, -0.5, c);
  }

  lemma NotNegative(a: real, b: real)
    requires a >= 0.0 && b >= 0.0
    ensures a * b >= 0.0
  {
  }

  lemma ShareLeft(x: real, e: real, q: real)
    requires e * (1.0 + q) == 1.0 && x == 32.0 * (1.0 - e)
    ensures x * (1.0 + q) == 32.0 * q
  {
    Regroup(32.0, 1.0 - e, 1.0 + q);
    LessTimes(1.0, e, 1.0 + q);
  }

  lemma LessTimes(a: real, b: real, c: real)
    ensures (a - b) * c == a * c - b * c
  {
  }

  /** `gain` is, to the nearest point, the share of 32 that odds of q make up. */
  ghost predicate IsNearestShare(gain: int, q: real) {
    q > 0.0 && -(1.0 + q) <= 2.0 * (gain as real * (1.0 + q) - 32.0 * q) <= 1.0 + q
  }

  /** The winner gains, to the nearest point, the share of 32 that the odds against it make up. */
  lemma GainIsNearestShare(odds: Odds, winner: int, loser: int)
    requires Reciprocal(odds)
    ensures IsNearestShare(UpdatedRating(odds, winner, loser, WIN) - winner, odds(loser - winner))
  {
    var q := odds(loser - winner);
    assert q > 0.0;
    var e, x := ExpectedScore(odds, winner, loser), Change(odds, winner, loser, WIN);
    assert e * (1.0 + q) == 1.0;
    assert x == 32.0 * (1.0 - e);
    assert UpdatedRating(odds, winner, loser, WIN) - winner == Nearest(x);
    NearestShare(x, e, q);
  }

  lemma NearestShare(x: real, e: real, q: real)
    requires e * (1.0 + q) == 1.0 && x == 32.0 * (1.0 - e) && q > 0.0
    ensures IsNearestShare(Nearest(x), q)
  {
    var gain := Nearest(x) as real * (1.0 + q);
    ShareLeft(x, e, q);
    NearestIsClose(x);
    WithinHalf(Nearest(x) as real, x, 1.0 + q, gain, 32.0 * q);
  }

  /** A settled game takes from the loser exactly what it gives the winner, at most 32 points, and never pays the loser. */
  lemma SettlementIsFair(odds: Odds, winner: int, loser: int)
    requires Reciprocal(odds)
    ensures var w, l := UpdatedRating(odds, winner, loser, WIN), UpdatedRating(odds, loser, winner, LOSS);
            && w + l == winner + loser
            && winner <= w <= winner + K_FACTOR && loser - K_FACTOR <= l <= loser
  {
    ExpectationsShareTheGame(odds, winner, loser);
    var x := Change(odds, winner, loser, WIN);
    assert Change(odds, loser, winner, LOSS) == -x;
    assert 0.0 <= x <= 32.0;
    NearestIsOdd(x);
  }

  lemma LargerDivisor(p: real, q: real)
    requires 0.0 < p <= q
    ensures 1.0 / (1.0 + q) <= 1.0 / (1.0 + p)
  {
    var x, y := 1.0 / (1.0 + q), 1.0 / (1.0 + p);
    assert x * (1.0 + q) == 1.0 && y * (1.0 + p) == 1.0;
    ScaledAgain(1.0 + p, 1.0 + q, y);
    if x > y {
      Scaled(y, x, 1.0 + q);
    }
  }

  lemma Scaled(a: real, b: real, c: real)
    requires a < b && c > 0.0
    ensures a * c < b * c
  {
    assert (b - a) * c > 0.0;
  }

  lemma ScaledAgain(a: real, b: real, c: real)
    requires a <= b && c > 0.0
    ensures c * a <= c * b
  {
    assert c * (b - a) >= 0.0;
  }

  /** Meeting a stronger opponent never leaves a player with less, whatever the result. */
  lemma StrongerOpponentPaysMore(odds: Odds, rating: int, weaker: int, stronger: int, score: real)
    requires Reciprocal(odds) && Rising(odds) && weaker <= stronger
    ensures UpdatedRating(odds, rating, weaker, score) <= UpdatedRating(odds, rating, stronger, score)
  {
    assert odds(weaker - rating) > 0.0 && odds(stronger - rating) > 0.0;
    assert odds(weaker - rating) <= odds(stronger - rating);
    LargerDivisor(odds(weaker - rating), odds(stronger - rating));
    NearestIsMonotone(Change(odds, rating, weaker, score), Change(odds, rating, stronger, score));
  }
}
