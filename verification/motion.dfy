/** One journey, one jump and one rest, and the path a journey walks. */
module Motions {
  import opened Model

  const SQUARE_TRAVEL_MS := 1000
  const JUMP_DURATION_MS := 1000
  const COOLDOWN_MS := 1000

  datatype Motion = Motion(path: seq<Position>, stepIndex: nat, stepDuration: int, elapsed: int)
  datatype Jump = Jump(cell: Position, elapsed: int, lifted: Option<Piece>)
  datatype Cooldown = Cooldown(pieceId: nat, cell: Position, elapsed: int)

  // ---- the path ----

  function CellSteps(from: Position, to: Position): int {
    Max(Abs(to.row - from.row), Abs(to.col - from.col))
  }

  predicate IsStraightLine(from: Position, to: Position) {
    var dRow := Abs(to.row - from.row);
    var dCol := Abs(to.col - from.col);
    dRow == 0 || dCol == 0 || dRow == dCol
  }

  function DirectionOf(delta: int): int {
    if delta > 0 then 1 else if delta < 0 then -1 else 0
  }

  function TravelDurationMs(from: Position, to: Position): int {
    CellSteps(from, to) * SQUARE_TRAVEL_MS
  }

  /** The square k steps from `from` in the direction of `to`. */
  function Along(from: Position, to: Position, k: int): Position {
    Position(from.row + k * DirectionOf(to.row - from.row), from.col + k * DirectionOf(to.col - from.col))
  }

  /** Which squares a journey touches: every square of a straight line, or only its two ends. */
  function TravelPath(from: Position, to: Position): seq<Position> {
    if from == to then [from]
    else if !IsStraightLine(from, to) then [from, to]
    else seq(CellSteps(from, to) + 1, k => Along(from, to, k))
  }

  lemma AlongReachesTarget(from: Position, to: Position)
    requires IsStraightLine(from, to)
    ensures Along(from, to, CellSteps(from, to)) == to
    ensures forall k :: 0 <= k < CellSteps(from, to) ==> Along(from, to, k) != to
  {
    var n := CellSteps(from, to);
    forall k | 0 <= k < n
      ensures Along(from, to, k) != to
    {
      if Abs(to.row - from.row) == n {
        assert k * DirectionOf(to.row - from.row) != to.row - from.row;
      } else {
        assert k * DirectionOf(to.col - from.col) != to.col - from.col;
      }
    }
  }

  lemma CellsApart(from: Position, to: Position)
    ensures CellSteps(from, to) >= 0
  {
  }

  lemma AlongNext(from: Position, to: Position, k: nat)
    ensures Along(from, to, 0) == from
    ensures var here := Along(from, to, k);
            Along(from, to, k + 1)
            == Position(here.row + DirectionOf(to.row - from.row), here.col + DirectionOf(to.col - from.col))
  {
  }

  /** The walk from one end to the other stops exactly on the target, having touched each square once. */
  method WalkTravelPath(from: Position, to: Position) returns (path: seq<Position>)
    ensures path == TravelPath(from, to)
    ensures path[0] == from && path[|path| - 1] == to
  {
    path := [from];
    if from == to {
      return;
    }
    if !IsStraightLine(from, to) {
      path := path + [to];
      return;
    }
    var rowStep := DirectionOf(to.row - from.row);
    var colStep := DirectionOf(to.col - from.col);
    var current := from;
    AlongReachesTarget(from, to);
    hide Along, CellSteps, DirectionOf;
    CellsApart(from, to);
    AlongNext(from, to, 0);
    while current != to
      invariant 1 <= |path| <= CellSteps(from, to) + 1
      invariant current == Along(from, to, |path| - 1)
      invariant forall k :: 0 <= k < |path| ==> path[k] == Along(from, to, k)
      decreases CellSteps(from, to) + 1 - |path|
    {
      AlongNext(from, to, |path| - 1);
      current := Position(current.row + rowStep, current.col + colStep);
      path := path + [current];
    }
  }

  function StepDurationOf(from: Position, to: Position, pathLength: nat): int {
    if pathLength < 2 then 0 else TravelDurationMs(from, to) / (pathLength - 1)
  }

  function NewMotion(from: Position, to: Position): Motion {
    var path := TravelPath(from, to);
    Motion(path, 0, StepDurationOf(from, to, |path|), 0)
  }

  /** Path length and step duration agree: the steps add up to the whole travel time, with no rounding. */
  lemma StepsFillTheJourney(from: Position, to: Position)
    requires from != to
    ensures var m := NewMotion(from, to);
            && |m.path| >= 2
            && m.path[0] == from && m.path[|m.path| - 1] == to
            && (|m.path| - 1) * m.stepDuration == TravelDurationMs(from, to)
            && m.stepDuration >= SQUARE_TRAVEL_MS
            && (IsStraightLine(from, to) ==> |m.path| == CellSteps(from, to) + 1 && m.stepDuration == SQUARE_TRAVEL_MS)
            && (!IsStraightLine(from, to) ==> |m.path| == 2)
  {
    var m := NewMotion(from, to);
    if IsStraightLine(from, to) {
      AlongReachesTarget(from, to);
      var n := CellSteps(from, to);
      DivideExactly(n, SQUARE_TRAVEL_MS);
    } else {
      DivideExactly(1, TravelDurationMs(from, to));
    }
  }

  lemma DivideExactly(n: int, d: int)
    requires n > 0
    ensures (n * d) / n == d
  {
    var q, r := (n * d) / n, (n * d) % n;
    assert n * d == n * q + r && 0 <= r < n;
    assert n * (d - q) == r;
    if d > q {
      ProductAtLeast(n, d - q);
    } else if d < q {
      ProductAtLeast(n, q - d);
    }
  }

  lemma ProductAtLeast(n: int, x: int)
    requires n > 0 && x >= 1
    ensures n * x >= n
  {
  }

  /** Neighbouring squares of a path differ, so a crossing always leaves the square it starts from. */
  lemma PathNeverStandsStill(from: Position, to: Position, k: int)
    requires 0 <= k < |TravelPath(from, to)| - 1
    ensures TravelPath(from, to)[k] != TravelPath(from, to)[k + 1]
  {
  }

  /** How far apart two squares are, a step in any of the eight directions counting one. */
  ghost predicate Apart(from: Position, to: Position, n: int) {
    && -n <= to.row - from.row <= n && -n <= to.col - from.col <= n
    && (to.row - from.row == n || from.row - to.row == n || to.col - from.col == n || from.col - to.col == n)
  }

  /** Which squares a journey touches and how long it takes: along a row, a column or a diagonal every square, at even
      distances; otherwise only its two ends. A square apart takes a second. */
  lemma JourneysAre(from: Position, to: Position, n: int)
    requires from != to && Apart(from, to, n)
    ensures var m, dr, dc := NewMotion(from, to), to.row - from.row, to.col - from.col;
            && (|m.path| - 1) * m.stepDuration == n * 1000
            && if dr == 0 || dc == 0 || dr == dc || dr == -dc then
                 |m.path| == n + 1 && m.stepDuration == 1000
                 && forall k :: 0 <= k <= n ==>
                      (m.path[k].row - from.row) * n == k * dr && (m.path[k].col - from.col) * n == k * dc
               else m.path == [from, to]
  {
    StepsFillTheJourney(from, to);
    if IsStraightLine(from, to) {
      forall k | 0 <= k <= n
        ensures var p := TravelPath(from, to)[k];
                (p.row - from.row) * n == k * (to.row - from.row) && (p.col - from.col) * n == k * (to.col - from.col)
      {
        EvenSteps(to.row - from.row, n, k);
        EvenSteps(to.col - from.col, n, k);
      }
    }
  }

  lemma EvenSteps(delta: int, n: int, k: int)
    requires delta == 0 || delta == n || delta == -n
    requires n >= 1
    ensures k * DirectionOf(delta) * n == k * delta
  {
    if delta == n {
      assert k * 1 * n == k * n;
    } else if delta == -n {
      assert k * (-1) * n == k * (-n);
    }
  }

  // ---- one journey ----

  /** What the fields of a journey satisfy: it stands on one square of its path. */
  ghost predicate WellFormed(m: Motion) {
    && m.stepIndex < |m.path|
    && m.stepDuration >= SQUARE_TRAVEL_MS
    && (forall l, k :: 0 <= l < |m.path| && 0 <= k < l && l == k + 1 ==> m.path[k] != m.path[l])
  }

  function CurrentCell(m: Motion): Position
    requires m.stepIndex < |m.path|
  {
    m.path[m.stepIndex]
  }

  predicate IsComplete(m: Motion) {
    m.stepIndex + 1 >= |m.path|
  }

  function NextCell(m: Motion): Position
    requires !IsComplete(m)
  {
    m.path[m.stepIndex + 1]
  }

  predicate IsEnteringNextCell(m: Motion) {
    !IsComplete(m) && m.elapsed >= m.stepDuration
  }

  function ArrivalOvershootMs(m: Motion): int {
    m.elapsed - m.stepDuration
  }

  function CompleteStep(m: Motion): Motion {
    m.(stepIndex := m.stepIndex + 1, elapsed := m.elapsed - m.stepDuration)
  }

  function StopHere(m: Motion): Motion
    requires m.stepIndex < |m.path|
  {
    m.(path := m.path[..m.stepIndex + 1], elapsed := 0)
  }

  function AdvanceMotion(m: Motion, deltaMs: int): Motion {
    m.(elapsed := m.elapsed + deltaMs)
  }

  /** Crossings still ahead of a journey. */
  function CellsToGo(m: Motion): nat {
    if IsComplete(m) then 0 else |m.path| - 1 - m.stepIndex
  }

  /** Travelled time since the journey began, whole steps and the step under way together. */
  function Travelled(m: Motion): int {
    m.stepIndex * m.stepDuration + m.elapsed
  }

  // ---- one jump, one rest ----

  predicate HasLanded(j: Jump) {
    j.elapsed >= JUMP_DURATION_MS
  }

  predicate IsLifted(j: Jump) {
    j.lifted.Some?
  }

  predicate HasElapsed(c: Cooldown) {
    c.elapsed >= COOLDOWN_MS
  }
}
