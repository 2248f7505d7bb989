/** What the arbiter does, as functions on values: one crossing, one pass, one tick. */
module ArbiterSpec {
  import opened Model
  import opened Motions

  datatype ArrivalReport = ArrivalReport(destination: Position, landed: bool, captured: Option<CapturedPiece>)

  datatype EntryOutcome = Free | Capture | BlockedByFriendly | CapturedByAirborne

  /** The arbiter and its board between two calls. */
  datatype World = World(
    width: int, height: int, cells: Cells,
    active: seq<Motion>, airborne: seq<Jump>, resting: seq<Cooldown>)

  /** One crossing as it was found: the journey it belongs to, the piece it carries, from where to where, who stood in
      the way, and how long ago the crossing was due. */
  datatype Entry = Entry(index: nat, mover: Piece, from: Position, to: Position, met: Option<Piece>, overshoot: int)

  /** The arbiter in the middle of a tick. `victims`, `clean` and `entries` record what has happened so far:
      who was taken, whether every piece kept off squares held by a lifted jumper, and every crossing in its turn. */
  datatype Tick = Tick(
    width: int, height: int, delta: int, cells: Cells,
    active: seq<Motion>, resolved: seq<bool>, airborne: seq<Jump>, resting: seq<Cooldown>,
    reports: seq<ArrivalReport>,
    victims: seq<Piece>, clean: bool, entries: seq<Entry>)

  // ---- board effects ----

  function MovePieceIn(cells: Cells, from: Position, to: Position): Cells
    requires from in cells
  {
    (cells - {from})[to := cells[from].(cell := to)]
  }

  function SetStateIn(cells: Cells, p: Position, state: State): Cells
    requires p in cells
  {
    cells[p := cells[p].(state := state)]
  }

  // ---- unresolved journeys ----

  predicate Live(resolved: seq<bool>, i: int) {
    0 <= i < |resolved| && !resolved[i]
  }

  /** All that the crossing loop itself relies on: each unresolved journey stands on an occupied square of its own. */
  ghost predicate Grounded(cells: Cells, active: seq<Motion>, resolved: seq<bool>) {
    && |resolved| == |active|
    && (forall i :: Live(resolved, i) ==> WellFormed(active[i]) && CurrentCell(active[i]) in cells)
    && (forall i, j :: Live(resolved, i) && Live(resolved, j) && i != j ==>
          CurrentCell(active[i]) != CurrentCell(active[j]))
  }

  ghost predicate GroundedTick(t: Tick) {
    Grounded(t.cells, t.active, t.resolved)
  }

  predicate Crossing(t: Tick, i: int)
    requires |t.resolved| == |t.active|
  {
    Live(t.resolved, i) && IsEnteringNextCell(t.active[i])
  }

  // ---- one crossing ----

  function ClassifyEntry(t: Tick, i: nat): EntryOutcome
    requires GroundedTick(t) && Crossing(t, i)
  {
    var mover := t.cells[CurrentCell(t.active[i])];
    var next := NextCell(t.active[i]);
    if next !in t.cells then Free
    else if t.cells[next].color == mover.color then BlockedByFriendly
    else if t.cells[next].state == Airborne then CapturedByAirborne
    else Capture
  }

  /** What meeting the occupant of the next square comes to. */
  function OutcomeOf(e: Entry): EntryOutcome {
    if e.met.None? then Free
    else if e.met.value.color == e.mover.color then BlockedByFriendly
    else if e.met.value.state == Airborne then CapturedByAirborne
    else Capture
  }

  function EntryOf(t: Tick, i: nat): (e: Entry)
    requires GroundedTick(t) && Crossing(t, i)
    ensures OutcomeOf(e) == ClassifyEntry(t, i)
  {
    var from, to := CurrentCell(t.active[i]), NextCell(t.active[i]);
    Entry(i, t.cells[from], from, to, if to in t.cells then Some(t.cells[to]) else None, ArrivalOvershootMs(t.active[i]))
  }

  function StartCooldown(t: Tick, cell: Position): Tick
    requires cell in t.cells
  {
    t.(cells := SetStateIn(t.cells, cell, Resting), resting := t.resting + [Cooldown(t.cells[cell].id, cell, 0)])
  }

  /** The journey on `cell`, if there is one, is over. */
  function ResolveOn(active: seq<Motion>, resolved: seq<bool>, cell: Position): seq<bool>
    requires |resolved| == |active|
    requires forall i :: Live(resolved, i) ==> WellFormed(active[i])
  {
    seq(|resolved|, i requires 0 <= i < |resolved| =>
      assert Live(resolved, i) ==> WellFormed(active[i]);
      resolved[i] || CurrentCell(active[i]) == cell)
  }

  function CaptureAt(t: Tick, cell: Position): Tick
    requires GroundedTick(t) && cell in t.cells
  {
    t.(cells := t.cells - {cell},
       resolved := ResolveOn(t.active, t.resolved, cell),
       victims := t.victims + [t.cells[cell].(state := Captured)])
  }

  function TakenAt(cells: Cells, cell: Position): CapturedPiece
    requires cell in cells
  {
    CapturedPiece(cells[cell].kind, cells[cell].color)
  }

  /** The piece of journey i walks into the next square of its path. */
  function Walk(t: Tick, i: nat): Tick
    requires i < |t.active| && WellFormed(t.active[i]) && !IsComplete(t.active[i])
    requires CurrentCell(t.active[i]) in t.cells
  {
    var m := t.active[i];
    t.(cells := MovePieceIn(t.cells, CurrentCell(m), NextCell(m)),
       active := t.active[i := CompleteStep(m)])
  }

  function ReportArrival(t: Tick, cell: Position, captured: Option<CapturedPiece>): Tick {
    t.(reports := t.reports + [ArrivalReport(cell, true, captured)])
  }

  function FinishMotion(t: Tick, i: nat, captured: Option<CapturedPiece>): Tick
    requires i < |t.active| == |t.resolved| && |t.active[i].path| > 0
    requires t.active[i].path[|t.active[i].path| - 1] in t.cells
  {
    var cell := t.active[i].path[|t.active[i].path| - 1];
    ReportArrival(StartCooldown(t, cell), cell, captured).(resolved := t.resolved[i := true])
  }

  /** Index of the first jump on `cell`, or the number of jumps when there is none. */
  function JumpAt(airborne: seq<Jump>, cell: Position): (k: nat)
    ensures k <= |airborne|
    ensures k < |airborne| ==> airborne[k].cell == cell
    ensures forall j :: 0 <= j < k ==> airborne[j].cell != cell
  {
    if airborne == [] then 0
    else if airborne[0].cell == cell then 0
    else
      var k := JumpAt(airborne[1..], cell);
      assert forall j :: 0 < j < k + 1 ==> airborne[j] == airborne[1..][j - 1];
      k + 1
  }

  function LiftAt(airborne: seq<Jump>, cell: Position, jumper: Piece): seq<Jump> {
    var k := JumpAt(airborne, cell);
    if k < |airborne| then airborne[k := airborne[k].(lifted := Some(jumper))] else airborne
  }

  /** The airborne piece is lifted out and the mover takes the square for now. */
  function YieldToAirborne(t: Tick, i: nat): Tick
    requires GroundedTick(t) && Crossing(t, i) && NextCell(t.active[i]) in t.cells
  {
    var cell := NextCell(t.active[i]);
    var lifted := t.(airborne := LiftAt(t.airborne, cell, t.cells[cell]), cells := t.cells - {cell});
    ReportArrival(StartCooldown(Walk(lifted, i), cell), cell, None).(resolved := t.resolved[i := true])
  }

  /** Walking in, and what arriving there means. */
  function WalkIn(t: Tick, i: nat, captured: Option<CapturedPiece>): Tick
    requires i < |t.active| == |t.resolved| && WellFormed(t.active[i]) && !IsComplete(t.active[i])
    requires CurrentCell(t.active[i]) in t.cells
  {
    var walked := Walk(t, i);
    if IsComplete(walked.active[i]) then FinishMotion(walked, i, captured)
    else if captured.Some? then ReportArrival(walked, CurrentCell(walked.active[i]), captured)
    else walked
  }

  /** A piece is about to stand on a square whose jumper has already been lifted off it. */
  ghost predicate EntersLiftedCell(t: Tick, i: nat)
    requires GroundedTick(t) && Crossing(t, i)
  {
    && ClassifyEntry(t, i) != BlockedByFriendly
    && exists k :: 0 <= k < |t.airborne| && t.airborne[k].cell == NextCell(t.active[i]) && IsLifted(t.airborne[k])
  }

  /** The crossing is put on record before anything is done about it. */
  ghost function Watched(t: Tick, i: nat): Tick
    requires GroundedTick(t) && Crossing(t, i)
  {
    t.(clean := t.clean && !EntersLiftedCell(t, i), entries := t.entries + [EntryOf(t, i)])
  }

  ghost function ResolveEntry(t: Tick, i: nat): Tick
    requires GroundedTick(t) && Crossing(t, i)
  {
    var next := NextCell(t.active[i]);
    var watched := Watched(t, i);
    match ClassifyEntry(t, i)
    case BlockedByFriendly =>
      FinishMotion(watched.(active := t.active[i := StopHere(t.active[i])]), i, None)
    case CapturedByAirborne => YieldToAirborne(watched, i)
    case Capture => WalkIn(CaptureAt(watched, next), i, Some(TakenAt(t.cells, next)))
    case Free => WalkIn(watched, i, None)
  }

  /** Crossings still ahead of all unresolved journeys together: what every crossing uses up. */
  function Remaining(active: seq<Motion>, resolved: seq<bool>): nat
    requires |active| == |resolved|
  {
    if active == [] then 0
    else (if resolved[0] then 0 else CellsToGo(active[0])) + Remaining(active[1..], resolved[1..])
  }

  lemma {:induction false} RemainingNotRaised(a: seq<Motion>, r: seq<bool>, b: seq<Motion>, s: seq<bool>)
    requires |a| == |r| == |b| == |s|
    requires forall j :: 0 <= j < |a| ==> s[j] || (!r[j] && CellsToGo(b[j]) <= CellsToGo(a[j]))
    ensures Remaining(b, s) <= Remaining(a, r)
  {
    if a != [] {
      forall j | 0 <= j < |a| - 1
        ensures s[1..][j] || (!r[1..][j] && CellsToGo(b[1..][j]) <= CellsToGo(a[1..][j]))
      {
        assert a[1..][j] == a[j + 1] && b[1..][j] == b[j + 1] && r[1..][j] == r[j + 1] && s[1..][j] == s[j + 1];
      }
      RemainingNotRaised(a[1..], r[1..], b[1..], s[1..]);
    }
  }

  lemma {:induction false} RemainingLowered(a: seq<Motion>, r: seq<bool>, b: seq<Motion>, s: seq<bool>, i: nat)
    requires |a| == |r| == |b| == |s| && i < |a|
    requires forall j :: 0 <= j < |a| ==> s[j] || (!r[j] && CellsToGo(b[j]) <= CellsToGo(a[j]))
    requires !r[i] && CellsToGo(a[i]) > 0 && (s[i] || CellsToGo(b[i]) < CellsToGo(a[i]))
    ensures Remaining(b, s) < Remaining(a, r)
  {
    forall j | 0 <= j < |a| - 1
      ensures s[1..][j] || (!r[1..][j] && CellsToGo(b[1..][j]) <= CellsToGo(a[1..][j]))
    {
      assert a[1..][j] == a[j + 1] && b[1..][j] == b[j + 1] && r[1..][j] == r[j + 1] && s[1..][j] == s[j + 1];
    }
    if i == 0 {
      RemainingNotRaised(a[1..], r[1..], b[1..], s[1..]);
    } else {
      RemainingLowered(a[1..], r[1..], b[1..], s[1..], i - 1);
    }
  }

  /** What one crossing does to the journeys: only journey i changes, and it comes nearer its end or is over;
      others may be ended but never revived. */
  ghost predicate OnlyAdvances(t: Tick, u: Tick, i: nat)
    requires |t.active| == |t.resolved|
  {
    && |u.active| == |u.resolved| == |t.active|
    && (forall j :: 0 <= j < |t.active| && j != i ==> u.active[j] == t.active[j])
    && (forall j :: Live(u.resolved, j) ==> Live(t.resolved, j))
    && (Live(u.resolved, i) ==> u.active[i] == CompleteStep(t.active[i]) && !IsComplete(u.active[i]))
  }

  lemma WalkInKeepsGrounded(t: Tick, i: nat, captured: Option<CapturedPiece>)
    requires GroundedTick(t) && Crossing(t, i) && NextCell(t.active[i]) !in t.cells
    ensures GroundedTick(WalkIn(t, i, captured))
    ensures OnlyAdvances(t, WalkIn(t, i, captured), i)
  {
    var u := WalkIn(t, i, captured);
    var m := t.active[i];
    assert m.path[m.stepIndex] != m.path[m.stepIndex + 1];
    forall j | Live(u.resolved, j)
      ensures Live(t.resolved, j) && WellFormed(u.active[j]) && CurrentCell(u.active[j]) in u.cells
    {
    }
    forall j, k | Live(u.resolved, j) && Live(u.resolved, k) && j != k
      ensures CurrentCell(u.active[j]) != CurrentCell(u.active[k])
    {
    }
  }

  lemma CaptureKeepsGrounded(t: Tick, cell: Position)
    requires GroundedTick(t) && cell in t.cells
    ensures GroundedTick(CaptureAt(t, cell))
    ensures forall j :: Live(CaptureAt(t, cell).resolved, j) <==>
        Live(t.resolved, j) && CurrentCell(t.active[j]) != cell
  {
  }

  lemma BlockKeepsGrounded(t: Tick, i: nat)
    requires GroundedTick(t) && Crossing(t, i)
    ensures var u := FinishMotion(t.(active := t.active[i := StopHere(t.active[i])]), i, None);
            GroundedTick(u) && OnlyAdvances(t, u, i)
  {
    var u := FinishMotion(t.(active := t.active[i := StopHere(t.active[i])]), i, None);
    forall j | Live(u.resolved, j)
      ensures Live(t.resolved, j) && WellFormed(u.active[j]) && CurrentCell(u.active[j]) in u.cells
    {
    }
    forall j, k | Live(u.resolved, j) && Live(u.resolved, k) && j != k
      ensures CurrentCell(u.active[j]) != CurrentCell(u.active[k])
    {
    }
  }

  lemma YieldKeepsGrounded(t: Tick, i: nat)
    requires GroundedTick(t) && Crossing(t, i) && NextCell(t.active[i]) in t.cells
    ensures GroundedTick(YieldToAirborne(t, i)) && OnlyAdvances(t, YieldToAirborne(t, i), i)
  {
    var u := YieldToAirborne(t, i);
    forall j | Live(u.resolved, j)
      ensures Live(t.resolved, j) && WellFormed(u.active[j]) && CurrentCell(u.active[j]) in u.cells
    {
    }
    forall j, k | Live(u.resolved, j) && Live(u.resolved, k) && j != k
      ensures CurrentCell(u.active[j]) != CurrentCell(u.active[k])
    {
    }
  }

  /** One crossing keeps the loop's own invariant, whatever else holds of the position. */
  lemma CrossingKeepsGrounded(t: Tick, i: nat)
    requires GroundedTick(t) && Crossing(t, i)
    ensures GroundedTick(ResolveEntry(t, i))
    ensures OnlyAdvances(t, ResolveEntry(t, i), i)
  {
    var next := NextCell(t.active[i]);
    var watched := Watched(t, i);
    match ClassifyEntry(t, i)
    case BlockedByFriendly => BlockKeepsGrounded(watched, i);
    case CapturedByAirborne => YieldKeepsGrounded(watched, i);
    case Free => WalkInKeepsGrounded(watched, i, None);
    case Capture =>
      CaptureKeepsGrounded(watched, next);
      var m := t.active[i];
      assert m.path[m.stepIndex] != m.path[m.stepIndex + 1];
      WalkInKeepsGrounded(CaptureAt(watched, next), i, Some(TakenAt(t.cells, next)));
  }

  /** Every crossing uses up part of the journeys, even when it ends other journeys on the way. */
  lemma CrossingUsesUp(t: Tick, u: Tick, i: nat)
    requires |t.active| == |t.resolved| && Crossing(t, i) && OnlyAdvances(t, u, i)
    ensures Remaining(u.active, u.resolved) < Remaining(t.active, t.resolved)
  {
    forall j | 0 <= j < |t.active|
      ensures u.resolved[j] || (!t.resolved[j] && CellsToGo(u.active[j]) <= CellsToGo(t.active[j]))
    {
      assert Live(u.resolved, j) == !u.resolved[j] && Live(t.resolved, j) == !t.resolved[j];
    }
    assert Live(u.resolved, i) == !u.resolved[i];
    RemainingLowered(t.active, t.resolved, u.active, u.resolved, i);
  }
}
