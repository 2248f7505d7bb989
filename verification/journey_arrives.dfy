/** An unobstructed journey is where the time since its start says, on the way and on arrival, however time is split. */
module JourneyArrives {
  import opened Model
  import opened Motions
  import opened ArbiterSpec
  import opened CrossingOrder
  import opened ArbiterTick
  import opened ArbiterInvariant
  import opened CrossingKeeps
  import opened Timing
  import opened CrossingLog
  import opened JourneyEnds

  /** A journey to follow: whose it is, the squares it walks, and the time for each. */
  datatype Trip = Trip(id: nat, color: Color, path: seq<Position>, step: int)

  ghost predicate ValidTrip(r: Trip) {
    |r.path| >= 2 && r.step >= 1 && forall j, k :: 0 <= j < k < |r.path| ==> r.path[j] != r.path[k]
  }

  /** The square of the path reached after so long: one a step, and then the last. */
  function Reached(r: Trip, clock: int): (k: nat)
    requires ValidTrip(r) && clock >= 0
    ensures k < |r.path|
  {
    var k := clock / r.step;
    QuotientIsNatural(clock, r.step);
    if k < |r.path| - 1 then k else |r.path| - 1
  }

  lemma QuotientIsNatural(a: int, d: int)
    requires a >= 0 && d >= 1
    ensures a / d >= 0
  {
  }

  /** Nobody stands on the squares after s but perhaps an enemy on the last, and no jump is under way on any. */
  ghost predicate Open(cells: Cells, airborne: seq<Jump>, r: Trip, s: nat) {
    && (forall j :: s < j < |r.path| - 1 ==> r.path[j] !in cells)
    && (s < |r.path| - 1 && r.path[|r.path| - 1] in cells ==> cells[r.path[|r.path| - 1]].color != r.color)
    && (forall l, j :: 0 <= l < |airborne| && s < j < |r.path| ==> airborne[l].cell != r.path[j])
  }

  ghost predicate Carries(cells: Cells, r: Trip, c: Position) {
    c in cells && cells[c].id == r.id && cells[c].color == r.color
  }

  /** Its piece has come to stand on the last square, where no jump is under way. */
  ghost predicate Stands(cells: Cells, airborne: seq<Jump>, r: Trip)
    requires |r.path| > 0
  {
    var c := r.path[|r.path| - 1];
    Carries(cells, r, c) && cells[c].state != Moving && forall l :: 0 <= l < |airborne| ==> airborne[l].cell != c
  }

  // ---- within a tick ----

  /** How often the piece has walked in. */
  function Steps(entries: seq<Entry>, id: nat): nat {
    if entries == [] then 0
    else
      var e := entries[|entries| - 1];
      Steps(entries[..|entries| - 1], id) + if WalksIn(e) && e.mover.id == id then 1 else 0
  }

  lemma OneMoreStep(entries: seq<Entry>, e: Entry, id: nat)
    ensures Steps(entries + [e], id) == Steps(entries, id) + if WalksIn(e) && e.mover.id == id then 1 else 0
  {
    assert (entries + [e])[..|entries|] == entries;
  }

  /** This crossing does not take another piece onto a square that the trip still has to pass or stands on. */
  ghost predicate KeepsOff(e: Entry, r: Trip, s: nat) {
    WalksIn(e) && e.mover.id != r.id ==> forall j :: s <= j < |r.path| ==> e.to != r.path[j]
  }

  /** Nobody else walks onto a square of the path that the trip has not left by then. */
  ghost predicate FreeWay(entries: seq<Entry>, r: Trip, start: nat) {
    forall a :: 0 <= a < |entries| ==> KeepsOff(entries[a], r, start + Steps(entries[..a], r.id))
  }

  /** Under way on open squares, having come to the s-th. */
  ghost predicate UnderWay(t: Tick, i: nat, r: Trip, clock: int, s: nat)
    requires GroundedTick(t) && Live(t.resolved, i)
  {
    var m := t.active[i];
    && m.path == r.path && m.stepDuration == r.step && Travelled(m) == clock
    && m.stepIndex == s < |r.path| - 1 && m.elapsed >= 0
    && Carries(t.cells, r, r.path[s]) && Open(t.cells, t.airborne, r, s)
  }

  /** Standing at the end, in good time. */
  ghost predicate Done(cells: Cells, airborne: seq<Jump>, r: Trip, clock: int, s: nat)
    requires |r.path| > 0
  {
    s == |r.path| - 1 && clock >= s * r.step && Stands(cells, airborne, r)
  }

  /** So far into a tick. A trip that was over before has no journey i. */
  ghost predicate OnWay(t: Tick, i: nat, r: Trip, clock: int, start: nat)
    requires GroundedTick(t)
  {
    var s := start + Steps(t.entries, r.id);
    ValidTrip(r) && if Live(t.resolved, i) then UnderWay(t, i, r, clock, s) else Done(t.cells, t.airborne, r, clock, s)
  }

  lemma JumpSquaresStay(t: Tick, n: nat)
    requires Upheld(t) && Crossing(t, n)
    ensures var u := ResolveEntry(t, n);
            |u.airborne| == |t.airborne| && forall l :: 0 <= l < |t.airborne| ==> u.airborne[l].cell == t.airborne[l].cell
  {
    CrossingIsOnward(t, n);
  }

  lemma ArrivalRests(t: Tick, i: nat)
    requires GroundedTick(t) && Crossing(t, i) && !Live(ResolveEntry(t, i).resolved, i) && WalksIn(EntryOf(t, i))
    ensures var u, c := ResolveEntry(t, i), NextCell(t.active[i]); c in u.cells && u.cells[c].state == Resting
  {
    hide EntersLiftedCell;
    CrossingLeaves(t, i);
    match ClassifyEntry(t, i)
    case BlockedByFriendly =>
    case CapturedByAirborne =>
    case Free =>
    case Capture => CaptureKeepsGrounded(Watched(t, i), NextCell(t.active[i]));
  }

  /** On open squares a journey is never blocked and never gives way. */
  lemma OpenWayIsWalked(t: Tick, i: nat, r: Trip, clock: int, s: nat)
    requires Consistent(t, 0) && GroundedTick(t) && Crossing(t, i) && ValidTrip(r) && UnderWay(t, i, r, clock, s)
    ensures var e := EntryOf(t, i);
            && (OutcomeOf(e) == Free || OutcomeOf(e) == Capture) && ClassifyEntry(t, i) == OutcomeOf(e)
            && e.mover.id == r.id && e.mover.color == r.color && e.from == r.path[s] && e.to == r.path[s + 1]
  {
    assert JumpsHold(t.cells, t.airborne, t.resting, t.delta, 0, {});
  }

  lemma OpenAhead(cells: Cells, after: Cells, airborne: seq<Jump>, r: Trip, s: nat, e: Entry)
    requires ValidTrip(r) && s + 1 < |r.path| - 1 && Moves(cells, after, e) && WalksIn(e)
    requires e.from == r.path[s] && e.to == r.path[s + 1] && Open(cells, airborne, r, s)
    ensures Open(after, airborne, r, s + 1)
  {
    assert r.path[|r.path| - 1] != r.path[s] && r.path[|r.path| - 1] != r.path[s + 1];
  }

  lemma OwnStepGoesOn(t: Tick, i: nat, r: Trip, clock: int, s: nat)
    requires Consistent(t, 0) && Upheld(t) && Crossing(t, i) && ValidTrip(r) && UnderWay(t, i, r, clock, s)
    requires s + 1 < |r.path| - 1
    ensures var u := ResolveEntry(t, i); GroundedTick(u) && Live(u.resolved, i) && UnderWay(u, i, r, clock, s + 1)
  {
    hide ConsistentExcept, ResolveEntry, EntryOf, ClassifyEntry, Open, Upheld;
    UpheldIsGrounded(t);
    OpenWayIsWalked(t, i, r, clock, s);
    CrossingKeepsGrounded(t, i);
    CrossingMoves(t, i);
    OwnCrossingLeaves(t, i);
    OthersLiftNobody(t, i);
    CompletedStepSameJourney(t.active[i]);
    OpenAhead(t.cells, ResolveEntry(t, i).cells, t.airborne, r, s, EntryOf(t, i));
  }

  lemma OwnStepArrives(t: Tick, i: nat, r: Trip, clock: int, s: nat)
    requires Consistent(t, 0) && Upheld(t) && Crossing(t, i) && ValidTrip(r) && UnderWay(t, i, r, clock, s)
    requires s + 1 == |r.path| - 1
    ensures var u := ResolveEntry(t, i); !Live(u.resolved, i) && Done(u.cells, u.airborne, r, clock, s + 1)
  {
    hide ConsistentExcept, ResolveEntry, EntryOf, ClassifyEntry, Upheld;
    UpheldIsGrounded(t);
    OpenWayIsWalked(t, i, r, clock, s);
    CrossingMoves(t, i);
    OwnCrossingLeaves(t, i);
    OthersLiftNobody(t, i);
    StepEnds(s, r.step);
    ArrivalRests(t, i);
  }

  lemma NotYetThere(t: Tick, i: nat, r: Trip, clock: int, s: nat)
    requires GroundedTick(t) && Live(t.resolved, i) && UnderWay(t, i, r, clock, s)
    ensures s < |r.path| - 1
  {
  }

  lemma OwnStepKeepsWay(t: Tick, i: nat, r: Trip, clock: int, start: nat)
    requires Consistent(t, 0) && Upheld(t) && Crossing(t, i) && OnWay(t, i, r, clock, start)
    ensures GroundedTick(ResolveEntry(t, i)) && OnWay(ResolveEntry(t, i), i, r, clock, start)
  {
    hide ConsistentExcept, ResolveEntry, EntryOf, ClassifyEntry, Done, Upheld, UnderWay, Grounded;
    var s := start + Steps(t.entries, r.id);
    UpheldIsGrounded(t);
    OpenWayIsWalked(t, i, r, clock, s);
    NotYetThere(t, i, r, clock, s);
    CrossingKeepsGrounded(t, i);
    EntryLogged(t, i);
    OneMoreStep(t.entries, EntryOf(t, i), r.id);
    if s + 1 < |r.path| - 1 {
      OwnStepGoesOn(t, i, r, clock, s);
    } else {
      OwnStepArrives(t, i, r, clock, s);
    }
  }

  /** The piece of another journey is another piece on another square. */
  lemma OthersAreOthers(t: Tick, n: nat, i: nat, r: Trip, clock: int, start: nat)
    requires Consistent(t, 0) && GroundedTick(t) && Crossing(t, n) && n != i && OnWay(t, i, r, clock, start)
    ensures EntryOf(t, n).mover.id != r.id
    ensures var s := start + Steps(t.entries, r.id); s < |r.path| && EntryOf(t, n).from != r.path[s]
  {
  }

  lemma OpenStays(cells: Cells, after: Cells, airborne: seq<Jump>, later: seq<Jump>, r: Trip, s: nat, e: Entry)
    requires Moves(cells, after, e) && KeepsOff(e, r, s) && e.mover.id != r.id && Open(cells, airborne, r, s)
    requires |later| == |airborne| && forall l :: 0 <= l < |airborne| ==> later[l].cell == airborne[l].cell
    ensures Open(after, later, r, s)
  {
  }

  lemma OtherStepLeavesWay(t: Tick, n: nat, i: nat, r: Trip, clock: int, s: nat)
    requires Upheld(t) && Crossing(t, n) && n != i && Live(t.resolved, i) && UnderWay(t, i, r, clock, s)
    requires KeepsOff(EntryOf(t, n), r, s) && EntryOf(t, n).mover.id != r.id
    ensures var u := ResolveEntry(t, n); GroundedTick(u) && Live(u.resolved, i) && UnderWay(u, i, r, clock, s)
  {
    hide ResolveEntry, EntryOf, ClassifyEntry, Open, Upheld;
    UpheldIsGrounded(t);
    CrossingKeepsGrounded(t, n);
    CrossingMoves(t, n);
    JumpSquaresStay(t, n);
    var u := ResolveEntry(t, n);
    if !Live(u.resolved, i) {
      OnlyTakingEnds(t, n, i);
    }
    OtherMoversStay(t, n, i);
    OpenStays(t.cells, u.cells, t.airborne, u.airborne, r, s, EntryOf(t, n));
  }

  lemma OtherStepLeavesStanding(t: Tick, n: nat, r: Trip, clock: int, s: nat)
    requires Upheld(t) && Crossing(t, n) && ValidTrip(r) && Done(t.cells, t.airborne, r, clock, s)
    requires KeepsOff(EntryOf(t, n), r, s) && EntryOf(t, n).mover.id != r.id && EntryOf(t, n).from != r.path[s]
    ensures var u := ResolveEntry(t, n); Done(u.cells, u.airborne, r, clock, s)
  {
    hide ResolveEntry, EntryOf, ClassifyEntry, Upheld;
    UpheldIsGrounded(t);
    CrossingMoves(t, n);
    JumpSquaresStay(t, n);
  }

  lemma OtherStepKeepsWay(t: Tick, n: nat, i: nat, r: Trip, clock: int, start: nat)
    requires Consistent(t, 0) && Upheld(t) && Crossing(t, n) && n != i && OnWay(t, i, r, clock, start)
    requires KeepsOff(EntryOf(t, n), r, start + Steps(t.entries, r.id))
    ensures GroundedTick(ResolveEntry(t, n)) && OnWay(ResolveEntry(t, n), i, r, clock, start)
  {
    hide ConsistentExcept, ResolveEntry, EntryOf, ClassifyEntry, Upheld, UnderWay, Done, KeepsOff, Grounded, WalksIn;
    UpheldIsGrounded(t);
    OthersAreOthers(t, n, i, r, clock, start);
    CrossingKeepsGrounded(t, n);
    EntryLogged(t, n);
    OneMoreStep(t.entries, EntryOf(t, n), r.id);
    if Live(t.resolved, i) {
      OtherStepLeavesWay(t, n, i, r, clock, start + Steps(t.entries, r.id));
    } else {
      OtherStepLeavesStanding(t, n, r, clock, start + Steps(t.entries, r.id));
    }
  }

  // ---- the record only grows ----

  lemma {:induction false} PassLogsMore(t: Tick, order: seq<nat>)
    requires GroundedTick(t) && Pending(t, order)
    ensures t.entries <= Pass(t, order).entries
    decreases |order|
  {
    if order != [] {
      if Live(t.resolved, order[0]) {
        CrossingKeepsGrounded(t, order[0]);
        CrossingKeepsPending(t, order);
        EntryLogged(t, order[0]);
        hide Grounded, Pending, ResolveEntry, EntryOf;
        PassLogsMore(ResolveEntry(t, order[0]), order[1..]);
      } else {
        PassLogsMore(t, order[1..]);
      }
    }
  }

  lemma {:induction false} ReplayLogsMore(t: Tick)
    requires GroundedTick(t)
    ensures t.entries <= ResolveAll(t).entries
    decreases Remaining(t.active, t.resolved)
  {
    var order := CrossingsByArrival(t.active, t.resolved);
    FoundCrossingsArePending(t);
    hide Grounded;
    if order != [] {
      PassLogsMore(t, order);
      ReplayLogsMore(Pass(t, order));
    }
  }

  lemma FreeWayEarlier(entries: seq<Entry>, more: seq<Entry>, r: Trip, start: nat)
    requires FreeWay(more, r, start) && entries <= more
    ensures FreeWay(entries, r, start)
  {
    forall a | 0 <= a < |entries|
      ensures KeepsOff(entries[a], r, start + Steps(entries[..a], r.id))
    {
      assert more[..a] == entries[..a] && more[a] == entries[a];
    }
  }

  lemma LastKeepsOff(entries: seq<Entry>, e: Entry, r: Trip, start: nat)
    requires FreeWay(entries + [e], r, start)
    ensures KeepsOff(e, r, start + Steps(entries, r.id))
  {
    var more := entries + [e];
    assert more[|entries|] == e && more[..|entries|] == entries;
  }

  lemma CrossingKeepsWay(t: Tick, n: nat, i: nat, r: Trip, clock: int, start: nat)
    requires Consistent(t, 0) && Upheld(t) && Crossing(t, n) && OnWay(t, i, r, clock, start)
    requires FreeWay(ResolveEntry(t, n).entries, r, start)
    ensures GroundedTick(ResolveEntry(t, n)) && OnWay(ResolveEntry(t, n), i, r, clock, start)
  {
    hide ConsistentExcept, ResolveEntry, EntryOf, Upheld, OnWay, FreeWay;
    UpheldIsGrounded(t);
    EntryLogged(t, n);
    if n == i {
      OwnStepKeepsWay(t, i, r, clock, start);
    } else {
      LastKeepsOff(t.entries, EntryOf(t, n), r, start);
      OtherStepKeepsWay(t, n, i, r, clock, start);
    }
  }

  lemma HeadKeepsWay(t: Tick, order: seq<nat>, i: nat, r: Trip, clock: int, start: nat)
    requires Consistent(t, 0) && Upheld(t) && Pending(t, order) && order != [] && GroundedTick(t)
    requires Live(t.resolved, order[0]) && Crossing(t, order[0]) && OnWay(t, i, r, clock, start)
    requires Pass(t, order).clean && FreeWay(Pass(t, order).entries, r, start)
    ensures var u := ResolveEntry(t, order[0]);
            && GroundedTick(u) && Pending(u, order[1..]) && Pass(t, order) == Pass(u, order[1..])
            && Consistent(u, 0) && Upheld(u) && OnWay(u, i, r, clock, start)
  {
    CrossingKeepsPending(t, order);
    CrossingKeepsGrounded(t, order[0]);
    hide ConsistentExcept, Upheld, Pending, ResolveEntry, OnWay, FreeWay, Grounded;
    var u := ResolveEntry(t, order[0]);
    assert Pass(t, order) == Pass(u, order[1..]);
    hide Pass;
    PassOnlySoils(u, order[1..]);
    CrossingKeepsConsistent(t, order[0]);
    CrossingUpholds(t, order[0]);
    PassLogsMore(u, order[1..]);
    FreeWayEarlier(u.entries, Pass(t, order).entries, r, start);
    CrossingKeepsWay(t, order[0], i, r, clock, start);
  }

  lemma PassSkips(t: Tick, order: seq<nat>)
    requires GroundedTick(t) && Pending(t, order)
    ensures order == [] ==> Pass(t, order) == t
    ensures order != [] && !Live(t.resolved, order[0]) ==>
              Pending(t, order[1..]) && Pass(t, order) == Pass(t, order[1..])
  {
  }

  lemma {:induction false} PassKeepsWay(t: Tick, order: seq<nat>, i: nat, r: Trip, clock: int, start: nat)
    requires Consistent(t, 0) && Upheld(t) && Pending(t, order) && Pass(t, order).clean && OnWay(t, i, r, clock, start)
    requires FreeWay(Pass(t, order).entries, r, start)
    ensures OnWay(Pass(t, order), i, r, clock, start)
    ensures Consistent(Pass(t, order), 0) && Upheld(Pass(t, order))
    decreases |order|
  {
    hide *;
    UpheldIsGrounded(t);
    PassSkips(t, order);
    if order != [] {
      if Live(t.resolved, order[0]) {
        CrossingIsOn(t, order);
        HeadKeepsWay(t, order, i, r, clock, start);
        PassKeepsWay(ResolveEntry(t, order[0]), order[1..], i, r, clock, start);
      } else {
        PassKeepsWay(t, order[1..], i, r, clock, start);
      }
    }
  }

  lemma CrossingIsOn(t: Tick, order: seq<nat>)
    requires GroundedTick(t) && Pending(t, order) && order != [] && Live(t.resolved, order[0])
    ensures Crossing(t, order[0])
  {
  }

  lemma {:induction false} ReplayKeepsWay(t: Tick, i: nat, r: Trip, clock: int, start: nat)
    requires Consistent(t, 0) && Upheld(t) && ResolveAll(t).clean && OnWay(t, i, r, clock, start)
    requires FreeWay(ResolveAll(t).entries, r, start)
    ensures OnWay(ResolveAll(t), i, r, clock, start)
    decreases Remaining(t.active, t.resolved)
  {
    UpheldIsGrounded(t);
    var order := CrossingsByArrival(t.active, t.resolved);
    FoundCrossingsArePending(t);
    hide ConsistentExcept, Upheld, OnWay, FreeWay, Grounded, Pending;
    if order != [] {
      var u := Pass(t, order);
      ResolveAllOnlySoils(u);
      ReplayLogsMore(u);
      FreeWayEarlier(u.entries, ResolveAll(t).entries, r, start);
      PassKeepsWay(t, order, i, r, clock, start);
      ReplayKeepsWay(u, i, r, clock, start);
    }
  }
}
