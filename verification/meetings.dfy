/** Whom crossings meet and what comes of it: friends block, enemies on the ground are taken, enemies in the air are not. */
module Meetings {
  import opened Model
  import opened Motions
  import opened ArbiterSpec
  import opened CrossingOrder
  import opened ArbiterTick
  import opened ArbiterInvariant
  import opened Conservation
  import opened CrossingLog
  import Timing

  // ---- the record is true ----

  function MetId(e: Entry): Option<Identity> {
    if e.met.Some? then Some(IdOf(e.met.value)) else None
  }

  /** At each crossing the piece crossing and the one met are those that the record up to then puts on the two squares. */
  ghost predicate IsTrue(before: Cells, entries: seq<Entry>) {
    forall a :: 0 <= a < |entries| ==> TrueAt(before, entries, a)
  }

  ghost predicate TrueAt(before: Cells, entries: seq<Entry>, a: int)
    requires 0 <= a < |entries|
  {
    var e := entries[a];
    && StandsAfter(entries[..a], e.from, IdAt(before, e.from)) == Some(IdOf(e.mover))
    && StandsAfter(entries[..a], e.to, IdAt(before, e.to)) == MetId(e)
  }

  ghost predicate LogAgrees(before: Cells, t: Tick) {
    IsTrue(before, t.entries) && forall c :: IdAt(t.cells, c) == StandsAfter(t.entries, c, IdAt(before, c))
  }

  lemma OneMoreTrue(before: Cells, entries: seq<Entry>, e: Entry)
    requires IsTrue(before, entries)
    requires StandsAfter(entries, e.from, IdAt(before, e.from)) == Some(IdOf(e.mover))
    requires StandsAfter(entries, e.to, IdAt(before, e.to)) == MetId(e)
    ensures IsTrue(before, entries + [e])
  {
    hide StandsAfter, IdAt;
    var more := entries + [e];
    forall a | 0 <= a < |more|
      ensures TrueAt(before, more, a)
    {
      if a < |entries| {
        assert TrueAt(before, entries, a);
        assert more[..a] == entries[..a] && more[a] == entries[a];
      } else {
        assert more[..a] == entries && more[a] == e;
      }
    }
  }

  lemma EntryTells(t: Tick, i: nat)
    requires GroundedTick(t) && Crossing(t, i)
    ensures var e := EntryOf(t, i); IdAt(t.cells, e.from) == Some(IdOf(e.mover)) && IdAt(t.cells, e.to) == MetId(e)
  {
  }

  lemma CrossingKeepsLog(before: Cells, t: Tick, i: nat)
    requires GroundedTick(t) && Crossing(t, i) && LogAgrees(before, t)
    ensures LogAgrees(before, ResolveEntry(t, i))
  {
    EntryLogged(t, i);
    CrossingMoves(t, i);
    EntryTells(t, i);
    hide Grounded, ResolveEntry, EntryOf, StandsAfter, IdAt, Moves, IsTrue;
    var u, e := ResolveEntry(t, i), EntryOf(t, i);
    OneMoreTrue(before, t.entries, e);
    forall c
      ensures IdAt(u.cells, c) == StandsAfter(u.entries, c, IdAt(before, c))
    {
      OneMoreCrossing(t.cells, u.cells, t.entries, e, c, IdAt(before, c));
    }
  }

  // ---- what comes of it ----

  /** An enemy was met standing on the ground. */
  predicate Takes(e: Entry) {
    e.met.Some? && e.met.value.color != e.mover.color && e.met.value.state != Airborne
  }

  function VictimsOf(entries: seq<Entry>): seq<Piece> {
    if entries == [] then []
    else
      var e := entries[|entries| - 1];
      VictimsOf(entries[..|entries| - 1]) + if Takes(e) then [e.met.value.(state := Captured)] else []
  }

  lemma OneMoreMet(entries: seq<Entry>, e: Entry)
    ensures VictimsOf(entries + [e]) == VictimsOf(entries) + if Takes(e) then [e.met.value.(state := Captured)] else []
  {
    assert (entries + [e])[..|entries|] == entries;
  }

  lemma CrossingTakes(t: Tick, i: nat)
    requires GroundedTick(t) && Crossing(t, i)
    ensures var e := EntryOf(t, i);
            ResolveEntry(t, i).victims == t.victims + if Takes(e) then [e.met.value.(state := Captured)] else []
  {
    hide EntersLiftedCell;
    CrossingLeaves(t, i);
    match ClassifyEntry(t, i)
    case BlockedByFriendly =>
    case CapturedByAirborne =>
    case Free =>
    case Capture => CaptureKeepsGrounded(Watched(t, i), NextCell(t.active[i]));
  }

  /** Only friends stop a piece on its way. */
  lemma FriendsBlock(e: Entry)
    ensures WalksIn(e) <==> (e.met.Some? ==> e.met.value.color != e.mover.color)
  {
  }

  // ---- the tick ----

  ghost predicate Recorded(before: Cells, t: Tick) {
    LogAgrees(before, t) && t.victims == VictimsOf(t.entries)
  }

  lemma CrossingIsRecorded(before: Cells, t: Tick, i: nat)
    requires GroundedTick(t) && Crossing(t, i) && Recorded(before, t)
    ensures Recorded(before, ResolveEntry(t, i))
  {
    hide LogAgrees, ResolveEntry, EntryOf, VictimsOf, Grounded;
    CrossingKeepsLog(before, t, i);
    EntryLogged(t, i);
    CrossingTakes(t, i);
    OneMoreMet(t.entries, EntryOf(t, i));
  }

  lemma {:induction false} PassIsRecorded(before: Cells, t: Tick, order: seq<nat>)
    requires GroundedTick(t) && Pending(t, order) && Recorded(before, t)
    ensures Recorded(before, Pass(t, order))
    decreases |order|
  {
    hide Recorded, ResolveEntry;
    if order != [] {
      if Live(t.resolved, order[0]) {
        CrossingKeepsGrounded(t, order[0]);
        CrossingKeepsPending(t, order);
        CrossingIsRecorded(before, t, order[0]);
        hide Grounded, Pending;
        PassIsRecorded(before, ResolveEntry(t, order[0]), order[1..]);
      } else {
        PassIsRecorded(before, t, order[1..]);
      }
    }
  }

  lemma {:induction false} ReplayIsRecorded(before: Cells, t: Tick)
    requires GroundedTick(t) && Recorded(before, t)
    ensures Recorded(before, ResolveAll(t))
    decreases Remaining(t.active, t.resolved)
  {
    var order := CrossingsByArrival(t.active, t.resolved);
    FoundCrossingsArePending(t);
    hide Grounded, Recorded;
    if order != [] {
      PassIsRecorded(before, t, order);
      ReplayIsRecorded(before, Pass(t, order));
    }
  }

  lemma BeginTickIsRecorded(w: World, ms: int)
    ensures Recorded(w.cells, BeginTick(w, ms))
  {
    forall c
      ensures IdAt(BeginTick(w, ms).cells, c) == StandsAfter([], c, IdAt(w.cells, c))
    {
      RestsKeepWho(w.cells, w.resting, ms, c);
    }
    hide IdAt, CellsAfterRests, RestsLeft;
  }

  /** Main result, for every tick: the crossings it replays are recorded truly, each with the piece that stood in its way,
      if any, and their victims are exactly the enemies so met on the ground, in order. No friend is ever taken. */
  lemma CrossingsTakeEnemiesMet(w: World, ms: int)
    requires GroundedWorld(w)
    ensures var t := AfterCrossings(w, ms); IsTrue(w.cells, t.entries) && t.victims == VictimsOf(t.entries)
  {
    hide Grounded, GroundedWorld, ResolveAll, BeginTick, IsTrue, VictimsOf;
    BeginTickIsGrounded(w, ms);
    BeginTickIsRecorded(w, ms);
    ReplayIsRecorded(w.cells, BeginTick(w, ms));
  }

  /** And so of a whole tick: its victims are the enemies met on the ground and those under jumps that came down. */
  lemma TickTakes(w: World, ms: int)
    requires Inv(w) && ms >= 0
    ensures GroundedWorld(w)
    ensures var t := AfterCrossings(w, ms);
            && LandingsGrounded(t.cells, t.airborne)
            && Advance(w, ms).victims == VictimsOf(t.entries) + TakenByJumpers(t.cells, t.airborne, ms)
  {
    hide Inv, GroundedWorld, AfterCrossings, Advance, LandingsGrounded, TakenByJumpers, VictimsOf, IsTrue, TakesFriend;
    LandingsTakeFriendsExactly(w, ms, 0);
    CrossingsTakeEnemiesMet(w, ms);
    Timing.CrossingsAgeTheRest(w, ms);
  }
}
