/** Which ticks are ordinary, told from their crossings alone. */
module OrdinaryTicks {
  import opened Model
  import opened Motions
  import opened ArbiterSpec
  import opened CrossingOrder
  import opened ArbiterTick
  import opened ArbiterInvariant
  import opened CrossingKeeps
  import opened TickKeeps
  import opened CrossingLog

  /** An enemy was met in the air: the crossing lifts it. */
  predicate Lifts(e: Entry) {
    e.met.Some? && e.met.value.color != e.mover.color && e.met.value.state == Airborne
  }

  ghost predicate LiftedAt(airborne: seq<Jump>, c: Position) {
    exists k :: 0 <= k < |airborne| && airborne[k].cell == c && IsLifted(airborne[k])
  }

  ghost predicate LiftedOnRecord(entries: seq<Entry>, c: Position) {
    exists b :: 0 <= b < |entries| && Lifts(entries[b]) && entries[b].to == c
  }

  /** By the record, the jumper of this square has been lifted off it by now. */
  ghost predicate IsUnder(before: seq<Jump>, entries: seq<Entry>, c: Position) {
    LiftedAt(before, c) || LiftedOnRecord(entries, c)
  }

  /** This crossing took its piece onto a square whose jumper was lifted off it already. */
  ghost predicate Strays(before: seq<Jump>, entries: seq<Entry>, a: int)
    requires 0 <= a < |entries|
  {
    WalksIn(entries[a]) && IsUnder(before, entries[..a], entries[a].to)
  }

  ghost predicate NoneStrays(before: seq<Jump>, entries: seq<Entry>) {
    forall a :: 0 <= a < |entries| ==> !Strays(before, entries, a)
  }

  lemma OneMoreStrays(before: seq<Jump>, entries: seq<Entry>, e: Entry)
    ensures NoneStrays(before, entries + [e]) <==>
              NoneStrays(before, entries) && !(WalksIn(e) && IsUnder(before, entries, e.to))
  {
    hide IsUnder, WalksIn;
    var more := entries + [e];
    forall a | 0 <= a < |entries|
      ensures Strays(before, more, a) <==> Strays(before, entries, a)
    {
      assert more[..a] == entries[..a] && more[a] == entries[a];
    }
    assert more[..|entries|] == entries && more[|entries|] == e;
    assert Strays(before, more, |entries|) <==> WalksIn(e) && IsUnder(before, entries, e.to);
    hide Strays;
    if NoneStrays(before, more) {
      assert forall a :: 0 <= a < |entries| ==> !Strays(before, more, a);
    }
  }

  lemma OneMoreUnder(before: seq<Jump>, entries: seq<Entry>, e: Entry, c: Position)
    ensures IsUnder(before, entries + [e], c) <==> IsUnder(before, entries, c) || (Lifts(e) && e.to == c)
  {
    hide LiftedAt, Lifts;
    var more := entries + [e];
    assert more[|entries|] == e && forall b :: 0 <= b < |entries| ==> more[b] == entries[b];
  }

  /** So far the monitor says what the record says, and while all is well it says who is lifted, too. */
  ghost predicate Marked(before: seq<Jump>, t: Tick) {
    && (t.clean <==> NoneStrays(before, t.entries))
    && (t.clean ==> Consistent(t, 0) && Upheld(t) && forall c :: LiftedAt(t.airborne, c) <==> IsUnder(before, t.entries, c))
  }

  lemma EntryIsClassified(t: Tick, i: nat)
    requires GroundedTick(t) && Crossing(t, i)
    ensures var e := EntryOf(t, i);
            && e.to == NextCell(t.active[i])
            && (WalksIn(e) <==> ClassifyEntry(t, i) != BlockedByFriendly)
            && (Lifts(e) <==> ClassifyEntry(t, i) == CapturedByAirborne)
  {
  }

  lemma CrossingIsWatched(t: Tick, i: nat)
    requires GroundedTick(t) && Crossing(t, i)
    ensures ResolveEntry(t, i).clean <==>
              t.clean && !(WalksIn(EntryOf(t, i)) && LiftedAt(t.airborne, EntryOf(t, i).to))
  {
    EntryIsClassified(t, i);
    CrossingLeaves(t, i);
    hide EntryOf;
    match ClassifyEntry(t, i)
    case BlockedByFriendly =>
    case CapturedByAirborne =>
    case Free =>
    case Capture => CaptureKeepsGrounded(Watched(t, i), NextCell(t.active[i]));
  }

  lemma LiftingAt(t: Tick, i: nat, c: Position)
    requires Consistent(t, 0) && Upheld(t) && Crossing(t, i)
    ensures LiftedAt(ResolveEntry(t, i).airborne, c) <==>
              LiftedAt(t.airborne, c) || (Lifts(EntryOf(t, i)) && EntryOf(t, i).to == c)
  {
    hide ResolveEntry, EntryOf, Lifts, WalksIn;
    EntryIsClassified(t, i);
    if ClassifyEntry(t, i) == CapturedByAirborne {
      YieldLiftsOne(t, i);
      var next := NextCell(t.active[i]);
      var k := JumpUnder(t, next);
      hide ConsistentExcept, ClassifyEntry, Grounded;
      LiftingOneAt(t.airborne, k, t.cells[next], c);
    } else {
      OthersLiftNobody(t, i);
    }
  }

  lemma LiftingOneAt(airborne: seq<Jump>, k: nat, p: Piece, c: Position)
    requires k < |airborne|
    ensures LiftedAt(airborne[k := airborne[k].(lifted := Some(p))], c) <==> LiftedAt(airborne, c) || airborne[k].cell == c
  {
    var after := airborne[k := airborne[k].(lifted := Some(p))];
    if LiftedAt(airborne, c) {
      var l :| 0 <= l < |airborne| && airborne[l].cell == c && IsLifted(airborne[l]);
      assert after[l].cell == c && IsLifted(after[l]);
    }
    assert after[k].cell == airborne[k].cell && IsLifted(after[k]);
    assert forall l :: 0 <= l < |airborne| && l != k ==> after[l] == airborne[l];
  }

  lemma CrossingIsMarked(before: seq<Jump>, t: Tick, i: nat)
    requires GroundedTick(t) && Crossing(t, i) && Marked(before, t)
    ensures Marked(before, ResolveEntry(t, i))
  {
    hide ConsistentExcept, Upheld, Grounded, ResolveEntry, EntryOf, NoneStrays, LiftedAt, IsUnder, Lifts, WalksIn;
    var u, e := ResolveEntry(t, i), EntryOf(t, i);
    EntryLogged(t, i);
    CrossingIsWatched(t, i);
    OneMoreStrays(before, t.entries, e);
    if u.clean {
      CrossingKeepsConsistent(t, i);
      CrossingUpholds(t, i);
      forall c
        ensures LiftedAt(u.airborne, c) <==> IsUnder(before, u.entries, c)
      {
        LiftingAt(t, i, c);
        OneMoreUnder(before, t.entries, e, c);
      }
    }
  }

  lemma {:induction false} PassIsMarked(before: seq<Jump>, t: Tick, order: seq<nat>)
    requires GroundedTick(t) && Pending(t, order) && Marked(before, t)
    ensures Marked(before, Pass(t, order))
    decreases |order|
  {
    hide Marked, ResolveEntry;
    if order != [] {
      if Live(t.resolved, order[0]) {
        CrossingKeepsGrounded(t, order[0]);
        CrossingKeepsPending(t, order);
        CrossingIsMarked(before, t, order[0]);
        hide Grounded, Pending;
        PassIsMarked(before, ResolveEntry(t, order[0]), order[1..]);
      } else {
        PassIsMarked(before, t, order[1..]);
      }
    }
  }

  lemma {:induction false} ReplayIsMarked(before: seq<Jump>, t: Tick)
    requires GroundedTick(t) && Marked(before, t)
    ensures Marked(before, ResolveAll(t))
    decreases Remaining(t.active, t.resolved)
  {
    var order := CrossingsByArrival(t.active, t.resolved);
    FoundCrossingsArePending(t);
    hide Grounded, Marked;
    if order != [] {
      PassIsMarked(before, t, order);
      ReplayIsMarked(before, Pass(t, order));
    }
  }

  lemma BeginTickIsMarked(w: World, ms: int)
    requires Inv(w) && ms >= 0
    ensures Marked(w.airborne, BeginTick(w, ms))
  {
    hide Inv, ConsistentExcept, Upheld, CellsAfterRests, RestsLeft, LiftedAt;
    BeginTickIsConsistent(w, ms);
    BeginTickIsUpheld(w, ms);
  }

  /** Main result: from a position in agreement a tick is ordinary if and only if, by its record of crossings, none of them
      walked onto a square whose jumper had been lifted, before the tick or earlier in it. */
  lemma OrdinaryByRecord(w: World, ms: int)
    requires Inv(w) && ms >= 0
    ensures GroundedWorld(w)
    ensures OrdinaryTick(w, ms) <==> NoneStrays(w.airborne, AfterCrossings(w, ms).entries)
  {
    AgreementIsGrounded(w);
    hide Inv, Grounded, GroundedWorld, ResolveAll, BeginTick, NoneStrays, ConsistentExcept, Upheld;
    BeginTickIsGrounded(w, ms);
    BeginTickIsMarked(w, ms);
    ReplayIsMarked(w.airborne, BeginTick(w, ms));
  }
}
