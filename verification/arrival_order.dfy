/** In a tick no longer than one step, crossings are replayed in the order they truly happened, and the piece arriving
    later takes the one already there. */
module ArrivalOrder {
  import opened Motions
  import opened ArbiterSpec
  import opened CrossingOrder
  import opened ArbiterTick
  import opened ArbiterInvariant
  import opened CrossingKeeps
  import opened CrossingLog
  import opened TickKeeps
  import opened Timing

  /** e happened before the crossing of journey b that has overshot by `overshoot`. */
  predicate Earlier(e: Entry, b: nat, overshoot: int) {
    e.index != b && (e.overshoot > overshoot || (e.overshoot == overshoot && e.index < b))
  }

  ghost predicate InOrder(entries: seq<Entry>) {
    forall a, b :: 0 <= a < b < |entries| ==> Earlier(entries[a], entries[b].index, entries[b].overshoot)
  }

  /** Crossing a was a walk into its square, and nobody has walked in there since. */
  ghost predicate LastThere(entries: seq<Entry>, a: nat)
    requires a < |entries|
  {
    WalksIn(entries[a]) && forall b :: a < b < |entries| && WalksIn(entries[b]) ==> entries[b].to != entries[a].to
  }

  /** The last piece to walk into a square is on it, and only its own journey could carry it on. */
  ghost predicate LastStands(t: Tick)
    requires GroundedTick(t)
  {
    forall a :: 0 <= a < |t.entries| && LastThere(t.entries, a) ==>
      && t.entries[a].to in t.cells && t.cells[t.entries[a].to].id == t.entries[a].mover.id
      && (forall i :: Live(t.resolved, i) && CurrentCell(t.active[i]) == t.entries[a].to ==> i == t.entries[a].index)
  }

  /** Entries so far come before everything still pending, and all that is mid-crossing is still pending. */
  ghost predicate InStep(t: Tick, order: seq<nat>) {
    && Pending(t, order) && InArrivalOrder(t.active, order) && InOrder(t.entries)
    && (forall a, p :: 0 <= a < |t.entries| && 0 <= p < |order| ==>
          Earlier(t.entries[a], order[p], ArrivalOvershootMs(t.active[order[p]])))
    && (forall i :: Live(t.resolved, i) && IsEnteringNextCell(t.active[i]) ==> i in order)
  }

  lemma SkipKeepsInStep(t: Tick, order: seq<nat>)
    requires InStep(t, order) && order != [] && !Live(t.resolved, order[0])
    ensures InStep(t, order[1..])
  {
    hide Before, Earlier, InOrder, IsEnteringNextCell;
    var rest := order[1..];
    assert forall p :: 0 <= p < |rest| ==> rest[p] == order[p + 1];
    assert order == [order[0]] + rest;
  }

  lemma CrossingKeepsInStep(t: Tick, order: seq<nat>)
    requires GroundedTick(t) && InStep(t, order) && order != [] && Live(t.resolved, order[0])
    requires StepClocks(t.active, t.resolved, t.delta) && t.delta <= SQUARE_TRAVEL_MS
    ensures InStep(ResolveEntry(t, order[0]), order[1..])
  {
    var i, rest := order[0], order[1..];
    var u := ResolveEntry(t, i);
    CrossingKeepsGrounded(t, i);
    CrossingKeepsPending(t, order);
    EntryLogged(t, i);
    assert WellFormed(t.active[i]);
    EntryIsOf(t, i);
    hide ResolveEntry, Grounded, EntryOf;
    forall p | 0 <= p < |rest|
      ensures rest[p] == order[p + 1] && rest[p] != i && u.active[rest[p]] == t.active[rest[p]]
      ensures Before(t.active, i, rest[p])
    {
    }
    forall j | Live(u.resolved, j) && IsEnteringNextCell(u.active[j])
      ensures j in rest
    {
      assert j != i;
      assert j in order;
    }
  }

  /** After journey i has crossed, only it can be under way on its new square. */
  lemma OnlyOwnJourneyAt(t: Tick, i: nat)
    requires Upheld(t) && Crossing(t, i)
    ensures var u, to := ResolveEntry(t, i), NextCell(t.active[i]);
            && (Live(u.resolved, i) ==>
                  i < |u.active| && u.active[i].stepIndex < |u.active[i].path| && CurrentCell(u.active[i]) == to
                  && WalksIn(EntryOf(t, i)))
            && (WalksIn(EntryOf(t, i)) ==>
                  forall j :: Live(u.resolved, j) && j < |t.active| && j != i ==>
                    Live(t.resolved, j) && CurrentCell(t.active[j]) != to)
  {
    hide ResolveEntry, EntersLiftedCell, EntryOf, Upheld;
    UpheldIsGrounded(t);
    CrossingKeepsGrounded(t, i);
    if Live(ResolveEntry(t, i).resolved, i) {
      StateWhileUnderWay(t, i);
    }
    forall j | Live(ResolveEntry(t, i).resolved, j) && j < |t.active| && j != i && WalksIn(EntryOf(t, i))
      ensures Live(t.resolved, j) && CurrentCell(t.active[j]) != NextCell(t.active[i])
    {
      if CurrentCell(t.active[j]) == NextCell(t.active[i]) {
        NobodyElseOn(t, i, j);
      }
    }
  }

  lemma EntryIsOf(t: Tick, i: nat)
    requires GroundedTick(t) && Crossing(t, i)
    ensures var e := EntryOf(t, i);
            e.index == i && e.from == CurrentCell(t.active[i]) && e.to == NextCell(t.active[i])
            && e.overshoot == ArrivalOvershootMs(t.active[i])
  {
  }

  lemma LastBefore(entries: seq<Entry>, e: Entry, a: nat)
    requires a < |entries| && LastThere(entries + [e], a)
    ensures (entries + [e])[a] == entries[a] && LastThere(entries, a) && (WalksIn(e) ==> e.to != entries[a].to)
  {
    var more := entries + [e];
    assert more[|entries|] == e && forall b :: 0 <= b < |entries| ==> more[b] == entries[b];
  }

  lemma CrossingKeepsLast(t: Tick, order: seq<nat>)
    requires Consistent(t, 0) && InStep(t, order) && order != [] && Live(t.resolved, order[0])
    requires ResolveEntry(t, order[0]).clean && LastStands(t)
    ensures GroundedTick(ResolveEntry(t, order[0])) && LastStands(ResolveEntry(t, order[0]))
  {
    hide ConsistentExcept, ResolveEntry, ClassifyEntry, EntersLiftedCell, EntryOf;
    ConsistentIsGrounded(t, {});
    ConsistentIsUpheld(t);
    var i := order[0];
    var u, e := ResolveEntry(t, i), EntryOf(t, i);
    EntryIsOf(t, i);
    CrossingKeepsGrounded(t, i);
    EntryLogged(t, i);
    CrossingMoves(t, i);
    OnlyOwnJourneyAt(t, i);
    hide Upheld;
    forall a | 0 <= a < |u.entries| && LastThere(u.entries, a)
      ensures u.entries[a].to in u.cells && u.cells[u.entries[a].to].id == u.entries[a].mover.id
      ensures forall j :: Live(u.resolved, j) && CurrentCell(u.active[j]) == u.entries[a].to ==> j == u.entries[a].index
    {
      if a < |t.entries| {
        LastBefore(t.entries, e, a);
        assert Earlier(t.entries[a], order[0], ArrivalOvershootMs(t.active[order[0]]));
        assert t.entries[a].to != e.from;
        forall j | Live(u.resolved, j) && CurrentCell(u.active[j]) == u.entries[a].to
          ensures j == u.entries[a].index
        {
          assert Live(t.resolved, j);
        }
      }
    }
  }

  /** All that a short tick keeps while it replays its crossings. */
  ghost predicate Orderly(t: Tick, order: seq<nat>) {
    Consistent(t, 0) && InStep(t, order) && LastStands(t) && t.delta <= SQUARE_TRAVEL_MS
  }

  lemma CrossingKeepsOrderly(t: Tick, order: seq<nat>)
    requires Orderly(t, order) && order != [] && Live(t.resolved, order[0])
    requires ResolveEntry(t, order[0]).clean
    ensures Orderly(ResolveEntry(t, order[0]), order[1..])
  {
    CrossingKeepsInStep(t, order);
    CrossingKeepsConsistent(t, order[0]);
    CrossingKeepsLast(t, order);
    CrossingKeepsClocks(t, order[0]);
    hide ConsistentExcept, InStep, LastStands, ResolveEntry;
  }

  lemma OrderlyIsPending(t: Tick, order: seq<nat>)
    requires Orderly(t, order)
    ensures GroundedTick(t) && Pending(t, order)
  {
  }

  lemma {:induction false} PassKeepsOrderly(t: Tick, order: seq<nat>)
    requires Orderly(t, order) && Pass(t, order).clean
    ensures Orderly(Pass(t, order), [])
    decreases |order|
  {
    if order != [] {
      if Live(t.resolved, order[0]) {
        hide Orderly;
        OrderlyIsPending(t, order);
        var u := ResolveEntry(t, order[0]);
        CrossingKeepsGrounded(t, order[0]);
        CrossingKeepsPending(t, order);
        PassOnlySoils(u, order[1..]);
        CrossingKeepsOrderly(t, order);
        PassKeepsOrderly(u, order[1..]);
      } else {
        SkipKeepsInStep(t, order);
        hide ConsistentExcept, InStep, LastStands;
        PassKeepsOrderly(t, order[1..]);
      }
    }
  }

  lemma FoundCrossingsAreInStep(t: Tick)
    requires |t.active| == |t.resolved| && t.entries == []
    ensures InStep(t, CrossingsByArrival(t.active, t.resolved))
  {
    FoundCrossingsArePending(t);
    CrossingsAreInArrivalOrder(t.active, t.resolved);
  }

  /** Main result. In an ordinary tick no longer than one step: every journey crosses at most once; all crossings, blocked
      ones among them, come in falling overshoot, ties in the order the journeys began; and whoever walked into a square
      last stands on it. */
  lemma LaterArrivalTakesEarlier(w: World, delta: int)
    requires Inv(w) && 0 <= delta <= SQUARE_TRAVEL_MS && GroundedWorld(w) && OrdinaryTick(w, delta)
    ensures GroundedTick(BeginTick(w, delta))
    ensures var r := ResolveAll(BeginTick(w, delta));
            && InOrder(r.entries)
            && (forall a :: 0 <= a < |r.entries| && LastThere(r.entries, a) ==>
                  && r.entries[a].to in r.cells && r.cells[r.entries[a].to].id == r.entries[a].mover.id)
  {
    hide *;
    BeginTickIsGrounded(w, delta);
    BeginTickIsOrderly(w, delta);
    OrdinaryTickIsClean(w, delta);
    ShortTickIsOnePass(BeginTick(w, delta));
    OrderlyAtTheEnd(ResolveAll(BeginTick(w, delta)));
  }

  lemma OrdinaryTickIsClean(w: World, delta: int)
    requires GroundedWorld(w) && OrdinaryTick(w, delta)
    ensures GroundedTick(BeginTick(w, delta)) && ResolveAll(BeginTick(w, delta)).clean
  {
    hide GroundedWorld, BeginTick, Grounded, ResolveAll;
    BeginTickIsGrounded(w, delta);
  }

  lemma NobodyHasCrossed(t: Tick)
    requires GroundedTick(t) && t.entries == []
    ensures LastStands(t)
  {
  }

  lemma BeginTickIsOrderly(w: World, delta: int)
    requires Inv(w) && 0 <= delta <= SQUARE_TRAVEL_MS && GroundedWorld(w)
    ensures GroundedTick(BeginTick(w, delta))
    ensures var b := BeginTick(w, delta); Orderly(b, CrossingsByArrival(b.active, b.resolved))
  {
    hide GroundedWorld, Inv, Grounded, ConsistentExcept, InStep, LastStands, CrossingsByArrival, CellsAfterRests, RestsLeft;
    BeginTickIsConsistent(w, delta);
    BeginTickIsGrounded(w, delta);
    FoundCrossingsAreInStep(BeginTick(w, delta));
    NobodyHasCrossed(BeginTick(w, delta));
  }

  /** One pass over the crossings found at the start resolves them all. */
  lemma ShortTickIsOnePass(b: Tick)
    requires GroundedTick(b) && Orderly(b, CrossingsByArrival(b.active, b.resolved)) && ResolveAll(b).clean
    ensures Orderly(ResolveAll(b), [])
  {
    var order := CrossingsByArrival(b.active, b.resolved);
    hide Orderly, Grounded, CrossingsByArrival, Pass;
    FoundCrossingsArePending(b);
    if order != [] {
      var u := Pass(b, order);
      assert ResolveAll(b) == ResolveAll(u);
      ResolveAllOnlySoils(u);
      PassKeepsOrderly(b, order);
      OrderlyLeavesNothing(u);
    }
  }

  lemma OrderlyAtTheEnd(u: Tick)
    requires Orderly(u, [])
    ensures InOrder(u.entries)
    ensures forall a :: 0 <= a < |u.entries| && LastThere(u.entries, a) ==>
              && u.entries[a].to in u.cells && u.cells[u.entries[a].to].id == u.entries[a].mover.id
  {
  }

  lemma OrderlyLeavesNothing(u: Tick)
    requires Orderly(u, [])
    ensures GroundedTick(u) && ResolveAll(u) == u
  {
    NothingPending(u);
  }

  lemma NothingPending(u: Tick)
    requires GroundedTick(u) && InStep(u, [])
    ensures ResolveAll(u) == u
  {
    var again := CrossingsByArrival(u.active, u.resolved);
    assert again != [] ==> again[0] in again;
    CrossingsAreInArrivalOrder(u.active, u.resolved);
  }
}
