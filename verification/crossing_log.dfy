/** The record of crossings tells the whole board, and whom a landing takes. */
module CrossingLog {
  import opened Model
  import opened Motions
  import opened ArbiterSpec
  import opened CrossingOrder
  import opened ArbiterTick
  import opened ArbiterInvariant
  import opened Conservation
  import opened TickKeeps

  /** This crossing was not blocked: its piece did walk in. */
  predicate WalksIn(e: Entry) {
    OutcomeOf(e) != BlockedByFriendly
  }

  /** A crossing, blocked or not, logs itself and nothing else. */
  lemma EntryLogged(t: Tick, i: nat)
    requires GroundedTick(t) && Crossing(t, i)
    ensures ResolveEntry(t, i).entries == t.entries + [EntryOf(t, i)]
  {
    hide EntersLiftedCell, EntryOf;
    var m := t.active[i];
    assert m.path[m.stepIndex] != m.path[m.stepIndex + 1];
    match ClassifyEntry(t, i)
    case BlockedByFriendly =>
    case CapturedByAirborne =>
    case Free =>
    case Capture => CaptureKeepsGrounded(Watched(t, i), NextCell(m));
  }

  /** The piece on a square has come to stand there from another, or has stopped; all others are untouched. */
  ghost predicate Moves(cells: Cells, after: Cells, e: Entry) {
    && e.from in cells && cells[e.from] == e.mover && e.from != e.to
    && (if WalksIn(e) then
          && after.Keys == cells.Keys - {e.from} + {e.to}
          && after[e.to].id == e.mover.id && after[e.to].color == e.mover.color && after[e.to].kind == e.mover.kind
          && (forall c :: c in cells && c != e.from && c != e.to ==> after[c] == cells[c])
        else after == cells[e.from := e.mover.(state := Resting)])
  }

  /** What a crossing does to the squares is what its entry says. */
  lemma CrossingMoves(t: Tick, i: nat)
    requires GroundedTick(t) && Crossing(t, i)
    ensures Moves(t.cells, ResolveEntry(t, i).cells, EntryOf(t, i))
  {
    CrossingLeaves(t, i);
    hide EntersLiftedCell, WellFormed;
    var watched := Watched(t, i);
    match ClassifyEntry(t, i)
    case BlockedByFriendly =>
    case CapturedByAirborne =>
    case Free => WalkInMoves(watched, i, None, EntryOf(t, i));
    case Capture =>
      var next := NextCell(t.active[i]);
      CaptureKeepsGrounded(watched, next);
      WalkInMoves(CaptureAt(watched, next), i, Some(TakenAt(t.cells, next)), EntryOf(t, i));
  }

  lemma CrossingLeaves(t: Tick, i: nat)
    requires GroundedTick(t) && Crossing(t, i)
    ensures t.active[i].stepIndex < |t.active[i].path| && CurrentCell(t.active[i]) != NextCell(t.active[i])
  {
    var m := t.active[i];
    assert m.path[m.stepIndex] != m.path[m.stepIndex + 1];
  }

  lemma WalkInMoves(t: Tick, i: nat, captured: Option<CapturedPiece>, e: Entry)
    requires GroundedTick(t) && Crossing(t, i) && NextCell(t.active[i]) !in t.cells && WalksIn(e)
    requires e.from == CurrentCell(t.active[i]) && e.to == NextCell(t.active[i]) && e.mover == t.cells[e.from]
    ensures Moves(t.cells, WalkIn(t, i, captured).cells, e)
  {
    CrossingLeaves(t, i);
  }

  // ---- who stands where ----

  function IdAt(cells: Cells, c: Position): Option<Identity> {
    if c in cells then Some(IdOf(cells[c])) else None
  }

  /** Who stands on a square after these crossings, given who did before: the last to walk in, unless it walked on. */
  function StandsAfter(entries: seq<Entry>, c: Position, before: Option<Identity>): Option<Identity> {
    if entries == [] then before
    else
      var e := entries[|entries| - 1];
      if WalksIn(e) && e.to == c then Some(IdOf(e.mover))
      else if WalksIn(e) && e.from == c then None
      else StandsAfter(entries[..|entries| - 1], c, before)
  }

  lemma OneMoreCrossing(cells: Cells, after: Cells, entries: seq<Entry>, e: Entry, c: Position, before: Option<Identity>)
    requires Moves(cells, after, e) && IdAt(cells, c) == StandsAfter(entries, c, before)
    ensures IdAt(after, c) == StandsAfter(entries + [e], c, before)
  {
    assert (entries + [e])[..|entries|] == entries;
  }

  lemma {:induction false} PassIsLogged(t: Tick, order: seq<nat>, c: Position, before: Option<Identity>)
    requires GroundedTick(t) && Pending(t, order) && IdAt(t.cells, c) == StandsAfter(t.entries, c, before)
    ensures var u := Pass(t, order); IdAt(u.cells, c) == StandsAfter(u.entries, c, before)
    decreases |order|
  {
    if order != [] {
      if Live(t.resolved, order[0]) {
        CrossingKeepsGrounded(t, order[0]);
        CrossingKeepsPending(t, order);
        EntryLogged(t, order[0]);
        CrossingMoves(t, order[0]);
        hide Grounded, Pending, ResolveEntry, Moves, StandsAfter, IdAt;
        var u := ResolveEntry(t, order[0]);
        OneMoreCrossing(t.cells, u.cells, t.entries, EntryOf(t, order[0]), c, before);
        PassIsLogged(u, order[1..], c, before);
      } else {
        PassIsLogged(t, order[1..], c, before);
      }
    }
  }

  lemma {:induction false} ReplayIsLogged(t: Tick, c: Position, before: Option<Identity>)
    requires GroundedTick(t) && IdAt(t.cells, c) == StandsAfter(t.entries, c, before)
    ensures var u := ResolveAll(t); IdAt(u.cells, c) == StandsAfter(u.entries, c, before)
    decreases Remaining(t.active, t.resolved)
  {
    var order := CrossingsByArrival(t.active, t.resolved);
    FoundCrossingsArePending(t);
    hide Grounded, IdAt, StandsAfter;
    if order != [] {
      PassIsLogged(t, order, c, before);
      ReplayIsLogged(Pass(t, order), c, before);
    }
  }

  lemma {:induction false} RestsKeepWho(cells: Cells, resting: seq<Cooldown>, delta: int, c: Position)
    ensures IdAt(CellsAfterRests(cells, resting, delta), c) == IdAt(cells, c)
  {
    if resting != [] {
      var r := AdvanceCooldown(resting[0], delta);
      RestsKeepWho(if HasElapsed(r) then Wake(cells, r) else cells, resting[1..], delta, c);
    }
  }

  /** Main result, for every tick, ordinary or not: on each square stands, after the crossings, exactly who the record
      of crossings says. */
  lemma LogTellsBoard(w: World, delta: int, c: Position)
    requires GroundedWorld(w)
    ensures var t := AfterCrossings(w, delta); IdAt(t.cells, c) == StandsAfter(t.entries, c, IdAt(w.cells, c))
  {
    hide Grounded, GroundedWorld, IdAt, CellsAfterRests, RestsLeft, ResolveAll;
    BeginTickIsGrounded(w, delta);
    RestsKeepWho(w.cells, w.resting, delta, c);
    ReplayIsLogged(BeginTick(w, delta), c, IdAt(w.cells, c));
  }

  // ---- jumps through any tick ----

  /** A piece was taken up into its jump at one of these crossings. */
  ghost predicate WalkedInto(entries: seq<Entry>, c: Position) {
    exists a :: 0 <= a < |entries| && WalksIn(entries[a]) && entries[a].to == c
  }

  /** All that landing relies on, and what every crossing keeps, whether or not it enters a lifted square: journeys
      carry moving pieces, no square has two jumps, and a jumper not lifted is on its square. */
  ghost predicate Upheld(t: Tick) {
    && GroundedTick(t)
    && (forall i :: Live(t.resolved, i) ==> t.cells[CurrentCell(t.active[i])].state == Moving)
    && (forall k, l :: 0 <= k < l < |t.airborne| ==> t.airborne[k].cell != t.airborne[l].cell)
    && (forall l :: 0 <= l < |t.airborne| && !IsLifted(t.airborne[l]) ==>
          t.airborne[l].cell in t.cells && t.cells[t.airborne[l].cell].state == Airborne)
  }

  /** Every jump is as it was at the start, or somebody has walked in under it since. */
  ghost predicate JumpsSince(before: seq<Jump>, t: Tick) {
    && |t.airborne| == |before|
    && (forall l :: 0 <= l < |before| ==>
          && t.airborne[l].cell == before[l].cell && t.airborne[l].elapsed == before[l].elapsed
          && (t.airborne[l].lifted == before[l].lifted || WalkedInto(t.entries, before[l].cell)))
  }

  lemma YieldLiftsOne(t: Tick, i: nat)
    requires Upheld(t) && Crossing(t, i) && ClassifyEntry(t, i) == CapturedByAirborne
    ensures var u, k := ResolveEntry(t, i), JumpAt(t.airborne, NextCell(t.active[i]));
            u.airborne == (if k < |t.airborne| then t.airborne[k := t.airborne[k].(lifted := Some(t.cells[NextCell(t.active[i])]))]
                           else t.airborne)
  {
    hide EntersLiftedCell, EntryOf;
    var m := t.active[i];
    assert m.path[m.stepIndex] != m.path[m.stepIndex + 1];
  }

  lemma OthersLiftNobody(t: Tick, i: nat)
    requires Upheld(t) && Crossing(t, i) && ClassifyEntry(t, i) != CapturedByAirborne
    ensures ResolveEntry(t, i).airborne == t.airborne
  {
    hide EntersLiftedCell, EntryOf;
    var m := t.active[i];
    assert m.path[m.stepIndex] != m.path[m.stepIndex + 1];
    if ClassifyEntry(t, i) == Capture {
      CaptureKeepsGrounded(Watched(t, i), NextCell(m));
    }
  }

  lemma StateWhileUnderWay(t: Tick, i: nat)
    requires Upheld(t) && Crossing(t, i) && Live(ResolveEntry(t, i).resolved, i)
    ensures var u := ResolveEntry(t, i);
            |u.active| == |t.active| && WellFormed(u.active[i]) && CurrentCell(u.active[i]) == NextCell(t.active[i])
            && NextCell(t.active[i]) in u.cells && u.cells[NextCell(t.active[i])].state == Moving
            && WalksIn(EntryOf(t, i))
  {
    hide EntersLiftedCell;
    CrossingKeepsGrounded(t, i);
    var m := t.active[i];
    assert m.path[m.stepIndex] != m.path[m.stepIndex + 1];
    match ClassifyEntry(t, i)
    case BlockedByFriendly =>
    case CapturedByAirborne =>
    case Free =>
    case Capture => CaptureKeepsGrounded(Watched(t, i), NextCell(m));
  }

  /** The square a journey stands on is not touched by a crossing of another that leaves it under way. */
  lemma OtherMoversStay(t: Tick, i: nat, j: nat)
    requires Upheld(t) && Crossing(t, i) && Live(ResolveEntry(t, i).resolved, j) && j != i
    ensures var u := ResolveEntry(t, i);
            && Live(t.resolved, j) && |u.active| == |t.active| && u.active[j] == t.active[j]
            && CurrentCell(t.active[j]) in u.cells && u.cells[CurrentCell(t.active[j])] == t.cells[CurrentCell(t.active[j])]
  {
    CrossingKeepsGrounded(t, i);
    CrossingMoves(t, i);
    var u, e := ResolveEntry(t, i), EntryOf(t, i);
    if Live(u.resolved, i) {
      StateWhileUnderWay(t, i);
    }
    assert CurrentCell(t.active[j]) != e.from;
    if WalksIn(e) && CurrentCell(t.active[j]) == e.to {
      NobodyElseOn(t, i, j);
    }
  }

  /** Whoever walks in ends the journey of whoever it meets. */
  lemma NobodyElseOn(t: Tick, i: nat, j: nat)
    requires Upheld(t) && Crossing(t, i) && WalksIn(EntryOf(t, i)) && j != i
    requires Live(t.resolved, j) && CurrentCell(t.active[j]) == NextCell(t.active[i])
    ensures !Live(ResolveEntry(t, i).resolved, j)
  {
    hide EntersLiftedCell;
    var m := t.active[i];
    assert m.path[m.stepIndex] != m.path[m.stepIndex + 1];
    assert t.cells[NextCell(m)].state == Moving;
    CaptureKeepsGrounded(Watched(t, i), NextCell(m));
  }

  lemma JumpersStay(t: Tick, i: nat, l: nat)
    requires Upheld(t) && Crossing(t, i) && l < |t.airborne| == |ResolveEntry(t, i).airborne|
    requires !IsLifted(ResolveEntry(t, i).airborne[l])
    ensures var u, c := ResolveEntry(t, i), t.airborne[l].cell;
            u.airborne[l] == t.airborne[l] && c in u.cells && u.cells[c].state == Airborne
  {
    var u, e := ResolveEntry(t, i), EntryOf(t, i);
    CrossingMoves(t, i);
    if ClassifyEntry(t, i) == CapturedByAirborne {
      YieldLiftsOne(t, i);
      assert t.airborne[l].cell != e.to;
    } else {
      OthersLiftNobody(t, i);
    }
    assert t.cells[t.airborne[l].cell].state == Airborne && e.mover.state == Moving;
    hide ResolveEntry, ClassifyEntry, Grounded;
  }

  lemma CrossingUpholds(t: Tick, i: nat)
    requires Upheld(t) && Crossing(t, i)
    ensures Upheld(ResolveEntry(t, i))
  {
    var u := ResolveEntry(t, i);
    CrossingKeepsGrounded(t, i);
    if ClassifyEntry(t, i) == CapturedByAirborne {
      YieldLiftsOne(t, i);
    } else {
      OthersLiftNobody(t, i);
    }
    hide ResolveEntry, ClassifyEntry, EntersLiftedCell, EntryOf;
    forall j | Live(u.resolved, j)
      ensures u.cells[CurrentCell(u.active[j])].state == Moving
    {
      if j == i {
        StateWhileUnderWay(t, i);
      } else {
        OtherMoversStay(t, i, j);
      }
    }
    forall l | 0 <= l < |u.airborne| && !IsLifted(u.airborne[l])
      ensures u.airborne[l].cell in u.cells && u.cells[u.airborne[l].cell].state == Airborne
    {
      JumpersStay(t, i, l);
    }
  }

  lemma WalkedIntoLater(entries: seq<Entry>, e: Entry, c: Position)
    requires WalkedInto(entries, c) || (WalksIn(e) && e.to == c)
    ensures WalkedInto(entries + [e], c)
  {
    var more := entries + [e];
    if WalkedInto(entries, c) {
      var a :| 0 <= a < |entries| && WalksIn(entries[a]) && entries[a].to == c;
      assert more[a] == entries[a];
    } else {
      assert more[|entries|] == e;
    }
  }

  lemma CrossingKeepsJumpsSince(before: seq<Jump>, t: Tick, i: nat)
    requires Upheld(t) && Crossing(t, i) && JumpsSince(before, t)
    ensures JumpsSince(before, ResolveEntry(t, i))
  {
    var u, e := ResolveEntry(t, i), EntryOf(t, i);
    EntryLogged(t, i);
    if ClassifyEntry(t, i) == CapturedByAirborne {
      YieldLiftsOne(t, i);
    } else {
      OthersLiftNobody(t, i);
    }
    hide ResolveEntry, EntersLiftedCell, Grounded, WalkedInto;
    forall l | 0 <= l < |before|
      ensures && u.airborne[l].cell == before[l].cell && u.airborne[l].elapsed == before[l].elapsed
              && (u.airborne[l].lifted == before[l].lifted || WalkedInto(u.entries, before[l].cell))
    {
      if WalkedInto(t.entries, before[l].cell) || (WalksIn(e) && e.to == before[l].cell) {
        WalkedIntoLater(t.entries, e, before[l].cell);
      }
    }
  }

  lemma {:induction false} PassUpholds(before: seq<Jump>, t: Tick, order: seq<nat>)
    requires Upheld(t) && Pending(t, order) && JumpsSince(before, t)
    ensures Upheld(Pass(t, order)) && JumpsSince(before, Pass(t, order))
    decreases |order|
  {
    if order != [] {
      if Live(t.resolved, order[0]) {
        CrossingKeepsPending(t, order);
        CrossingUpholds(t, order[0]);
        CrossingKeepsJumpsSince(before, t, order[0]);
        UpheldIsGrounded(t);
        hide Upheld, Pending, ResolveEntry, JumpsSince, Grounded;
        UpheldIsGrounded(ResolveEntry(t, order[0]));
        PassUpholds(before, ResolveEntry(t, order[0]), order[1..]);
      } else {
        PassUpholds(before, t, order[1..]);
      }
    }
  }

  lemma UpheldIsGrounded(t: Tick)
    requires Upheld(t)
    ensures GroundedTick(t)
  {
  }

  lemma {:induction false} ReplayUpholds(before: seq<Jump>, t: Tick)
    requires Upheld(t) && JumpsSince(before, t)
    ensures Upheld(ResolveAll(t)) && JumpsSince(before, ResolveAll(t))
    decreases Remaining(t.active, t.resolved)
  {
    var order := CrossingsByArrival(t.active, t.resolved);
    FoundCrossingsArePending(t);
    if order != [] {
      UpheldIsGrounded(t);
      hide Upheld, Grounded, JumpsSince;
      PassUpholds(before, t, order);
      ReplayUpholds(before, Pass(t, order));
    }
  }

  lemma ConsistentIsUpheld(t: Tick)
    requires Consistent(t, 0)
    ensures Upheld(t)
  {
    forall l | 0 <= l < |t.airborne| && !IsLifted(t.airborne[l])
      ensures t.airborne[l].cell in t.cells && t.cells[t.airborne[l].cell].state == Airborne
    {
      assert JumpHolds(t.cells, t.resting, t.airborne[l], JumpClock(t.airborne, l, t.delta, 0));
    }
  }

  lemma BeginTickIsUpheld(w: World, delta: int)
    requires Inv(w) && delta >= 0
    ensures Upheld(BeginTick(w, delta)) && JumpsSince(w.airborne, BeginTick(w, delta))
  {
    hide Inv, ConsistentExcept, Upheld, Grounded;
    BeginTickIsConsistent(w, delta);
    ConsistentIsUpheld(BeginTick(w, delta));
  }

  lemma AgreementIsGrounded(w: World)
    requires Inv(w)
    ensures GroundedWorld(w)
  {
  }

  /** After the crossings of any tick, ordinary or not, every jump can land: no square is asked for in vain. */
  lemma EveryTickLands(w: World, delta: int)
    requires Inv(w) && delta >= 0
    ensures GroundedWorld(w)
    ensures var t := AfterCrossings(w, delta);
            LandingsGrounded(t.cells, t.airborne) && Upheld(t) && JumpsSince(w.airborne, t)
  {
    AgreementIsGrounded(w);
    hide Inv, Grounded, GroundedWorld, BeginTick, ResolveAll, JumpsSince;
    BeginTickIsGrounded(w, delta);
    BeginTickIsUpheld(w, delta);
    ReplayUpholds(w.airborne, BeginTick(w, delta));
    DroppingUpholds(w.airborne, ResolveAll(BeginTick(w, delta)));
  }

  lemma DroppingUpholds(before: seq<Jump>, t: Tick)
    requires Upheld(t) && JumpsSince(before, t)
    ensures Upheld(DropResolved(t)) && JumpsSince(before, DropResolved(t))
    ensures LandingsGrounded(DropResolved(t).cells, DropResolved(t).airborne)
  {
    var u := DropResolved(t);
    forall k | Live(u.resolved, k)
      ensures WellFormed(u.active[k]) && CurrentCell(u.active[k]) in u.cells && u.cells[CurrentCell(u.active[k])].state == Moving
    {
      var i := OldIndex(t.active, t.resolved, |t.active|, k);
    }
    forall k, l | Live(u.resolved, k) && Live(u.resolved, l) && k != l
      ensures CurrentCell(u.active[k]) != CurrentCell(u.active[l])
    {
      var i, j := OldIndex(t.active, t.resolved, |t.active|, k), OldIndex(t.active, t.resolved, |t.active|, l);
      OldIndexRises(t.active, t.resolved, |t.active|, if k < l then k else l, if k < l then l else k);
    }
    hide WellFormed;
  }

  // ---- whom a landing takes ----

  /** The last to walk into this square is of this colour and has not walked on. */
  ghost predicate CameLast(entries: seq<Entry>, c: Position, color: Color) {
    exists a :: IsLastAt(entries, a, c) && entries[a].mover.color == color
  }

  ghost predicate IsLastAt(entries: seq<Entry>, a: int, c: Position) {
    && 0 <= a < |entries| && WalksIn(entries[a]) && entries[a].to == c
    && forall b :: a < b < |entries| && WalksIn(entries[b]) ==> entries[b].to != c && entries[b].from != c
  }

  /** A last crossing that leads elsewhere keeps or ends the stay of whoever came last. */
  lemma LastAtFront(entries: seq<Entry>, c: Position)
    requires entries != [] && !(WalksIn(entries[|entries| - 1]) && entries[|entries| - 1].to == c)
    ensures var n := |entries| - 1;
            forall a :: IsLastAt(entries, a, c) <==>
              IsLastAt(entries[..n], a, c) && !(WalksIn(entries[n]) && entries[n].from == c)
    ensures var n := |entries| - 1; forall a :: 0 <= a < n ==> entries[..n][a] == entries[a]
  {
    var n := |entries| - 1;
    forall a
      ensures IsLastAt(entries, a, c) <==> IsLastAt(entries[..n], a, c) && !(WalksIn(entries[n]) && entries[n].from == c)
    {
      if IsLastAt(entries[..n], a, c) && !(WalksIn(entries[n]) && entries[n].from == c) {
        assert forall b :: a < b < n ==> entries[b] == entries[..n][b];
      }
    }
  }

  lemma LastToCome(entries: seq<Entry>, c: Position, color: Color)
    requires entries != []
    ensures var e := entries[|entries| - 1];
            CameLast(entries, c, color) <==> if WalksIn(e) && e.to == c then e.mover.color == color
                                             else !(WalksIn(e) && e.from == c) && CameLast(entries[..|entries| - 1], c, color)
  {
    var n := |entries| - 1;
    var e := entries[n];
    if WalksIn(e) && e.to == c {
      assert IsLastAt(entries, n, c);
      assert forall a :: IsLastAt(entries, a, c) ==> a == n;
    } else {
      LastAtFront(entries, c);
      hide IsLastAt;
      FrontCameLast(entries, c, color);
    }
  }

  lemma FrontCameLast(entries: seq<Entry>, c: Position, color: Color)
    requires entries != []
    requires var n := |entries| - 1;
             && (forall a :: IsLastAt(entries, a, c) <==>
                   IsLastAt(entries[..n], a, c) && !(WalksIn(entries[n]) && entries[n].from == c))
             && (forall a :: IsLastAt(entries[..n], a, c) ==> 0 <= a < n && entries[..n][a] == entries[a])
    ensures var n := |entries| - 1;
            CameLast(entries, c, color) <==>
              !(WalksIn(entries[n]) && entries[n].from == c) && CameLast(entries[..n], c, color)
  {
    hide WalksIn;
  }

  lemma OneMoreWalkedInto(entries: seq<Entry>, c: Position)
    requires entries != []
    ensures var e := entries[|entries| - 1];
            WalkedInto(entries, c) ==> (WalksIn(e) && e.to == c) || WalkedInto(entries[..|entries| - 1], c)
  {
    if WalkedInto(entries, c) {
      var a :| 0 <= a < |entries| && WalksIn(entries[a]) && entries[a].to == c;
      assert a < |entries| - 1 ==> entries[..|entries| - 1][a] == entries[a];
    }
  }

  lemma LastStandsThere(entries: seq<Entry>, c: Position, before: Option<Identity>)
    ensures entries == [] ==> StandsAfter(entries, c, before) == before && !WalkedInto(entries, c)
    ensures entries != [] ==>
              var e := entries[|entries| - 1];
              StandsAfter(entries, c, before) == if WalksIn(e) && e.to == c then Some(IdOf(e.mover))
                                                 else if WalksIn(e) && e.from == c then None
                                                 else StandsAfter(entries[..|entries| - 1], c, before)
  {
  }

  lemma NobodyCame(c: Position, color: Color)
    ensures !CameLast([], c, color)
  {
  }

  lemma {:induction false} LogTellsColor(entries: seq<Entry>, c: Position, before: Option<Identity>, color: Color)
    ensures CameLast(entries, c, color) ==>
              StandsAfter(entries, c, before).Some? && StandsAfter(entries, c, before).value.color == color
    ensures StandsAfter(entries, c, before).Some? && StandsAfter(entries, c, before).value.color == color ==>
              CameLast(entries, c, color) || (StandsAfter(entries, c, before) == before && !WalkedInto(entries, c))
  {
    hide CameLast, StandsAfter, WalkedInto, WalksIn;
    LastStandsThere(entries, c, before);
    if entries == [] {
      NobodyCame(c, color);
    } else {
      LogTellsColor(entries[..|entries| - 1], c, before, color);
      LastToCome(entries, c, color);
      OneMoreWalkedInto(entries, c);
    }
  }

  /** Main result, for every tick from a position in agreement, ordinary or not: under a lifted jumper stands a piece of
      the jumper's own colour exactly when the last to walk in there was of that colour and has not walked on. */
  lemma UnderLiftedJumper(w: World, delta: int, k: nat)
    requires Inv(w) && delta >= 0
    requires GroundedWorld(w) && k < |AfterCrossings(w, delta).airborne| && IsLifted(AfterCrossings(w, delta).airborne[k])
    ensures var t := AfterCrossings(w, delta);
            var c, color := t.airborne[k].cell, t.airborne[k].lifted.value.color;
            c in t.cells && t.cells[c].color == color <==> CameLast(t.entries, c, color)
  {
    EveryTickLands(w, delta);
    var t := AfterCrossings(w, delta);
    var c, color := t.airborne[k].cell, t.airborne[k].lifted.value.color;
    LogTellsBoard(w, delta, c);
    LogTellsColor(t.entries, c, IdAt(w.cells, c), color);
    if t.airborne[k].lifted == w.airborne[k].lifted {
      assert JumpHolds(w.cells, w.resting, w.airborne[k], JumpClock(w.airborne, k, 0, |w.airborne|));
    }
    hide AfterCrossings, CameLast, StandsAfter, WalkedInto, Grounded;
  }

  /** The pieces taken by jumps that come down, in order. */
  function TakenByJumpers(cells: Cells, jumps: seq<Jump>, delta: int): seq<Piece> {
    if jumps == [] then []
    else
      var j := jumps[0];
      (if TakesOnLanding(cells, j, delta) then [cells[j.cell].(state := Captured)] else [])
      + TakenByJumpers(cells, jumps[1..], delta)
  }

  predicate TakesOnLanding(cells: Cells, j: Jump, delta: int) {
    IsLifted(j) && HasLanded(AdvanceJump(j, delta)) && j.cell in cells
  }

  lemma {:induction false} TakenElsewhere(cells: Cells, after: Cells, jumps: seq<Jump>, delta: int)
    requires forall l :: 0 <= l < |jumps| ==>
               (jumps[l].cell in after <==> jumps[l].cell in cells)
               && (jumps[l].cell in cells ==> after[jumps[l].cell] == cells[jumps[l].cell])
    ensures TakenByJumpers(after, jumps, delta) == TakenByJumpers(cells, jumps, delta)
  {
    if jumps != [] {
      assert forall l :: 0 <= l < |jumps[1..]| ==> jumps[1..][l] == jumps[l + 1];
      TakenElsewhere(cells, after, jumps[1..], delta);
    }
  }

  ghost predicate NoSharedSquare(airborne: seq<Jump>) {
    forall k, l :: 0 <= k < l < |airborne| ==> airborne[k].cell != airborne[l].cell
  }

  /** One landing takes whoever it takes, and leaves the squares of the other jumps alone. */
  lemma LandOneTakes(t: Tick, k: nat)
    requires k < |t.airborne| && LandingsGrounded(t.cells, t.airborne) && NoSharedSquare(t.airborne)
    ensures var u, j := LandOne(t, k), t.airborne[k];
            && u.victims == t.victims + (if TakesOnLanding(t.cells, j, t.delta) then [t.cells[j.cell].(state := Captured)]
                                         else [])
            && u.delta == t.delta && NextJump(t, k) <= |u.airborne|
            && u.airborne[NextJump(t, k)..] == t.airborne[k + 1..]
    ensures NoSharedSquare(LandOne(t, k).airborne)
    ensures forall c :: c != t.airborne[k].cell ==>
              (c in LandOne(t, k).cells <==> c in t.cells) && (c in t.cells ==> LandOne(t, k).cells[c] == t.cells[c])
  {
    var u := LandOne(t, k);
    if HasLanded(AdvanceJump(t.airborne[k], t.delta)) {
      assert u.airborne == Without(t.airborne, k);
      forall l | 0 <= l < |u.airborne|
        ensures u.airborne[l] == t.airborne[if l < k then l else l + 1]
      {
      }
    } else {
      assert u.airborne == t.airborne[k := AdvanceJump(t.airborne[k], t.delta)];
    }
  }

  lemma OthersElsewhere(airborne: seq<Jump>, k: nat)
    requires NoSharedSquare(airborne) && k < |airborne|
    ensures forall j :: j in airborne[k + 1..] ==> j.cell != airborne[k].cell
  {
  }

  /** Landings take exactly those, and nobody else. */
  lemma {:induction false} LandingsTake(t: Tick, k: nat)
    requires k <= |t.airborne| && LandingsGrounded(t.cells, t.airborne) && NoSharedSquare(t.airborne)
    ensures LandAll(t, k).victims == t.victims + TakenByJumpers(t.cells, t.airborne[k..], t.delta)
    decreases |t.airborne| - k
  {
    hide LandOne, LandingsGrounded, TakesOnLanding, NoSharedSquare, NextJump;
    if k < |t.airborne| {
      var u, rest := LandOne(t, k), t.airborne[k + 1..];
      LandOneKeepsGrounded(t, k);
      LandOneTakes(t, k);
      assert t.airborne[k..][0] == t.airborne[k] && t.airborne[k..][1..] == rest;
      OthersElsewhere(t.airborne, k);
      TakenElsewhere(t.cells, u.cells, rest, t.delta);
      LandingsTake(u, NextJump(t, k));
    }
  }

  /** This jump comes down on a piece of its jumper's own colour. */
  ghost predicate TakesFriend(t: Tick, k: int) {
    && 0 <= k < |t.airborne| && TakesOnLanding(t.cells, t.airborne[k], t.delta)
    && t.cells[t.airborne[k].cell].color == t.airborne[k].lifted.value.color
  }

  /** This jump comes down where a piece of its jumper's own colour walked in last. */
  ghost predicate FriendCameLast(t: Tick, k: int) {
    && 0 <= k < |t.airborne| && IsLifted(t.airborne[k]) && HasLanded(AdvanceJump(t.airborne[k], t.delta))
    && CameLast(t.entries, t.airborne[k].cell, t.airborne[k].lifted.value.color)
  }

  /** Main result, for every tick from a position in agreement: what its landings take is fixed by the crossings, and a
      jump takes a piece of its own colour exactly when such a piece was the last to walk in under it. */
  lemma LandingsTakeFriendsExactly(w: World, delta: int, k: nat)
    requires Inv(w) && delta >= 0
    ensures GroundedWorld(w)
    ensures var t := AfterCrossings(w, delta);
            && LandingsGrounded(t.cells, t.airborne)
            && Advance(w, delta).victims == t.victims + TakenByJumpers(t.cells, t.airborne, t.delta)
            && (TakesFriend(t, k) <==> FriendCameLast(t, k))
  {
    EveryTickLands(w, delta);
    var t := AfterCrossings(w, delta);
    if k < |t.airborne| && IsLifted(t.airborne[k]) {
      UnderLiftedJumper(w, delta, k);
    }
    hide Inv, AfterCrossings, CameLast, Grounded, JumpsSince, TakenByJumpers;
    assert t.airborne[0..] == t.airborne;
    LandingsTake(t, 0);
  }
}
