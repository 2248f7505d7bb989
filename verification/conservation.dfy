/** Conservation: nobody leaves play without being reported taken, and nobody is taken twice. */
module Conservation {
  import opened Model
  import opened Motions
  import opened ArbiterSpec
  import opened CrossingOrder
  import opened ArbiterTick
  import opened ArbiterInvariant
  import opened CrossingKeeps
  import opened TickKeeps
  import opened LandingKeeps

  datatype Identity = Identity(id: nat, color: Color, kind: Kind)

  function IdOf(p: Piece): Identity {
    Identity(p.id, p.color, p.kind)
  }

  /** x is on the board. */
  ghost predicate OnBoard(cells: Cells, x: Identity) {
    exists c :: c in cells && IdOf(cells[c]) == x
  }

  /** x is lifted off the board by a jump. */
  ghost predicate Lifted(airborne: seq<Jump>, x: Identity) {
    exists l :: 0 <= l < |airborne| && IsLifted(airborne[l]) && IdOf(airborne[l].lifted.value) == x
  }

  ghost predicate InPlay(cells: Cells, airborne: seq<Jump>, x: Identity) {
    OnBoard(cells, x) || Lifted(airborne, x)
  }

  ghost predicate Taken(victims: seq<Piece>, x: Identity) {
    exists v :: 0 <= v < |victims| && IdOf(victims[v]) == x
  }

  /** A victim is out of play for good, and appears once. */
  ghost predicate TakenForGood(cells: Cells, airborne: seq<Jump>, victims: seq<Piece>) {
    && (forall v, c :: 0 <= v < |victims| && c in cells ==> victims[v].id != cells[c].id)
    && (forall v, l :: 0 <= v < |victims| && 0 <= l < |airborne| && IsLifted(airborne[l]) ==>
          victims[v].id != airborne[l].lifted.value.id)
    && (forall v, w :: 0 <= v < w < |victims| ==> victims[v].id != victims[w].id)
  }

  /** What the reports say was taken, in order. */
  function CapturesOf(reports: seq<ArrivalReport>): seq<CapturedPiece> {
    if reports == [] then []
    else
      var last := reports[|reports| - 1];
      CapturesOf(reports[..|reports| - 1]) + (if last.captured.Some? then [last.captured.value] else [])
  }

  function AsCaptured(victims: seq<Piece>): seq<CapturedPiece> {
    seq(|victims|, v requires 0 <= v < |victims| => CapturedPiece(victims[v].kind, victims[v].color))
  }

  lemma OneMoreReport(reports: seq<ArrivalReport>, r: ArrivalReport)
    ensures CapturesOf(reports + [r]) == CapturesOf(reports) + (if r.captured.Some? then [r.captured.value] else [])
  {
    assert (reports + [r])[..|reports|] == reports;
  }

  lemma OneMoreVictim(victims: seq<Piece>, p: Piece)
    ensures AsCaptured(victims + [p]) == AsCaptured(victims) + [CapturedPiece(p.kind, p.color)]
  {
  }

  /** From t to u nobody appeared, and whoever left was taken and reported. */
  ghost predicate Conserved(t: Tick, u: Tick) {
    && (forall x :: InPlay(t.cells, t.airborne, x) || Taken(t.victims, x) <==>
          InPlay(u.cells, u.airborne, x) || Taken(u.victims, x))
    && (TakenForGood(t.cells, t.airborne, t.victims) ==> TakenForGood(u.cells, u.airborne, u.victims))
    && (CapturesOf(t.reports) == AsCaptured(t.victims) ==> CapturesOf(u.reports) == AsCaptured(u.victims))
  }

  // ---- the single effects ----

  /** A piece has changed square or state, nobody has come or gone. */
  ghost predicate SamePieces(cells: Cells, after: Cells) {
    forall x :: OnBoard(cells, x) <==> OnBoard(after, x)
  }

  lemma SamePiecesConserve(t: Tick, u: Tick)
    requires SamePieces(t.cells, u.cells) && u.airborne == t.airborne && u.victims == t.victims
    requires CapturesOf(u.reports) == CapturesOf(t.reports)
    ensures Conserved(t, u)
  {
    if TakenForGood(t.cells, t.airborne, t.victims) {
      SamePiecesKeepTaken(t.cells, u.cells, t.airborne, t.victims);
    }
    hide TakenForGood, OnBoard, Lifted, Taken, AsCaptured, CapturesOf;
  }

  lemma SamePiecesKeepTaken(cells: Cells, after: Cells, airborne: seq<Jump>, victims: seq<Piece>)
    requires SamePieces(cells, after) && TakenForGood(cells, airborne, victims)
    ensures TakenForGood(after, airborne, victims)
  {
    forall v, d | 0 <= v < |victims| && d in after
      ensures victims[v].id != after[d].id
    {
      var x := IdOf(after[d]);
      assert OnBoard(after, x);
      assert OnBoard(cells, x);
      var c :| c in cells && IdOf(cells[c]) == x;
    }
  }

  lemma JumpLiftsNobody(airborne: seq<Jump>, cell: Position, x: Identity)
    ensures Lifted(airborne + [Jump(cell, 0, None)], x) <==> Lifted(airborne, x)
  {
    var more := airborne + [Jump(cell, 0, None)];
    if Lifted(airborne, x) {
      var l :| 0 <= l < |airborne| && IsLifted(airborne[l]) && IdOf(airborne[l].lifted.value) == x;
      assert more[l] == airborne[l];
    }
  }

  lemma WalkKeepsPieces(cells: Cells, from: Position, to: Position)
    requires from in cells && to !in cells
    ensures SamePieces(cells, MovePieceIn(cells, from, to))
  {
    var after := MovePieceIn(cells, from, to);
    forall x
      ensures OnBoard(cells, x) <==> OnBoard(after, x)
    {
      if OnBoard(cells, x) {
        var c :| c in cells && IdOf(cells[c]) == x;
        var d := if c == from then to else c;
        assert d in after && IdOf(after[d]) == x;
      }
      if OnBoard(after, x) {
        var d :| d in after && IdOf(after[d]) == x;
        var c := if d == to then from else d;
        assert c in cells && IdOf(cells[c]) == x;
      }
    }
  }

  lemma RestateKeepsPieces(cells: Cells, c: Position, state: State)
    requires c in cells
    ensures SamePieces(cells, SetStateIn(cells, c, state))
  {
    var after := SetStateIn(cells, c, state);
    assert forall d :: d in cells ==> d in after && IdOf(after[d]) == IdOf(cells[d]);
    SameIdentities(cells, after);
  }

  /** Squares hold the same identities as before. */
  lemma SameIdentities(cells: Cells, after: Cells)
    requires after.Keys == cells.Keys && forall c :: c in cells ==> IdOf(after[c]) == IdOf(cells[c])
    ensures SamePieces(cells, after)
  {
    forall x
      ensures OnBoard(cells, x) <==> OnBoard(after, x)
    {
      if OnBoard(cells, x) {
        var c :| c in cells && IdOf(cells[c]) == x;
        assert c in after && IdOf(after[c]) == x;
      }
      if OnBoard(after, x) {
        var c :| c in after && IdOf(after[c]) == x;
        assert c in cells && IdOf(cells[c]) == x;
      }
    }
  }

  lemma ConservedJoin(t: Tick, u: Tick, v: Tick)
    requires Conserved(t, u) && Conserved(u, v)
    ensures Conserved(t, v)
  {
  }

  lemma ConservedSelf(t: Tick)
    ensures Conserved(t, t)
  {
  }

  /** A piece taken off the board for good; the rest of play is untouched. */
  lemma RemovalConserves(t: Tick, cells: Cells, cell: Position)
    requires DistinctPieces(t.cells, t.airborne) && cell in t.cells && cells == t.cells - {cell}
    requires TakenForGood(t.cells, t.airborne, t.victims)
    ensures var victims := t.victims + [t.cells[cell].(state := Captured)];
            && TakenForGood(cells, t.airborne, victims)
            && (forall x :: InPlay(t.cells, t.airborne, x) || Taken(t.victims, x) <==>
                  InPlay(cells, t.airborne, x) || Taken(victims, x))
  {
    var victim := t.cells[cell].(state := Captured);
    var victims := t.victims + [victim];
    forall x
      ensures InPlay(t.cells, t.airborne, x) || Taken(t.victims, x) <==>
              InPlay(cells, t.airborne, x) || Taken(victims, x)
    {
      if OnBoard(t.cells, x) {
        var c :| c in t.cells && IdOf(t.cells[c]) == x;
        if c == cell {
          assert victims[|t.victims|] == victim;
        } else {
          assert c in cells;
        }
      }
      if Taken(t.victims, x) {
        var v :| 0 <= v < |t.victims| && IdOf(t.victims[v]) == x;
        assert victims[v] == t.victims[v];
      }
      if Taken(victims, x) {
        var v :| 0 <= v < |victims| && IdOf(victims[v]) == x;
        assert v < |t.victims| ==> victims[v] == t.victims[v];
      }
      if OnBoard(cells, x) {
        var c :| c in cells && IdOf(cells[c]) == x;
        assert c in t.cells;
      }
    }
  }

  // ---- one crossing ----

  lemma WalkInConserves(t: Tick, i: nat, captured: Option<CapturedPiece>)
    requires GroundedTick(t) && Crossing(t, i) && NextCell(t.active[i]) !in t.cells
    ensures var u := WalkIn(t, i, captured);
            && SamePieces(t.cells, u.cells) && u.airborne == t.airborne && u.victims == t.victims
            && CapturesOf(u.reports) == CapturesOf(t.reports) + (if captured.Some? then [captured.value] else [])
  {
    var m := t.active[i];
    var walked := Walk(t, i);
    WalkKeepsPieces(t.cells, CurrentCell(m), NextCell(m));
    if IsComplete(walked.active[i]) {
      RestateKeepsPieces(walked.cells, NextCell(m), Resting);
      OneMoreReport(t.reports, ArrivalReport(NextCell(m), true, captured));
    } else if captured.Some? {
      OneMoreReport(t.reports, ArrivalReport(NextCell(m), true, captured));
    }
  }

  lemma LiftConserves(t: Tick, u: Tick, k: nat, cell: Position)
    requires cell in t.cells && k < |t.airborne| && !IsLifted(t.airborne[k])
    requires u.cells == t.cells - {cell} && u.victims == t.victims && u.reports == t.reports
    requires u.airborne == t.airborne[k := t.airborne[k].(lifted := Some(t.cells[cell]))]
    ensures Conserved(t, u)
  {
    assert forall l :: 0 <= l < |t.airborne| && l != k ==> u.airborne[l] == t.airborne[l];
    forall x
      ensures InPlay(t.cells, t.airborne, x) <==> InPlay(u.cells, u.airborne, x)
    {
      if OnBoard(t.cells, x) {
        var c :| c in t.cells && IdOf(t.cells[c]) == x;
        if c == cell {
          assert IsLifted(u.airborne[k]) && IdOf(u.airborne[k].lifted.value) == x;
        } else {
          assert c in u.cells && IdOf(u.cells[c]) == x;
        }
      }
      if Lifted(t.airborne, x) {
        var l :| 0 <= l < |t.airborne| && IsLifted(t.airborne[l]) && IdOf(t.airborne[l].lifted.value) == x;
        assert u.airborne[l] == t.airborne[l];
      }
      if OnBoard(u.cells, x) {
        var c :| c in u.cells && IdOf(u.cells[c]) == x;
        assert c in t.cells && IdOf(t.cells[c]) == x;
      }
      if Lifted(u.airborne, x) {
        var l :| 0 <= l < |u.airborne| && IsLifted(u.airborne[l]) && IdOf(u.airborne[l].lifted.value) == x;
        if l == k {
          assert cell in t.cells && IdOf(t.cells[cell]) == x;
        } else {
          assert t.airborne[l] == u.airborne[l];
        }
      }
    }
  }

  lemma YieldConserves(t: Tick, i: nat)
    requires Consistent(t, 0) && Crossing(t, i) && ClassifyEntry(t, i) == CapturedByAirborne
    ensures Conserved(t, YieldToAirborne(t, i))
  {
    var m := t.active[i];
    var cell := NextCell(m);
    var k := JumpUnder(t, cell);
    hide ConsistentExcept, JumpsHold, OnBoard, TakenForGood, AsCaptured, CapturesOf, InPlay;
    var lifted := t.(airborne := LiftAt(t.airborne, cell, t.cells[cell]), cells := t.cells - {cell});
    LiftConserves(t, lifted, k, cell);
    var u := YieldToAirborne(t, i);
    WalkKeepsPieces(lifted.cells, CurrentCell(m), cell);
    RestateKeepsPieces(Walk(lifted, i).cells, cell, Resting);
    OneMoreReport(t.reports, ArrivalReport(cell, true, None));
    SamePiecesConserve(lifted, u);
    ConservedJoin(t, lifted, u);
  }

  lemma CaptureConserves(t: Tick, i: nat)
    requires GroundedTick(t) && Crossing(t, i) && NextCell(t.active[i]) in t.cells
    requires DistinctPieces(t.cells, t.airborne) && TakenForGood(t.cells, t.airborne, t.victims)
    ensures var next := NextCell(t.active[i]);
            && GroundedTick(CaptureAt(t, next)) && Crossing(CaptureAt(t, next), i)
            && Conserved(t, WalkIn(CaptureAt(t, next), i, Some(TakenAt(t.cells, next))))
  {
    var m := t.active[i];
    var next := NextCell(m);
    assert m.path[m.stepIndex] != m.path[m.stepIndex + 1];
    CaptureKeepsGrounded(t, next);
    var taken := CaptureAt(t, next);
    var u := WalkIn(taken, i, Some(TakenAt(t.cells, next)));
    RemovalConserves(t, taken.cells, next);
    OneMoreVictim(t.victims, t.cells[next].(state := Captured));
    hide DistinctPieces, TakenForGood, OnBoard, AsCaptured, CapturesOf, Lifted;
    WalkInConserves(taken, i, Some(TakenAt(t.cells, next)));
    SamePiecesConserve(taken.(reports := u.reports), u);
  }

  lemma BlockConserves(t: Tick, i: nat)
    requires GroundedTick(t) && Crossing(t, i)
    ensures Conserved(t, FinishMotion(t.(active := t.active[i := StopHere(t.active[i])]), i, None))
  {
    RestateKeepsPieces(t.cells, CurrentCell(t.active[i]), Resting);
    OneMoreReport(t.reports, ArrivalReport(CurrentCell(t.active[i]), true, None));
    SamePiecesConserve(t, FinishMotion(t.(active := t.active[i := StopHere(t.active[i])]), i, None));
  }

  lemma CrossingConserves(t: Tick, i: nat)
    requires Consistent(t, 0) && Crossing(t, i) && TakenForGood(t.cells, t.airborne, t.victims)
    ensures Conserved(t, ResolveEntry(t, i))
    ensures var u := ResolveEntry(t, i); TakenForGood(u.cells, u.airborne, u.victims)
  {
    hide ConsistentExcept, TakenForGood, DistinctPieces, Conserved;
    ConsistentIsGrounded(t, {});
    ConsistentIsDistinct(t);
    WatchingKeepsConsistent(t, i);
    WatchingConserves(t, i);
    WatchedIsConserved(t, i);
    ConservedKeepsTaken(t, Watched(t, i));
    ConservedJoin(t, Watched(t, i), ResolveEntry(t, i));
    ConservedKeepsTaken(t, ResolveEntry(t, i));
  }

  lemma ConsistentIsDistinct(t: Tick)
    requires Consistent(t, 0)
    ensures DistinctPieces(t.cells, t.airborne)
  {
  }

  lemma WatchedIsConserved(t: Tick, i: nat)
    requires GroundedTick(t) && Crossing(t, i) && Consistent(Watched(t, i), 0) && DistinctPieces(t.cells, t.airborne)
    requires TakenForGood(t.cells, t.airborne, t.victims)
    ensures Conserved(Watched(t, i), ResolveEntry(t, i))
  {
    hide ConsistentExcept, TakenForGood, DistinctPieces, Conserved, EntersLiftedCell, EntryOf;
    var watched := Watched(t, i);
    match ClassifyEntry(t, i)
    case BlockedByFriendly => BlockConserves(watched, i);
    case CapturedByAirborne => YieldConserves(watched, i);
    case Free =>
      WalkInConserves(watched, i, None);
      SamePiecesConserve(watched, WalkIn(watched, i, None));
    case Capture => CaptureConserves(watched, i);
  }

  lemma WatchingConserves(t: Tick, i: nat)
    requires GroundedTick(t) && Crossing(t, i)
    ensures Conserved(t, Watched(t, i))
  {
    hide EntersLiftedCell, EntryOf;
  }

  lemma ConservedKeepsTaken(t: Tick, u: Tick)
    requires Conserved(t, u) && TakenForGood(t.cells, t.airborne, t.victims)
    ensures TakenForGood(u.cells, u.airborne, u.victims)
  {
  }

  lemma {:induction false} PassConserves(t: Tick, order: seq<nat>)
    requires Consistent(t, 0) && Pending(t, order) && Pass(t, order).clean
    requires TakenForGood(t.cells, t.airborne, t.victims)
    ensures Conserved(t, Pass(t, order))
    ensures var u := Pass(t, order); TakenForGood(u.cells, u.airborne, u.victims)
    decreases |order|
  {
    hide ConsistentExcept, TakenForGood, Conserved;
    ConservedSelf(t);
    ConsistentIsGrounded(t, {});
    if order != [] {
      if Live(t.resolved, order[0]) {
        CrossingKeepsGrounded(t, order[0]);
        CrossingKeepsPending(t, order);
        PassOnlySoils(ResolveEntry(t, order[0]), order[1..]);
        CrossingKeepsConsistent(t, order[0]);
        CrossingConserves(t, order[0]);
        PassConserves(ResolveEntry(t, order[0]), order[1..]);
        ConservedJoin(t, ResolveEntry(t, order[0]), Pass(t, order));
      } else {
        PassConserves(t, order[1..]);
      }
    }
  }

  lemma {:induction false} ResolveAllConserves(t: Tick)
    requires Consistent(t, 0) && GroundedTick(t) && ResolveAll(t).clean
    requires TakenForGood(t.cells, t.airborne, t.victims)
    ensures Conserved(t, ResolveAll(t))
    ensures var u := ResolveAll(t); TakenForGood(u.cells, u.airborne, u.victims)
    decreases Remaining(t.active, t.resolved)
  {
    hide ConsistentExcept, TakenForGood, Conserved;
    ConservedSelf(t);
    var order := CrossingsByArrival(t.active, t.resolved);
    FoundCrossingsArePending(t);
    if order != [] {
      ResolveAllOnlySoils(Pass(t, order));
      PassKeepsConsistent(t, order);
      PassConserves(t, order);
      ResolveAllConserves(Pass(t, order));
      ConservedJoin(t, Pass(t, order), ResolveAll(t));
    }
  }

  // ---- landings ----

  lemma LiftedLandingConserves(t: Tick, k: nat)
    requires Consistent(t, k) && k < |t.airborne| && LandingsGrounded(t.cells, t.airborne)
    requires HasLanded(AdvanceJump(t.airborne[k], t.delta)) && IsLifted(t.airborne[k])
    requires TakenForGood(t.cells, t.airborne, t.victims)
    ensures Conserved(t, LandOne(t, k))
  {
    LiftedLandsOnEnemy(t, k);
    assert DistinctPieces(t.cells, t.airborne);
    hide ConsistentExcept;
    var u := LandOne(t, k);
    var cell, jumper := t.airborne[k].cell, t.airborne[k].lifted.value;
    var cleared := t.cells - {cell};
    RemovalConserves(t, cleared, cell);
    OneMoreVictim(t.victims, t.cells[cell].(state := Captured));
    OneMoreReport(t.reports, ArrivalReport(cell, false, Some(TakenAt(t.cells, cell))));
    var mid := t.(cells := cleared, victims := u.victims);
    assert u.airborne == Without(t.airborne, k);
    assert u.cells == cleared[cell := jumper.(state := Resting)];
    DropBackConserves(mid, u, k, cell);
  }

  /** The jumper goes back from the jump to its empty square. */
  lemma DropBackConserves(t: Tick, u: Tick, k: nat, cell: Position)
    requires k < |t.airborne| && IsLifted(t.airborne[k]) && cell !in t.cells
    requires u.victims == t.victims && u.airborne == Without(t.airborne, k)
    requires u.cells == t.cells[cell := t.airborne[k].lifted.value.(state := Resting)]
    ensures forall x :: InPlay(t.cells, t.airborne, x) <==> InPlay(u.cells, u.airborne, x)
    ensures TakenForGood(t.cells, t.airborne, t.victims) ==> TakenForGood(u.cells, u.airborne, u.victims)
  {
    forall l | 0 <= l < |u.airborne|
      ensures u.airborne[l] == t.airborne[if l < k then l else l + 1]
    {
      WithoutAt(t.airborne, k, l);
    }
    forall x
      ensures InPlay(t.cells, t.airborne, x) <==> InPlay(u.cells, u.airborne, x)
    {
      if OnBoard(t.cells, x) {
        var c :| c in t.cells && IdOf(t.cells[c]) == x;
        assert c in u.cells && IdOf(u.cells[c]) == x;
      }
      if Lifted(t.airborne, x) {
        var l :| 0 <= l < |t.airborne| && IsLifted(t.airborne[l]) && IdOf(t.airborne[l].lifted.value) == x;
        if l == k {
          assert cell in u.cells && IdOf(u.cells[cell]) == x;
        } else {
          assert u.airborne[if l < k then l else l - 1] == t.airborne[l];
        }
      }
      if OnBoard(u.cells, x) {
        var c :| c in u.cells && IdOf(u.cells[c]) == x;
        if c == cell {
          assert IsLifted(t.airborne[k]) && IdOf(t.airborne[k].lifted.value) == x;
        } else {
          assert c in t.cells && IdOf(t.cells[c]) == x;
        }
      }
    }
  }

  lemma LandOneConserves(t: Tick, k: nat)
    requires Consistent(t, k) && k < |t.airborne| && LandingsGrounded(t.cells, t.airborne)
    requires TakenForGood(t.cells, t.airborne, t.victims)
    ensures Conserved(t, LandOne(t, k))
    ensures var u := LandOne(t, k); TakenForGood(u.cells, u.airborne, u.victims)
  {
    var u := LandOne(t, k);
    if HasLanded(AdvanceJump(t.airborne[k], t.delta)) && IsLifted(t.airborne[k]) {
      LiftedLandingConserves(t, k);
    } else {
      if HasLanded(AdvanceJump(t.airborne[k], t.delta)) {
        RestateKeepsPieces(t.cells, t.airborne[k].cell, Resting);
      }
      hide ConsistentExcept, OnBoard, TakenForGood, AsCaptured, CapturesOf, InPlay;
      SamePiecesConserve(t, u.(airborne := t.airborne));
      SameLiftedConserve(t, u, k);
    }
  }

  /** A jump that goes on, or ends with nobody lifted, brings nobody into play. */
  lemma SameLiftedConserve(t: Tick, u: Tick, k: nat)
    requires k < |t.airborne|
    requires u.airborne == t.airborne[k := t.airborne[k].(elapsed := t.airborne[k].elapsed + t.delta)]
             || (!IsLifted(t.airborne[k]) && u.airborne == Without(t.airborne, k))
    requires Conserved(t, u.(airborne := t.airborne))
    ensures Conserved(t, u)
  {
    if u.airborne == Without(t.airborne, k) {
      forall l | 0 <= l < |u.airborne|
        ensures u.airborne[l] == t.airborne[if l < k then l else l + 1]
      {
        WithoutAt(t.airborne, k, l);
      }
      forall x
        ensures Lifted(t.airborne, x) <==> Lifted(u.airborne, x)
      {
        if Lifted(t.airborne, x) {
          var l :| 0 <= l < |t.airborne| && IsLifted(t.airborne[l]) && IdOf(t.airborne[l].lifted.value) == x;
          assert u.airborne[if l < k then l else l - 1] == t.airborne[l];
        }
      }
    } else {
      assert forall l :: 0 <= l < |t.airborne| ==> u.airborne[l].lifted == t.airborne[l].lifted;
      forall x
        ensures Lifted(t.airborne, x) <==> Lifted(u.airborne, x)
      {
        if Lifted(t.airborne, x) {
          var l :| 0 <= l < |t.airborne| && IsLifted(t.airborne[l]) && IdOf(t.airborne[l].lifted.value) == x;
          assert IsLifted(u.airborne[l]);
        }
      }
    }
  }

  lemma {:induction false} LandAllConserves(t: Tick, k: nat)
    requires Consistent(t, k) && k <= |t.airborne| && LandingsGrounded(t.cells, t.airborne)
    requires TakenForGood(t.cells, t.airborne, t.victims)
    ensures Conserved(t, LandAll(t, k))
    ensures var u := LandAll(t, k); TakenForGood(u.cells, u.airborne, u.victims)
    decreases |t.airborne| - k
  {
    hide ConsistentExcept, TakenForGood, Conserved;
    ConservedSelf(t);
    if k < |t.airborne| {
      LandOneKeepsGrounded(t, k);
      if HasLanded(AdvanceJump(t.airborne[k], t.delta)) {
        LandingKeepsConsistent(t, k);
      } else {
        FlyOnKeepsConsistent(t, k);
      }
      LandOneConserves(t, k);
      LandAllConserves(LandOne(t, k), NextJump(t, k));
      ConservedJoin(t, LandOne(t, k), LandAll(t, k));
    }
  }

  // ---- a tick ----

  /** Main step: over an ordinary tick the pieces in play before are exactly those in play after and the victims; every
      victim is out of play, appears once, and the reports name the victims in order. */
  lemma AdvanceConserves(w: World, delta: int)
    requires Inv(w) && delta >= 0 && GroundedWorld(w) && OrdinaryTick(w, delta)
    ensures var t := AfterCrossings(w, delta); LandingsGrounded(t.cells, t.airborne)
    ensures var u := Advance(w, delta);
            && (forall x :: InPlay(w.cells, w.airborne, x) <==>
                  InPlay(u.cells, u.airborne, x) || Taken(u.victims, x))
            && TakenForGood(u.cells, u.airborne, u.victims)
            && CapturesOf(u.reports) == AsCaptured(u.victims)
  {
    hide Inv, ConsistentExcept, OnBoard, Lifted, Grounded, GroundedWorld, CapturesOf, AsCaptured, CellsAfterRests;
    var b := BeginTick(w, delta);
    BeginTickIsConsistent(w, delta);
    BeginTickIsGrounded(w, delta);
    AfterCrossingsIsConsistent(w, delta);
    RestsKeepIdentities(w, delta);
    NothingReported(b);
    ResolveAllConserves(b);
    LandAllConserves(AfterCrossings(w, delta), 0);
    ConservedJoin(b, AfterCrossings(w, delta), Advance(w, delta));
    hide TakenForGood;
    assert forall x :: !Taken(b.victims, x);
  }

  lemma RestsKeepIdentities(w: World, delta: int)
    requires Inv(w) && delta >= 0
    ensures SamePieces(w.cells, BeginTick(w, delta).cells)
  {
    RestsWakeTheirPieces(w.cells, w.resting, delta);
    SameIdentities(w.cells, BeginTick(w, delta).cells);
  }

  lemma NothingReported(t: Tick)
    requires t.victims == [] && t.reports == []
    ensures TakenForGood(t.cells, t.airborne, t.victims) && CapturesOf(t.reports) == AsCaptured(t.victims)
  {
  }
}
