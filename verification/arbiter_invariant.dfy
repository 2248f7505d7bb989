/** When the board, the pieces' states and the three activity lists agree. */
module ArbiterInvariant {
  import opened Model
  import opened Motions
  import opened ArbiterSpec
  import opened ArbiterTick

  /** The longest a journey on this board can take. */
  function LongestJourneyMs(width: int, height: int): int {
    Max(1, Max(width, height) - 1) * SQUARE_TRAVEL_MS
  }

  /** Each piece knows its own square, and nobody taken is on the board. */
  ghost predicate PiecesInPlace(width: int, height: int, cells: Cells) {
    forall c :: c in cells ==> InBounds(width, height, c) && cells[c].cell == c && cells[c].state != Captured
  }

  /** No two pieces in play, on the board or lifted off it, share an identity. */
  ghost predicate DistinctPieces(cells: Cells, airborne: seq<Jump>) {
    && (forall c, d :: c in cells && d in cells && cells[c].id == cells[d].id ==> c == d)
    && (forall k, c :: 0 <= k < |airborne| && IsLifted(airborne[k]) && c in cells ==>
          airborne[k].lifted.value.id != cells[c].id)
    && (forall k, l :: 0 <= k < l < |airborne| && IsLifted(airborne[k]) && IsLifted(airborne[l]) ==>
          airborne[k].lifted.value.id != airborne[l].lifted.value.id)
  }

  ghost predicate JourneyFits(width: int, height: int, m: Motion) {
    && (forall k :: 0 <= k < |m.path| ==> InBounds(width, height, m.path[k]))
    && (|m.path| - 1) * m.stepDuration <= LongestJourneyMs(width, height)
  }

  /** Every unresolved journey carries a moving piece, and every moving piece is carried by one. */
  ghost predicate JourneysCarry(width: int, height: int, cells: Cells, active: seq<Motion>, resolved: seq<bool>) {
    && Grounded(cells, active, resolved)
    && (forall i :: Live(resolved, i) ==>
          JourneyFits(width, height, active[i]) && cells[CurrentCell(active[i])].state == Moving)
    && (forall c :: c in cells && cells[c].state == Moving ==>
          exists i :: Live(resolved, i) && CurrentCell(active[i]) == c)
  }

  ghost predicate StepClocks(active: seq<Motion>, resolved: seq<bool>, delta: int) {
    && |active| == |resolved|
    && (forall i :: Live(resolved, i) ==> 0 <= active[i].elapsed < active[i].stepDuration + delta)
  }

  /** A pawn's journey meets its promotion row only where it ends. */
  ghost predicate PawnsStopAtLastRow(height: int, cells: Cells, active: seq<Motion>, resolved: seq<bool>)
    requires Grounded(cells, active, resolved)
  {
    forall i, k ::
      (&& Live(resolved, i) && active[i].stepIndex < k < |active[i].path| - 1
       && cells[CurrentCell(active[i])].kind == Pawn) ==>
        active[i].path[k].row != PromotionRow(cells[CurrentCell(active[i])].color, height)
  }

  /** A jump's clock, counting a tick that has not reached it yet. */
  function JumpClock(airborne: seq<Jump>, l: nat, delta: int, advanced: nat): int
    requires l < |airborne|
  {
    airborne[l].elapsed + if l < advanced then 0 else delta
  }

  /** The piece standing in for a lifted jumper still rests, and its rest began after the jump did; or the jump is
      over in this very tick. */
  ghost predicate HeldDown(cells: Cells, resting: seq<Cooldown>, cell: Position, jumpClock: int)
    requires cell in cells
  {
    || (cells[cell].state == Idle && jumpClock >= JUMP_DURATION_MS)
    || (cells[cell].state == Resting
        && exists c :: c in resting && c.pieceId == cells[cell].id && c.elapsed < jumpClock)
  }

  ghost predicate LiftedStays(j: Jump) {
    IsLifted(j) ==> j.lifted.value.cell == j.cell && j.lifted.value.state == Airborne
  }

  /** What stands on a jump's square: the jumper itself, or one enemy that is held down. */
  ghost predicate JumpHolds(cells: Cells, resting: seq<Cooldown>, j: Jump, jumpClock: int) {
    && j.cell in cells
    && (if IsLifted(j) then
          cells[j.cell].color != j.lifted.value.color && HeldDown(cells, resting, j.cell, jumpClock)
        else cells[j.cell].state == Airborne)
  }

  /** `open` names a square being handed over from a jumper to the enemy arriving under it. */
  ghost predicate JumpsHold(
    cells: Cells, airborne: seq<Jump>, resting: seq<Cooldown>, delta: int, advanced: nat, open: set<Position>)
  {
    && (forall k, l :: 0 <= k < l < |airborne| ==> airborne[k].cell != airborne[l].cell)
    && (forall l :: 0 <= l < |airborne| ==> LiftedStays(airborne[l]))
    && (forall l :: 0 <= l < |airborne| && airborne[l].cell !in open ==>
          JumpHolds(cells, resting, airborne[l], JumpClock(airborne, l, delta, advanced)))
    && (forall l :: 0 <= l < |airborne| && airborne[l].cell in open ==> IsLifted(airborne[l]))
    && (forall c :: c in cells && cells[c].state == Airborne ==>
          exists l :: 0 <= l < |airborne| && airborne[l].cell == c && !IsLifted(airborne[l]))
  }

  ghost predicate JumpClocks(airborne: seq<Jump>, advanced: nat) {
    forall l :: 0 <= l < |airborne| ==>
      0 <= airborne[l].elapsed && (l < advanced ==> airborne[l].elapsed < JUMP_DURATION_MS)
  }

  /** A rest names a piece on its square that is resting, or nobody in play; and it only outlasts such a rest under a
      piece that arrived later and is not yet ready either. */
  ghost predicate RestsTrack(cells: Cells, airborne: seq<Jump>, resting: seq<Cooldown>) {
    && (forall r :: r in resting ==> 0 <= r.elapsed < COOLDOWN_MS)
    && (forall r, c :: r in resting && c in cells && cells[c].id == r.pieceId ==>
          c == r.cell && cells[c].state == Resting)
    && (forall r, k :: r in resting && 0 <= k < |airborne| && IsLifted(airborne[k]) ==>
          airborne[k].lifted.value.id != r.pieceId)
    && (forall c :: c in cells && cells[c].state == Resting ==>
          exists r :: r in resting && r.pieceId == cells[c].id)
    && (forall r :: r in resting && r.cell in cells ==>
          cells[r.cell].state == Moving || cells[r.cell].state == Resting)
    && (forall r, s ::
          (&& r in resting && s in resting && s.cell == r.cell
           && r.cell in cells && s.pieceId == cells[r.cell].id) ==> s.elapsed <= r.elapsed)
  }

  ghost predicate RestsOnBoard(width: int, height: int, resting: seq<Cooldown>) {
    forall r :: r in resting ==> InBounds(width, height, r.cell)
  }

  /** Whatever is reported happened on the board. */
  ghost predicate ReportsOnBoard(width: int, height: int, reports: seq<ArrivalReport>) {
    forall k :: 0 <= k < |reports| ==> InBounds(width, height, reports[k].destination)
  }

  /** Agreement in the middle of a tick, `advanced` jumps having been moved on already. */
  ghost predicate ConsistentExcept(t: Tick, advanced: nat, open: set<Position>) {
    && t.delta >= 0
    && PiecesInPlace(t.width, t.height, t.cells)
    && DistinctPieces(t.cells, t.airborne)
    && JourneysCarry(t.width, t.height, t.cells, t.active, t.resolved)
    && StepClocks(t.active, t.resolved, t.delta)
    && JumpsHold(t.cells, t.airborne, t.resting, t.delta, advanced, open)
    && JumpClocks(t.airborne, advanced)
    && RestsTrack(t.cells, t.airborne, t.resting)
    && RestsOnBoard(t.width, t.height, t.resting)
    && ReportsOnBoard(t.width, t.height, t.reports)
  }

  ghost predicate Consistent(t: Tick, advanced: nat) {
    ConsistentExcept(t, advanced, {})
  }

  /** Agreement between calls. */
  ghost predicate Inv(w: World) {
    && PiecesInPlace(w.width, w.height, w.cells)
    && DistinctPieces(w.cells, w.airborne)
    && JourneysCarry(w.width, w.height, w.cells, w.active, AllUnresolved(|w.active|))
    && (forall i :: 0 <= i < |w.active| ==>
          !IsComplete(w.active[i]) && 0 <= w.active[i].elapsed < w.active[i].stepDuration)
    && JumpsHold(w.cells, w.airborne, w.resting, 0, |w.airborne|, {})
    && JumpClocks(w.airborne, |w.airborne|)
    && RestsTrack(w.cells, w.airborne, w.resting)
    && RestsOnBoard(w.width, w.height, w.resting)
  }

  // ---- effects of the crossing loop ----

  lemma CaptureKeepsConsistent(t: Tick, cell: Position, open: set<Position>)
    requires ConsistentExcept(t, 0, open) && cell in t.cells
    requires t.cells[cell].state != Airborne
    requires forall l :: 0 <= l < |t.airborne| ==> t.airborne[l].cell != cell
    ensures ConsistentExcept(CaptureAt(t, cell), 0, open)
  {
    var u := CaptureAt(t, cell);
    CaptureKeepsGrounded(t, cell);
    forall c | c in u.cells && u.cells[c].state == Moving
      ensures exists i :: Live(u.resolved, i) && CurrentCell(u.active[i]) == c
    {
      var i :| Live(t.resolved, i) && CurrentCell(t.active[i]) == c;
      assert Live(u.resolved, i);
    }
    forall l | 0 <= l < |u.airborne| && u.airborne[l].cell !in open
      ensures JumpHolds(u.cells, u.resting, u.airborne[l], JumpClock(u.airborne, l, u.delta, 0))
    {
      assert JumpHolds(t.cells, t.resting, t.airborne[l], JumpClock(t.airborne, l, t.delta, 0));
    }
  }

  /** One piece has walked from one square to an empty one. */
  ghost predicate Moved(cells: Cells, after: Cells, from: Position, to: Position) {
    && from in cells && to !in cells && to in after && from !in after
    && after[to] == cells[from].(cell := to)
    && (forall c :: c != to && c != from ==> (c in after <==> c in cells))
    && (forall c :: c in after && c != to ==> after[c] == cells[c])
  }

  lemma MoveKeepsJourneys(t: Tick, u: Tick, i: nat)
    requires JourneysCarry(t.width, t.height, t.cells, t.active, t.resolved)
    requires Crossing(t, i) && Moved(t.cells, u.cells, CurrentCell(t.active[i]), NextCell(t.active[i]))
    requires u.active == t.active[i := CompleteStep(t.active[i])] && u.resolved == t.resolved
    ensures JourneysCarry(t.width, t.height, u.cells, u.active, u.resolved)
  {
    var to := NextCell(t.active[i]);
    forall j | Live(u.resolved, j)
      ensures WellFormed(u.active[j]) && CurrentCell(u.active[j]) in u.cells
      ensures JourneyFits(t.width, t.height, u.active[j]) && u.cells[CurrentCell(u.active[j])].state == Moving
    {
      assert Live(t.resolved, j);
    }
    forall c | c in u.cells && u.cells[c].state == Moving
      ensures exists j :: Live(u.resolved, j) && CurrentCell(u.active[j]) == c
    {
      if c == to {
        assert Live(u.resolved, i) && CurrentCell(u.active[i]) == to;
      } else {
        var j :| Live(t.resolved, j) && CurrentCell(t.active[j]) == c;
        assert Live(u.resolved, j) && CurrentCell(u.active[j]) == c;
      }
    }
  }

  lemma MoveKeepsJumps(
    cells: Cells, after: Cells, from: Position, to: Position,
    airborne: seq<Jump>, resting: seq<Cooldown>, delta: int, open: set<Position>)
    requires Moved(cells, after, from, to) && cells[from].state == Moving
    requires JumpsHold(cells, airborne, resting, delta, 0, open)
    ensures JumpsHold(after, airborne, resting, delta, 0, open)
  {
    forall l | 0 <= l < |airborne| && airborne[l].cell !in open
      ensures JumpHolds(after, resting, airborne[l], JumpClock(airborne, l, delta, 0))
    {
      assert JumpHolds(cells, resting, airborne[l], JumpClock(airborne, l, delta, 0));
      assert airborne[l].cell != from && airborne[l].cell != to;
    }
  }

  lemma MoveKeepsRests(
    cells: Cells, after: Cells, from: Position, to: Position, airborne: seq<Jump>, resting: seq<Cooldown>)
    requires Moved(cells, after, from, to) && cells[from].state == Moving
    requires RestsTrack(cells, airborne, resting)
    ensures RestsTrack(after, airborne, resting)
  {
  }

  lemma MoveKeepsPieces(t: Tick, u: Tick, from: Position, to: Position)
    requires Moved(t.cells, u.cells, from, to) && InBounds(t.width, t.height, to)
    requires PiecesInPlace(t.width, t.height, t.cells) && DistinctPieces(t.cells, t.airborne)
    ensures PiecesInPlace(t.width, t.height, u.cells) && DistinctPieces(u.cells, t.airborne)
  {
  }

  lemma WalkMoves(t: Tick, i: nat, open: set<Position>)
    requires ConsistentExcept(t, 0, open) && Crossing(t, i) && NextCell(t.active[i]) !in t.cells
    ensures GroundedTick(t) && i < |t.active| == |t.resolved| && WellFormed(t.active[i])
    ensures CurrentCell(t.active[i]) in t.cells && t.cells[CurrentCell(t.active[i])].state == Moving
    ensures Moved(t.cells, Walk(t, i).cells, CurrentCell(t.active[i]), NextCell(t.active[i]))
    ensures InBounds(t.width, t.height, NextCell(t.active[i]))
    ensures StepClocks(Walk(t, i).active, t.resolved, t.delta)
  {
    hide JumpsHold, RestsTrack, PiecesInPlace, DistinctPieces, JumpClocks;
    var m := t.active[i];
    assert m.path[m.stepIndex] != m.path[m.stepIndex + 1];
  }

  lemma WalkKeepsConsistent(t: Tick, i: nat, open: set<Position>)
    requires ConsistentExcept(t, 0, open) && Crossing(t, i) && NextCell(t.active[i]) !in t.cells
    ensures ConsistentExcept(Walk(t, i), 0, open)
  {
    hide JourneysCarry, JumpsHold, RestsTrack, PiecesInPlace, DistinctPieces, JumpClocks, Moved, StepClocks, Grounded;
    WalkMoves(t, i, open);
    var u := Walk(t, i);
    var from, to := CurrentCell(t.active[i]), NextCell(t.active[i]);
    MoveKeepsJourneys(t, u, i);
    MoveKeepsJumps(t.cells, u.cells, from, to, t.airborne, t.resting, t.delta, open);
    MoveKeepsRests(t.cells, u.cells, from, to, t.airborne, t.resting);
    MoveKeepsPieces(t, u, from, to);
  }

  /** The piece on one square has come to rest. */
  ghost predicate Rested(cells: Cells, after: Cells, cell: Position) {
    && cell in cells && after.Keys == cells.Keys
    && after[cell] == cells[cell].(state := Resting)
    && (forall c :: c in cells && c != cell ==> after[c] == cells[c])
  }

  lemma RestKeepsJourneys(t: Tick, u: Tick, i: nat)
    requires JourneysCarry(t.width, t.height, t.cells, t.active, t.resolved)
    requires Live(t.resolved, i) && Rested(t.cells, u.cells, CurrentCell(t.active[i]))
    requires u.active == t.active && u.resolved == t.resolved[i := true]
    ensures JourneysCarry(t.width, t.height, u.cells, u.active, u.resolved)
  {
    assert forall j :: Live(u.resolved, j) <==> Live(t.resolved, j) && j != i;
    forall c | c in u.cells && u.cells[c].state == Moving
      ensures exists j :: Live(u.resolved, j) && CurrentCell(u.active[j]) == c
    {
      var j :| Live(t.resolved, j) && CurrentCell(t.active[j]) == c;
      assert Live(u.resolved, j) && CurrentCell(u.active[j]) == c;
    }
  }

  lemma RestKeepsRests(
    cells: Cells, after: Cells, cell: Position, airborne: seq<Jump>, resting: seq<Cooldown>, later: seq<Cooldown>)
    requires Rested(cells, after, cell) && cells[cell].state != Resting
    requires forall k :: 0 <= k < |airborne| && IsLifted(airborne[k]) ==> airborne[k].lifted.value.id != cells[cell].id
    requires forall c :: c in cells && c != cell ==> cells[c].id != cells[cell].id
    requires later == resting + [Cooldown(cells[cell].id, cell, 0)]
    requires RestsTrack(cells, airborne, resting)
    ensures RestsTrack(after, airborne, later)
  {
    var begun := Cooldown(cells[cell].id, cell, 0);
    assert forall s :: s in later <==> s in resting || s == begun;
    forall c | c in after && after[c].state == Resting
      ensures exists s :: s in later && s.pieceId == after[c].id
    {
      if c == cell {
        assert begun in later;
      } else {
        var s :| s in resting && s.pieceId == cells[c].id;
        assert s in later;
      }
    }
  }

  lemma JumpHoldsElsewhere(
    cells: Cells, after: Cells, resting: seq<Cooldown>, later: seq<Cooldown>, j: Jump, clock: int)
    requires JumpHolds(cells, resting, j, clock)
    requires j.cell in after && after[j.cell] == cells[j.cell]
    requires forall s :: s in resting ==> s in later
    ensures JumpHolds(after, later, j, clock)
  {
  }

  /** A moving piece comes to rest where it stands; its journey is over. */
  function ComeToRest(t: Tick, i: nat): Tick
    requires i < |t.active| == |t.resolved| && WellFormed(t.active[i]) && CurrentCell(t.active[i]) in t.cells
  {
    StartCooldown(t, CurrentCell(t.active[i])).(resolved := t.resolved[i := true])
  }

  lemma RestKeepsJumps(t: Tick, u: Tick, cell: Position, open: set<Position>)
    requires Rested(t.cells, u.cells, cell) && t.cells[cell].state == Moving
    requires u.resting == t.resting + [Cooldown(t.cells[cell].id, cell, 0)]
    requires JumpsHold(t.cells, t.airborne, t.resting, t.delta, 0, open)
    requires forall l :: 0 <= l < |t.airborne| && t.airborne[l].cell == cell ==>
               && t.airborne[l].cell in open && t.airborne[l].elapsed + t.delta > 0
               && t.cells[cell].color != t.airborne[l].lifted.value.color
    ensures JumpsHold(u.cells, t.airborne, u.resting, t.delta, 0, open - {cell})
  {
    var begun := Cooldown(t.cells[cell].id, cell, 0);
    assert begun in u.resting;
    forall l | 0 <= l < |t.airborne| && t.airborne[l].cell !in open - {cell}
      ensures JumpHolds(u.cells, u.resting, t.airborne[l], JumpClock(t.airborne, l, t.delta, 0))
    {
      if t.airborne[l].cell != cell {
        JumpHoldsElsewhere(t.cells, u.cells, t.resting, u.resting, t.airborne[l], JumpClock(t.airborne, l, t.delta, 0));
      }
    }
  }

  lemma RestKeepsConsistent(t: Tick, i: nat, open: set<Position>)
    requires ConsistentExcept(t, 0, open) && Live(t.resolved, i)
    requires forall l :: 0 <= l < |t.airborne| && t.airborne[l].cell == CurrentCell(t.active[i]) ==>
               && t.airborne[l].cell in open && t.airborne[l].elapsed + t.delta > 0
               && t.cells[CurrentCell(t.active[i])].color != t.airborne[l].lifted.value.color
    ensures ConsistentExcept(ComeToRest(t, i), 0, open - {CurrentCell(t.active[i])})
  {
    var u := ComeToRest(t, i);
    var cell := CurrentCell(t.active[i]);
    assert Rested(t.cells, u.cells, cell);
    RestKeepsJourneys(t, u, i);
    RestKeepsJumps(t, u, cell, open);
    RestKeepsRests(t.cells, u.cells, cell, t.airborne, t.resting, u.resting);
    assert DistinctPieces(u.cells, u.airborne);
    assert StepClocks(u.active, u.resolved, u.delta);
  }
}
