/** A whole tick of the arbiter: rests, then crossings to a fixpoint, then landings. */
module ArbiterTick {
  import opened Model
  import opened Motions
  import opened ArbiterSpec
  import opened CrossingOrder

  /** The journeys a pass still has to look at: each one once, and each of them either over or mid-crossing. */
  ghost predicate Pending(t: Tick, order: seq<nat>) {
    && |t.active| == |t.resolved|
    && (forall p :: 0 <= p < |order| ==>
          order[p] < |t.active| && (Live(t.resolved, order[p]) ==> IsEnteringNextCell(t.active[order[p]])))
    && (forall p, q :: 0 <= p < q < |order| ==> order[p] != order[q])
  }

  lemma CrossingKeepsPending(t: Tick, order: seq<nat>)
    requires GroundedTick(t) && Pending(t, order) && order != [] && Live(t.resolved, order[0])
    ensures Pending(ResolveEntry(t, order[0]), order[1..])
  {
    CrossingKeepsGrounded(t, order[0]);
  }

  /** No unresolved journey is at its end. */
  ghost predicate Unfinished(t: Tick) {
    |t.active| == |t.resolved| && forall i :: Live(t.resolved, i) ==> !IsComplete(t.active[i])
  }

  /** One pass over the crossings found at its start. */
  ghost function Pass(t: Tick, order: seq<nat>): (u: Tick)
    requires GroundedTick(t) && Pending(t, order)
    ensures GroundedTick(u) && |u.active| == |t.active|
    ensures Unfinished(t) ==> Unfinished(u)
    ensures Remaining(u.active, u.resolved) <= Remaining(t.active, t.resolved)
    ensures order != [] && Live(t.resolved, order[0]) ==>
              Remaining(u.active, u.resolved) < Remaining(t.active, t.resolved)
    decreases |order|
  {
    if order == [] then t
    else if !Live(t.resolved, order[0]) then Pass(t, order[1..])
    else
      CrossingKeepsGrounded(t, order[0]);
      CrossingUsesUp(t, ResolveEntry(t, order[0]), order[0]);
      CrossingKeepsPending(t, order);
      Pass(ResolveEntry(t, order[0]), order[1..])
  }

  lemma FoundCrossingsArePending(t: Tick)
    requires |t.active| == |t.resolved|
    ensures var order := CrossingsByArrival(t.active, t.resolved);
            Pending(t, order) && (order != [] ==> Live(t.resolved, order[0]))
  {
    var order := CrossingsByArrival(t.active, t.resolved);
    CrossingsAreInArrivalOrder(t.active, t.resolved);
    assert forall p :: 0 <= p < |order| ==> order[p] in order;
  }

  /** Pass after pass until no journey is mid-crossing. The loop always ends: a pass with work to do uses up some of
      the crossings still ahead, whatever the tick's length. */
  ghost function ResolveAll(t: Tick): (u: Tick)
    requires GroundedTick(t)
    ensures GroundedTick(u) && |u.active| == |t.active|
    ensures Unfinished(t) ==> Unfinished(u)
    ensures forall i :: Live(u.resolved, i) ==> !IsEnteringNextCell(u.active[i])
    decreases Remaining(t.active, t.resolved)
  {
    var order := CrossingsByArrival(t.active, t.resolved);
    FoundCrossingsArePending(t);
    if order == [] then
      CrossingsAreInArrivalOrder(t.active, t.resolved);
      assert forall i :: Live(t.resolved, i) && IsEnteringNextCell(t.active[i]) ==> i in order;
      t
    else ResolveAll(Pass(t, order))
  }

  /** The unresolved journeys among the first n, in order. */
  function Keep(active: seq<Motion>, resolved: seq<bool>, n: nat): seq<Motion>
    requires n <= |active| == |resolved|
  {
    if n == 0 then []
    else if resolved[n - 1] then Keep(active, resolved, n - 1)
    else Keep(active, resolved, n - 1) + [active[n - 1]]
  }

  /** The journeys that are left, kept in the order they began: k-th one's old index. */
  function OldIndex(active: seq<Motion>, resolved: seq<bool>, n: nat, k: nat): (i: nat)
    requires n <= |active| == |resolved| && k < |Keep(active, resolved, n)|
    ensures i < n && Live(resolved, i) && Keep(active, resolved, n)[k] == active[i]
  {
    if resolved[n - 1] || k < |Keep(active, resolved, n - 1)| then OldIndex(active, resolved, n - 1, k)
    else n - 1
  }

  lemma {:induction false} OldIndexRises(active: seq<Motion>, resolved: seq<bool>, n: nat, k: nat, l: nat)
    requires n <= |active| == |resolved| && k < l < |Keep(active, resolved, n)|
    ensures OldIndex(active, resolved, n, k) < OldIndex(active, resolved, n, l)
  {
    if resolved[n - 1] || l < |Keep(active, resolved, n - 1)| {
      OldIndexRises(active, resolved, n - 1, k, l);
    }
  }

  lemma {:induction false} KeepHoldsLive(active: seq<Motion>, resolved: seq<bool>, n: nat, i: nat)
    requires i < n <= |active| == |resolved| && Live(resolved, i)
    ensures active[i] in Keep(active, resolved, n)
  {
    if i < n - 1 {
      KeepHoldsLive(active, resolved, n - 1, i);
    }
  }

  function AllUnresolved(n: nat): seq<bool> {
    seq(n, _ => false)
  }

  function DropResolved(t: Tick): Tick
    requires |t.active| == |t.resolved|
  {
    var kept := Keep(t.active, t.resolved, |t.active|);
    t.(active := kept, resolved := AllUnresolved(|kept|))
  }

  function AdvanceAll(active: seq<Motion>, delta: int): seq<Motion> {
    seq(|active|, i requires 0 <= i < |active| => AdvanceMotion(active[i], delta))
  }

  // ---- rests ----

  function AdvanceCooldown(c: Cooldown, delta: int): Cooldown {
    c.(elapsed := c.elapsed + delta)
  }

  /** A finished rest wakes its piece only if that very piece still rests on that very square. */
  function Wake(cells: Cells, c: Cooldown): Cells {
    if c.cell in cells && cells[c.cell].id == c.pieceId && cells[c.cell].state == Resting
    then SetStateIn(cells, c.cell, Idle)
    else cells
  }

  function CellsAfterRests(cells: Cells, resting: seq<Cooldown>, delta: int): Cells {
    if resting == [] then cells
    else
      var c := AdvanceCooldown(resting[0], delta);
      CellsAfterRests(if HasElapsed(c) then Wake(cells, c) else cells, resting[1..], delta)
  }

  function RestsLeft(resting: seq<Cooldown>, delta: int): seq<Cooldown> {
    if resting == [] then []
    else
      var c := AdvanceCooldown(resting[0], delta);
      if HasElapsed(c) then RestsLeft(resting[1..], delta) else [c] + RestsLeft(resting[1..], delta)
  }

  /** The rests left are exactly the advanced ones that have not lasted a second. */
  lemma {:induction false} RestsLeftAreAdvanced(resting: seq<Cooldown>, delta: int, x: Cooldown)
    ensures x in RestsLeft(resting, delta) <==>
            x.(elapsed := x.elapsed - delta) in resting && x.elapsed < 1000
  {
    if resting != [] {
      RestsLeftAreAdvanced(resting[1..], delta, x);
      assert x.(elapsed := x.elapsed - delta) == resting[0] <==> x == AdvanceCooldown(resting[0], delta);
    }
  }

  // ---- landings ----

  function AdvanceJump(j: Jump, delta: int): Jump {
    j.(elapsed := j.elapsed + delta)
  }

  /** Every jump with its piece still on the board has that piece under it. */
  ghost predicate LandingsGrounded(cells: Cells, airborne: seq<Jump>) {
    forall k :: 0 <= k < |airborne| && !IsLifted(airborne[k]) ==> airborne[k].cell in cells
  }

  /** A lifted jumper comes down on its own square and takes whoever stands there. */
  function LandLifted(t: Tick, j: Jump): Tick
    requires IsLifted(j)
  {
    var captured := if j.cell in t.cells then Some(TakenAt(t.cells, j.cell)) else None;
    var victims := if j.cell in t.cells then [t.cells[j.cell].(state := Captured)] else [];
    var lander := j.lifted.value.(cell := j.cell);
    StartCooldown(t.(cells := t.cells[j.cell := lander], victims := t.victims + victims), j.cell)
    .(reports := t.reports + [ArrivalReport(j.cell, false, captured)])
  }

  /** Advance jump k; if it is over, land it. */
  function LandOne(t: Tick, k: nat): Tick
    requires k < |t.airborne| && LandingsGrounded(t.cells, t.airborne)
  {
    var j := AdvanceJump(t.airborne[k], t.delta);
    if !HasLanded(j) then t.(airborne := t.airborne[k := j])
    else
      var landed := if IsLifted(j) then LandLifted(t, j) else StartCooldown(t, j.cell);
      landed.(airborne := t.airborne[..k] + t.airborne[k + 1..])
  }

  function NextJump(t: Tick, k: nat): nat
    requires k < |t.airborne|
  {
    if HasLanded(AdvanceJump(t.airborne[k], t.delta)) then k else k + 1
  }

  lemma LandOneKeepsGrounded(t: Tick, k: nat)
    requires k < |t.airborne| && LandingsGrounded(t.cells, t.airborne)
    ensures LandingsGrounded(LandOne(t, k).cells, LandOne(t, k).airborne)
  {
    var u := LandOne(t, k);
    forall l | 0 <= l < |u.airborne| && !IsLifted(u.airborne[l])
      ensures u.airborne[l].cell in u.cells
    {
      if HasLanded(AdvanceJump(t.airborne[k], t.delta)) {
        assert u.airborne[l] == t.airborne[if l < k then l else l + 1];
      } else {
        assert l != k ==> u.airborne[l] == t.airborne[l];
      }
    }
  }

  ghost function LandAll(t: Tick, k: nat): Tick
    requires k <= |t.airborne| && LandingsGrounded(t.cells, t.airborne)
    decreases |t.airborne| - k
  {
    if k == |t.airborne| then t
    else
      LandOneKeepsGrounded(t, k);
      LandAll(LandOne(t, k), NextJump(t, k))
  }

  // ---- the tick ----

  function BeginTick(w: World, delta: int): Tick {
    Tick(w.width, w.height, delta,
         CellsAfterRests(w.cells, w.resting, delta),
         AdvanceAll(w.active, delta), AllUnresolved(|w.active|), w.airborne,
         RestsLeft(w.resting, delta), [], [], true, [])
  }

  function WorldOf(t: Tick): World {
    World(t.width, t.height, t.cells, t.active, t.airborne, t.resting)
  }

  /** Between calls every journey stands on an occupied square of its own. */
  ghost predicate GroundedWorld(w: World) {
    Grounded(w.cells, w.active, AllUnresolved(|w.active|))
  }

  lemma {:induction false} RestsKeepSquares(cells: Cells, resting: seq<Cooldown>, delta: int)
    ensures CellsAfterRests(cells, resting, delta).Keys == cells.Keys
  {
    if resting != [] {
      var c := AdvanceCooldown(resting[0], delta);
      RestsKeepSquares(if HasElapsed(c) then Wake(cells, c) else cells, resting[1..], delta);
    }
  }

  lemma BeginTickIsGrounded(w: World, delta: int)
    requires GroundedWorld(w)
    ensures GroundedTick(BeginTick(w, delta))
  {
    var t := BeginTick(w, delta);
    RestsKeepSquares(w.cells, w.resting, delta);
    var none := AllUnresolved(|w.active|);
    forall i | Live(t.resolved, i)
      ensures WellFormed(t.active[i]) && CurrentCell(t.active[i]) == CurrentCell(w.active[i])
    {
      assert Live(none, i);
    }
  }

  /** All crossings of the tick, finished journeys dropped. */
  ghost function AfterCrossings(w: World, delta: int): Tick
    requires GroundedWorld(w)
  {
    BeginTickIsGrounded(w, delta);
    DropResolved(ResolveAll(BeginTick(w, delta)))
  }

  /** Nothing entered a square whose jumper had already been lifted off it: the hypothesis ordinary play meets. */
  ghost predicate OrdinaryTick(w: World, delta: int)
    requires GroundedWorld(w)
  {
    AfterCrossings(w, delta).clean
  }

  /** The whole tick. */
  ghost function Advance(w: World, delta: int): Tick
    requires GroundedWorld(w)
    requires var t := AfterCrossings(w, delta); LandingsGrounded(t.cells, t.airborne)
  {
    LandAll(AfterCrossings(w, delta), 0)
  }
}
