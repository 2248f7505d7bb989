/** What a game shows the world: the frame the server writes of it. */
module Snapshots {
  import opened Model
  import opened Motions
  import opened ArbiterSpec
  import opened ArbiterTick
  import opened ArbiterInvariant
  import opened Arbiters
  import opened EngineSpec
  import opened EngineRuns
  import opened Pawns
  import opened Engines
  import opened Notation
  import opened StateCodec

  function Clamped(x: real): real {
    if x < 0.0 then 0.0 else if x > 1.0 then 1.0 else x
  }

  function StepProgress(m: Motion): real {
    if m.stepDuration <= 0 then 1.0 else Clamped(m.elapsed as real / m.stepDuration as real)
  }

  function MotionStateOf(m: Motion): MotionState
    requires m.stepIndex < |m.path|
  {
    MotionState(CurrentCell(m), if IsComplete(m) then CurrentCell(m) else NextCell(m), StepProgress(m))
  }

  function CooldownStateOf(c: Cooldown): CooldownState {
    CooldownState(c.cell, Clamped(c.elapsed as real / COOLDOWN_MS as real))
  }

  ghost function SnapshotOf(g: Game): Snapshot
    requires OnPaths(g.world.active)
  {
    var active, resting := g.world.active, g.world.resting;
    Snapshot(Grid(g.world.width, g.world.height, g.world.cells), g.over,
             seq(|active|, i requires 0 <= i < |active| => MotionStateOf(active[i])),
             seq(|resting|, i requires 0 <= i < |resting| => CooldownStateOf(resting[i])))
  }

  /** The codec's reach: at most 31 columns, and identities of 32 bits. */
  predicate Narrow(w: World) {
    0 < w.width <= 31 && 0 < w.height && forall c :: c in w.cells ==> w.cells[c].id < 0x1_0000_0000
  }

  lemma MotionShows(w: World, i: nat)
    requires Inv(w) && Narrow(w) && i < |w.active|
    ensures w.active[i].stepIndex < |w.active[i].path|
    ensures var s := MotionStateOf(w.active[i]);
            OnNamedBoard(s.from, w.height) && OnNamedBoard(s.to, w.height) && s.progress >= 0.0
  {
    assert Live(AllUnresolved(|w.active|), i);
    var m := w.active[i];
    assert JourneyFits(w.width, w.height, m);
    assert InBounds(w.width, w.height, m.path[m.stepIndex]);
  }

  /** Whatever game is in agreement, its frame can be written without loss. */
  lemma GamesArePresentable(g: Game)
    requires Inv(g.world) && Narrow(g.world)
    ensures OnPaths(g.world.active) && Presentable(SnapshotOf(g))
  {
    JourneysAreOnPaths(g.world);
    var s := SnapshotOf(g);
    forall m | m in s.motions
      ensures OnNamedBoard(m.from, s.grid.height) && OnNamedBoard(m.to, s.grid.height) && m.progress >= 0.0
    {
      var i :| 0 <= i < |s.motions| && s.motions[i] == m;
      MotionShows(g.world, i);
    }
    forall c | c in s.cooldowns
      ensures OnNamedBoard(c.cell, s.grid.height) && c.progress >= 0.0
    {
      var i :| 0 <= i < |s.cooldowns| && s.cooldowns[i] == c;
      assert g.world.resting[i] in g.world.resting;
    }
  }

  /** What is shown of a journey is where the time since its announcement puts it on its path. */
  ghost predicate ShownOnTime(g: Game, e: MoveEvent, s: MotionState) {
    var path := TravelPath(e.from, e.to);
    var step, spent := StepDurationOf(e.from, e.to, |path|), g.elapsedMs - e.timeMs;
    && step > 0
    && var i := spent / step;
       && 0 <= i < |path| - 1 && s.from == path[i] && s.to == path[i + 1]
       && s.progress == (spent % step) as real / step as real
  }

  lemma StepInProgress(k: nat, d: int, e: int)
    requires d > 0 && 0 <= e < d
    ensures (k * d + e) / d == k && (k * d + e) % d == e && k * d + e >= 0
  {
    DivisionFinds(k, d, e);
  }

  lemma PositiveProduct(a: real, b: real)
    requires a > 0.0 && b > 0.0
    ensures a * b > 0.0
  {
  }

  lemma FractionOfStep(e: int, d: int)
    requires 0 <= e < d
    ensures Clamped(e as real / d as real) == e as real / d as real
  {
    var x := e as real / d as real;
    assert x * d as real == e as real;
    assert (x - 1.0) * d as real == e as real - d as real && (-x) * d as real == -(e as real);
    if x > 1.0 {
      PositiveProduct(x - 1.0, d as real);
    } else if x < 0.0 {
      PositiveProduct(-x, d as real);
    }
  }

  lemma ShownWhereItIs(g: Game, a: Announcement, m: Motion)
    requires Ordered(g, a, m) && m.stepIndex < |m.path| && !IsComplete(m) && 0 <= m.elapsed < m.stepDuration
    ensures ShownOnTime(g, a.move, MotionStateOf(m))
  {
    hide TravelPath, StepDurationOf, Clamped;
    assert Travelled(m) == m.stepIndex * m.stepDuration + m.elapsed;
    StepInProgress(m.stepIndex, m.stepDuration, m.elapsed);
    FractionOfStep(m.elapsed, m.stepDuration);
  }

  /** Every motion in a frame is an announced move, shown on the step and with the progress that the time since gives,
      however the time was split into waits. */
  lemma ShownMotionsAreOnTime(g: Game, k: nat)
    requires GameInv(g) && OnPaths(g.world.active) && k < |g.world.active|
    ensures exists e :: 0 <= e < |g.announced| && g.announced[e].Moved? && !g.announced[e].move.isJump
              && ShownOnTime(g, g.announced[e].move, SnapshotOf(g).motions[k])
  {
    var m := g.world.active[k];
    assert WasOrdered(g, m);
    var e :| 0 <= e < |g.announced| && Ordered(g, g.announced[e], m);
    assert Live(AllUnresolved(|g.world.active|), k);
    hide Inv, PawnsPromoted, Punctual, ShownOnTime;
    JourneyIsUnderWay(g.world, k);
    ShownWhereItIs(g, g.announced[e], m);
    assert SnapshotOf(g).motions[k] == MotionStateOf(m);
  }

  lemma JourneyIsUnderWay(w: World, k: nat)
    requires Inv(w) && k < |w.active|
    ensures var m := w.active[k]; !IsComplete(m) && 0 <= m.elapsed < m.stepDuration
  {
    assert Live(AllUnresolved(|w.active|), k);
  }

  /** Every rest in a frame is shown on its square, as far on as the part of 1000 ms it has lasted. */
  lemma ShownRestsAreOnTime(g: Game, k: nat)
    requires GameInv(g) && OnPaths(g.world.active) && k < |g.world.resting|
    ensures |SnapshotOf(g).cooldowns| == |g.world.resting|
    ensures var r, s := g.world.resting[k], SnapshotOf(g).cooldowns[k];
            s.cell == r.cell && s.progress * 1000.0 == r.elapsed as real && 0.0 <= s.progress < 1.0
  {
    var r := g.world.resting[k];
    RestIsUnderWay(g.world, r);
    hide GameInv, Clamped;
    FractionOfStep(r.elapsed, COOLDOWN_MS);
    var x := r.elapsed as real / COOLDOWN_MS as real;
    assert x * 1000.0 == r.elapsed as real;
  }

  lemma RestIsUnderWay(w: World, r: Cooldown)
    requires Inv(w) && r in w.resting
    ensures 0 <= r.elapsed < 1000
  {
    assert RestsTrack(w.cells, w.airborne, w.resting);
  }

  method ActiveMotions(arbiter: RealTimeArbiter) returns (motions: seq<MotionState>)
    requires OnPaths(arbiter.active)
    ensures |motions| == |arbiter.active|
    ensures forall i :: 0 <= i < |motions| ==> motions[i] == MotionStateOf(arbiter.active[i])
  {
    motions := [];
    for k := 0 to |arbiter.active|
      invariant |motions| == k && forall i :: 0 <= i < k ==> motions[i] == MotionStateOf(arbiter.active[i])
    {
      motions := motions + [MotionStateOf(arbiter.active[k])];
    }
  }

  method ActiveCooldowns(arbiter: RealTimeArbiter) returns (cooldowns: seq<CooldownState>)
    ensures |cooldowns| == |arbiter.resting|
    ensures forall i :: 0 <= i < |cooldowns| ==> cooldowns[i] == CooldownStateOf(arbiter.resting[i])
  {
    cooldowns := [];
    for k := 0 to |arbiter.resting|
      invariant |cooldowns| == k && forall i :: 0 <= i < k ==> cooldowns[i] == CooldownStateOf(arbiter.resting[i])
    {
      cooldowns := cooldowns + [CooldownStateOf(arbiter.resting[k])];
    }
  }

  /** The frame of the engine's game. */
  method WriteGame(engine: GameEngine) returns (frame: string)
    requires engine.Valid() && GameInv(engine.View())
    ensures OnPaths(engine.View().world.active)
    ensures engine.board.width > 0 && engine.board.height > 0
    ensures frame == EncodeState(SnapshotOf(engine.View()))
  {
    JourneysAreOnPaths(engine.View().world);
    var motions := ActiveMotions(engine.arbiter);
    var cooldowns := ActiveCooldowns(engine.arbiter);
    assert motions == SnapshotOf(engine.View()).motions && cooldowns == SnapshotOf(engine.View()).cooldowns;
    frame := WriteState(engine.board, engine.over, motions, cooldowns);
  }
}
