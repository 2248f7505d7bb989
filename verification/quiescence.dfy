/** Left alone, the game comes to rest, however its time is split into ticks. */
module Quiescence {
  import opened Model
  import opened Motions
  import opened ArbiterSpec
  import opened ArbiterTick
  import opened ArbiterInvariant
  import opened Timing
  import opened EngineSpec
  import opened EngineRuns

  function Waits(ticks: seq<int>): seq<Command> {
    seq(|ticks|, i requires 0 <= i < |ticks| => Elapse(ticks[i]))
  }

  function Total(ticks: seq<int>): int {
    if ticks == [] then 0 else ticks[0] + Total(ticks[1..])
  }

  /** Time a journey still needs if nothing stops it. */
  function TimeLeft(m: Motion): int {
    (|m.path| - 1) * m.stepDuration - Travelled(m)
  }

  /** Everything under way has been under way for `spent` ms at least. */
  ghost predicate WaitedFor(w: World, spent: int) {
    && (forall k :: 0 <= k < |w.active| ==> TimeLeft(w.active[k]) <= LongestJourneyMs(w.width, w.height) - spent)
    && (forall l :: 0 <= l < |w.airborne| ==> w.airborne[l].elapsed >= spent)
  }

  lemma StepsTakeTime(steps: int, done: nat, d: int, elapsed: int)
    requires done < steps && 0 <= elapsed < d
    ensures 0 < steps * d - (done * d + elapsed) <= steps * d
  {
    var left := steps - done;
    assert steps * d == done * d + left * d;
    ProductAtLeast(d, left);
    assert 0 <= done * d;
  }

  /** A journey under way still needs time, so none outlasts the longest there is. */
  lemma JourneyNeedsTime(w: World, k: nat)
    requires Inv(w) && k < |w.active|
    ensures 0 < TimeLeft(w.active[k]) <= LongestJourneyMs(w.width, w.height)
  {
    hide JumpsHold, RestsTrack, DistinctPieces, PiecesInPlace, JumpClocks, LongestJourneyMs;
    var m := w.active[k];
    assert Live(AllUnresolved(|w.active|), k);
    assert JourneyFits(w.width, w.height, m) && WellFormed(m);
    hide *;
    StepsTakeTime(|m.path| - 1, m.stepIndex, m.stepDuration, m.elapsed);
  }

  lemma TickWaits(w: World, v: World, spent: int, ms: int)
    requires WaitedFor(w, spent) && Aged(w, v, ms)
    ensures WaitedFor(v, spent + ms)
  {
    forall k | 0 <= k < |v.active|
      ensures TimeLeft(v.active[k]) <= LongestJourneyMs(v.width, v.height) - (spent + ms)
    {
      assert GoesOn(w.active, v.active[k], ms);
      var i :| 0 <= i < |w.active| && SameJourney(w.active[i], v.active[k], ms);
    }
    forall l | 0 <= l < |v.airborne|
      ensures v.airborne[l].elapsed >= spent + ms
    {
      assert IsOlder(w.airborne, v.airborne[l], ms);
    }
  }

  /** The first of a series of waits. */
  lemma FirstWait(g: Game, ticks: seq<int>)
    requires GameInv(g) && OrdinaryRun(g, Waits(ticks)) && ticks != []
    ensures ticks[0] >= 0 && OrdinaryWait(g.world, ticks[0]) && GameInv(Wait(g, ticks[0]))
    ensures OrdinaryRun(Wait(g, ticks[0]), Waits(ticks[1..]))
    ensures Run(g, Waits(ticks)) == Run(Wait(g, ticks[0]), Waits(ticks[1..]))
  {
    var run := Waits(ticks);
    assert run[0] == Elapse(ticks[0]) && run[1..] == Waits(ticks[1..]);
    hide Inv, Punctual, Wait, OrdinaryWait;
    StepKeepsGame(g, run[0]);
  }

  lemma {:induction false} WaitsAddUp(g: Game, ticks: seq<int>, spent: int)
    requires GameInv(g) && OrdinaryRun(g, Waits(ticks)) && WaitedFor(g.world, spent)
    ensures WaitedFor(Run(g, Waits(ticks)).world, spent + Total(ticks))
    decreases |ticks|
  {
    hide Inv, Punctual, Wait, OrdinaryWait, WaitedFor, Aged;
    if ticks != [] {
      FirstWait(g, ticks);
      hide OrdinaryRun, Waits;
      var h := Wait(g, ticks[0]);
      WaitKeepsPunctual(g, ticks[0]);
      TickWaits(g.world, h.world, spent, ticks[0]);
      WaitsAddUp(h, ticks[1..], spent + ticks[0]);
    }
  }

  lemma HasFirst<T>(s: seq<T>)
    requires s != []
    ensures s[0] in s
  {
  }

  /** After the longest journey's time nothing travels and nothing is in the air. */
  lemma TravelEnds(w: World)
    requires Inv(w) && WaitedFor(w, LongestJourneyMs(w.width, w.height))
    ensures w.active == [] && w.airborne == []
  {
    if w.active != [] {
      JourneyNeedsTime(w, 0);
    }
    if w.airborne != [] {
      HasFirst(w.airborne);
    }
  }

  /** Nothing is under way, and every rest has lasted `spent` ms at least. */
  ghost predicate RestedFor(w: World, spent: int) {
    w.active == [] && w.airborne == [] && forall r :: r in w.resting ==> r.elapsed >= spent
  }

  lemma QuietWait(g: Game, ms: int, spent: int)
    requires GameInv(g) && ms >= 0 && RestedFor(g.world, spent)
    ensures OrdinaryWait(g.world, ms) && RestedFor(Wait(g, ms).world, spent + ms)
  {
    QuietTick(g.world, ms);
    WaitIsApplyReports(g, ms);
    var t := Advance(g.world, ms);
    assert t.reports == [];
    forall r | r in t.resting
      ensures r.elapsed >= spent + ms
    {
      RestsLeftAreAdvanced(g.world.resting, ms, r);
    }
  }

  lemma {:induction false} QuietWaitsAddUp(g: Game, ticks: seq<int>, spent: int)
    requires GameInv(g) && OrdinaryRun(g, Waits(ticks)) && RestedFor(g.world, spent)
    ensures RestedFor(Run(g, Waits(ticks)).world, spent + Total(ticks))
    decreases |ticks|
  {
    hide Inv, Punctual, Wait, OrdinaryWait, RestedFor;
    if ticks != [] {
      FirstWait(g, ticks);
      hide OrdinaryRun, Waits;
      WaitIsForward(g, ticks[0]);
      QuietWait(g, ticks[0], spent);
      QuietWaitsAddUp(Wait(g, ticks[0]), ticks[1..], spent + ticks[0]);
    }
  }

  lemma WaitIsForward(g: Game, ms: int)
    requires OrdinaryWait(g.world, ms)
    ensures ms >= 0
  {
  }

  ghost predicate AtRest(w: World) {
    && w.active == [] && w.airborne == [] && w.resting == []
    && forall c :: c in w.cells ==> w.cells[c].state == Idle
  }

  lemma RestsEnd(w: World)
    requires Inv(w) && RestedFor(w, COOLDOWN_MS)
    ensures AtRest(w)
  {
    assert AllUnresolved(|w.active|) == [];
    assert RestsTrack(w.cells, w.airborne, w.resting);
    if w.resting != [] {
      HasFirst(w.resting);
    }
  }

  lemma NothingWaitedYet(w: World)
    requires Inv(w)
    ensures WaitedFor(w, 0)
  {
    forall k | 0 <= k < |w.active|
      ensures TimeLeft(w.active[k]) <= LongestJourneyMs(w.width, w.height)
    {
      JourneyNeedsTime(w, k);
    }
  }

  lemma NothingRestedYet(w: World)
    requires Inv(w) && w.active == [] && w.airborne == []
    ensures RestedFor(w, 0)
  {
  }

  lemma RestedLonger(w: World, spent: int, less: int)
    requires RestedFor(w, spent) && less <= spent
    ensures RestedFor(w, less)
  {
  }

  lemma WaitedLonger(w: World, spent: int, less: int)
    requires WaitedFor(w, spent) && less <= spent
    ensures WaitedFor(w, less)
  {
  }

  lemma {:induction false} SizesStayInRun(g: Game, ticks: seq<int>)
    requires GameInv(g) && OrdinaryRun(g, Waits(ticks))
    ensures var w := Run(g, Waits(ticks)).world; w.width == g.world.width && w.height == g.world.height
    decreases |ticks|
  {
    hide Inv, Punctual, Wait, OrdinaryWait, Aged;
    if ticks != [] {
      FirstWait(g, ticks);
      hide OrdinaryRun, Waits;
      WaitKeepsPunctual(g, ticks[0]);
      AgedKeepsSize(g.world, Wait(g, ticks[0]).world, ticks[0]);
      SizesStayInRun(Wait(g, ticks[0]), ticks[1..]);
    }
  }

  lemma AgedKeepsSize(w: World, v: World, ms: int)
    requires Aged(w, v, ms)
    ensures v.width == w.width && v.height == w.height
  {
  }

  lemma LongestIs(width: int, height: int)
    ensures var t := LongestJourneyMs(width, height);
            && (t == 1000 || t == 1000 * (width - 1) || t == 1000 * (height - 1))
            && t >= 1000 && t >= 1000 * (width - 1) && t >= 1000 * (height - 1)
  {
  }

  lemma LongWaitsBringRest(g: Game, first: seq<int>, second: seq<int>)
    requires GameInv(g) && OrdinaryRun(g, Waits(first)) && OrdinaryRun(Run(g, Waits(first)), Waits(second))
    requires Total(first) >= LongestJourneyMs(g.world.width, g.world.height) && Total(second) >= COOLDOWN_MS
    ensures AtRest(Run(Run(g, Waits(first)), Waits(second)).world)
  {
    hide *;
    var mid := Run(g, Waits(first));
    GameAgrees(g);
    GameAgrees(mid);
    GameAgrees(Run(mid, Waits(second)));
    NothingWaitedYet(g.world);
    WaitsAddUp(g, first, 0);
    SizesStayInRun(g, first);
    WaitedLonger(mid.world, Total(first), LongestJourneyMs(mid.world.width, mid.world.height));
    TravelEnds(mid.world);
    NothingRestedYet(mid.world);
    QuietWaitsAddUp(mid, second, 0);
    RestedLonger(Run(mid, Waits(second)).world, Total(second), COOLDOWN_MS);
    RestsEnd(Run(mid, Waits(second)).world);
  }

  /** Main result. Wait a second for each step of the longest journey the board allows, then a second for one rest, in
      ticks of any length: no journey, jump or rest is left and every piece is idle. */
  lemma GameComesToRest(g: Game, first: seq<int>, second: seq<int>)
    requires GameInv(g) && OrdinaryRun(g, Waits(first)) && OrdinaryRun(Run(g, Waits(first)), Waits(second))
    requires Total(first) >= 1000 && Total(second) >= 1000
    requires Total(first) >= 1000 * (g.world.width - 1) && Total(first) >= 1000 * (g.world.height - 1)
    ensures AtRest(Run(Run(g, Waits(first)), Waits(second)).world)
  {
    hide GameInv, OrdinaryRun, Run, Waits, Total, AtRest, LongestJourneyMs;
    LongestIs(g.world.width, g.world.height);
    LongWaitsBringRest(g, first, second);
  }
}
