/** Why journeys end: every journey a tick does not carry on ended at one recorded crossing, for one of four reasons. */
module JourneyEnds {
  import opened Model
  import opened Motions
  import opened ArbiterSpec
  import opened CrossingOrder
  import opened ArbiterTick
  import opened ArbiterInvariant
  import opened CrossingKeeps
  import opened LandingKeeps
  import opened Timing
  import opened CrossingLog

  /** Arrived at its target; stopped by a friend on its next square; given way to a jumper there; or its piece taken. */
  datatype Ending = Arrived | Blocked | Yielded | Taken

  /** Journey i, as it stood when the tick of `ms` began, crossed from square s of its path at this entry, at the very
      time its clock says. */
  ghost predicate OwnCrossing(e: Entry, i: nat, m: Motion, id: nat, ms: int, s: nat) {
    && e.index == i && e.mover.id == id
    && m.stepIndex <= s < |m.path| - 1 && e.from == m.path[s] && e.to == m.path[s + 1]
    && e.overshoot == Travelled(m) + ms - (s + 1) * m.stepDuration >= 0
  }

  /** The piece of journey i was taken at this entry, on square s of its path, before its target. */
  ghost predicate TakenAtStep(e: Entry, i: nat, m: Motion, id: nat, s: nat) {
    && e.index != i && OutcomeOf(e) == Capture && e.met.value.id == id
    && m.stepIndex <= s < |m.path| - 1 && e.to == m.path[s]
  }

  ghost predicate EndsAs(why: Ending, e: Entry, i: nat, m: Motion, id: nat, ms: int, s: nat) {
    match why
    case Arrived =>
      OwnCrossing(e, i, m, id, ms, s) && s + 1 == |m.path| - 1 && (OutcomeOf(e) == Free || OutcomeOf(e) == Capture)
    case Blocked => OwnCrossing(e, i, m, id, ms, s) && OutcomeOf(e) == BlockedByFriendly
    case Yielded => OwnCrossing(e, i, m, id, ms, s) && OutcomeOf(e) == CapturedByAirborne
    case Taken => TakenAtStep(e, i, m, id, s)
  }

  ghost predicate HasEnded(entries: seq<Entry>, i: nat, m: Motion, id: nat, ms: int) {
    exists why, a, s :: 0 <= a < |entries| && EndsAs(why, entries[a], i, m, id, ms, s)
  }

  /** The journey m, carrying piece `id`, so long into a tick: under way and on time, or ended for a recorded reason. */
  ghost predicate Accounted(t: Tick, i: nat, m: Motion, id: nat, ms: int)
    requires GroundedTick(t)
  {
    && i < |t.active| && 0 <= m.stepIndex
    && (if Live(t.resolved, i) then
          && SameJourney(m, t.active[i], ms) && m.stepIndex <= t.active[i].stepIndex < |m.path| - 1
          && t.active[i].elapsed >= 0 && t.cells[CurrentCell(t.active[i])].id == id
        else HasEnded(t.entries, i, m, id, ms))
  }

  lemma EndedStays(entries: seq<Entry>, e: Entry, i: nat, m: Motion, id: nat, ms: int)
    requires HasEnded(entries, i, m, id, ms)
    ensures HasEnded(entries + [e], i, m, id, ms)
  {
    var why, a, s :| 0 <= a < |entries| && EndsAs(why, entries[a], i, m, id, ms, s);
    assert (entries + [e])[a] == entries[a];
  }

  lemma EndsHere(entries: seq<Entry>, e: Entry, why: Ending, i: nat, m: Motion, id: nat, ms: int, s: nat)
    requires EndsAs(why, e, i, m, id, ms, s)
    ensures HasEnded(entries + [e], i, m, id, ms)
  {
    assert (entries + [e])[|entries|] == e;
  }

  lemma StepEnds(s: nat, d: int)
    ensures (s + 1) * d == s * d + d
  {
  }

  /** The crossing of a journey under way is one of its own, on time. */
  lemma CrossesOnTime(t: Tick, i: nat, m: Motion, id: nat, ms: int)
    requires GroundedTick(t) && Crossing(t, i) && Accounted(t, i, m, id, ms)
    ensures OwnCrossing(EntryOf(t, i), i, m, id, ms, t.active[i].stepIndex)
  {
    StepEnds(t.active[i].stepIndex, m.stepDuration);
  }

  /** What its own crossing leaves of a journey: it goes on from the next square, or it is over. */
  lemma OwnCrossingLeaves(t: Tick, i: nat)
    requires GroundedTick(t) && Crossing(t, i)
    ensures |ResolveEntry(t, i).active| == |t.active|
    ensures var u, e := ResolveEntry(t, i), EntryOf(t, i);
            Live(u.resolved, i) <==> (OutcomeOf(e) == Free || OutcomeOf(e) == Capture)
                                     && t.active[i].stepIndex + 2 < |t.active[i].path|
    ensures Live(ResolveEntry(t, i).resolved, i) ==> ResolveEntry(t, i).active[i] == CompleteStep(t.active[i])
  {
    hide EntersLiftedCell;
    CrossingLeaves(t, i);
    match ClassifyEntry(t, i)
    case BlockedByFriendly =>
    case CapturedByAirborne =>
    case Free =>
    case Capture => CaptureKeepsGrounded(Watched(t, i), NextCell(t.active[i]));
  }

  lemma OwnCrossingIsAccounted(t: Tick, i: nat, m: Motion, id: nat, ms: int)
    requires GroundedTick(t) && Crossing(t, i) && Accounted(t, i, m, id, ms)
    ensures GroundedTick(ResolveEntry(t, i)) && Accounted(ResolveEntry(t, i), i, m, id, ms)
  {
    var u, e, s := ResolveEntry(t, i), EntryOf(t, i), t.active[i].stepIndex;
    CrossingKeepsGrounded(t, i);
    EntryLogged(t, i);
    CrossingMoves(t, i);
    CrossesOnTime(t, i, m, id, ms);
    OwnCrossingLeaves(t, i);
    if Live(u.resolved, i) {
      CompletedStepSameJourney(t.active[i]);
      SameJourneyJoin(m, t.active[i], u.active[i], ms, 0);
    } else {
      hide ResolveEntry, EntryOf, OwnCrossing, Grounded;
      var why := match OutcomeOf(e) case BlockedByFriendly => Blocked case CapturedByAirborne => Yielded case _ => Arrived;
      EndsHere(t.entries, e, why, i, m, id, ms, s);
    }
  }

  /** The crossing of another journey ends this one only by taking its piece. */
  lemma OtherCrossingIsAccounted(t: Tick, n: nat, i: nat, m: Motion, id: nat, ms: int)
    requires Upheld(t) && Crossing(t, n) && n != i && Accounted(t, i, m, id, ms)
    ensures GroundedTick(ResolveEntry(t, n)) && Accounted(ResolveEntry(t, n), i, m, id, ms)
  {
    var u, e := ResolveEntry(t, n), EntryOf(t, n);
    CrossingKeepsGrounded(t, n);
    EntryLogged(t, n);
    if Live(u.resolved, i) {
      OtherMoversStay(t, n, i);
    } else if Live(t.resolved, i) {
      OnlyTakingEnds(t, n, i);
      hide ResolveEntry, EntryOf, Grounded;
      EndsHere(t.entries, e, Taken, i, m, id, ms, t.active[i].stepIndex);
    } else {
      EndedStays(t.entries, e, i, m, id, ms);
    }
  }

  lemma OnlyTakingEnds(t: Tick, n: nat, i: nat)
    requires Upheld(t) && Crossing(t, n) && n != i && Live(t.resolved, i) && !Live(ResolveEntry(t, n).resolved, i)
    ensures var e := EntryOf(t, n);
            OutcomeOf(e) == Capture && e.to == CurrentCell(t.active[i]) && e.met == Some(t.cells[e.to])
  {
    hide EntersLiftedCell;
    CrossingLeaves(t, n);
    CrossingKeepsGrounded(t, n);
    match ClassifyEntry(t, n)
    case BlockedByFriendly =>
    case CapturedByAirborne =>
    case Free =>
    case Capture => CaptureKeepsGrounded(Watched(t, n), NextCell(t.active[n]));
  }

  lemma {:induction false} PassIsAccounted(t: Tick, order: seq<nat>, i: nat, m: Motion, id: nat, ms: int)
    requires Upheld(t) && Pending(t, order) && Accounted(t, i, m, id, ms)
    ensures Accounted(Pass(t, order), i, m, id, ms) && Upheld(Pass(t, order))
    decreases |order|
  {
    if order != [] {
      if Live(t.resolved, order[0]) {
        CrossingKeepsPending(t, order);
        if order[0] == i {
          OwnCrossingIsAccounted(t, i, m, id, ms);
        } else {
          OtherCrossingIsAccounted(t, order[0], i, m, id, ms);
        }
        UpheldIsGrounded(t);
        CrossingUpholds(t, order[0]);
        hide Upheld, Pending, ResolveEntry, Accounted, Grounded;
        PassIsAccounted(ResolveEntry(t, order[0]), order[1..], i, m, id, ms);
      } else {
        PassIsAccounted(t, order[1..], i, m, id, ms);
      }
    }
  }

  lemma {:induction false} ReplayIsAccounted(t: Tick, i: nat, m: Motion, id: nat, ms: int)
    requires Upheld(t) && Accounted(t, i, m, id, ms)
    ensures Accounted(ResolveAll(t), i, m, id, ms)
    decreases Remaining(t.active, t.resolved)
  {
    var order := CrossingsByArrival(t.active, t.resolved);
    FoundCrossingsArePending(t);
    if order != [] {
      UpheldIsGrounded(t);
      hide Upheld, Grounded, Accounted;
      PassIsAccounted(t, order, i, m, id, ms);
      ReplayIsAccounted(Pass(t, order), i, m, id, ms);
    }
  }

  lemma BeginTickIsAccounted(w: World, ms: int, i: nat)
    requires Inv(w) && ms >= 0 && i < |w.active|
    ensures w.active[i].stepIndex < |w.active[i].path| && CurrentCell(w.active[i]) in w.cells
    ensures GroundedTick(BeginTick(w, ms))
    ensures Accounted(BeginTick(w, ms), i, w.active[i], w.cells[CurrentCell(w.active[i])].id, ms)
  {
    var b := BeginTick(w, ms);
    assert Live(AllUnresolved(|w.active|), i);
    AgreementIsGrounded(w);
    BeginTickIsGrounded(w, ms);
    AdvancedIsSameJourney(w.active, ms);
    RestsKeepWho(w.cells, w.resting, ms, CurrentCell(w.active[i]));
  }

  /** The journey goes on after the tick, `ms` older, with the same piece. */
  ghost predicate GoesOnWith(w: World, i: nat, u: Tick, ms: int)
    requires i < |w.active| && w.active[i].stepIndex < |w.active[i].path| && CurrentCell(w.active[i]) in w.cells
  {
    exists k :: 0 <= k < |u.active| && Continues(w, i, u, k, ms)
  }

  ghost predicate Continues(w: World, i: nat, u: Tick, k: nat, ms: int)
    requires i < |w.active| && w.active[i].stepIndex < |w.active[i].path| && CurrentCell(w.active[i]) in w.cells
    requires k < |u.active|
  {
    var m := u.active[k];
    && SameJourney(w.active[i], m, ms) && w.active[i].stepIndex <= m.stepIndex < |m.path| - 1
    && 0 <= m.elapsed < m.stepDuration
    && CurrentCell(m) in u.cells && u.cells[CurrentCell(m)].id == w.cells[CurrentCell(w.active[i])].id
  }

  lemma {:induction false} KeepIndex(active: seq<Motion>, resolved: seq<bool>, n: nat, i: nat) returns (k: nat)
    requires i < n <= |active| == |resolved| && Live(resolved, i)
    ensures k < |Keep(active, resolved, n)| && Keep(active, resolved, n)[k] == active[i]
  {
    KeepHoldsLive(active, resolved, n, i);
    k :| 0 <= k < |Keep(active, resolved, n)| && Keep(active, resolved, n)[k] == active[i];
  }

  lemma SurvivorsSettle(r: Tick, i: nat, m: Motion, id: nat, ms: int) returns (k: nat)
    requires GroundedTick(r) && Accounted(r, i, m, id, ms) && Live(r.resolved, i)
    requires !IsEnteringNextCell(r.active[i])
    ensures var t := DropResolved(r);
            && k < |t.active| && t.active[k] == r.active[i] && SameJourney(m, t.active[k], ms)
            && m.stepIndex <= t.active[k].stepIndex < |m.path| - 1
            && 0 <= t.active[k].elapsed < t.active[k].stepDuration
            && CurrentCell(t.active[k]) in t.cells && t.cells[CurrentCell(t.active[k])].id == id
  {
    k := KeepIndex(r.active, r.resolved, |r.active|, i);
  }

  /** Main result. After the crossings of any tick from a position in agreement, each journey there was either goes on
      with its piece, exactly `ms` older, or has ended at a recorded crossing: of its own, at the very time its clock
      says, onto its target, against a friend or under a jumper; or of another, that took its piece before the target. */
  lemma JourneysEndForAReason(w: World, ms: int, i: nat)
    requires Inv(w) && ms >= 0 && GroundedWorld(w) && i < |w.active|
    ensures w.active[i].stepIndex < |w.active[i].path| && CurrentCell(w.active[i]) in w.cells
    ensures var t := AfterCrossings(w, ms);
            || GoesOnWith(w, i, t, ms)
            || HasEnded(t.entries, i, w.active[i], w.cells[CurrentCell(w.active[i])].id, ms)
  {
    hide Inv, BeginTick, Upheld, HasEnded, Grounded, GroundedWorld, Continues;
    BeginTickIsAccounted(w, ms, i);
    BeginTickIsUpheld(w, ms);
    var b, m, id := BeginTick(w, ms), w.active[i], w.cells[CurrentCell(w.active[i])].id;
    ReplayIsAccounted(b, i, m, id, ms);
    var r := ResolveAll(b);
    AccountedGoesOn(w, r, i, ms);
  }

  lemma AccountedGoesOn(w: World, r: Tick, i: nat, ms: int)
    requires i < |w.active| && w.active[i].stepIndex < |w.active[i].path| && CurrentCell(w.active[i]) in w.cells
    requires GroundedTick(r) && Accounted(r, i, w.active[i], w.cells[CurrentCell(w.active[i])].id, ms)
    requires forall j :: Live(r.resolved, j) ==> !IsEnteringNextCell(r.active[j])
    ensures || GoesOnWith(w, i, DropResolved(r), ms)
            || HasEnded(r.entries, i, w.active[i], w.cells[CurrentCell(w.active[i])].id, ms)
  {
    if Live(r.resolved, i) {
      hide HasEnded;
      var k := SurvivorsSettle(r, i, w.active[i], w.cells[CurrentCell(w.active[i])].id, ms);
      assert Continues(w, i, DropResolved(r), k, ms);
    }
  }

  // ---- and after the landings ----

  /** Landings leave every square without a jump alone, start no jump and end no journey. */
  lemma {:induction false} LandingsLeaveOthers(t: Tick, k: nat, c: Position)
    requires k <= |t.airborne| && LandingsGrounded(t.cells, t.airborne)
    requires forall l :: 0 <= l < |t.airborne| ==> t.airborne[l].cell != c
    ensures var u := LandAll(t, k);
            && u.active == t.active && (c in u.cells <==> c in t.cells) && (c in t.cells ==> u.cells[c] == t.cells[c])
            && (forall l :: 0 <= l < |u.airborne| ==> u.airborne[l].cell != c)
    decreases |t.airborne| - k
  {
    if k < |t.airborne| {
      LandOneKeepsGrounded(t, k);
      LandOneLeavesOthers(t, k, c);
      hide LandOne, LandingsGrounded, NextJump;
      LandingsLeaveOthers(LandOne(t, k), NextJump(t, k), c);
    }
  }

  lemma LandOneLeavesOthers(t: Tick, k: nat, c: Position)
    requires k < |t.airborne| && LandingsGrounded(t.cells, t.airborne)
    requires forall l :: 0 <= l < |t.airborne| ==> t.airborne[l].cell != c
    ensures var u := LandOne(t, k);
            && u.active == t.active && (c in u.cells <==> c in t.cells) && (c in t.cells ==> u.cells[c] == t.cells[c])
            && (forall l :: 0 <= l < |u.airborne| ==> u.airborne[l].cell != c)
            && NextJump(t, k) <= |u.airborne|
  {
    if HasLanded(AdvanceJump(t.airborne[k], t.delta)) {
      var u := LandOne(t, k);
      assert u.airborne == Without(t.airborne, k);
      forall l | 0 <= l < |u.airborne|
        ensures u.airborne[l].cell != c
      {
        WithoutAt(t.airborne, k, l);
      }
    }
  }

  lemma ContinuesSomewhere(w: World, i: nat, t: Tick, k: nat, ms: int)
    requires i < |w.active| && w.active[i].stepIndex < |w.active[i].path| && CurrentCell(w.active[i]) in w.cells
    requires k < |t.active| && Continues(w, i, t, k, ms)
    ensures t.active[k].stepIndex < |t.active[k].path|
  {
  }

  lemma ContinuesAfter(w: World, i: nat, t: Tick, u: Tick, k: nat, ms: int)
    requires i < |w.active| && w.active[i].stepIndex < |w.active[i].path| && CurrentCell(w.active[i]) in w.cells
    requires k < |t.active| && Continues(w, i, t, k, ms) && u.active == t.active
    requires t.active[k].stepIndex < |t.active[k].path|
    requires var c := CurrentCell(t.active[k]);
             (c in u.cells <==> c in t.cells) && (c in t.cells ==> u.cells[c] == t.cells[c])
    ensures Continues(w, i, u, k, ms)
  {
  }

  lemma GoingOnSurvivesLandings(w: World, ms: int, i: nat)
    requires Inv(w) && ms >= 0 && GroundedWorld(w) && OrdinaryTick(w, ms) && i < |w.active|
    requires w.active[i].stepIndex < |w.active[i].path| && CurrentCell(w.active[i]) in w.cells
    requires GoesOnWith(w, i, AfterCrossings(w, ms), ms)
    ensures var t := AfterCrossings(w, ms); LandingsGrounded(t.cells, t.airborne)
    ensures GoesOnWith(w, i, Advance(w, ms), ms)
  {
    hide Inv, ConsistentExcept, AfterCrossings, Grounded, GroundedWorld, OrdinaryTick, LandingsGrounded, Continues;
    AfterCrossingsIsConsistent(w, ms);
    var t := AfterCrossings(w, ms);
    var k :| 0 <= k < |t.active| && Continues(w, i, t, k, ms);
    ContinuesSomewhere(w, i, t, k, ms);
    var c := CurrentCell(t.active[k]);
    forall l | 0 <= l < |t.airborne|
      ensures t.airborne[l].cell != c
    {
      MoverHasNoJump(t, k, l);
    }
    LandingsLeaveOthers(t, 0, c);
    ContinuesAfter(w, i, t, LandAll(t, 0), k, ms);
  }

  /** Main result. A journey gone after an ordinary tick has ended at a recorded crossing, for one of the four reasons;
      any other goes on with its piece, exactly `ms` older. */
  lemma GoneJourneysHaveEnded(w: World, ms: int, i: nat)
    requires Inv(w) && ms >= 0 && GroundedWorld(w) && OrdinaryTick(w, ms) && i < |w.active|
    ensures w.active[i].stepIndex < |w.active[i].path| && CurrentCell(w.active[i]) in w.cells
    ensures var t := AfterCrossings(w, ms);
            && LandingsGrounded(t.cells, t.airborne)
            && (|| GoesOnWith(w, i, Advance(w, ms), ms)
                || HasEnded(t.entries, i, w.active[i], w.cells[CurrentCell(w.active[i])].id, ms))
  {
    hide Inv, GroundedWorld, OrdinaryTick, AfterCrossings, Advance, GoesOnWith, HasEnded, LandingsGrounded;
    EveryTickLands(w, ms);
    JourneysEndForAReason(w, ms, i);
    if GoesOnWith(w, i, AfterCrossings(w, ms), ms) {
      GoingOnSurvivesLandings(w, ms, i);
    }
  }
}
