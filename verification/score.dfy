/** Conservation over whole runs: however pieces are weighed, those announced taken and those still in play weigh
    together what stood at the start, corrected for promotions. Scores and head counts are two ways to weigh. */
module Score {
  import opened Model
  import opened Motions
  import opened Rules
  import opened ArbiterSpec
  import opened ArbiterTick
  import opened ArbiterInvariant
  import opened LandingKeeps
  import opened Conservation
  import opened EngineSpec
  import opened EngineRuns

  // ---- the score board ----

  /** The points each player has gained from captures. */
  class ScoreBoard {
    var white: int
    var black: int

    constructor ()
      ensures white == 0 && black == 0
    {
      white, black := 0, 0;
    }

    function ScoreFor(player: Color): int
      reads this
    {
      if player == White then white else black
    }

    /** The victim's opponent gains its worth; the victim's owner gains nothing. */
    method Record(captured: CapturedPiece)
      modifies this
      ensures ScoreFor(OpponentOf(captured.color)) == old(ScoreFor(OpponentOf(captured.color))) +
                match captured.kind
                case King => 0
                case Queen => 9
                case Rook => 5
                case Bishop => 3
                case Knight => 3
                case Pawn => 1
      ensures ScoreFor(captured.color) == old(ScoreFor(captured.color))
    {
      var cost := CostOf(captured.kind);
      if OpponentOf(captured.color) == White {
        white := white + cost;
      } else {
        black := black + cost;
      }
    }

    /** A score board that has heard every announcement shows the score of the whole game. */
    method Replay(announced: seq<Announcement>)
      requires ScoreFor(White) == 0 && ScoreFor(Black) == 0
      modifies this
      ensures forall player :: ScoreFor(player) == ScoreOf(announced, player)
    {
      for k := 0 to |announced|
        invariant forall player :: ScoreFor(player) == ScoreOf(announced[..k], player)
      {
        assert announced[..k + 1] == announced[..k] + [announced[k]];
        if announced[k].Took? {
          ghost var other := OpponentOf(OpponentOf(announced[k].piece.color));
          Record(announced[k].piece);
        }
      }
      assert announced[..|announced|] == announced;
    }
  }

  /** A way to weigh pieces. */
  type Weight = (Kind, Color) -> int

  /** Announced victims, weighed. */
  function Tally(announced: seq<Announcement>, weight: Weight): int {
    if announced == [] then 0
    else
      var last := announced[|announced| - 1];
      Tally(announced[..|announced| - 1], weight) + if last.Took? then weight(last.piece.kind, last.piece.color) else 0
  }

  /** What pieces are worth to a player: the cost of every enemy piece. */
  function FoeCost(player: Color): Weight {
    (kind, color) => if color == OpponentOf(player) then CostOf(kind) else 0
  }

  /** A player's score: the cost of every enemy piece taken. */
  function ScoreOf(announced: seq<Announcement>, player: Color): int {
    Tally(announced, FoeCost(player))
  }

  // ---- material in play ----

  /** The pieces in play, as a set. */
  ghost function PlayingSet(w: World): set<Identity> {
    (set c | c in w.cells :: IdOf(w.cells[c]))
    + (set l | 0 <= l < |w.airborne| && IsLifted(w.airborne[l]) :: IdOf(w.airborne[l].lifted.value))
  }

  lemma PlayingSetIsInPlay(w: World, x: Identity)
    ensures x in PlayingSet(w) <==> InPlay(w.cells, w.airborne, x)
  {
    if Lifted(w.airborne, x) {
      var l :| 0 <= l < |w.airborne| && IsLifted(w.airborne[l]) && IdOf(w.airborne[l].lifted.value) == x;
    }
  }

  ghost function SumWeight(s: set<Identity>, weight: Weight): int {
    if s == {} then 0
    else
      var x :| x in s;
      weight(x.kind, x.color) + SumWeight(s - {x}, weight)
  }

  lemma {:induction false} SumWeightRemove(s: set<Identity>, x: Identity, weight: Weight)
    requires x in s
    ensures SumWeight(s, weight) == weight(x.kind, x.color) + SumWeight(s - {x}, weight)
  {
    var y :| y in s && SumWeight(s, weight) == weight(y.kind, y.color) + SumWeight(s - {y}, weight);
    if y != x {
      SumWeightRemove(s - {y}, x, weight);
      SumWeightRemove(s - {x}, y, weight);
      assert s - {y} - {x} == s - {x} - {y};
    }
  }

  lemma SumWeightAdd(s: set<Identity>, x: Identity, weight: Weight)
    requires x !in s
    ensures SumWeight(s + {x}, weight) == weight(x.kind, x.color) + SumWeight(s, weight)
  {
    SumWeightRemove(s + {x}, x, weight);
    assert s + {x} - {x} == s;
  }

  /** All that is in play, weighed. */
  ghost function Material(w: World, weight: Weight): int {
    SumWeight(PlayingSet(w), weight)
  }

  // ---- a tick ----

  function CapturedWeight(captures: seq<CapturedPiece>, weight: Weight): int {
    if captures == [] then 0
    else
      var last := captures[|captures| - 1];
      CapturedWeight(captures[..|captures| - 1], weight) + weight(last.kind, last.color)
  }

  ghost function VictimSet(victims: seq<Piece>): set<Identity> {
    set v | 0 <= v < |victims| :: IdOf(victims[v])
  }

  lemma {:induction false} VictimsWeigh(s: set<Identity>, victims: seq<Piece>, weight: Weight)
    requires forall v :: 0 <= v < |victims| ==> IdOf(victims[v]) !in s
    requires forall v, u :: 0 <= v < u < |victims| ==> victims[v].id != victims[u].id
    ensures SumWeight(s + VictimSet(victims), weight) == SumWeight(s, weight) + CapturedWeight(AsCaptured(victims), weight)
  {
    if victims == [] {
      assert s + VictimSet(victims) == s;
    } else {
      var n := |victims| - 1;
      var x := IdOf(victims[n]);
      VictimsWeigh(s, victims[..n], weight);
      assert AsCaptured(victims)[..n] == AsCaptured(victims[..n]);
      assert s + VictimSet(victims) == (s + VictimSet(victims[..n])) + {x} by {
        forall v | 0 <= v < |victims|
          ensures IdOf(victims[v]) in VictimSet(victims[..n]) + {x}
        {
          assert v < n ==> victims[..n][v] == victims[v];
        }
      }
      assert x !in s + VictimSet(victims[..n]);
      SumWeightAdd(s + VictimSet(victims[..n]), x, weight);
    }
  }

  lemma TakenAreVictims(victims: seq<Piece>)
    ensures forall x :: Taken(victims, x) <==> x in VictimSet(victims)
  {
  }

  /** Over an ordinary tick exactly the weight of the reported victims leaves play. */
  lemma TickConservesMaterial(w: World, delta: int, weight: Weight)
    requires Inv(w) && delta >= 0 && GroundedWorld(w) && OrdinaryTick(w, delta)
    ensures var t := AfterCrossings(w, delta); LandingsGrounded(t.cells, t.airborne)
    ensures var u := Advance(w, delta);
            Material(w, weight) == Material(WorldOf(u), weight) + CapturedWeight(CapturesOf(u.reports), weight)
  {
    hide Inv, GroundedWorld, OrdinaryTick, LandingsGrounded, AfterCrossings, Advance, InPlay, TakenForGood, Taken;
    AdvanceConserves(w, delta);
    var u := Advance(w, delta);
    var before, after := PlayingSet(w), PlayingSet(WorldOf(u));
    forall x
      ensures (x in before <==> InPlay(w.cells, w.airborne, x)) && (x in after <==> InPlay(u.cells, u.airborne, x))
    {
      PlayingSetIsInPlay(w, x);
      PlayingSetIsInPlay(WorldOf(u), x);
    }
    VictimsAreOut(u.cells, u.airborne, u.victims);
    TakenAreVictims(u.victims);
    assert before == after + VictimSet(u.victims);
    VictimsWeigh(after, u.victims, weight);
  }

  lemma VictimsAreOut(cells: Cells, airborne: seq<Jump>, victims: seq<Piece>)
    requires TakenForGood(cells, airborne, victims)
    ensures forall v :: 0 <= v < |victims| ==> !InPlay(cells, airborne, IdOf(victims[v]))
    ensures forall v, u :: 0 <= v < u < |victims| ==> victims[v].id != victims[u].id
  {
  }

  // ---- reports ----

  /** What promotions have added. */
  function Promotions(promoted: seq<Color>, weight: Weight): int {
    if promoted == [] then 0
    else
      var color := promoted[|promoted| - 1];
      Promotions(promoted[..|promoted| - 1], weight) + weight(Queen, color) - weight(Pawn, color)
  }

  lemma OneMoreAnnounced(announced: seq<Announcement>, a: Announcement, weight: Weight)
    ensures Tally(announced + [a], weight) ==
              Tally(announced, weight) + if a.Took? then weight(a.piece.kind, a.piece.color) else 0
  {
    assert (announced + [a])[..|announced|] == announced;
  }

  lemma OneMorePromoted(promoted: seq<Color>, color: Color, weight: Weight)
    ensures Promotions(promoted + [color], weight) ==
              Promotions(promoted, weight) + weight(Queen, color) - weight(Pawn, color)
  {
    assert (promoted + [color])[..|promoted|] == promoted;
  }

  lemma PawnBecomesQueen(w: World, v: World, c: Position)
    requires DistinctPieces(w.cells, w.airborne) && c in w.cells && w.cells[c].kind == Pawn
    requires v == w.(cells := w.cells[c := w.cells[c].(kind := Queen)])
    ensures var pawn, queen := IdOf(w.cells[c]), IdOf(v.cells[c]);
            && pawn in PlayingSet(w) && queen !in PlayingSet(w) - {pawn}
            && PlayingSet(v) == (PlayingSet(w) - {pawn}) + {queen}
  {
    var pawn, queen := IdOf(w.cells[c]), IdOf(v.cells[c]);
    hide PlayingSet, InPlay, DistinctPieces;
    forall x
      ensures x in PlayingSet(v) <==> x == queen || (x in PlayingSet(w) && x != pawn)
    {
      PlayingSetIsInPlay(w, x);
      PlayingSetIsInPlay(v, x);
      PromotionSwaps(w, v, c, x);
    }
    PawnPlays(w, c);
    PlayingSetIsInPlay(w, queen);
    PromotedIsNew(w, v, c);
  }

  lemma PawnPlays(w: World, c: Position)
    requires c in w.cells
    ensures IdOf(w.cells[c]) in PlayingSet(w)
  {
  }

  /** The world in which the pawn on this square has become a queen. */
  function Queened(w: World, c: Position): World
    requires c in w.cells
  {
    w.(cells := w.cells[c := w.cells[c].(kind := Queen)])
  }

  lemma PromotesOrNot(g: Game, c: Position)
    ensures var h := PromoteAt(g, c);
            || h == g
            || (c in g.world.cells && g.world.cells[c].kind == Pawn
                && h.world == Queened(g.world, c) && h.promoted == g.promoted + [g.world.cells[c].color])
  {
  }

  lemma QueeningWeighs(w: World, c: Position, weight: Weight)
    requires DistinctPieces(w.cells, w.airborne) && c in w.cells && w.cells[c].kind == Pawn
    ensures var color := w.cells[c].color;
            Material(Queened(w, c), weight) == Material(w, weight) + weight(Queen, color) - weight(Pawn, color)
  {
    var pawn, queen := IdOf(w.cells[c]), IdOf(Queened(w, c).cells[c]);
    PawnBecomesQueen(w, Queened(w, c), c);
    hide PlayingSet, DistinctPieces;
    SumWeightRemove(PlayingSet(w), pawn, weight);
    SumWeightAdd(PlayingSet(w) - {pawn}, queen, weight);
  }

  lemma QueeningKeepsDistinct(w: World, c: Position)
    requires DistinctPieces(w.cells, w.airborne) && c in w.cells
    ensures DistinctPieces(Queened(w, c).cells, Queened(w, c).airborne)
  {
  }

  /** Promoting a pawn puts a queen in its place. */
  lemma PromotionWeighs(g: Game, c: Position, weight: Weight)
    requires DistinctPieces(g.world.cells, g.world.airborne)
    ensures var h := PromoteAt(g, c);
            && DistinctPieces(h.world.cells, h.world.airborne)
            && Material(h.world, weight) - Promotions(h.promoted, weight)
               == Material(g.world, weight) - Promotions(g.promoted, weight)
  {
    hide DistinctPieces, Material, Promotions, PromoteAt, Queened;
    PromotesOrNot(g, c);
    if PromoteAt(g, c) != g {
      QueeningWeighs(g.world, c, weight);
      QueeningKeepsDistinct(g.world, c);
      OneMorePromoted(g.promoted, g.world.cells[c].color, weight);
    }
  }

  lemma PromotedIsNew(w: World, v: World, c: Position)
    requires DistinctPieces(w.cells, w.airborne) && c in w.cells && w.cells[c].kind == Pawn
    requires v == w.(cells := w.cells[c := w.cells[c].(kind := Queen)])
    ensures !InPlay(w.cells, w.airborne, IdOf(v.cells[c]))
  {
  }

  lemma PromotionSwaps(w: World, v: World, c: Position, x: Identity)
    requires DistinctPieces(w.cells, w.airborne) && c in w.cells
    requires v == w.(cells := w.cells[c := w.cells[c].(kind := Queen)])
    ensures InPlay(v.cells, v.airborne, x) <==>
              x == IdOf(v.cells[c]) || (InPlay(w.cells, w.airborne, x) && x != IdOf(w.cells[c]))
  {
    if x == IdOf(v.cells[c]) {
      assert OnBoard(v.cells, x);
    }
    if OnBoard(w.cells, x) && x != IdOf(w.cells[c]) {
      var d :| d in w.cells && IdOf(w.cells[d]) == x;
      assert d in v.cells && IdOf(v.cells[d]) == x;
    }
    if OnBoard(v.cells, x) {
      var d :| d in v.cells && IdOf(v.cells[d]) == x;
      assert d != c ==> d in w.cells && IdOf(w.cells[d]) == x;
    }
  }

  lemma PromotingKeepsAnnounced(g: Game, c: Position)
    ensures PromoteAt(g, c).announced == g.announced
  {
  }

  lemma OneReportTallies(g: Game, r: ArrivalReport, weight: Weight)
    requires DistinctPieces(g.world.cells, g.world.airborne)
    ensures var h := ApplyReport(g, r);
            && DistinctPieces(h.world.cells, h.world.airborne)
            && Tally(h.announced, weight) == Tally(g.announced, weight)
                 + (if r.captured.Some? then weight(r.captured.value.kind, r.captured.value.color) else 0)
            && Material(h.world, weight) - Promotions(h.promoted, weight)
               == Material(g.world, weight) - Promotions(g.promoted, weight)
  {
    hide DistinctPieces, Material, Promotions, PromotedKind, Tally, PromoteAt;
    PromotingKeepsAnnounced(Announce(g, r.captured), r.destination);
    if r.captured.Some? {
      OneMoreAnnounced(g.announced, Took(r.captured.value), weight);
    }
    PromotionWeighs(Announce(g, r.captured), r.destination, weight);
  }

  lemma OneMoreCaptured(reports: seq<ArrivalReport>, weight: Weight)
    requires reports != []
    ensures var r := reports[|reports| - 1];
            CapturedWeight(CapturesOf(reports), weight) == CapturedWeight(CapturesOf(reports[..|reports| - 1]), weight)
              + if r.captured.Some? then weight(r.captured.value.kind, r.captured.value.color) else 0
  {
    var front, r := CapturesOf(reports[..|reports| - 1]), reports[|reports| - 1];
    if r.captured.Some? {
      assert CapturesOf(reports) == front + [r.captured.value];
      assert (front + [r.captured.value])[..|front|] == front;
    } else {
      assert CapturesOf(reports) == front;
    }
  }

  /** Reports: every victim is tallied, and every promotion counted. */
  lemma {:induction false} ReportsTally(g: Game, reports: seq<ArrivalReport>, weight: Weight)
    requires DistinctPieces(g.world.cells, g.world.airborne)
    ensures var h := ApplyReports(g, reports);
            && DistinctPieces(h.world.cells, h.world.airborne)
            && Tally(h.announced, weight) == Tally(g.announced, weight) + CapturedWeight(CapturesOf(reports), weight)
            && Material(h.world, weight) - Promotions(h.promoted, weight)
               == Material(g.world, weight) - Promotions(g.promoted, weight)
  {
    hide DistinctPieces, Material, Promotions, ApplyReport, Tally;
    if reports != [] {
      var n := |reports| - 1;
      hide CapturesOf, CapturedWeight;
      ReportsTally(g, reports[..n], weight);
      OneMoreCaptured(reports, weight);
      OneReportTallies(ApplyReports(g, reports[..n]), reports[n], weight);
    }
  }

  // ---- runs ----

  /** Taken and still in play, weighed, promotions taken out. */
  ghost function Balance(g: Game, weight: Weight): int {
    Tally(g.announced, weight) + Material(g.world, weight) - Promotions(g.promoted, weight)
  }

  lemma CommandKeepsMaterial(w: World, v: World, weight: Weight)
    requires v.cells.Keys == w.cells.Keys && forall c :: c in w.cells ==> IdOf(v.cells[c]) == IdOf(w.cells[c])
    requires forall x :: Lifted(v.airborne, x) <==> Lifted(w.airborne, x)
    ensures Material(v, weight) == Material(w, weight)
  {
    SameIdentities(w.cells, v.cells);
    forall x
      ensures x in PlayingSet(v) <==> x in PlayingSet(w)
    {
      PlayingSetIsInPlay(w, x);
      PlayingSetIsInPlay(v, x);
    }
    assert PlayingSet(v) == PlayingSet(w);
  }

  lemma WaitKeepsBalance(g: Game, ms: int, weight: Weight)
    requires GameInv(g) && OrdinaryWait(g.world, ms)
    ensures Balance(Wait(g, ms), weight) == Balance(g, weight)
  {
    AdvanceKeepsInv(g.world, ms);
    WaitIsApplyReports(g, ms);
    TickConservesMaterial(g.world, ms, weight);
    var t := Advance(g.world, ms);
    assert DistinctPieces(t.cells, t.airborne);
    hide Inv, GameInv, Advance, Wait, ApplyReports, Material;
    ReportsTally(g.(elapsedMs := g.elapsedMs + ms, world := WorldOf(t)), t.reports, weight);
  }

  lemma StepKeepsBalance(g: Game, c: Command, weight: Weight)
    requires GameInv(g) && OrdinaryCommand(g, c)
    ensures Balance(GameStep(g, c), weight) == Balance(g, weight)
  {
    var h := GameStep(g, c);
    match c
    case MoveTo(from, to) =>
      if MoveReply(g, from, to) == Ok {
        CommandKeepsMaterial(g.world, h.world, weight);
        OneMoreAnnounced(g.announced, MoveAnnounced(g, g.world.cells[from], from, to, false), weight);
      }
    case JumpOn(cell) =>
      if JumpReply(g, cell) == Reply(Ok) {
        forall x
          ensures Lifted(h.world.airborne, x) <==> Lifted(g.world.airborne, x)
        {
          JumpLiftsNobody(g.world.airborne, cell, x);
        }
        CommandKeepsMaterial(g.world, h.world, weight);
        OneMoreAnnounced(g.announced, MoveAnnounced(g, g.world.cells[cell], cell, cell, true), weight);
      }
    case Elapse(ms) => WaitKeepsBalance(g, ms, weight);
    case Forfeit =>
  }

  /** Main result, over every ordinary run and for every way to weigh pieces: what has been announced taken and what is
      in play weigh together what they weighed at the start, corrected for promotions. Nobody is lost, taken twice, or
      taken unannounced. */
  lemma {:induction false} RunConserves(g: Game, run: seq<Command>, weight: Weight)
    requires GameInv(g) && OrdinaryRun(g, run)
    ensures Balance(Run(g, run), weight) == Balance(g, weight)
    decreases |run|
  {
    if run != [] {
      StepKeepsGame(g, run[0]);
      StepKeepsBalance(g, run[0], weight);
      hide Balance;
      RunConserves(GameStep(g, run[0]), run[1..], weight);
    }
  }

  // ---- scores ----

  /** How many of these are of this colour. */
  function Count(colors: seq<Color>, color: Color): nat {
    if colors == [] then 0
    else Count(colors[..|colors| - 1], color) + if colors[|colors| - 1] == color then 1 else 0
  }

  lemma {:induction false} PromotionsCost(promoted: seq<Color>, player: Color)
    ensures Promotions(promoted, FoeCost(player)) == 8 * Count(promoted, OpponentOf(player))
  {
    if promoted != [] {
      PromotionsCost(promoted[..|promoted| - 1], player);
    }
  }

  /** Over every ordinary run a player's score plus what the opponent still has in play is what they were at the start
      plus eight for each of the opponent's promotions since. */
  lemma ScoreIsMaterialLost(g: Game, run: seq<Command>, player: Color)
    requires GameInv(g) && OrdinaryRun(g, run)
    ensures var h, foe := Run(g, run), OpponentOf(player);
            ScoreOf(h.announced, player) + Material(h.world, FoeCost(player)) - 8 * Count(h.promoted, foe)
            == ScoreOf(g.announced, player) + Material(g.world, FoeCost(player)) - 8 * Count(g.promoted, foe)
  {
    hide GameInv, OrdinaryRun, Run;
    RunConserves(g, run, FoeCost(player));
    PromotionsCost(g.promoted, player);
    PromotionsCost(Run(g, run).promoted, player);
  }

  // ---- head counts ----

  /** One for each piece of a kind and colour. */
  function Head(kind: Kind, color: Color): Weight {
    (k, c) => if k == kind && c == color then 1 else 0
  }

  /** The pieces of one kind and colour in play. */
  ghost function Heads(w: World, kind: Kind, color: Color): set<Identity> {
    set x | x in PlayingSet(w) && x.kind == kind && x.color == color
  }

  lemma {:induction false} HeadsAreCounted(s: set<Identity>, kind: Kind, color: Color)
    ensures SumWeight(s, Head(kind, color)) == |set x | x in s && x.kind == kind && x.color == color|
  {
    var heads := set x | x in s && x.kind == kind && x.color == color;
    if s == {} {
      assert heads == {};
    } else {
      var x :| x in s;
      HeadsAreCounted(s - {x}, kind, color);
      SumWeightRemove(s, x, Head(kind, color));
      var fewer := set y | y in s - {x} && y.kind == kind && y.color == color;
      assert fewer == heads - {x};
    }
  }

  /** How many pieces of a kind and colour have been announced taken. */
  function TakenHeads(announced: seq<Announcement>, kind: Kind, color: Color): int {
    Tally(announced, Head(kind, color))
  }

  /** How many there are more of this kind and colour for promotions. */
  function Risen(promoted: seq<Color>, kind: Kind, color: Color): int {
    if kind == Queen then Count(promoted, color) else if kind == Pawn then 0 - Count(promoted, color) else 0
  }

  lemma {:induction false} PromotionsRise(promoted: seq<Color>, kind: Kind, color: Color)
    ensures Promotions(promoted, Head(kind, color)) == Risen(promoted, kind, color)
  {
    if promoted != [] {
      PromotionsRise(promoted[..|promoted| - 1], kind, color);
    }
  }

  /** Main result, over every ordinary run, for each kind and colour: as many as were in play at the start have been taken
      since or are in play still, but for the pawns that have become queens. */
  lemma RunKeepsHeadCount(g: Game, run: seq<Command>, kind: Kind, color: Color)
    requires GameInv(g) && OrdinaryRun(g, run)
    ensures var h := Run(g, run);
            TakenHeads(h.announced, kind, color) + |Heads(h.world, kind, color)| - Risen(h.promoted, kind, color)
            == TakenHeads(g.announced, kind, color) + |Heads(g.world, kind, color)| - Risen(g.promoted, kind, color)
  {
    hide GameInv, OrdinaryRun, Run;
    RunConserves(g, run, Head(kind, color));
    PromotionsRise(g.promoted, kind, color);
    PromotionsRise(Run(g, run).promoted, kind, color);
    HeadsAreCounted(PlayingSet(g.world), kind, color);
    HeadsAreCounted(PlayingSet(Run(g, run).world), kind, color);
  }
}
