/** Head counts of a hosted game: ratings are settled once for each king the room has lost and once for a forfeit. */
module Census {
  import opened Model
  import opened ArbiterSpec
  import opened EngineSpec
  import opened EngineRuns
  import opened OrdinaryPlay
  import opened Score
  import opened Notation
  import opened Ratings
  import opened Seats
  import opened Sessions
  import opened Rooms
  import opened RoomRuns

  /** The kings of a colour in play. */
  ghost function KingsIn(w: World, color: Color): nat {
    |Heads(w, King, color)|
  }

  /** Kings are announced taken in their own colour. */
  lemma {:induction false} KingColorsAreTallied(announced: seq<Announcement>, color: Color)
    ensures Count(KingColors(announced), color) == TakenHeads(announced, King, color)
  {
    if announced != [] {
      var front, last := announced[..|announced| - 1], announced[|announced| - 1];
      KingColorsAreTallied(front, color);
      assert KingColors(front) + [] == KingColors(front);
      if last.Took? && last.piece.kind == King {
        OneMoreCounted(KingColors(front), last.piece.color, color);
      }
    }
  }

  lemma OneMoreCounted(colors: seq<Color>, c: Color, color: Color)
    ensures Count(colors + [c], color) == Count(colors, color) + if c == color then 1 else 0
  {
    assert (colors + [c])[..|colors|] == colors;
  }

  lemma {:induction false} EveryColor(colors: seq<Color>)
    ensures Count(colors, White) + Count(colors, Black) == |colors|
  {
    if colors != [] {
      EveryColor(colors[..|colors| - 1]);
    }
  }

  lemma KingsAreTallied(announced: seq<Announcement>)
    ensures KingsTaken(announced) == TakenHeads(announced, King, White) + TakenHeads(announced, King, Black)
  {
    EveryColor(KingColors(announced));
    KingColorsAreTallied(announced, White);
    KingColorsAreTallied(announced, Black);
  }

  // ---- one event of a room ----

  lemma {:induction false} CountDownKeepsBalance(s: Session, vacancies: seq<Vacancy>, ms: int, weight: Weight)
    requires SessionInv(s)
    ensures Balance(CountDown(s, vacancies, ms).game, weight) == Balance(s.game, weight)
  {
    if vacancies != [] {
      var n := |vacancies| - 1;
      CountDownKeepsBalance(s, vacancies[..n], ms, weight);
      hide SessionInv;
      CountOneKeepsBalance(CountDown(s, vacancies[..n], ms), vacancies[n], ms, weight);
    }
  }

  lemma CountOneKeepsBalance(s: Session, v: Vacancy, ms: int, weight: Weight)
    requires SessionInv(s)
    ensures Balance(CountOne(s, v, ms).game, weight) == Balance(s.game, weight)
  {
    hide SessionInv, OnPaths, FrameOf, IsTaken, Persisted, Settled, RosterOf, Tally, Material, Promotions;
    ForfeitGoesOn(s, v.color);
  }

  lemma PlayKeepsBalance(s: Session, client: ClientId, c: PlayerCommand, weight: Weight)
    requires SessionInv(s)
    ensures Balance(ApplyCommand(s, client, c).game, weight) == Balance(s.game, weight)
  {
    if ColorHeldBy(s.seats, client) == Some(c.player) {
      var h := GameStep(s.game, CommandOf(c));
      StepKeepsBalance(s.game, CommandOf(c), weight);
      CommandAnnounces(s.game, h, c);
      hide GameInv, GoOn, RequestMove, RequestJump, KingsTaken, Balance;
      GoOnKeepsSession(s, h);
    }
  }

  lemma EventKeepsBalance(r: RoomState, e: RoomEvent, weight: Weight)
    requires RoomInv(r) && OrdinaryEvent(r, e)
    ensures Balance(RoomStep(r, e).session.game, weight) == Balance(r.session.game, weight)
  {
    hide Balance, GameInv, OrdinaryWait, Wait, Ticked, CountDown, ApplyCommand, VacanciesHold, OneEach;
    match e
    case Join(client, username, rating) =>
    case Drop(client) =>
    case Play(client, c) => PlayKeepsBalance(r.session, client, c, weight);
    case TimePasses(ms) =>
      TickKeepsSession(r.session, ms);
      StepKeepsBalance(r.session.game, Elapse(ms), weight);
      CountDownKeepsBalance(Ticked(r.session, ms), r.vacancies, ms, weight);
  }

  /** In a room, too, nobody leaves play unannounced, whoever joins, drops or forfeits. */
  lemma {:induction false} RoomRunConserves(r: RoomState, run: seq<RoomEvent>, weight: Weight)
    requires RoomInv(r) && OrdinaryRoomRun(r, run)
    ensures Balance(RoomRun(r, run).session.game, weight) == Balance(r.session.game, weight)
    decreases |run|
  {
    if run != [] {
      EventKeepsRoom(r, run[0]);
      EventKeepsBalance(r, run[0], weight);
      hide Balance, RoomInv, OrdinaryEvent, RoomStep;
      RoomRunConserves(RoomStep(r, run[0]), run[1..], weight);
    }
  }

  // ---- kings ----

  lemma KingsAreKept(g: Game, h: Game, color: Color)
    requires Balance(h, Head(King, color)) == Balance(g, Head(King, color))
    ensures TakenHeads(h.announced, King, color) + KingsIn(h.world, color)
            == TakenHeads(g.announced, King, color) + KingsIn(g.world, color)
  {
    PromotionsRise(g.promoted, King, color);
    PromotionsRise(h.promoted, King, color);
    HeadsAreCounted(PlayingSet(g.world), King, color);
    HeadsAreCounted(PlayingSet(h.world), King, color);
  }

  /** Over every ordinary run the kings announced taken are those missing. */
  lemma KingsTakenAreMissing(g: Game, run: seq<Command>)
    requires GameInv(g) && OrdinaryRun(g, run)
    ensures var h := Run(g, run);
            && KingsTaken(h.announced) - KingsTaken(g.announced)
               == KingsIn(g.world, White) + KingsIn(g.world, Black) - KingsIn(h.world, White) - KingsIn(h.world, Black)
            && KingsTaken(h.announced) - KingsTaken(g.announced) <= KingsIn(g.world, White) + KingsIn(g.world, Black)
  {
    hide GameInv, OrdinaryRun, Run, KingsIn, Balance;
    var h := Run(g, run);
    RunConserves(g, run, Head(King, White));
    RunConserves(g, run, Head(King, Black));
    KingsAreKept(g, h, White);
    KingsAreKept(g, h, Black);
    KingsAreTallied(g.announced);
    KingsAreTallied(h.announced);
  }

  /** Main result, over every ordinary run of a room: its ratings have been settled once for each king that is missing
      from the board it was set up with, and once more at most, for the one forfeit there may be. */
  lemma SettlementsAreBounded(odds: Odds, start: Grid, run: seq<RoomEvent>)
    requires Reciprocal(odds) && SetUp(start)
    requires RoomInv(NewRoom(odds, start)) && OrdinaryRoomRun(NewRoom(odds, start), run)
    ensures var s, w := RoomRun(NewRoom(odds, start), run).session, NewGame(start).world;
            && |s.settled| == KingsIn(w, White) + KingsIn(w, Black)
                              - KingsIn(s.game.world, White) - KingsIn(s.game.world, Black) + |s.forfeited|
            && s.settled == s.forfeited + KingColors(s.game.announced)
            && |s.settled| <= KingsIn(w, White) + KingsIn(w, Black) + 1
  {
    var r := NewRoom(odds, start);
    var u := RoomRun(r, run);
    hide OrdinaryRoomRun, RoomRun, Balance, KingsIn;
    RoomRunConserves(r, run, Head(King, White));
    RoomRunConserves(r, run, Head(King, Black));
    KingsAreKept(r.session.game, u.session.game, White);
    KingsAreKept(r.session.game, u.session.game, Black);
    KingsAreTallied(r.session.game.announced);
    KingsAreTallied(u.session.game.announced);
  }
}
