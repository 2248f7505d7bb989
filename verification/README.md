# Real-time chess: a verified model

This project models a two-player chess variant without turns. Any number of pieces slide, jump and rest at once on one
board; a server runs the game, seats the players, and writes frames of it as text; clients keep a copy. The model covers

* the **game kernel**: board, arbiter (crossings, captures, blocked and yielding entries, landings, rests), chess rules
  and engine;
* the **wire**: words, lines and numbers, square and piece names, commands, events, the seventeen messages and the state
  frame, with the client that reads them;
* the **server**: seats, rooms with held seats and forfeits, matchmaking with the lobby's table of clients, Elo ratings.

## How it is built

The objects of the program that update their fields are classes here (`Board` over a flat array, `RealTimeArbiter`,
`GameEngine`, `RemoteGame`, `SeatTable`, `RatingSettler`, `GameSession`, `Room`, `Matchmaker`, `Lobby`, `ScoreBoard`),
and the program's loops are loops with invariants. Every method that changes state says what its new state is in terms
of a function on values (`ArbiterTick.Advance`, `EngineSpec.Wait`, `Rooms.RoomStep`, ...), and the theorems are about
those functions, over all inputs and all runs.

| file | contents |
|---|---|
| `model`, `motion`, `rules`, `piece_shapes`, `rule_engine`, `board`, `board_parser` | squares, pieces, journeys and their paths, the chess rules and their shapes, the stored board, reading a board |
| `arbiter_spec`, `crossing_order`, `arbiter_tick` | one crossing, the order of crossings, one pass, one tick |
| `arbiter_invariant`, `crossing_keeps`, `tick_keeps`, `landing_keeps`, `commands_keep`, `pawns` | the agreement of board, states and activity lists, and why everything keeps it |
| `crossing_log`, `meetings`, `ordinary_ticks` | what the record of crossings tells: who stands where, who is taken, which ticks are ordinary |
| `timing`, `arrival_order`, `journey_ends`, `journey_arrives`, `journey_schedules` | clocks, the true order of crossings, why journeys end, and the timetable of an unobstructed one |
| `jump_times`, `jumper_returns`, `promotions` | how long a jump lasts and who comes down, and which pawns become queens |
| `conservation`, `engine_spec`, `engine_runs`, `quiescence`, `score` | conservation, the engine and its runs, coming to rest, scores and head counts over runs |
| `ordinary_play`, `hypothesis` | the starting position, and the hypothesis: when it holds by itself, and a game that needs it |
| `arbiter`, `engine` | the arbiter and engine objects |
| `text`, `notation`, `wire`, `state_codec`, `snapshots`, `text_samples` | the text formats, and a sample of each |
| `remote_game`, `client_runs`, `hearing` | the client, alone, beside the engine, and at the end of the server's messages |
| `rating`, `seat_table`, `game_session`, `room`, `room_runs`, `census`, `roster`, `matchmaker` | the server |

## Hypotheses

*Ordinary play.* The kernel's agreement (`ArbiterInvariant.Inv`, `EngineSpec.GameInv`) holds over runs in which time
never runs backwards and no piece enters a square whose jump already holds a lifted piece. The second part is a predicate
on each wait (`ArbiterTick.OrdinaryTick`), watched inside the tick. It is exact: a crossing keeps the agreement if and
only if it does not enter such a square (`CrossingKeeps.CrossingKeepsConsistentExactly`), and a tick meets it if and
only if its record of crossings shows none that does (`OrdinaryTicks.OrdinaryByRecord`).
`Hypothesis.HypothesisIsNeeded` plays a game of seven commands, from a set-up board, after which one more tick lands a
rook on its own knight; `CrossingLog.LandingsTakeFriendsExactly` says of every tick, ordinary or not, when a landing does
that; `OrdinaryPlay.JumplessRunsAreOrdinary` shows that runs without jumps need no hypothesis. What one tick does is
proved of every tick from a position in agreement (`Arbiters.RealTimeArbiter.Advance`, `Engines.GameEngine.Wait`): only
that agreement goes on needs the tick to be ordinary. Termination of the crossing loop needs none of this: only that
every unresolved journey stands on an occupied square.

*Dead connections.* In a room, a connection whose seat is being held does not drop again while the game is on, and joins,
if at all, only to take that seat back (`Rooms.OrdinaryEvent`). Fresh client identifiers give this, and it is exact too
(`Rooms.DropKeepsRoomExactly`, `Rooms.JoinKeepsRoomExactly`).

*Odds.* The Elo curve is any function of the lead that is positive and reciprocal: `odds(d) * odds(-d) == 1`, which
10^(d/400) is. Only `StrongerOpponentPaysMore` also asks that it rises.

## Model

| member | source | states |
|---|---|---|
| Motions.WalkTravelPath | shared/logic/realtime/src/motion.cpp:44-63 | the walk along a straight line stops exactly on the target, having listed each square once, and a leap lists its two ends |
| Motions.StepsFillTheJourney | shared/logic/realtime/src/motion.cpp:30-42 | path length and step time fit: Chebyshev distance + 1 squares on a line, and the steps add up to the travel time with no rounding |
| Motions.JourneysAre | shared/logic/realtime/src/motion.cpp:30-63 | in numbers: a journey n squares long takes 1000 n ms; along a row, column or diagonal its k-th square lies k/n of the way, one square a second; any other journey is one step |
| Motions.PathNeverStandsStill | shared/logic/realtime/src/motion.cpp:44-63 | every crossing leaves the square it starts from |
| ArbiterSpec.CrossingKeepsGrounded | shared/logic/realtime/src/real_time_arbiter.cpp:140-218 | each of the four outcomes of an entry leaves every unresolved journey on an occupied square of its own, moves only the crossing journey on, and revives none |
| ArbiterSpec.CrossingUsesUp | shared/logic/realtime/src/real_time_arbiter.cpp:77-101 | every crossing, even one that ends other journeys, strictly lowers the remaining path length of the unresolved journeys |
| ArbiterTick.ResolveAll | shared/logic/realtime/src/real_time_arbiter.cpp:77-101 | the replay of crossings pass by pass ends for every length of tick, with no unresolved journey left mid-crossing |
| CrossingOrder.CrossingsAreInArrivalOrder | shared/logic/realtime/src/real_time_arbiter.cpp:103-122 | the crossings found are exactly the pending ones, each once, by falling overshoot and ties by age |
| CrossingOrder.StableSortOrders | shared/logic/realtime/src/real_time_arbiter.cpp:103-122 | sorting by overshoot is a stable permutation |
| ArbiterTick.KeepHoldsLive | shared/logic/realtime/src/real_time_arbiter.cpp:220-233 | compaction keeps every unresolved journey |
| ArbiterTick.OldIndex | shared/logic/realtime/src/real_time_arbiter.cpp:220-233 | and keeps no other: each one kept was an unresolved one |
| ArbiterTick.OldIndexRises | shared/logic/realtime/src/real_time_arbiter.cpp:220-233 | in the order they had |
| ArbiterTick.RestsLeftAreAdvanced | shared/logic/realtime/src/real_time_arbiter.cpp:274-288 | the rests left by a tick are exactly the old ones, older by the tick, that are then younger than 1000 ms |
| CrossingKeeps.CrossingKeepsConsistentExactly | shared/logic/realtime/src/real_time_arbiter.cpp:124-218 | an entry keeps board, states, journeys, jumps and rests in agreement if and only if it does not enter a square whose jumper is lifted |
| CrossingKeeps.LiftedEntryIsFriendly | shared/logic/realtime/src/real_time_arbiter.cpp:124-172 | such an entry is always a capture by the jumper's own colour, and always breaks the agreement |
| CrossingKeeps.CrossingKeepsConsistent | shared/logic/realtime/src/real_time_arbiter.cpp:140-172 | a crossing that leaves the tick ordinary keeps the agreement |
| CrossingKeeps.YieldKeepsConsistent | shared/logic/realtime/src/real_time_arbiter.cpp:190-208 | lifting the jumper and resting the arriver under it keeps the agreement |
| CrossingKeeps.ResolveAllKeepsConsistent | shared/logic/realtime/src/real_time_arbiter.cpp:77-101 | so does the whole replay |
| TickKeeps.BeginTickIsConsistent | shared/logic/realtime/src/real_time_arbiter.cpp:274-288 | waking rested pieces and starting the clocks keeps the agreement |
| LandingKeeps.LiftedLandsOnEnemy | shared/logic/realtime/src/real_time_arbiter.cpp:235-267 | landing a lifted jumper takes exactly one enemy, reports it, and puts the jumper back on its own square |
| CrossingLog.LogTellsBoard | shared/logic/realtime/src/real_time_arbiter.cpp:77-218 | after the crossings of any tick each square holds the last to have walked in and not on, or, if nobody walked in or off, who stood there before |
| CrossingLog.EveryTickLands | shared/logic/realtime/src/real_time_arbiter.cpp:235-267 | after the crossings of any tick, ordinary or not, every jumper not lifted is on its square, and who was lifted had somebody walk in under them |
| CrossingLog.UnderLiftedJumper | shared/logic/realtime/src/real_time_arbiter.cpp:140-218 | under a lifted jumper stands a piece of its own colour if and only if such a piece was the last to walk in there |
| CrossingLog.LandingsTakeFriendsExactly | shared/logic/realtime/src/real_time_arbiter.cpp:235-267 | in any tick the victims of landings are whoever stands under the jumps that come down; a landing takes its own colour if and only if a piece of that colour was the last to walk in there |
| Meetings.CrossingsTakeEnemiesMet | shared/logic/realtime/src/real_time_arbiter.cpp:124-188 | in any tick each crossing meets the piece that the record up to then puts in its way, and the victims of crossings are exactly the enemies so met on the ground, in order: never a friend |
| Meetings.TickTakes | shared/logic/realtime/src/real_time_arbiter.cpp:69-75 | the victims of any tick are those, and then whoever stands under the jumps that come down |
| Meetings.FriendsBlock | shared/logic/realtime/src/real_time_arbiter.cpp:124-138 | a crossing is stopped if and only if it meets a friend |
| OrdinaryTicks.OrdinaryByRecord | shared/logic/realtime/src/real_time_arbiter.cpp:124-218 | a tick is ordinary if and only if none of its recorded crossings walks onto a square whose jumper was lifted before it |
| TickKeeps.RestsWakeTheirPieces | shared/logic/realtime/src/real_time_arbiter.cpp:274-288 | exactly the resting pieces named on their own square by a rest that is over wake; nothing else on the board changes |
| JumpTimes.JumpsEndOnTime | shared/logic/realtime/src/real_time_arbiter.cpp:235-243 | after any tick, ordinary or not, exactly the jumps that are then younger than 1000 ms are still under way, older by the tick |
| JumpTimes.JumpLastsASecond | shared/logic/realtime/src/real_time_arbiter.cpp:60-67 | after an accepted jump and any ordinary run of T ms, split in any way, the jump is under way, T ms old, if and only if T < 1000 |
| JumperReturns.JumperComesBack | shared/logic/realtime/src/real_time_arbiter.cpp:235-267 | until then the jumper is in the air; the first tick that makes it 1000 ms or more puts that very piece back on its square, resting from now |
| JumperReturns.TickBringsBack | shared/logic/realtime/src/real_time_arbiter.cpp:235-267 | the same for one ordinary tick and any jump under way, whether or not its piece was lifted |
| JourneyEnds.JourneysEndForAReason | shared/logic/realtime/src/real_time_arbiter.cpp:77-233 | after the crossings of any tick a journey goes on with its piece, exactly as much older, or has ended at one recorded crossing: of its own, at the very time its clock says, onto its target, against a friend on its next square or under a jumper there; or of another journey, which took its piece |
| JourneyEnds.GoneJourneysHaveEnded | shared/logic/realtime/src/real_time_arbiter.cpp:69-75 | so it is after a whole ordinary tick: landings end no journey |
| JourneySchedules.RunKeepsSchedule | shared/logic/realtime/src/motion.cpp:69-93 | a trip that others leave alone is under way on the square its clock says, or stands on its last square, after every ordinary run |
| JourneySchedules.UnobstructedJourneyArrives | shared/logic/realtime/src/motion.cpp:44-93 | after an accepted move with no jump above its target, and T ms of any ordinary run that leaves the journey alone, split in any way, the piece is on travelPath[min(T / step, last)], moving exactly until T is the travel time: from then on it has arrived |
| LandingKeeps.AdvanceKeepsInv | shared/logic/realtime/src/real_time_arbiter.cpp:69-75 | a whole ordinary tick keeps the agreement and reports only squares of the board |
| CommandsKeep.MotionStarts | shared/logic/realtime/src/real_time_arbiter.cpp:49-58 | an accepted move always starts a journey and keeps the agreement |
| CommandsKeep.JumpStarts | shared/logic/realtime/src/real_time_arbiter.cpp:60-67 | an accepted jump always starts a jump on a square no other jump has |
| CommandsKeep.IdleIsFree | shared/logic/realtime/src/real_time_arbiter.cpp:40-47 | under an idle piece there is no journey, no jump and no rest, not even one left by a captured piece |
| ArrivalOrder.LaterArrivalTakesEarlier | shared/logic/realtime/src/real_time_arbiter.cpp:77-122 | in a tick no longer than one step nobody crosses twice, all crossings, blocked ones too, come in true order, and the last to enter a square stands on it |
| Timing.AdvanceAges | shared/logic/realtime/src/real_time_arbiter.cpp:77-101 | a journey, jump or rest that survives a tick is one from before it, older by exactly that tick |
| Conservation.AdvanceConserves | shared/logic/realtime/src/real_time_arbiter.cpp:140-267 | pieces on the board and lifted before a tick are exactly those after it and the victims; each victim is out for good, once, and reported in order |
| Pawns.AdvanceReportsPawns | shared/logic/realtime/src/real_time_arbiter.cpp:164-171 | any pawn that has come to its last row in a tick has been reported there |
| Arbiters.RealTimeArbiter.StartMotion | shared/logic/realtime/src/real_time_arbiter.cpp:49-58 | refused exactly when a journey has that square; otherwise the journey is added and the piece is moving |
| Arbiters.RealTimeArbiter.StartJump | shared/logic/realtime/src/real_time_arbiter.cpp:60-67 | refused exactly when a piece is airborne there; otherwise the jump is added and the piece is airborne |
| Arbiters.RealTimeArbiter.TickCooldowns | shared/logic/realtime/src/real_time_arbiter.cpp:274-288 | rests move on in place, and those over are erased, waking the piece on their square if it is still theirs |
| Arbiters.RealTimeArbiter.ResolveEntry | shared/logic/realtime/src/real_time_arbiter.cpp:140-172 | the object does to board, lists, flags and reports what one crossing does on values |
| Arbiters.RealTimeArbiter.YieldToAirborne | shared/logic/realtime/src/real_time_arbiter.cpp:190-208 | the jumper is lifted out, the mover takes its square and rests, and its journey is over |
| Arbiters.RealTimeArbiter.CaptureAt | shared/logic/realtime/src/real_time_arbiter.cpp:174-188 | the victim leaves the board and its own journey, if any, ends |
| Arbiters.RealTimeArbiter.DropResolved | shared/logic/realtime/src/real_time_arbiter.cpp:220-233 | finished journeys are dropped, the others keep their order |
| Arbiters.RealTimeArbiter.LandAirborne | shared/logic/realtime/src/real_time_arbiter.cpp:235-267 | jumps move on and land one by one as on values |
| Arbiters.RealTimeArbiter.Advance | shared/logic/realtime/src/real_time_arbiter.cpp:69-75 | the object's tick is the tick on values, with the same reports and no board error, for every tick from a position in agreement; an ordinary one keeps the agreement |
| Arbiters.EveryTickCanRun | shared/logic/realtime/src/real_time_arbiter.cpp:69-75 | why: in any tick each jumper is where its landing looks for it, and everything reported is on the board |
| Boards.IndexIsInjective | shared/logic/model/src/board.cpp:14-16 | two squares never share a place in the buffer |
| Boards.Board.Make | shared/logic/model/src/board.cpp:7-12 | sizes that are not positive are refused; otherwise the board is empty |
| Boards.Board.AddPiece | shared/logic/model/src/board.cpp:38-50 | off the board and onto a piece are the two errors, which change nothing; otherwise exactly that square gains the piece |
| Boards.Board.RemovePiece | shared/logic/model/src/board.cpp:52-55 | the square is empty afterwards; off the board is an error |
| Boards.Board.MovePiece | shared/logic/model/src/board.cpp:57-72 | the three errors in their order, changing nothing; otherwise the piece leaves, arrives and knows its square |
| Boards.Board.SetPieceState | shared/logic/model/src/board.cpp:74-81 | only that piece's state changes; empty and outside squares are errors |
| Rules.LegalMoveHasClearWay | shared/logic/rules/src/piece_rules.cpp:57-95 | for every kind an accepted move has a path wholly on the board, empty in between, ending on no friend |
| PieceShapes.MovesAreShapes | shared/logic/rules/src/piece_rules.cpp:57-139 | a rook, bishop, queen, king or knight may go exactly where its shape in rows and columns and a clear way on the board, ending on no friend, take it |
| PieceShapes.PawnMovesAre | shared/logic/rules/src/piece_rules.cpp:141-168 | a white pawn goes from row r to r - 1, or from the second row from below to r - 2 over an empty square, a black one to r + 1, or from row 1 to r + 2; straight onto empty squares, diagonally onto enemies only |
| Rules.PawnWayEndsAtLastRow | shared/logic/rules/src/piece_rules.cpp:141-168 | a pawn's path meets its promotion row only at its end |
| RuleEngine.Slide | shared/logic/rules/src/piece_rules.cpp:57-77 | the squares found are exactly those k steps off over empty squares, on the board and not a friend's, on any board size |
| RuleEngine.SingleSteps | shared/logic/rules/src/piece_rules.cpp:83-95 | exactly the offsets that may be stood on |
| RuleEngine.PawnDestinations | shared/logic/rules/src/piece_rules.cpp:141-168 | one ahead if empty, two from the start row if both are empty, diagonally onto enemies only |
| RuleEngine.LegalDestinations | shared/logic/rules/src/piece_rules.cpp:116-187 | each kind by its own rule |
| RuleEngine.GetLegalDestinations | shared/logic/rules/src/rule_engine.cpp:54-66 | empty off the board and on empty squares, else the piece's rule |
| RuleEngine.Validate | shared/logic/rules/src/rule_engine.cpp:29-52 | the first applicable of the four refusals, or Ok |
| EngineSpec.ReportsPromoteTheDue | shared/logic/engine/src/game_engine.cpp:107-134 | applying a tick's reports makes queens of exactly the pawns reported on row 0, if white, or the last row, if black, and changes nothing else on the board |
| EngineSpec.ReportsAnnounceVictims | shared/logic/engine/src/game_engine.cpp:107-134 | every victim is announced, in order, and the game is over exactly when it was or a king is among them |
| EngineRuns.StepKeepsGame | shared/logic/engine/src/game_engine.cpp:68-157 | every command, wait and forfeit keeps the agreement, promoted pawns and punctual journeys |
| EngineRuns.Run | shared/logic/engine/src/game_engine.cpp:68-157 | after every ordinary run the game is in agreement |
| EngineRuns.StatesTellActivities | shared/logic/realtime/src/real_time_arbiter.cpp:49-288 | after any ordinary run a piece is moving iff a journey has its square, airborne iff a jump with nobody lifted has it, resting iff a rest names it there; no square has two journeys, two jumps, or a journey and a jump |
| EngineRuns.ArriverWaitsForLanding | shared/logic/realtime/src/real_time_arbiter.cpp:190-208 | the enemy under a lifted jumper takes no command before the jump lands |
| EngineRuns.AcceptedMoveIsPublished | shared/logic/engine/src/game_engine.cpp:41-87 | an accepted move is published once: now, by the piece's owner and kind, from and to, a capture exactly when an enemy stands on the target |
| EngineRuns.AcceptedJumpIsPublished | shared/logic/engine/src/game_engine.cpp:89-105 | so is an accepted jump, as a jump on its own square |
| EngineRuns.OverRefusesAll | shared/logic/engine/src/game_engine.cpp:68-105 | a game that is over refuses every move and jump as over; one that is not takes a jump of any idle piece |
| EngineRuns.RefusalsSayWhy | shared/logic/engine/src/game_engine.cpp:54-82 | a move by the rules is refused as under way exactly when a journey has its piece, and as not idle exactly when a jump or a rest has it |
| EngineRuns.JumpRefusalsSayWhy | shared/logic/engine/src/game_engine.cpp:89-105 | so is a jump |
| Promotions.PawnsAlwaysHaveRoom | shared/logic/engine/src/game_engine.cpp:107-134 | from a board with no white pawn on row 0 and no black one on the last row, every ordinary run leaves every pawn a row ahead of it on the board |
| Promotions.WaitPromotesExactly | shared/logic/engine/src/game_engine.cpp:120-134 | after an ordinary wait a piece still on the board has its colour and kind, but for a pawn now on row 0, if white, or the last row, if black: it is a queen |
| Promotions.PawnArrivesAsQueen | shared/logic/rules/src/piece_rules.cpp:189-197 | a pawn sent to that row, its journey left alone, is a queen there once the travel time has passed |
| Promotions.RunKeepsKin | shared/logic/engine/src/game_engine.cpp:107-134 | over every ordinary run nobody appears, and only pawns change: into queens of their colour |
| EngineRuns.JourneysAreOnTime | shared/logic/realtime/src/motion.cpp:83-93 | a journey under way was announced and stands where the time since says, however that time was split (what becomes of journeys no longer under way: JourneyEnds, JourneySchedules) |
| Quiescence.GameComesToRest | shared/logic/realtime/src/real_time_arbiter.cpp:69-101 | 1000 ms for each step of the longest journey the board allows and then 1000 ms more, in ticks of any lengths, leave nothing under way and everybody idle |
| OrdinaryPlay.NewGameIsInAgreement | shared/logic/engine/src/game_engine.cpp:39-39 | every set-up board starts a game in agreement |
| Hypothesis.HypothesisIsNeeded | shared/logic/realtime/src/real_time_arbiter.cpp:124-267 | a set-up board and an ordinary run after which a tick that is not ordinary lands a white rook on a white knight |
| OrdinaryPlay.JumplessRunsAreOrdinary | shared/logic/realtime/src/real_time_arbiter.cpp:69-218 | from a position with no jump, every run without jumps satisfies the hypothesis |
| Engines.GameEngine.RequestMove | shared/logic/engine/src/game_engine.cpp:68-87 | the answer and the new game are those on values, and Ok means one more journey |
| Engines.GameEngine.RequestJump | shared/logic/engine/src/game_engine.cpp:89-105 | the same for jumps, with a board error off the board |
| Engines.GameEngine.Wait | shared/logic/engine/src/game_engine.cpp:107-134 | the object's wait is the wait on values, for every tick from a game in agreement; no board error is ever met, and an ordinary tick keeps the agreement |
| Engines.GameEngine.LegalDestinationsFor | shared/logic/engine/src/game_engine.cpp:136-148 | exactly the moves that would be accepted now, so no square off the board |
| Engines.GameEngine.EndGame | shared/logic/engine/src/game_engine.cpp:157-157 | the game is over and nothing else changes |
| Score.ScoreBoard.Record | shared/logic/game_record/src/score_board.cpp:8-20 | the victim's opponent gains 9 for a queen, 5, 3, 3, 1 for rook, bishop, knight, pawn and nothing for a king; the other total stays |
| Score.RunConserves | shared/logic/realtime/src/real_time_arbiter.cpp:140-267 | over every ordinary run, however pieces are weighed by kind and colour, announced victims and pieces in play weigh together what they weighed at the start, corrected for promotions |
| Score.RunKeepsHeadCount | shared/logic/engine/src/game_engine.cpp:107-134 | so for each kind and colour as many as at the start are announced taken or in play, but for pawns become queens |
| Score.ScoreIsMaterialLost | shared/logic/game_record/src/score_board.cpp:8-12 | over every ordinary run score plus the opponent's surviving material is its starting material plus eight per promotion |
| BoardParser.BuildBoard | shared/logic/io/src/board_parser.cpp:50-97 | the three refusals in their order; otherwise each square shows its token, idle, identities rising along the rows from 1 with none left out |
| BoardParser.ReadBoardIsSetUp | shared/logic/io/src/board_parser.cpp:50-97 | such a board is set up for ordinary play iff no white pawn is on row 0 and no black one on the last row |
| Text.TokenizeJoin | shared/logic/io/include/text.hpp:32-38 | words joined by spaces split back into themselves |
| Text.LinesUnlines | shared/logic/io/src/state_codec.cpp:176-255 | lines written are the lines read |
| Text.StoiReadsBack | shared/logic/io/src/event_codec.cpp:48-53 | printed integers read back |
| Notation.PieceTokensAreExact | shared/logic/io/src/piece_codec.cpp:53-66 | a token is read iff it is the one written for that piece |
| Notation.SquareNameReadsBack | shared/logic/io/src/move_notation.cpp:43-66 | for every row and column: the name reads back iff the square is on the board with column 0 to 30; others are refused or, the file letter being one byte, read as the square 256 columns (or a multiple) away |
| Notation.CommandReadsBack | shared/logic/io/src/command_notation.cpp:41-67 | what any command reads as: itself iff both squares are on the board in columns 0 to 30 with ranks equally long; nothing if the ranks differ in length or a file letter is refused; else the different command whose columns are the same modulo 256 |
| Notation.MoveEventReadsBack | shared/logic/io/src/event_codec.cpp:26-57 | move events read back |
| Notation.CapturedPieceReadsBack | shared/logic/io/src/event_codec.cpp:59-71 | captures read back |
| Wire.MessageReadsBack | shared/logic/io/src/wire_message.cpp:401-415 | each of the seventeen kinds of message, when well formed, decodes to itself |
| Wire.IllFormedIsNotReadBack | shared/logic/io/src/wire_message.cpp:100-121 | commands and logins read back iff well formed; an ill-formed command reads as nothing or as the one with the same file letters, an ill-formed login without line breaks as nothing |
| Wire.BrokenNameIsMisread | shared/logic/io/src/wire_message.cpp:100-121 | a line break in a login's name can make it read as another name |
| Wire.RosterReadsBack | shared/logic/io/src/wire_message.cpp:123-168 | rosters with either seat empty read back |
| TextSamples.CommandsLookLikeThis | shared/logic/io/include/command_notation.hpp:11-32 | WQe2e5, and WQe2e2 for a jump |
| TextSamples.MessagesLookLikeThis | shared/logic/io/src/wire_message.cpp:180-399 | messages letter by letter |
| TextSamples.OtherTagsLookLikeThis | shared/logic/io/src/wire_message.cpp:180-399 | and the other tags |
| TextSamples.MovesLookLikeThis | shared/logic/io/src/event_codec.cpp:26-38 | a move event letter by letter |
| TextSamples.LoginsLookLikeThis | shared/logic/io/src/wire_message.cpp:100-121 | a login letter by letter |
| TextSamples.RostersLookLikeThis | shared/logic/io/src/wire_message.cpp:123-150 | a roster letter by letter |
| TextSamples.PieceLinesLookLikeThis | shared/logic/io/src/state_codec.cpp:28-29 | a piece line of a frame |
| TextSamples.ActivityLinesLookLikeThis | shared/logic/io/src/state_codec.cpp:28-29 | a motion and a cooldown line, with three decimals |
| TextSamples.HeadLinesLookLikeThis | shared/logic/io/src/state_codec.cpp:28-29 | the first two lines of a frame |
| TextSamples.StatesLookLikeThis | shared/logic/io/src/state_codec.cpp:38-70 | the five state letters |
| TextSamples.WordsLookLikeThis | shared/logic/io/include/text.hpp:31-38 | words are split at blanks, tabs and line ends |
| TextSamples.TrimmedLooksLikeThis | shared/logic/io/include/text.hpp:22-29 | blanks, tabs and line ends are trimmed at both ends and kept inside |
| StateCodec.FrameReadsBack | shared/logic/io/src/state_codec.cpp:176-255 | a frame rebuilds the same pieces (identity, colour, kind, square, state), flag and activity, progress to the nearest thousandth, on boards up to 31 columns and of any height |
| StateCodec.AcceptedFramesAreSound | shared/logic/io/src/state_codec.cpp:189-255 | any accepted text, whoever wrote it, yields a proper board |
| StateCodec.WriteState | shared/logic/io/src/state_codec.cpp:176-187 | the loops write the frame line by line |
| StateCodec.DecodeState | shared/logic/io/src/state_codec.cpp:189-255 | the loops read what the frame says; a refused text leaves the caller with the board it had |
| Snapshots.GamesArePresentable | shared/logic/engine/src/game_engine.cpp:150-153 | every game in agreement (31 columns, 32-bit identities) can be framed without loss |
| Snapshots.ShownMotionsAreOnTime | shared/logic/realtime/src/motion.cpp:69-93 | every motion shown is an announced move, on the step and with the progress that the time since it gives, however that time was split |
| Snapshots.ShownRestsAreOnTime | shared/logic/realtime/src/real_time_arbiter.cpp:31-38 | every rest shown is on its square with progress elapsed / 1000 |
| Snapshots.ActiveMotions | shared/logic/realtime/src/real_time_arbiter.cpp:22-29 | one motion state per journey, in order |
| Snapshots.ActiveCooldowns | shared/logic/realtime/src/real_time_arbiter.cpp:31-38 | one cooldown state per rest, in order |
| Snapshots.WriteGame | shared/logic/engine/src/game_engine.cpp:150-153 | the engine's frame is the frame of its game |
| RemoteGames.FrameArrives | client/net/src/remote_game.cpp:24-37 | receiving the game's frame leaves the client with its board, flag and activity, and touches nothing else |
| RemoteGames.BusyTellsState | client/net/src/remote_game.cpp:97-105 | what looks busy is exactly what moves or rests |
| RemoteGames.HighlightsAreAcceptedMoves | client/net/src/remote_game.cpp:107-121 | right after a frame the highlights of an own piece not in the air are exactly the moves the engine accepts; in the air, what the rule allows although the engine accepts nothing |
| RemoteGames.OthersAreNotHighlighted | client/net/src/remote_game.cpp:107-121 | no square without an own piece is ever highlighted |
| RemoteGames.SentCommandsAreTrue | client/net/src/remote_game.cpp:129-145 | a sent command names its mover's colour and kind, and is read as exactly what its squares can be read as: itself iff both are in columns 0 to 30 of the board with ranks equally long |
| RemoteGames.RemoteGame.Receive | client/net/src/remote_game.cpp:24-91 | each kind of message changes what it should; undecodable text changes nothing |
| RemoteGames.RemoteGame.ReceiveState | client/net/src/remote_game.cpp:30-37 | a refused frame leaves the very replica object in place |
| RemoteGames.RemoteGame.LooksBusy | client/net/src/remote_game.cpp:97-105 | busy iff some motion starts there or some cooldown is there |
| RemoteGames.RemoteGame.LegalDestinationsFor | client/net/src/remote_game.cpp:107-121 | exactly the highlights |
| RemoteGames.RemoteGame.RequestMove | client/net/src/remote_game.cpp:129-145 | nothing is sent but for a piece of an own colour |
| ClientRuns.ClientFollowsEveryRun | client/net/src/remote_game.cpp:107-121 | from the set-up board on, after any ordinary run and a frame, highlights are exactly accepted moves |
| Hearing.NewsArrive | server/app/src/game_session.cpp:20-35 | whatever the engine announces is told to every member, and one that hears it has it published: the same events in the same order, and nothing else about its game changes |
| Hearing.TickIsHeard | server/app/src/game_session.cpp:94-99 | a member that hears all of a tick has the tick's victims published, in order, and then the board, flag and activity of the game as it is |
| Hearing.SeatIsHeard | client/net/src/remote_game.cpp:43-46 | a newcomer that hears its role plays exactly the colour of the seat it was given, besides any it had |
| Hearing.CountdownIsHeard | client/net/src/remote_game.cpp:74-88 | while a seat is held the members hear the time left in seconds rounded up, and nothing else changes |
| Hearing.AnswersAreHeard | client/net/src/remote_game.cpp:55-88 | a room entered ends the search in that room; no match and a refusal end it where it was, saying why; a refused login is kept as an error; an opponent who is back ends the countdown |
| Ratings.NearestIsOdd | shared/logic/game_record/src/rating.cpp:19-23 | rounding halves away from zero treats gain and loss alike |
| Ratings.ExpectationsShareTheGame | shared/logic/game_record/src/rating.cpp:14-17 | the two expected scores add up to one and lie strictly between 0 and 1 |
| Ratings.ExpectationsFollowOdds | shared/logic/game_record/src/rating.cpp:14-17 | and stand in the ratio of the odds between the two, which with their sum fixes both |
| Ratings.GainIsNearestShare | shared/logic/game_record/src/rating.cpp:19-23 | with odds q against the winner it gains 32 q / (1 + q), to the nearest point |
| Ratings.SettlementIsFair | shared/logic/game_record/src/rating.cpp:19-23 | winner's gain is loser's loss, between 0 and 32 |
| Ratings.StrongerOpponentPaysMore | shared/logic/game_record/include/rating.hpp:26-32 | a stronger opponent never leaves a player with less |
| Seats.SettlingIsFair | server/app/src/rating_settler.cpp:16-37 | in the seats: sum kept, winner never down, loser never up, at most 32 each, nothing without a pair |
| Seats.SettledGainIsNearestShare | server/app/src/rating_settler.cpp:16-37 | the winner's seat gains that share by the two ratings in the seats |
| Seats.PersistedAreNewRatings | server/app/src/rating_settler.cpp:16-37 | what is persisted are the two names in the seats, winner first, with their new ratings |
| Seats.NothingPersisted | server/app/src/rating_settler.cpp:16-37 | without a pair nothing moves and nothing is persisted |
| Seats.SettlementsConserve | server/app/src/rating_settler.cpp:16-37 | any number of settlements keeps the sum and everybody's seat |
| Seats.SeatTable.FreeColor | server/app/src/seat_table.cpp:17-27 | white, then black, then none |
| Seats.SeatTable.FindClientOn | server/app/src/seat_table.cpp:35-40 | the first client on the colour, if any |
| Seats.SeatTable.FindOccupantOf | server/app/src/seat_table.cpp:42-47 | its occupant |
| Seats.SeatTable.SetRating | server/app/src/seat_table.cpp:12-15 | only that client's rating changes, if it has a seat |
| Seats.RatingSettler.Settle | server/app/src/rating_settler.cpp:16-37 | seats and persisted values after a settlement; nothing unless both seats are taken |
| Sessions.ForwardingSettlesKings | server/app/src/game_session.cpp:20-35 | passing events on settles against the owner of each king among them, in order, the ratings following one settlement after the other, and moves nobody |
| Sessions.KingsOwnerLoses | server/app/src/game_session.cpp:20-35 | when one king is among the events its owner's rating does not rise and the opponent's does not fall; with both seats taken the opponent gains its share of 32 |
| Sessions.OwnCommandReachesEngine | server/app/src/game_session.cpp:60-71 | a command for the client's own colour reaches the engine as a move, or as a jump when it is onto its own square; if accepted every member is told the event announced, otherwise nobody anything |
| Sessions.SeatIsTold | server/app/src/game_session.cpp:37-58 | who is seated is told the colour of that very seat, then everybody the roster |
| Sessions.NewcomerSits | server/app/src/game_session.cpp:37-43 | a newcomer gets white if nobody has it, else black if nobody has it, else watches |
| Sessions.ForfeitIsTold | server/app/src/game_session.cpp:84-92 | a forfeit settles against its loser and ends with the frame of the game, over, to every member |
| Sessions.CommandKeepsSession | server/app/src/game_session.cpp:60-71 | a client commands only the colour it sits on; the settlements stay those against the one forfeit and the owners of the kings taken, in order |
| Sessions.TickKeepsSession | server/app/src/game_session.cpp:94-99 | a tick keeps that count and the seats, and its last word to the members is the frame of the new game |
| Sessions.ForfeitKeepsSession | server/app/src/game_session.cpp:84-92 | a forfeit counts once per game and never after it is over |
| Census.KingsTakenAreMissing | server/app/src/game_session.cpp:20-35 | over every ordinary run as many kings are announced taken as are missing, so never more than there were |
| Census.KingColorsAreTallied | server/app/src/game_session.cpp:20-35 | the colours settled against for kings are the colours of the kings announced taken |
| Census.SettlementsAreBounded | server/app/src/game_session.cpp:20-35 | over every ordinary run of a room ratings have been settled against the one who forfeited, if anybody did, and then the owners of the kings taken, in order: once per missing king and once per forfeit |
| Sessions.GameSession.AddClient | server/app/src/game_session.cpp:37-43 | next free colour, told its role, roster published |
| Sessions.GameSession.ApplyClientCommand | server/app/src/game_session.cpp:60-71 | authorization, then the engine, then the event passed on |
| Sessions.GameSession.Forfeit | server/app/src/game_session.cpp:84-92 | over, settled, final frame; or nothing when already over |
| Sessions.GameSession.Tick | server/app/src/game_session.cpp:94-99 | the engine's wait, its events, then the frame |
| Rooms.EventKeepsRoom | server/app/src/room.cpp:23-79 | over joins, drops, commands and ticks: at most one player and one held seat to a colour, each held seat still its owner's |
| Rooms.DropKeepsRoomExactly | server/app/src/room.cpp:44-58 | a drop keeps this if and only if it is not a second drop of a dead connection in a game that is on |
| Rooms.JoinKeepsRoomExactly | server/app/src/room.cpp:23-38 | a join keeps this if and only if it is not a dead connection taking another place than its own seat |
| Rooms.ReclaimKeepsRoom | server/app/src/room.cpp:26-35 | a return keeps this |
| Rooms.SecondsAreRoundedUp | server/app/src/room.cpp:60-79 | the seconds announced are the time left, rounded up |
| Rooms.DropsAre | server/app/src/room.cpp:44-58 | a drop frees a spectator's seat and keeps a player's, held for 20000 ms under its name and colour if the game is on |
| Rooms.MembersComeAndGo | server/app/src/room.cpp:23-58 | whoever joins is a member until it drops, and no other event changes who is |
| Rooms.ReturnIsTold | server/app/src/room.cpp:26-35 | a returning player is told the colour held for it, and everybody the roster and that the opponent is back |
| Rooms.Room.AddClient | server/app/src/room.cpp:23-38 | the first seat held for that name is handed back, otherwise seating by join order; the room stays sound exactly when the join may be |
| Rooms.Room.HandleDisconnect | server/app/src/room.cpp:44-58 | a player's seat is held while the game is on; a spectator's is freed; the room stays sound exactly when the drop may be |
| Rooms.Room.CountVacancies | server/app/src/room.cpp:63-78 | the list is counted down in place, expired seats erased and forfeited in order |
| Rooms.Room.Tick | server/app/src/room.cpp:60-79 | the session's tick, then the held seats |
| RoomRuns.RoomRun | server/app/src/room.cpp:23-79 | after every ordinary run the room is sound |
| RoomRuns.HeldSeatsAreSafe | server/app/src/room.cpp:23-79 | through any one event a held seat stays, goes to its owner by name, or runs out with the game over |
| RoomRuns.HeldUntilTimeRunsOut | server/app/src/room.cpp:60-79 | unless its owner returns, a seat is held until exactly 20000 ms of ticks have passed, however they are split, and then the game is over |
| RoomRuns.TickForfeits | server/app/src/room.cpp:60-79 | a tick forfeits exactly the first seat to run out, if the game is on; never two |
| RoomRuns.DropHoldsSeat | server/app/src/room.cpp:44-58 | a dropped player's seat is held for the full time under their name |
| RoomRuns.TickSays | server/app/src/room.cpp:60-79 | what is announced at a tick is what each held seat has newly to say, in order |
| RoomRuns.CountdownFalls | server/app/src/room.cpp:70-77 | the seconds announced for one held seat fall strictly, within 1 to 20 |
| Rosters.RosterStaysCurrent | server/app/src/game_session.cpp:107-120 | over any run the last roster broadcast shows exactly the seats and their ratings |
| Rosters.RosterArrives | client/net/src/remote_game.cpp:48-53 | a client that receives it shows these players |
| Matchmaking.Matchmaker.Seek | server/app/src/matchmaker.cpp:15-27 | a match is the longest waiter in range, who leaves; otherwise the seeker joins; nobody waits twice or beside an opponent in range |
| Matchmaking.Matchmaker.Cancel | server/app/src/matchmaker.cpp:29-36 | exactly that client leaves |
| Matchmaking.Matchmaker.Tick | server/app/src/matchmaker.cpp:38-50 | those out of time are a front part of the queue; the others wait on in order |
| Matchmaking.LongestLeave | server/app/src/matchmaker.cpp:38-50 | why: waits are sorted |
| Matchmaking.WaitersAndMatches | server/app/src/matchmaker.cpp:15-50 | in numbers: those waiting are more than 100 points apart and have waited less than 60000 ms; a match is within 100 points |
| Matchmaking.Lobby.HandleLogin | server/app/src/room_manager.cpp:66-78 | an accepted login enters the table and answers nothing; a refused one changes nothing and is told why |
| Matchmaking.Lobby.HandleSeek | server/app/src/room_manager.cpp:108-127 | a match is made iff the seeker is known, not waiting yet and somebody in range waits; then the two different clients enter the new room and are told, neither waits on, and nobody else changes |
| Matchmaking.Lobby.HandleDisconnected | server/app/src/room_manager.cpp:172-184 | exactly that client leaves the table and the queue |
| Matchmaking.Lobby.Tick | server/app/src/room_manager.cpp:186-193 | exactly those timed out leave the queue and are told there was no match; the others wait on |
| Matchmaking.MatchedPairSits | server/app/src/room_manager.cpp:119-126 | in the room of a match the waiting player is white and the arriving one black |

## Where the code and its comments differ

* `client/net/src/remote_game.cpp:109-113` says the replica carries no piece state. It does (the frame's letter is put on
  the piece), but the client does not look at it; the model follows the code, which is why a piece in the air is
  highlighted.
* `server/app/src/game_session.cpp:20-35` can settle ratings again when a second king falls to a piece already under way.
  The model keeps this: by `Sessions.SessionInv` there is a settlement for each king taken and for the one forfeit.

## Left out

- Pieces are values standing in the board's buffer. Shared ownership of one piece object by board, jump and caller is not modelled.
- Journeys, jumps and rests are values in the arbiter's lists, replaced where the program updates them in place.
- Sizes, times and identities are mathematical integers; overflow of machine integers and out-of-range number texts are not modelled (identities read off a frame are reduced to 32 bits as the program does).
- Floating point: progress and odds are reals, a progress is written to the nearest thousandth with halves up, and exponents or hexadecimal in a decimal text are not read.
- Characters are bytes, `char` is signed, and case folding is that of plain letters.
- The library's stable sort is an insertion sort; maps are iterated in the order of their keys.
- The event bus: published events are appended to a list. The session passes on what a command or tick has announced when the engine is done with it, in order.
- Messages leave the session as message values with their receivers; that each value survives the wire is `Wire.MessageReadsBack`.
- Authentication, the account store, the logger, sockets and random room identifiers: an accepted login's rating and a new room's name are parameters.
- Rooms in the lobby: creating and joining by name, routing commands to rooms, and clients in several rooms at once.
- Waiting a ms and then b ms is not the same as waiting a + b ms in this program, and no such law is claimed.
- The client's lobby buttons: each sends one request and sets a status line.
- Rendering, layout, animation, the script runner, move notation for the log, and printing boards.
- ArbiterTick.ResolveAll: its contract says that the replay ends and that nothing is left mid-crossing; what the replay does is stated by the lemmas about it.
- Sessions.GameSession.Tick: stated of ordinary ticks only, like all that builds on the session's invariant; what any other tick does to the game is `Engines.GameEngine.Wait`.
- Rooms.Room.Tick: stated of ordinary ticks only, for the same reason.
- Matchmaking.Lobby.HandleDisconnected: the drop that the lobby passes on to the client's room is not part of the lobby here; what a room does with it is `Rooms.Room.HandleDisconnect`.
- Matchmaking.Lobby.Tick: the tick that the lobby passes on to its rooms is not part of the lobby here; what a room does with it is `Rooms.Room.Tick`.
- Matchmaking.Lobby.HandleSeek: the new room is a name here; how the two are seated in it is `Matchmaking.MatchedPairSits`.
