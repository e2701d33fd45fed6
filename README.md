# EngineLab tournament bookkeeping in Dafny

EngineLab runs tournaments between UCI chess engines. It plays pairs of games from the same
opening with the colours swapped, keeps a leaderboard, and shows running games to web clients.
This project models the bookkeeping at its core and proves that it keeps its promises:

- **Clocks** (`clocks.dfy`, `TimeControl`): per-side millisecond clocks with increments. The
  getters clamp the raw times, which may go negative.
- **Game record** (`games.dfy`, `GameState`): the ply list, the side to move and the move
  counters, and the UCI `position …` and `go …` commands built from them.
- **Engines** (`engines.dfy`, `Engine`): an engine seen from outside. Its output arrives at given
  times, it may exit, and it may refuse writes.
- **Game loop** (`game_manager.dfy`, `GameManager`):
  - the termination checks in their fixed order, with forfeits oriented against the side to move;
  - the reply deadline and the polling loop;
  - the parsing of `info` and `bestmove` lines, and the screening of the move;
  - the single `game_end` message on every exit.
  The chess rules are an oracle given as a parameter.
- **Pairs and their results** (`match_pair.dfy`, `pair_result.dfy`, `pair_tasks.dfy`):
  - game-id arithmetic with Java int wrap-around;
  - scoring with the PGN result tokens of section 8.2.6 of the PGN standard;
  - the two pair tasks, with their colour swap, clock copies, synthetic results on failure and
    engine closing.
- **Scheduler** (`runner.dfy`, `MatchRunner`):
  - engine names taken from paths;
  - opponent, opening and time-control selection, with the random draws as parameters;
  - the per-pair timeout;
  - the submit/complete loop with its in-flight maps, the score table and the final standings.
- **Leaderboard** (`leaderboard.dfy`, `LeaderboardStats`): the win/draw/loss/points counters,
  overall and per time control, the peak-Elo rule, the leaderboard order and `merge`. The Elo
  arithmetic is an uninterpreted parameter.
- **Configuration** (`config.dfy`, `Config`): first-failure validation, the time-control
  fallback, and the EPD opening lines of section 16.2 of the PGN standard.
- **FEN files** (`fen.dfy`, `FENLoader`): the line filter, the shape check against the six
  fields of section 16.1 of the PGN standard, and the built-in openings.
- **Live-view cache** (`live_cache.dfy`, `GameWebSocket.broadcast`): the per-game state and
  move-history maps.
- **Helpers** (`text.dfy`, `wrappers.dfy`, `messages.dfy`): Java's string primitives (trim,
  both forms of `split`, `indexOf`, `parseInt`, decimal printing, the UTF-16 code units that
  `compareTo` orders), `Option`/`Result`, and the
  JSON messages sent to the live view.

Classes model the objects whose fields the source updates in place: `TimeControl`,
`GameState`, `Engine`, `GameManager`, `LeaderboardStats`, `MatchRunner` and the live view.
Their methods are proved against specification functions, and the lemmas are proved about
those functions.

## Model

| member | source | states |
|---|---|---|
| Clocks.Uniform | src/main/java/fr/flwrian/Game/TimeControl.java:13-15 | the two-argument clock gives both sides the same base time and the same increment |
| Clocks.Charge | src/main/java/fr/flwrian/Game/TimeControl.java:29-37 | a move costs the mover its elapsed time and earns it its increment; the other side's time and both increments are untouched |
| Clocks.Remaining | src/main/java/fr/flwrian/Game/TimeControl.java:39-45 | the reading sent to engines is never negative, and is the raw time unless that has gone below zero |
| Clocks.ReplayTotals | src/main/java/fr/flwrian/Game/TimeControl.java:29-37 | after any run of alternating moves each side's time is its start time, minus the time it spent, plus one increment per move it made |
| Clocks.ReplaySnoc | src/main/java/fr/flwrian/Game/TimeControl.java:29-37 | one more move charges the side whose turn it is after the earlier moves |
| Clocks.HasTimeMeansPositiveReading | src/main/java/fr/flwrian/Game/TimeControl.java:39-57 | a side has time left exactly when its clamped reading is positive, and then the reading is the raw time |
| Clocks.TestScenarios | src/test/java/fr/flwrian/Game/TimeControlTest.java:30-82 | the unit tests' expectations: 8100 and 8600 after one move each, a flag fall after 10000 ms on a 5000 ms clock, 7000 after three moves |
| Clocks.TimeControl.constructor | src/main/java/fr/flwrian/Game/TimeControl.java:17-22 | the four-argument clock holds exactly the given times and increments |
| Clocks.TimeControl.Symmetric | src/main/java/fr/flwrian/Game/TimeControl.java:13-15 | the two-argument clock is the uniform clock of the base time and increment |
| Clocks.TimeControl.ApplyMove | src/main/java/fr/flwrian/Game/TimeControl.java:29-37 | the new clock is the old one charged with the move |
| Clocks.TimeControl.GetWhiteTime | src/main/java/fr/flwrian/Game/TimeControl.java:39-41 | white's reading is the clamped remaining time |
| Clocks.TimeControl.GetBlackTime | src/main/java/fr/flwrian/Game/TimeControl.java:43-45 | black's reading is the clamped remaining time |
| Clocks.TimeControl.HasTimeLeft | src/main/java/fr/flwrian/Game/TimeControl.java:55-57 | tests the raw time of the side, not the clamped reading |
| Clocks.TimeControl.Copy | src/main/java/fr/flwrian/Game/TimeControl.java:59-61 | a new, independent clock with the same times and increments |
| Pairs.StandardPair | src/main/java/fr/flwrian/Game/MatchPair.java:11-13 | the one-argument pair starts from "startpos" |
| Pairs.Game1Id | src/main/java/fr/flwrian/Game/MatchPair.java:28-30 | the first game's id is an even Java int, exactly twice the pair number inside the id range |
| Pairs.Game2Id | src/main/java/fr/flwrian/Game/MatchPair.java:32-34 | the second game's id is an odd Java int, the one after the first game's inside the id range |
| Pairs.Describe | src/main/java/fr/flwrian/Game/MatchPair.java:36-41 | the description starts with "Pair", the pair number and " (Games ", and ends with "[Standard]" for the standard start and "[FEN]" otherwise |
| Pairs.GameIdsOfPair | src/main/java/fr/flwrian/Game/MatchPair.java:28-34 | inside the id range, a pair plays game 2p then game 2p+1, and both ids halve back to p |
| Pairs.GameIdsDisjoint | src/main/java/fr/flwrian/Game/MatchPair.java:28-34 | two different pairs inside the id range never share a game id |
| Pairs.GameIdsWrap | src/main/java/fr/flwrian/Game/MatchPair.java:28-34 | beyond the id range the int doubling wraps around to negative ids |
| Pairs.TestScenarios | src/test/java/fr/flwrian/Game/MatchPairTest.java:8-27 | pair 1 plays games 2 and 3, pair 5 games 10 and 11; the start tag tells a standard start from a FEN start |
| Results.UnnamedPair | src/main/java/fr/flwrian/Result/PairResult.java:14-16 | the two-argument pair result names its engines "Engine1" and "Engine2" |
| Results.WhitePoints | src/main/java/fr/flwrian/Result/PairResult.java:80-87 | white scores 1 exactly for "1-0", 0.5 exactly for "1/2-1/2", and 0 for any other result |
| Results.BlackPoints | src/main/java/fr/flwrian/Result/PairResult.java:89-96 | black's points are white's points for the result with the colours exchanged |
| Results.Engine1Score | src/main/java/fr/flwrian/Result/PairResult.java:45-59 | engine 1 scores between 0 and 2, nothing without games, and 2 for winning both colours |
| Results.Engine2Score | src/main/java/fr/flwrian/Result/PairResult.java:64-78 | engine 2 scores between 0 and 2, and with engine 1 shares one point per decided game of the first two |
| Results.OneGamePoints | src/main/java/fr/flwrian/Result/PairResult.java:80-96 | a game with a PGN result hands out exactly one point between the colours, and any other result hands out none |
| Results.PointsColourSymmetric | src/main/java/fr/flwrian/Result/PairResult.java:80-96 | black's points are white's points for the colour-flipped result, and flipping twice gives back the result |
| Results.PairPoints | src/main/java/fr/flwrian/Result/PairResult.java:45-78 | the two engines' scores add up to the number of decided games among the first two, and each lies between 0 and 2 |
| Results.PairScoresSymmetric | src/main/java/fr/flwrian/Result/PairResult.java:45-78 | exchanging the engines and flipping the results exchanges their scores |
| Games.PositionCommand | src/main/java/fr/flwrian/Game/GameState.java:58-76 | the position command starts with "position ", and is exactly "position startpos" for the standard start with no moves |
| Games.GoCommand | src/main/java/fr/flwrian/Game/GameState.java:78-84 | the go command starts with "go ", and splitting it at whitespace gives back its nine fields: the keywords, both clamped clock readings and both increments |
| Games.GoCommandReadsBack | src/main/java/fr/flwrian/Game/GameState.java:78-84 | an engine splitting the go command on spaces finds nine fields with the keywords in place, reads back both clamped clock readings, which are never negative, and both increments |
| Games.PositionCommandReadsBack | src/main/java/fr/flwrian/Game/GameState.java:58-76 | an engine splitting the position command finds "position", then "startpos" or "fen" with the words of the FEN, then "moves" and exactly the moves played, or nothing when no move was played |
| Games.GameState.constructor | src/main/java/fr/flwrian/Game/GameState.java:36-43 | a new game has no moves, white to move, full-move number 1, half-move clock 0 and no evaluations, whatever the FEN says |
| Games.GameState.AddMove | src/main/java/fr/flwrian/Game/GameState.java:45-56 | appends the move, charges the mover's clock before the turn passes, flips the side to move, bumps the full-move number when white is to move again and the half-move clock on every move, and keeps the counters in step with the move list |
| Games.GameState.GetPositionCommand | src/main/java/fr/flwrian/Game/GameState.java:58-76 | the command built piece by piece is the position command of the start position and the moves |
| Games.GameState.GetGoCommand | src/main/java/fr/flwrian/Game/GameState.java:78-84 | the go command of the game carries the clock's own getter readings for both sides and both increments, each after its keyword |
| Games.GameState.HasTimeLeft | src/main/java/fr/flwrian/Game/GameState.java:98-100 | the side to move has time left exactly when its clock reads above zero |
| Games.GameState.SetLastEvaluation | src/main/java/fr/flwrian/Game/GameState.java:124-141 | stores the report for the side given and leaves the other side's report, the moves and the counters alone |
| Engines.FirstWith | src/main/java/fr/flwrian/Engine/Engine.java:112-117 | the line waitFor stops at is the first one containing the token, and none before it contains it; no index exactly when no line contains it |
| Engines.Unarrived | src/main/java/fr/flwrian/Engine/Engine.java:129-131 | clearing the queue keeps exactly the lines that have not arrived yet, a suffix of the output in order |
| Engines.Engine.Send | src/main/java/fr/flwrian/Engine/Engine.java:92-96 | the command is written; the write fails, with the broken-pipe error, exactly when the pipe no longer accepts writes |
| Engines.Engine.PollLine | src/main/java/fr/flwrian/Engine/Engine.java:108-110 | the next line is taken when it arrives within the (non-negative) timeout, and the clock moves to its arrival; otherwise null after the whole timeout |
| Engines.Engine.WaitFor | src/main/java/fr/flwrian/Engine/Engine.java:112-117 | takes lines up to and including the first one containing the token and returns when it arrived; with no such line EngineLab blocks forever having taken everything |
| Engines.Engine.NewGame | src/main/java/fr/flwrian/Engine/Engine.java:112-123 | sends "ucinewgame" then "isready"; raises the broken-pipe error exactly when one of the two writes is refused, with the queue untouched; otherwise takes the queued lines up to the first "readyok" and returns when it arrived, or blocks forever having taken every line when none comes |
| Engines.Engine.Reset | src/main/java/fr/flwrian/Engine/Engine.java:112-137 | drops every line already queued, then behaves as newGame on what is left: the same broken-pipe condition and commands, and on success the wait for the first "readyok" among the lines that had not yet arrived |
| Engines.AwaitReady | src/main/java/fr/flwrian/Engine/Engine.java:112-123 | a wait for "readyok" that ends succeeds no earlier than it started and consumes at least one line; one that never ends leaves no line queued |
| Sessions.VerdictAgrees | src/main/java/fr/flwrian/Chess/ChessValidator.java:112-132 | the library reports a result exactly when it reports a reason; only checkmate is decisive, and then it goes against the side to move; every result is a PGN result |
| Sessions.Forfeit | src/main/java/fr/flwrian/Game/GameManager.java:83-158 | every forfeit is a PGN result that gives the side to move nothing and its opponent the point |
| Sessions.BestMoveShape | src/main/java/fr/flwrian/Game/GameManager.java:306-312 | a move is read only from a "bestmove " line, and it is never empty and holds no whitespace |
| Sessions.BestMoveReadsMove | src/main/java/fr/flwrian/Game/GameManager.java:306-312 | "bestmove m ..." yields m for every move token m, whatever follows it |
| Sessions.BareBestMoveIgnored | src/main/java/fr/flwrian/Game/GameManager.java:306-313 | a "bestmove" line with nothing after the keyword does not end the wait |
| Sessions.PvTextWords | src/main/java/fr/flwrian/Game/GameManager.java:279-292 | the stored principal variation holds at most five moves, they are the first moves the engine reported after trimming, and they are separated by single spaces |
| Sessions.MateScore | src/main/java/fr/flwrian/Game/GameManager.java:244-258 | the score is a Java int; a mate within 99 moves for the engine scores in (0, 10000), one against it in [-10000, 0) |
| Sessions.MateScoreOrder | src/main/java/fr/flwrian/Game/GameManager.java:244-258 | for mate distances within ±99, a nearer mate for the engine ranks above a farther one, and a nearer mate against it below a farther one |
| Sessions.InfoUpdateFields | src/main/java/fr/flwrian/Game/GameManager.java:229-292 | a line that is not an "info" line changes nothing; an info line without a field keeps that field's earlier value; on a line with both, a readable "score mate" replaces the "score cp" value; an info line with a "pv" stores at most five moves |
| Sessions.LeadingIntShape | src/main/java/fr/flwrian/Game/GameManager.java:233-239 | a value is read only when it is a Java int and the text starts with it (a leading blank makes Java's split give an empty first piece, which does not parse) |
| Sessions.LeadingIntReads | src/main/java/fr/flwrian/Game/GameManager.java:233-239 | a Java int printed alone, or followed by whitespace and anything else, is read back |
| Sessions.Screen | src/main/java/fr/flwrian/Game/GameManager.java:136-158 | a move is played exactly when it is non-empty, not "(none)" or "0000", and legal; otherwise the reason is illegal_move or resignation |
| Sessions.PreMoveCheck | src/main/java/fr/flwrian/Game/GameManager.java:65-102 | the game goes on exactly when the move cap, the rules, the clock and the process all allow it; the cap wins over the rules, the rules over the clock |
| Sessions.BuildPv | src/main/java/fr/flwrian/Game/GameManager.java:284-292 | the StringBuilder loop builds the first five moves joined by single spaces |
| Sessions.ReadInfo | src/main/java/fr/flwrian/Game/GameManager.java:228-297 | reading a line gives the evaluation the line-by-line update defines |
| Sessions.WaitingMeansNoBestMove | src/main/java/fr/flwrian/Game/GameManager.java:202-314 | the wait goes on exactly while no line read so far is a "bestmove" line with a move |
| Sessions.UpdatesOnlyFromInfo | src/main/java/fr/flwrian/Game/GameManager.java:298-304 | lines that are not "info" lines send no live update |
| Sessions.UpdatesAreThinking | src/main/java/fr/flwrian/Game/GameManager.java:298-304 | every message sent during the wait is an engine_thinking update |
| Sessions.Allowance | src/main/java/fr/flwrian/Game/GameManager.java:185-195 | the wait for a move is the clamped remaining time plus the increment plus the 50 ms margin, so never less than increment and margin |
| Sessions.GameManager.constructor | src/main/java/fr/flwrian/Game/GameManager.java:35-50 | a game between two distinct engines starts with the given start position and clock, no moves, and nothing sent yet |
| Sessions.GameManager.ReadLine | src/main/java/fr/flwrian/Game/GameManager.java:228-313 | one line read during the wait gives the next evaluation, sends the live update it calls for, and reports the move of a "bestmove" line |
| Sessions.GameManager.PollOnce | src/main/java/fr/flwrian/Game/GameManager.java:202-226 | one pass of the wait: a dead process or a passed deadline ends it without a move; otherwise one poll, which either reads one line or the clock moves forward before the deadline |
| Sessions.GameManager.ReadNext | src/main/java/fr/flwrian/Game/GameManager.java:214-226 | one poll of at most the poll timeout; a line taken is read, and nothing is taken when none arrives |
| Sessions.GameManager.WaitForBestMove | src/main/java/fr/flwrian/Game/GameManager.java:185-315 | the deadline is now plus the allowance; the wait returns the move of the first "bestmove" line that came before the deadline, or times out because the process died or the deadline passed; the evaluation and the live updates are those of the lines read |
| Sessions.GameManager.SendTurn | src/main/java/fr/flwrian/Game/GameManager.java:104-109 | sends the position command and then the go command of the current state to the engine to move; a refused write stops the sending with the broken-pipe error |
| Sessions.GameManager.StopThinking | src/main/java/fr/flwrian/Game/GameManager.java:115-127 | after a timeout the engine is sent "stop", and EngineLab waits at most 500 ms more |
| Sessions.GameManager.Apply | src/main/java/fr/flwrian/Game/GameManager.java:160-165 | stores the evaluation for the mover, appends the move, charges the mover's clock, and sends a move message with the move and the new position's FEN |
| Sessions.GameManager.Ask | src/main/java/fr/flwrian/Game/GameManager.java:104-158 | a turn after its checks: either the move was a legal, non-resigning token and is played with both commands sent and a move message last, or the game ends against the mover by timeout, illegal move or resignation, or with "*" after a refused write; "stop" is sent only after a timeout |
| Sessions.GameManager.Await | src/main/java/fr/flwrian/Game/GameManager.java:111-114 | the wait sends only engine_thinking updates and gives back a move that is a single token |
| Sessions.GameManager.Conclude | src/main/java/fr/flwrian/Game/GameManager.java:136-165 | a move that passes the checks is played and sent; one that fails ends the game against the mover with the check's reason and sends nothing |
| Sessions.GameManager.PlayTurn | src/main/java/fr/flwrian/Game/GameManager.java:65-165 | one pass of the loop: the checks before the move end the game with their verdict and touch no engine; otherwise the turn as the engine plays it; only the engine to move is written to or read from |
| Sessions.GameManager.PrepareEngines | src/main/java/fr/flwrian/Game/GameManager.java:57-59 | newGame on white, then on black; the outcome is exactly `Prepared` of the engines' refusals and queued output: a refused write stops the preparation with the broken-pipe error, a missing "readyok" blocks, and otherwise both are ready |
| Sessions.PreparedOutcomes | src/main/java/fr/flwrian/Game/GameManager.java:57-59 | the preparation blocks exactly when white accepts its writes and never answers "readyok", or black accepts and never answers after white did; it fails with the broken pipe exactly when white refuses, or white is ready and black refuses; it succeeds exactly when both accept and both answer |
| Engines.AwaitReadyBlocksIff | src/main/java/fr/flwrian/Engine/Engine.java:112-117 | waiting for "readyok" blocks exactly when no queued line contains it |
| Sessions.GameManager.Finish | src/main/java/fr/flwrian/Game/GameManager.java:366-377 | the result returned, and a game_end message with the result, the reason and the number of moves |
| Sessions.GameManager.AnnounceStart | src/main/java/fr/flwrian/Game/GameManager.java:320-336 | the game_start message with the names, the standard start FEN when the position command mentions startpos and the library's FEN otherwise, white's clamped time and increment |
| Sessions.GameManager.Run | src/main/java/fr/flwrian/Game/GameManager.java:55-179 | run: blocks only when an engine never answers "isready"; otherwise exactly one game_end is sent, last; game_start is sent first unless a refused write ended the game with "*"; it blocks exactly when the preparation does, and a refused write during the preparation gives "*" with "exception: Broken pipe"; the result agrees with the final position, every move played was legal, the move cap holds and the clock is the start clock charged with the moves' elapsed times |
| Sessions.GameManager.Play | src/main/java/fr/flwrian/Game/GameManager.java:61-172 | once both engines are ready: game_start first, exactly one game_end last, and the result agrees with the final position |
| Sessions.GameManager.PlayUntilEnd | src/main/java/fr/flwrian/Game/GameManager.java:64-172 | the loop: turns until one ends the game; every move added was legal, the side to move alternated, the clock replays the elapsed times, and exactly one game_end is sent, last |
| Sessions.GameManager.Advance | src/main/java/fr/flwrian/Game/GameManager.java:65-172 | one turn carries the loop's account of the game over: a move played adds one legal move under the cap, and an end agrees with the position |
| Sessions.GameManager.TakeTurn | src/main/java/fr/flwrian/Game/GameManager.java:65-172 | one turn either adds one legal move under the cap, with the mover's clock charged, or ends the game with a result that agrees with the position, sending no game_end on the way |
| Results.FailedPairScoresNothing | src/main/java/fr/flwrian/Task/OnDemandPairTask.java:109-124 | the two "0-0" records of a pair that failed before any game score nothing for either engine and count as no decided game |
| PairTasks.StartEngine | src/main/java/fr/flwrian/Engine/Engine.java:18-90 | starting an engine gives a fresh engine with nothing written and never closed when the process starts and answers the handshake, the start error when it fails, and blocks for ever when the handshake never completes |
| PairTasks.PlayGame | src/main/java/fr/flwrian/Task/OnDemandPairTask.java:64-73 | one game on a fresh copy of the base clock, with the engines, names, id and start position given; the result returned has the game's id and reports how the game's final position ended (`RecordOf`); the base clock is untouched and no engine is closed |
| PairTasks.PlayBoth | src/main/java/fr/flwrian/Task/OnDemandPairTask.java:61-99 | game 1 with engine 1 as white, both engines reset, then game 2 with colours and names swapped, each on its own clock copy; a refused FEN gives no result, a failed reset keeps game 1 alone with the broken-pipe error, otherwise both results in order with the ids 2p and 2p+1, the first reporting how game 1 ended and the second how game 2 ended; game 2 starts right after the resets' "ucinewgame" and "isready" |
| PairTasks.ResetBoth | src/main/java/fr/flwrian/Task/OnDemandPairTask.java:77-83 | reset on engine 1, then engine 2, then the pause; a failure is the broken-pipe error, an engine 1 that refuses the writes fails it before engine 2 is written to, and on success each engine was sent "ucinewgame" and "isready" and nothing else |
| PairTasks.BothFailed | src/main/java/fr/flwrian/Task/OnDemandPairTask.java:109-123 | the two records hold the pair's two game ids, in order, with the same result and reason |
| PairTasks.OnDemandCall | src/main/java/fr/flwrian/Task/OnDemandPairTask.java:37-144 | the task's result carries the pair id, both names and one or two records for games 1 and 2, each reporting how its game ended; a failed start or a refused FEN gives two "0-0" records with the error message; every engine started is closed exactly once, and a failed close is ignored |
| PairTasks.PairCall | src/main/java/fr/flwrian/Task/PairTask.java:35-109 | the result always holds two records, for games 1 and 2; game 1's record reports how game 1 ended, game 2's how game 2 ended when it was played, and otherwise it is "*" for pair_exception; the engines are never closed |
| Leaderboard.NewTcStats | src/main/java/fr/flwrian/Stats/LeaderboardStats.java:116-122 | a new time-control entry names its time control, has no games, and its counters are consistent |
| Leaderboard.TcAdd | src/main/java/fr/flwrian/Stats/LeaderboardStats.java:124-137 | one more game under the time control and one more win, draw or loss as the game went, the other two counters unchanged; the counters stay consistent |
| Leaderboard.NewEngineStats | src/main/java/fr/flwrian/Stats/LeaderboardStats.java:27-37 | a new engine entry has no games, no points, both ratings at the default 1500 and no time controls |
| Leaderboard.Add | src/main/java/fr/flwrian/Stats/LeaderboardStats.java:39-63 | one more game and one more of the matching kind, its points (1, 0.5 or 0) added, the rating untouched; with a time control, that control's entry is the old one, or a fresh one when new, counted by TcAdd, and every other control is unchanged |
| Leaderboard.UpdateElo | src/main/java/fr/flwrian/Stats/LeaderboardStats.java:65-70 | the new rating becomes current, and the best rating is the larger of the old best and the new rating |
| Leaderboard.WithEntry | src/main/java/fr/flwrian/Stats/LeaderboardStats.java:186-188 | the entry is created only when the name is new; every other entry stays as it was |
| Leaderboard.Recorded | src/main/java/fr/flwrian/Stats/LeaderboardStats.java:160-184 | the update throws exactly for a result outside the three PGN results, after both entries were created and before anything else changes; otherwise only the two engines' entries change and the table stays valid |
| Leaderboard.RecordedTwoEngines | src/main/java/fr/flwrian/Stats/LeaderboardStats.java:160-184 | for two engines, "1-0" is a win for white and a loss for black, "0-1" the mirror, a draw one draw each; each plays one more game, together they gain one point, and each takes the rating computed from both ratings before the game |
| Leaderboard.RecordedSelfPlay | src/main/java/fr/flwrian/Stats/LeaderboardStats.java:160-184 | an engine recorded against itself plays two games at once: a decisive result is one win and one loss, a draw two draws, one point in all, and it keeps the rating computed for black |
| Text.CodeUnits | src/main/java/fr/flwrian/Stats/LeaderboardStats.java:206 | a character is one UTF-16 code unit below U+10000 and two otherwise, all below 2^16, and it takes two exactly when its first is a high surrogate |
| Text.CodeUnitsInjective | src/main/java/fr/flwrian/Stats/LeaderboardStats.java:206 | different characters have different UTF-16 encodings |
| Text.Utf16Injective | src/main/java/fr/flwrian/Stats/LeaderboardStats.java:206 | different strings have different UTF-16 code-unit sequences |
| Text.Utf16Length | src/main/java/fr/flwrian/Runner/MatchRunner.java:379 | a string's UTF-16 length lies between its number of characters and twice that, and equals it when every character is below U+10000 |
| Leaderboard.UnitCompareAntisymmetric | src/main/java/fr/flwrian/Stats/LeaderboardStats.java:206 | code-unit order is antisymmetric and zero only for equal sequences |
| Leaderboard.UnitCompareTransitive | src/main/java/fr/flwrian/Stats/LeaderboardStats.java:206 | code-unit order is transitive |
| Leaderboard.LexCompareAntisymmetric | src/main/java/fr/flwrian/Stats/LeaderboardStats.java:206 | the name order of String.compareTo, on UTF-16 code units, is antisymmetric and zero only for equal names |
| Leaderboard.LexCompareTransitive | src/main/java/fr/flwrian/Stats/LeaderboardStats.java:206 | the name order of String.compareTo is transitive |
| Leaderboard.SupplementaryBeforeUpperBmp | src/main/java/fr/flwrian/Stats/LeaderboardStats.java:206 | U+10000 sorts before U+E000, since its high surrogate is below U+E000, although its code point is above |
| Leaderboard.CompareAntisymmetric | src/main/java/fr/flwrian/Stats/LeaderboardStats.java:195-207 | the leaderboard comparator is antisymmetric |
| Leaderboard.CompareTransitive | src/main/java/fr/flwrian/Stats/LeaderboardStats.java:195-207 | the leaderboard comparator is transitive |
| Leaderboard.RankedOrder | src/main/java/fr/flwrian/Stats/LeaderboardStats.java:195-207 | in a ranked board an earlier entry has the higher rating, then the more points, then the more wins, then the name that String.compareTo puts first (UTF-16 code-unit order) |
| Leaderboard.InsertionPoint | src/main/java/fr/flwrian/Stats/LeaderboardStats.java:195-207 | an entry goes after every entry it comes after and before the first it does not |
| Leaderboard.InsertMembers | src/main/java/fr/flwrian/Stats/LeaderboardStats.java:193-208 | inserting adds exactly the one entry |
| Leaderboard.InsertKeepsRanked | src/main/java/fr/flwrian/Stats/LeaderboardStats.java:193-208 | inserting keeps a board ranked |
| Leaderboard.InsertKeepsDistinct | src/main/java/fr/flwrian/Stats/LeaderboardStats.java:193-208 | inserting an entry whose name is new keeps the names distinct |
| Leaderboard.TcMerge | src/main/java/fr/flwrian/Stats/LeaderboardStats.java:256-259 | a time control's counters merged: games and each kind added, and still consistent |
| Leaderboard.MergedTc | src/main/java/fr/flwrian/Stats/LeaderboardStats.java:251-260 | the merged time controls are those of both entries |
| Leaderboard.MergeEntry | src/main/java/fr/flwrian/Stats/LeaderboardStats.java:233-260 | merged entry: totals and points added, the saved rating restored when positive, the best rating the larger of both |
| Leaderboard.Merged | src/main/java/fr/flwrian/Stats/LeaderboardStats.java:229-262 | the merged table holds the engines of both, and an engine only in this table is untouched |
| Leaderboard.MergedStep | src/main/java/fr/flwrian/Stats/LeaderboardStats.java:230-261 | folding one more saved engine into a partly merged table is merging with one more engine |
| Leaderboard.MergeEntryConsistent | src/main/java/fr/flwrian/Stats/LeaderboardStats.java:233-260 | merging two consistent entries gives a consistent entry |
| Leaderboard.MergedValid | src/main/java/fr/flwrian/Stats/LeaderboardStats.java:229-262 | merging two valid tables gives a valid table |
| Leaderboard.MergeIntoFreshEntry | src/main/java/fr/flwrian/Stats/LeaderboardStats.java:233-260 | a saved entry with a positive rating, merged into a fresh entry, is restored exactly |
| Leaderboard.MergeIntoEmptyRestores | src/main/java/fr/flwrian/Stats/LeaderboardStats.java:229-262 | saved statistics with positive ratings, merged into empty statistics, are restored exactly |
| Leaderboard.LeaderboardStats.constructor | src/main/java/fr/flwrian/Stats/LeaderboardStats.java:153-155 | new statistics hold no engine |
| Leaderboard.LeaderboardStats.GetOrCreateEngineStats | src/main/java/fr/flwrian/Stats/LeaderboardStats.java:186-188 | the table after getOrCreateEngineStats |
| Leaderboard.LeaderboardStats.RecordGameResult | src/main/java/fr/flwrian/Stats/LeaderboardStats.java:160-184 | the table and the error are those of the recording function, and the table stays valid |
| Leaderboard.LeaderboardStats.GetLeaderboard | src/main/java/fr/flwrian/Stats/LeaderboardStats.java:193-209 | every entry exactly once, no other entry, in comparator order: rating, points and wins descending, then names in String.compareTo order |
| Leaderboard.LeaderboardStats.GetAllTimeControls | src/main/java/fr/flwrian/Stats/LeaderboardStats.java:214-220 | a time control is returned exactly when some engine has played under it |
| Leaderboard.LeaderboardStats.Merge | src/main/java/fr/flwrian/Stats/LeaderboardStats.java:229-262 | the table becomes the merge of both tables, and stays valid when both were valid |
| Leaderboard.LeaderboardStats.MergeEngine | src/main/java/fr/flwrian/Stats/LeaderboardStats.java:231-260 | one saved engine merged into its entry, created when missing; nothing else changes |
| Leaderboard.MergeTimeControls | src/main/java/fr/flwrian/Stats/LeaderboardStats.java:251-260 | the inner loop builds the merged time controls |
| Runner.Slashed | src/main/java/fr/flwrian/Runner/MatchRunner.java:95 | every backslash of the path becomes a slash and every other character stays where it was |
| Runner.EngineName | src/main/java/fr/flwrian/Runner/MatchRunner.java:95-96 | a registered engine name never contains '/' or '\\' |
| Runner.EngineNameOfFile | src/main/java/fr/flwrian/Runner/MatchRunner.java:95-96 | a path ending in "/file" registers the engine as "file", whatever the directory part |
| Runner.EngineNameOfBareFile | src/main/java/fr/flwrian/Runner/MatchRunner.java:95-96 | a path without separators is its own engine name |
| Runner.EngineNameIgnoresTrailingSeparator | src/main/java/fr/flwrian/Runner/MatchRunner.java:95-96 | a trailing '/' or '\\' does not change the name, because split drops trailing empty pieces |
| Runner.EngineNameFails | src/main/java/fr/flwrian/Runner/MatchRunner.java:95-96 | naming throws (index -1 of an empty array) exactly when the path is non-empty and made of separators only |
| Runner.RegisterEngines | src/main/java/fr/flwrian/Runner/MatchRunner.java:93-102 | succeeds exactly when every path has a name, then lists each path's name in order; otherwise it fails with the out-of-bounds message |
| Runner.SelectTwoDifferentEngineIndices | src/main/java/fr/flwrian/Runner/MatchRunner.java:511-525 | no choice exactly when there are fewer than two engines; otherwise two different indices below the count |
| Runner.EveryEnginePairSelectable | src/main/java/fr/flwrian/Runner/MatchRunner.java:511-525 | every ordered pair of different indices is produced by some draw |
| Runner.SelectStartingPosition | src/main/java/fr/flwrian/Runner/MatchRunner.java:576-587 | "startpos" without openings, otherwise one of the given openings |
| Runner.SequentialOpenings | src/main/java/fr/flwrian/Runner/MatchRunner.java:576-587 | outside "random" mode pair k plays opening k mod n whatever was drawn, so openings repeat with period n |
| Runner.RandomOpeningsReachable | src/main/java/fr/flwrian/Runner/MatchRunner.java:576-587 | in "random" mode (in any letter case) every opening can be drawn for any pair |
| Runner.SelectRandomTimeControl | src/main/java/fr/flwrian/Runner/MatchRunner.java:532-537 | the chosen control is one of the list, and the sole control when there is only one |
| Runner.EveryTimeControlSelectable | src/main/java/fr/flwrian/Runner/MatchRunner.java:532-537 | every control in the list can be drawn |
| Runner.LongestFromIsLongest | src/main/java/fr/flwrian/Runner/MatchRunner.java:237-242 | the running maximum is one of the candidates and its budget is at least that of every candidate |
| Runner.LongestControl | src/main/java/fr/flwrian/Runner/MatchRunner.java:237-242 | the longest control is one of the listed controls and its budget is at least that of every listed control; with no control it is the base control |
| Runner.PairTimeoutMs | src/main/java/fr/flwrian/Runner/MatchRunner.java:237-244 | the pair timeout is six budgets of the base control for an empty list, and at least six budgets of every listed control |
| Runner.TimeoutSeconds | src/main/java/fr/flwrian/Runner/MatchRunner.java:244-246 | the timeout in seconds is the millisecond timeout divided by 1000 with the fraction dropped toward zero |
| Runner.PairTimeoutCoversEveryControl | src/main/java/fr/flwrian/Runner/MatchRunner.java:237-246 | for a non-empty list the pair timeout is six budgets of one of the listed controls |
| Runner.TwoDigits | src/main/java/fr/flwrian/Runner/MatchRunner.java:542-566 | "%02d" gives exactly two digits |
| Runner.MinutesTextForm | src/main/java/fr/flwrian/Runner/MatchRunner.java:542-566 | from a minute on, both branches print the same "m:ss": the whole minutes, a colon and two digits of the remaining seconds, which are below 60 |
| Runner.MinutesTextIsMinutesColonSeconds | src/main/java/fr/flwrian/Runner/MatchRunner.java:542-566 | both parts of "m:ss" read back as the whole minutes and the seconds below 60 |
| Runner.FormatTimeControlParts | src/main/java/fr/flwrian/Runner/MatchRunner.java:542-566 | the label is white's clamped base (in seconds below a minute, as "m:ss" from a minute on), then " + " and white's increment; black's side never shows |
| Runner.InitialScores | src/main/java/fr/flwrian/Runner/MatchRunner.java:294-297 | the score table starts with every registered name at 0.0 and no one else |
| Runner.AddPairScoresCredits | src/main/java/fr/flwrian/Runner/MatchRunner.java:326-329 | each engine of a finished pair gains its own score and no other engine changes; an engine paired with its own name gains the pair's whole point count |
| Runner.TallyScoresBounds | src/main/java/fr/flwrian/Runner/MatchRunner.java:294-329 | scores never fall below zero or decrease, and the table holds every registered engine and everyone who played |
| Runner.ScoreSlot | src/main/java/fr/flwrian/Runner/MatchRunner.java:473-474 | the insertion point comes after every entry scoring at least as much and before the first one scoring less |
| Runner.InsertScoreShape | src/main/java/fr/flwrian/Runner/MatchRunner.java:473-474 | inserting places the entry at its slot and shifts the entries after it by one |
| Runner.InsertScoreKeepsOrder | src/main/java/fr/flwrian/Runner/MatchRunner.java:473-474 | inserting keeps the standings in descending score order |
| Runner.InsertScoreMembers | src/main/java/fr/flwrian/Runner/MatchRunner.java:473-474 | the standings after insertion are the old ones plus the new entry |
| Runner.InsertScoreKeepsDistinct | src/main/java/fr/flwrian/Runner/MatchRunner.java:473-474 | inserting a new name keeps every name listed once |
| Runner.InsertScoreEntries | src/main/java/fr/flwrian/Runner/MatchRunner.java:473-474 | every listed entry carries its engine's score in the extended table |
| Runner.InsertScoreCovers | src/main/java/fr/flwrian/Runner/MatchRunner.java:473-474 | every entry of the extended table is listed |
| Runner.InsertScoreLists | src/main/java/fr/flwrian/Runner/MatchRunner.java:473-474 | inserting a new engine's entry keeps the standings sorted and an exact listing of the extended table |
| Runner.SortScores | src/main/java/fr/flwrian/Runner/MatchRunner.java:473-474 | the final standings list each table entry exactly once, best score first |
| Runner.RecordedPair | src/main/java/fr/flwrian/Runner/MatchRunner.java:336-357 | recording a pair raises exactly the error of its first game without a PGN result |
| Runner.RecordedPairTouchesItsEngines | src/main/java/fr/flwrian/Runner/MatchRunner.java:336-357 | recording a pair creates the entries of its two engines even when it raises, no other engine changes, and the leaderboard's invariant is kept |
| Runner.FailedPairAbortsRecording | src/main/java/fr/flwrian/Runner/MatchRunner.java:336-357 | a pair whose engines failed to start ("0-0" for both games) raises "Invalid result: 0-0" on its first game |
| Runner.RecordedIfDecided | src/main/java/fr/flwrian/Runner/MatchRunner.java:344-353 | a non-PGN result leaves the leaderboard unchanged; a PGN result is recorded as recordGame records it; only the two engines can change |
| Runner.RecordedDecidedPair | src/main/java/fr/flwrian/Runner/MatchRunner.java:336-357 | the corrected recording never raises, keeps the invariant, touches only the pair's engines, and leaves the leaderboard alone when no game was decided |
| Runner.RecordedDecidedPairAgrees | src/main/java/fr/flwrian/Runner/MatchRunner.java:336-357 | where the original raises nothing, the corrected recording gives the same leaderboard |
| Runner.FailedPairSkippedWhenCorrected | src/main/java/fr/flwrian/Runner/MatchRunner.java:336-357 | under the correction a failed pair leaves the leaderboard unchanged |
| Runner.SelectionCanPairANameWithItself | src/main/java/fr/flwrian/Runner/MatchRunner.java:511-525 | with two paths sharing a file name, index selection pairs the name "sf" with itself |
| Runner.OthersBelow | src/main/java/fr/flwrian/Runner/MatchRunner.java:511-525 | lists exactly the indices below n whose name differs from the given one |
| Runner.SelectTwoDifferentEngines | src/main/java/fr/flwrian/Runner/MatchRunner.java:511-525 | the corrected selection gives two engines with different names, and has no choice exactly when all names are equal |
| Runner.LaunchShape | src/main/java/fr/flwrian/Runner/MatchRunner.java:263-291 | submission k fails exactly with fewer than two engines; otherwise pair k gets id k, two different registered engines, the selected opening and a listed control with its label |
| Runner.SubmitKeepsInFlight | src/main/java/fr/flwrian/Runner/MatchRunner.java:282-290 | submitting the next pair keeps the books: pair k has id k, and the in-flight maps hold exactly the unfinished pairs with their names and labels |
| Runner.CompleteKeepsInFlight | src/main/java/fr/flwrian/Runner/MatchRunner.java:395-400 | removing a finished pair keeps the books, and the result's id is the pair's |
| Runner.AllFinished | src/main/java/fr/flwrian/Runner/MatchRunner.java:301-464 | once as many pairs finished as were submitted, every submitted pair finished |
| Runner.MatchRunner.constructor | src/main/java/fr/flwrian/Runner/MatchRunner.java:57-105 | stores the paths, names, pool size and controls, takes the first control as the base, and sets no statistics manager |
| Runner.MatchRunner.SetStatsManager | src/main/java/fr/flwrian/Runner/MatchRunner.java:42-47 | sets the statistics manager |
| Runner.MatchRunner.RunPairs | src/main/java/fr/flwrian/Runner/MatchRunner.java:209-504 | fails before submitting with fewer than two engines; never more than `concurrency` pairs are in flight; polls forever (Blocked) when every unfinished task hangs, and cannot block when every task returns; otherwise ends with the first raised error, of the last finished pair: its leaderboard error when recording, else the exception of its printed report, all earlier pairs having passed both; on success every one of the T pairs is submitted as selected and finishes once, totalGames counts their games, the standings list the tally sorted best first, and the leaderboard is the replay of the recordings |
| Runner.MatchRunner.CompleteAll | src/main/java/fr/flwrian/Runner/MatchRunner.java:301-464 | the completion loop keeps at most `concurrency` pairs in flight, keeps submissions and finished pairs in step and the scores, game count and leaderboard equal to their replay over the finished pairs; it blocks exactly when only hung tasks remain, and its error is the last finished pair's completion error |
| Runner.MatchRunner.FinishRun | src/main/java/fr/flwrian/Runner/MatchRunner.java:301-473 | after the first batch: blocks exactly where the loop does, ends with the loop's error, and otherwise lists the tallied scores sorted best first with the game count |
| Runner.NoneTwiceDistinct | src/main/java/fr/flwrian/Runner/MatchRunner.java:395-399 | "no pair finishes twice", stated step by step (each finished pair's id is new among those finished before it, as the removal from the in-flight map ensures), holds exactly when the finished ids are pairwise different |
| Runner.FinishOne | src/main/java/fr/flwrian/Runner/MatchRunner.java:301-392 | one pass polls forever when no future in flight is done; otherwise one done future's result is taken, and the error is that pair's leaderboard error or else its report's exception |
| Runner.RecordAndReport | src/main/java/fr/flwrian/Runner/MatchRunner.java:336-392 | with a leaderboard the pair's two games are recorded first and their error wins; otherwise, or when recording passes, the error is the report's |
| Runner.MatchRunner.SubmitFirstBatch | src/main/java/fr/flwrian/Runner/MatchRunner.java:263-291 | submits min(T, pool) pairs as selected, or fails before any submission with fewer than two engines |
| Runner.TakeFinished | src/main/java/fr/flwrian/Runner/MatchRunner.java:319-334 | the result of a done future joins the finished pairs, its games and points are added, and it leaves the maps |
| Runner.RepeatError | src/main/java/fr/flwrian/Runner/MatchRunner.java:361 | `String.repeat` raises exactly for a negative count, with Java's message |
| Runner.GameLinesErrorCases | src/main/java/fr/flwrian/Runner/MatchRunner.java:376-380 | the game lines raise exactly when one of them pads with a negative count, its result and reason measured in UTF-16 code units as String.length() counts them, and then with such a count |
| Runner.ReportErrorCases | src/main/java/fr/flwrian/Runner/MatchRunner.java:359-392 | the pair report raises exactly when its header or a game line (result and reason counted in UTF-16 code units) pads with a negative count, the header taking precedence |
| Runner.FailedPairReportThrows | src/main/java/fr/flwrian/Runner/MatchRunner.java:376-380 | a pair whose engine file (a path of three characters or more) is missing makes its report raise, with or without a leaderboard |
| Runner.RecordLogged | src/main/java/fr/flwrian/Runner/MatchRunner.java:336-357 | the leaderboard becomes the replay of the log with the new recording, and the error is the pair's |
| Runner.SubmitPair | src/main/java/fr/flwrian/Runner/MatchRunner.java:282-290 | the next pair's future, names and label join the maps under its id |
| Runner.Refill | src/main/java/fr/flwrian/Runner/MatchRunner.java:402-427 | one more pair is submitted exactly while fewer than T have been and there are two engines; otherwise nothing changes |
| Runner.RecordPairStats | src/main/java/fr/flwrian/Runner/MatchRunner.java:336-357 | the two recordGame calls change the leaderboard as RecordedPair says and return its error |
| Runner.NewMatchRunner | src/main/java/fr/flwrian/Runner/MatchRunner.java:57-105 | refuses a pool below one, an empty list of controls, and a path without a name; otherwise a fresh runner with each control uniform over both colours |
| Runner.NewUniformMatchRunner | src/main/java/fr/flwrian/Runner/MatchRunner.java:116-156 | refuses a pool below one and a path without a name; otherwise a fresh runner whose only control is the given one |
| Configs.WarningText | src/main/java/fr/flwrian/Config/Config.java:321-427 | every printed validation warning starts with the warning sign |
| Configs.ControlsChecked | src/main/java/fr/flwrian/Config/Config.java:347-360 | the list loop passes exactly when every entry has a positive base and a non-negative increment; otherwise it reports the first bad entry by its index; when it passes, every low-base entry's warning was printed |
| Configs.ControlsAccepted | src/main/java/fr/flwrian/Config/Config.java:328-360 | the time-control checks pass exactly when some control is configured and every configured one is good |
| Configs.TournamentChecked | src/main/java/fr/flwrian/Config/Config.java:294-360 | the tournament checks pass exactly when mode, at least two distinct engines, positive concurrency, positive pairsPerMatch and good time controls are all there |
| Configs.Validate | src/main/java/fr/flwrian/Config/Config.java:293-452 | validation throws nothing exactly on the configurations that meet every condition of every section (WellConfigured, stated on its own) |
| Configs.TournamentFailureFirst | src/main/java/fr/flwrian/Config/Config.java:293-360 | a failure in the tournament section is what validation reports, whatever the other sections and the disk hold |
| Configs.MissingModeReported | src/main/java/fr/flwrian/Config/Config.java:299-301 | a missing mode is reported first, with its message and nothing printed |
| Configs.HighConcurrencyOnlyWarns | src/main/java/fr/flwrian/Config/Config.java:317-322 | a concurrency above 16 is accepted, with the high-concurrency warning printed |
| Configs.LowBaseTimeOnlyWarns | src/main/java/fr/flwrian/Config/Config.java:347-360 | a list entry with a base under one second is accepted, with a warning naming its index |
| Configs.MissingTimeControlsRejected | src/main/java/fr/flwrian/Config/Config.java:328-331 | when the earlier checks pass, a tournament without any time control is rejected with the missing-section message |
| Configs.NegativeBaseTimeRejected | src/main/java/fr/flwrian/Config/Config.java:347-352 | a list whose only entry has base -1000 is rejected with "timeControls[0].baseTimeMs must be positive (got: -1000)" |
| Configs.GetTimeControls | src/main/java/fr/flwrian/Config/Config.java:528-537 | the list when it has entries, else the legacy control alone, else the "No time control(s) configured" failure; never an empty list |
| Configs.ValidatedTimeControls | src/main/java/fr/flwrian/Config/Config.java:293-360 | after a successful validation the effective controls exist and each has a positive base and a non-negative increment |
| Configs.GetStartingPositions | src/main/java/fr/flwrian/Config/Config.java:485-521 | no positions when openings are off; the wrapped read error when the file cannot be read; otherwise the positions of the file's lines in order |
| Configs.EpdPosition | src/main/java/fr/flwrian/Config/Config.java:497-511 | a line gives a position exactly when, trimmed, it is non-empty, not a comment and has at least four fields; the position is those four fields |
| Configs.EpdPositionsHaveFourFields | src/main/java/fr/flwrian/Config/Config.java:497-511 | every position read from the file has exactly four whitespace-separated fields |
| Configs.EpdPositionsInOrder | src/main/java/fr/flwrian/Config/Config.java:496-513 | positions come out in line order: reading two runs of lines gives the positions of each, one after the other |
| Configs.SkippedLines | src/main/java/fr/flwrian/Config/Config.java:497-499 | blank and comment lines contribute no position |
| Fen.LoadFromFile | src/main/java/fr/flwrian/Util/FENLoader.java:26-60 | a read error propagates with no warning; otherwise the positions are those of the file's lines in order and the warnings are those of its invalid lines, each with its 1-based line number |
| Fen.ReadLine | src/main/java/fr/flwrian/Util/FENLoader.java:35-55 | a line is skipped exactly when, trimmed, it is blank or starts with "#"; any other line is kept exactly when its uncommented text has at least six fields, and reported otherwise |
| Fen.UncommentedShape | src/main/java/fr/flwrian/Util/FENLoader.java:43-46 | cutting off an inline comment leaves text without "#" that, when non-empty, begins and ends with a visible character |
| Fen.KeptLineShape | src/main/java/fr/flwrian/Util/FENLoader.java:35-55 | a kept line is its text before the comment: non-empty, trimmed, without "#", with at least six fields |
| Fen.LoadedFensShape | src/main/java/fr/flwrian/Util/FENLoader.java:26-60 | every loaded position is non-empty, trimmed, free of "#" and has at least six fields |
| Fen.LoadedFensInOrder | src/main/java/fr/flwrian/Util/FENLoader.java:33-56 | positions keep line order: the positions of two runs of lines are those of each, one after the other |
| Fen.EveryLineAccounted | src/main/java/fr/flwrian/Util/FENLoader.java:33-56 | every line that is neither blank nor a comment gives exactly one of a position or a warning |
| Fen.InvalidLineWarned | src/main/java/fr/flwrian/Util/FENLoader.java:48-53 | an invalid line adds the warning naming its own line number and no position |
| Fen.SkippedLineIgnored | src/main/java/fr/flwrian/Util/FENLoader.java:37-40 | a blank or comment line adds neither a position nor a warning |
| Fen.IsValidFen | src/main/java/fr/flwrian/Util/FENLoader.java:106-130 | isValidFEN holds exactly when the text is present and its trimmed fields number at least six, the first splits into eight ranks and the second is "w" or "b" |
| Fen.JoinEnds | src/main/java/fr/flwrian/Util/FENLoader.java:119 | joining non-empty parts starts with the first part's first character and ends with the last part's last |
| Fen.PiecesOfJoin | src/main/java/fr/flwrian/Util/FENLoader.java:119 | cutting "/"-free non-empty ranks joined by "/" at every "/" gives the ranks back |
| Fen.SplitRanks | src/main/java/fr/flwrian/Util/FENLoader.java:119 | splitting eight "/"-free non-empty ranks joined by "/" on "/" returns exactly those ranks |
| Fen.FenTextValid | src/main/java/fr/flwrian/Util/FENLoader.java:106-130 | a FEN built from well-formed fields passes isValidFEN, is already trimmed, and its fields and ranks read back as built |
| Fen.VisibleToken | src/main/java/fr/flwrian/Util/FENLoader.java:111 | a text of visible characters holds no whitespace |
| Fen.VisibleJoin | src/main/java/fr/flwrian/Util/FENLoader.java:111 | visible parts joined by a visible separator make a visible text |
| Fen.CommonOpenings | src/main/java/fr/flwrian/Util/FENLoader.java:67-98 | nine positions, each the text of the corresponding opening's fields |
| Fen.OpeningFieldsWellFormed | src/main/java/fr/flwrian/Util/FENLoader.java:67-98 | the fields of every built-in opening are well formed |
| Fen.CommonOpeningsValid | src/main/java/fr/flwrian/Util/FENLoader.java:67-130 | every built-in opening passes isValidFEN, and the first is the starting position with white to move |
| Messages.GameStart | src/main/java/fr/flwrian/WebSocket/WSMessage.java:10-21 | a "game_start" message carrying the game id, both names, the fen and the clock settings given |
| Messages.GameStartKeys | src/main/java/fr/flwrian/WebSocket/WSMessage.java:10-21 | the "game_start" message has exactly the type, game id, both names, fen, base time and increment properties |
| Messages.Move | src/main/java/fr/flwrian/WebSocket/WSMessage.java:38-63 | a "move" message carrying the game id, move, fen, both clocks, move number and side, and each evaluation field as given (absent when not given) |
| Messages.MoveKeys | src/main/java/fr/flwrian/WebSocket/WSMessage.java:38-63 | the "move" message has exactly its eight fixed properties plus those evaluation fields that are given |
| Messages.GameEnd | src/main/java/fr/flwrian/WebSocket/WSMessage.java:65-75 | a "game_end" message carrying the game id, result, reason and move count given |
| Messages.GameEndKeys | src/main/java/fr/flwrian/WebSocket/WSMessage.java:65-75 | the "game_end" message has exactly the type, game id, result, reason and move count properties |
| Messages.EngineThinking | src/main/java/fr/flwrian/WebSocket/WSMessage.java:79-92 | an "engine_thinking" message carrying the game id and side, and score, depth and pv as given (absent when not given) |
| Messages.EngineThinkingKeys | src/main/java/fr/flwrian/WebSocket/WSMessage.java:79-92 | the "engine_thinking" message has exactly the type, game id and side properties plus those of score, depth and pv that are given |
| LiveCache.Apply | src/main/java/fr/flwrian/WebSocket/GameWebSocket.java:101-179 | no change without a game id; the message throws exactly when it has a game id but no type, or is a move for a cached game without a fen; it keeps the two maps' keys equal and touches no other game |
| LiveCache.StartState | src/main/java/fr/flwrian/WebSocket/GameWebSocket.java:107-117 | the state cached on game_start holds the game's id and the message's names and fen when present, no moves and no evaluation |
| LiveCache.MoveState | src/main/java/fr/flwrian/WebSocket/GameWebSocket.java:132-167 | a move keeps the game and its names, takes the new fen, shows a non-empty history, takes both clocks (0 when absent), takes every evaluation field the message carries and keeps every one it leaves out |
| LiveCache.UpdateMove | src/main/java/fr/flwrian/WebSocket/GameWebSocket.java:132-167 | the in-place update of a cached state by a move gives the state that MoveState describes |
| LiveCache.LiveView.constructor | src/main/java/fr/flwrian/WebSocket/GameWebSocket.java:20-29 | both maps start empty and nothing has been forwarded |
| LiveCache.LiveView.Broadcast | src/main/java/fr/flwrian/WebSocket/GameWebSocket.java:101-179 | the maps change as Apply says; the message is forwarded exactly when handling it does not throw; the keys of the two maps stay equal |
| LiveCache.StartReplaces | src/main/java/fr/flwrian/WebSocket/GameWebSocket.java:107-121 | game_start caches the names (default "Engine"), the fen (default the standard start), the clocks (default 0), no moves and no evaluation, and an empty history |
| LiveCache.StartClocksZero | src/main/java/fr/flwrian/WebSocket/WSMessage.java:10-21 | the start message the game sends carries no clocks, so the cached clocks start at 0 while the names and fen are the message's |
| LiveCache.MoveNeverCreates | src/main/java/fr/flwrian/WebSocket/GameWebSocket.java:122-167 | a move never creates a cached state or a history, and does not throw for a game without a cached state |
| LiveCache.MoveAppends | src/main/java/fr/flwrian/WebSocket/GameWebSocket.java:124-129 | a move appends its move to an existing history, and a move without one leaves it alone |
| LiveCache.MoveUpdatesState | src/main/java/fr/flwrian/WebSocket/GameWebSocket.java:132-167 | a move for a cached game sets the fen and clocks, shows the whole history once it is non-empty, copies each evaluation field only when present and keeps the names |
| LiveCache.EndRemoves | src/main/java/fr/flwrian/WebSocket/GameWebSocket.java:168-172 | game_end forgets the game in both maps |
| LiveCache.ReplayHistory | src/main/java/fr/flwrian/WebSocket/GameWebSocket.java:101-172 | after any trace, a game is cached exactly when it has a history, and its history is the moves sent for it since its last start, unless it ended since |
| LiveCache.BuiltMessagesForwarded | src/main/java/fr/flwrian/WebSocket/GameWebSocket.java:175-178 | when every game message has a type and every move a fen, every message is forwarded, in order |
| LiveCache.BroadcastAll | src/main/java/fr/flwrian/WebSocket/GameWebSocket.java:101-179 | broadcasting a trace from a fresh view leaves the replayed caches and forwards exactly what Forwarded says |
| Text.Wrap32Wraps | src/main/java/fr/flwrian/Game/MatchPair.java:28-34 | the wrapped value is a Java int congruent to the exact one modulo 2^32, and the exact one when it fits |
| Text.IndexOfFirst | src/main/java/fr/flwrian/Util/FENLoader.java:43 | indexOf gives the first occurrence and fails only when there is none |
| Text.SplitWsLimitWords | src/main/java/fr/flwrian/Config/Config.java:502 | split("\\s+", n) of an unpadded text gives min(words, n) pieces, all but the last being the words themselves |
| Text.IntToStringParses | src/main/java/fr/flwrian/Game/GameState.java:78-84 | printing an integer and parsing it back gives the integer, also under Integer.parseInt when it fits 32 bits |
| Engines.Engine.constructor | src/main/java/fr/flwrian/Engine/Engine.java:18-90 | a started process has all its future output pending, no command written and has never been closed |
| Engines.Engine.Close | src/main/java/fr/flwrian/Task/OnDemandPairTask.java:126-140 | every close is counted, and it raises exactly when the environment says closing fails |
| Leaderboard.Rate | src/main/java/fr/flwrian/Stats/LeaderboardStats.java:160-184 | a rating update changes only the named engine's entry and keeps the table's invariant |
| Leaderboard.Count | src/main/java/fr/flwrian/Stats/LeaderboardStats.java:160-184 | counting one game changes only the named engine's entry and keeps the table's invariant |

## Left out

- Processes, threads and sockets:
  - engine processes, their reader threads and the blocking queue;
  - the thread pool, `Future` polling, `Thread.sleep`, `shutdown`/`forceShutdown`, and the
    semantics of ConcurrentHashMap and `synchronized`.
  The scheduler is a sequential loop. The future that finishes next is any one in flight, and
  the `outcome` parameter gives what its task returned. Wall-clock time enters as parameters.
- The `TimeoutException` branch of `runPairs`: it is unreachable, because `get(timeout)` is
  only called on a future that is already done.
- Runner.MatchRunner.RunPairs: a task's result is taken to carry the pair's id and the engine
  names it was submitted with (`ReportsOwnPair`). This is less than what `PairTasks.OnDemandCall`
  promises (`PairTasks.TaskResult`), so the scheduler does not depend on the game contents. A
  task may instead never return (`Blocked`), as a game against an engine that stops answering
  does; Java then polls forever, and so the model returns `Blocked`.
- Console logging, the box-drawing pair reports, the final score percentages and the winner
  line are printed output only.
  - Warnings from validation and FEN loading come back as values instead.
  - The pair report's text is not modelled, but its exceptions are. `" ".repeat(n)` throws
    for a negative `n`. The header line (MatchRunner.java:361) does so for long numbers, and
    each game line (MatchRunner.java:379) for a long result and reason. That covers
    practically every failed pair, whose reason holds the engine's path or the exception's
    message, with or without a statistics manager (`Runner.FailedPairReportThrows`). The
    matchup line guards its padding, and the score line's is never below 33.
- `%.1f` formatting: it stands behind the sub-minute labels of `formatTimeControl` and the
  `toString` methods. The caller supplies it (`SecondsText`), and the `toString` texts are not
  modelled except `MatchPair`'s (`Pairs.Describe`).
- EloCalculator's floating-point rating update is an uninterpreted parameter (`EloRule`).
  Only its throw on a result outside the PGN three is kept. The percentage and rate getters of
  LeaderboardStats are floating point too, and are left out.
- The chess rules (chesslib behind ChessValidator) are an oracle of total functions over the
  start position and the moves played (`Rules`). Its refusal of a start FEN is not part of the
  oracle: it enters the pair tasks as their `fenError` parameter (`PairTasks.PlayBoth`,
  `PairTasks.OnDemandCall`, `PairTasks.PairCall`), whose contracts cover that path.
- StatsManager's JSON persistence is left out. Its `recordGame` delegates to
  `recordGameResult`, which is modelled.
- Config:
  - YAML loading (`Config.load`), `getEnginePaths` and `printSummary` are left out.
  - The file system is a parameter (`FileSystem`) that answers existence, type and
    directory-creation questions.
  - Fields that validation never reads are not part of the records.
- Configs.ErrorMessage: a path message shows the configured text as written. Java prints
  `Path.of(...)`, which normalises it ("engines/" prints as "engines", "a//b" as "a/b").
- Text.ParseInteger and Text.ParseJavaInt: only the ASCII digits 0-9 are read. `Integer.parseInt` also accepts the
  other Unicode decimal digits that `Character.digit` knows; the integers the model prints and
  reads back are ASCII.
- `getStartingPositions` with openings enabled but no file named: the NullPointerException
  from `Path.of(null)` is not modelled. Validation rejects that configuration first.
- Fen.CommonOpenings: each position is built from its fields, and its equality with the
  literal text in the source is not proved character by character.
- The WebSocket server, the static file servlet, `onConnect`/`onMessage` and the sending to
  sessions are network I/O. Forwarding is modelled as appending to the `forwarded` trace.
- The WSMessage builders are records without a timestamp, since the timestamp comes from the
  clock.
- A GameManager call to a four-argument `setLastEvaluation`, which GameState does not declare,
  is modelled as the seven-argument one with the three extra fields absent.
- OnDemandPairTask calls `Engine.close()`, which Engine does not declare. That call is
  modelled as an environment operation that may raise.
- The entry points (`Main`, `ConfigMain`, `ExampleWithFEN`), `GameTask`, `EngineInstance` and
  the one-argument `GameState` constructor are not part of this model.
- `GameState.getMoves` returns a copy. Here the move list is a sequence value, so a caller
  cannot change the state's list through it.
- Java `long`/`int` widths are unbounded integers, except for the wrap-around of the game-id
  arithmetic and of the mate-score formula, which is written out.

## Findings

| source | as written | input that shows it | evidently intended | confidence | as-written member | corrected member |
|---|---|---|---|---|---|---|
| src/main/java/fr/flwrian/Runner/MatchRunner.java:511-525 | the second engine only has to differ from the first by index, so two paths with the same file name can meet under one name | paths [".../sf", "other/sf", ".../lc0"] with draws 0 and 0 pair "sf" against "sf" | the two engines of a pair are different engines, as validation demands at least two distinct names | not executed | Runner.SelectionCanPairANameWithItself | Runner.SelectTwoDifferentEngines |
| src/main/java/fr/flwrian/Runner/MatchRunner.java:336-357 | each game of a finished pair goes to `recordGame`, whose Elo update throws for a result outside "1-0", "0-1", "1/2-1/2"; the exception leaves `runPairs` and ends the tournament | a pair whose engine fails to start reports two "0-0" games; with a statistics manager the first raises "Invalid result: 0-0" | a failed or undecided game is skipped by the leaderboard and the tournament goes on; for that, the game-line padding at MatchRunner.java:379 must not go negative either, since as written it throws for a failed pair even without a statistics manager (`Runner.FailedPairReportThrows`) | not executed | Runner.FailedPairAbortsRecording | Runner.FailedPairSkippedWhenCorrected |

The scheduler (`Runner.MatchRunner.RunPairs`) is modelled as written: it selects opponents by
index and records every game, so both discrepancies stay visible in its contract. The
corrected definitions are stated beside the as-written ones, with their intended properties
proved (`Runner.SelectTwoDifferentEngines`, `Runner.RecordedDecidedPair`,
`Runner.RecordedDecidedPairAgrees`). Skipping failed games in the leaderboard is not enough
on its own: the report of such a pair still raises at MatchRunner.java:379, because its long
reason makes the padding negative (`Runner.FailedPairReportThrows`). This holds whether or not
statistics are kept.
