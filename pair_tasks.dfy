/**
 * The two games of a pair, colours swapped between them
 * (Task/OnDemandPairTask.java, Task/PairTask.java). The on-demand task
 * starts both engine processes itself and closes them whatever happens;
 * the plain task plays with engines it was given and pads a short result
 * list to two games.
 */
module PairTasks {
  import opened Wrappers
  import opened Clocks
  import opened Results
  import opened Engines
  import opened Pairs
  import opened Sessions

  const ResetPause := 100

  /** What the games of a pair produced before the pair ended: the results, and the message of the exception that cut it short. */
  datatype Played = Played(results: seq<GameResult>, failure: Option<string>)

  /** Where a game stopped: the moves played and whether white was to move. */
  datatype Ending = Ending(moves: seq<string>, whiteToMove: bool)

  /** The record reports how the game that stopped there ended, as GameManager.run decides it. */
  predicate RecordOf(rules: Rules, e: Ending, g: GameResult) {
    EndAgrees(rules, e.moves, e.whiteToMove, g.result, g.reason)
  }

  /** new Engine(path): the process starts and answers the UCI handshake, fails to start, or never answers. */
  method StartEngine(launch: Launch) returns (r: Outcome<Result<Engine, string>>)
    ensures launch.LaunchHangs? <==> r.Blocked?
    ensures launch.LaunchFailed? ==> r == Done(Failure(launch.message))
    ensures launch.Started? ==> r.Done? && r.value.Success?
    ensures r.Done? && r.value.Success? ==>
      var e := r.value.value;
      && fresh(e) && e.output == launch.output && e.exitsAt == launch.exitsAt
      && e.acceptsWrites == launch.acceptsWrites && e.closeFails == launch.closeFails
      && e.commands == [] && e.closeCount == 0
  {
    match launch
    case Started(output, exitsAt, acceptsWrites, closeFails) =>
      var e := new Engine(output, exitsAt, acceptsWrites, closeFails);
      return Done(Success(e));
    case LaunchFailed(message) =>
      return Done(Failure(message));
    case LaunchHangs =>
      return Blocked;
  }

  /** One game on its own copy of the base clock: the game is built, then run to its end. */
  method PlayGame(gameId: int, white: Engine, black: Engine, startFen: string, base: TimeControl,
                  rules: Rules, whiteName: string, blackName: string, now0: int)
    returns (r: Outcome<GameResult>, now: int, game: GameManager, ghost ending: Ending)
    requires white != black
    modifies white`output, white`commands, black`output, black`commands
    ensures now >= now0 && base.Value() == old(base.Value())
    ensures white.closeCount == old(white.closeCount) && black.closeCount == old(black.closeCount)
    ensures r.Done? ==> r.value.id == gameId && RecordOf(rules, ending, r.value)
    ensures ending == Ending(game.state.moves, game.state.whiteToMove) && game.rules == rules
    ensures game.white == white && game.black == black && game.whiteName == whiteName && game.blackName == blackName
    ensures game.gameId == gameId && game.state.startFen == startFen && game.state.timeControl != base
    ensures fresh(game.state.timeControl)
  {
    var clock := base.Copy();
    var g := new GameManager(gameId, white, black, startFen, clock, rules, whiteName, blackName);
    game := g;
    ghost var spent;
    r, now, spent := g.Run(now0);
    ending := Ending(g.state.moves, g.state.whiteToMove);
  }

  /**
   * The body shared by both tasks: game 1 with engine 1 as white, both engines reset, a short
   * pause, then game 2 with the colours and names swapped. Each game plays on its own copy of
   * the base clock. `fenError` is the chess library's refusal of the start FEN, if it refuses it,
   * which makes building the first game throw.
   */
  method PlayBoth(pair: MatchPair, e1: Engine, e2: Engine, base: TimeControl, n1: string, n2: string,
                  rules: Rules, fenError: Option<string>, now0: int)
    returns (r: Outcome<Played>, now: int, ghost game1: GameManager?, ghost game2: GameManager?,
             ghost ended1: (seq<string>, seq<string>), ghost started2: (seq<string>, seq<string>),
             ghost ending1: Ending, ghost ending2: Ending)
    requires e1 != e2
    modifies e1`output, e1`commands, e2`output, e2`commands
    ensures now >= now0 && base.Value() == old(base.Value())
    ensures e1.closeCount == old(e1.closeCount) && e2.closeCount == old(e2.closeCount)
    ensures fenError.Some? ==> r == Done(Played([], fenError)) && game1 == null
    ensures r.Done? ==>
      var p := r.value;
      && |p.results| <= 2
      && (|p.results| == 0 <==> fenError.Some?)
      && (fenError.Some? ==> p.failure == fenError)
      && (|p.results| == 1 ==> p.failure == Some(BrokenPipe))
      && (|p.results| == 2 <==> p.failure.None?)
      && (|p.results| >= 1 ==> p.results[0].id == Game1Id(pair))
      && (|p.results| == 2 ==> p.results[1].id == Game2Id(pair))
      && (|p.results| >= 1 ==> RecordOf(rules, ending1, p.results[0]))
      && (|p.results| == 2 ==> RecordOf(rules, ending2, p.results[1]))
    ensures game1 != null ==>
      && game1.white == e1 && game1.black == e2 && game1.whiteName == n1 && game1.blackName == n2
      && game1.gameId == Game1Id(pair) && game1.state.startFen == pair.startFen
      && game1.state.timeControl != base
    ensures game2 != null ==>
      && game1 != null
      && game2.white == e2 && game2.black == e1 && game2.whiteName == n2 && game2.blackName == n1
      && game2.gameId == Game2Id(pair) && game2.state.startFen == pair.startFen
      && game2.state.timeControl != base && game2.state.timeControl != game1.state.timeControl
    ensures r.Done? && |r.value.results| == 2 ==> game1 != null && game2 != null
    ensures game2 != null ==>
      && started2.0 == ended1.0 + ["ucinewgame", "isready"]
      && started2.1 == ended1.1 + ["ucinewgame", "isready"]
  {
    now, game1, game2 := now0, null, null;
    ended1, started2 := ([], []), ([], []);
    ending1, ending2 := Ending([], true), Ending([], true);
    if fenError.Some? {
      return Done(Played([], fenError)), now, game1, game2, ended1, started2, ending1, ending2;
    }
    var r1, g1;
    r1, now, g1, ending1 := PlayGame(Game1Id(pair), e1, e2, pair.startFen, base, rules, n1, n2, now);
    game1 := g1;
    if r1.Blocked? {
      return Blocked, now, game1, game2, ended1, started2, ending1, ending2;
    }
    var results := [r1.value];
    ended1 := (e1.commands, e2.commands);
    var reset;
    reset, now := ResetBoth(e1, e2, now);
    if reset.Blocked? {
      return Blocked, now, game1, game2, ended1, started2, ending1, ending2;
    }
    if reset.value.Some? {
      return Done(Played(results, reset.value)), now, game1, game2, ended1, started2, ending1, ending2;
    }
    started2 := (e1.commands, e2.commands);
    var r2, g2;
    r2, now, g2, ending2 := PlayGame(Game2Id(pair), e2, e1, pair.startFen, base, rules, n2, n1, now);
    game2 := g2;
    if r2.Blocked? {
      return Blocked, now, game1, game2, ended1, started2, ending1, ending2;
    }
    results := results + [r2.value];
    return Done(Played(results, None)), now, game1, game2, ended1, started2, ending1, ending2;
  }

  /** engine1.reset(), engine2.reset() and the pause before game 2; the first refused write stops it. */
  method ResetBoth(e1: Engine, e2: Engine, now0: int) returns (r: Outcome<Option<string>>, now: int)
    requires e1 != e2
    modifies e1`output, e1`commands, e2`output, e2`commands
    ensures now >= now0
    ensures r.Done? && r.value.Some? ==> r.value.value == BrokenPipe
    ensures old(e1.RefusesNewGame()) ==> r == Done(Some(BrokenPipe)) && e2.commands == old(e2.commands)
    ensures r == Done(None) ==>
      && e1.commands == old(e1.commands) + ["ucinewgame", "isready"]
      && e2.commands == old(e2.commands) + ["ucinewgame", "isready"]
  {
    now := now0;
    var reset1 := e1.Reset(now);
    if reset1.Blocked? {
      return Blocked, now;
    }
    if reset1.value.Failure? {
      return Done(Some(reset1.value.error)), now;
    }
    now := reset1.value.value;
    var reset2 := e2.Reset(now);
    if reset2.Blocked? {
      return Blocked, now;
    }
    if reset2.value.Failure? {
      return Done(Some(reset2.value.error)), now;
    }
    now := reset2.value.value + ResetPause;
    return Done(None), now;
  }

  /** The two records a pair reports when neither game got to produce a result. */
  function BothFailed(pair: MatchPair, result: string, reason: string): (games: seq<GameResult>)
    ensures |games| == 2 && games[0].id == Game1Id(pair) && games[1].id == Game2Id(pair)
    ensures forall i :: 0 <= i < 2 ==> games[i].result == result && games[i].reason == reason
  {
    [GameResult(Game1Id(pair), result, reason), GameResult(Game2Id(pair), result, reason)]
  }

  /**
   * What a finished on-demand task hands back: the pair's id and engine names, and one or two
   * game records, the first for game 1 and the second for game 2.
   */
  predicate TaskResult(r: PairResult, pair: MatchPair, n1: string, n2: string) {
    && r.pairId == pair.pairId && r.engine1Name == n1 && r.engine2Name == n2
    && 1 <= |r.games| <= 2 && r.games[0].id == Game1Id(pair)
    && (|r.games| == 2 ==> r.games[1].id == Game2Id(pair))
  }

  /**
   * OnDemandPairTask.call: start engine 1, then engine 2, play both games, and close every
   * engine that was started, ignoring a close that fails. A failure before any game finished
   * gives two "0-0" records carrying the error; a failure after game 1 keeps game 1 alone.
   */
  method OnDemandCall(pair: MatchPair, launch1: Launch, launch2: Launch, base: TimeControl, n1: string, n2: string,
                      rules: Rules, fenError: Option<string>, now0: int)
    returns (r: Outcome<PairResult>, now: int, ghost engine1: Engine?, ghost engine2: Engine?,
             ghost ending1: Ending, ghost ending2: Ending)
    ensures now >= now0 && base.Value() == old(base.Value())
    ensures r.Done? ==> TaskResult(r.value, pair, n1, n2)
    ensures !launch1.Started? ==> engine1 == null && engine2 == null
    ensures launch1.Started? && r.Done? ==> engine1 != null && (launch2.Started? <==> engine2 != null)
    ensures r.Done? && engine1 != null ==> engine1.closeCount == 1
    ensures r.Done? && engine2 != null ==> engine2.closeCount == 1
    ensures launch1.LaunchFailed? ==> r == Done(PairResult(pair.pairId, BothFailed(pair, "0-0", "Error: " + launch1.message), n1, n2))
    ensures launch1.Started? && launch2.LaunchFailed? ==>
      r == Done(PairResult(pair.pairId, BothFailed(pair, "0-0", "Error: " + launch2.message), n1, n2))
    ensures launch1.Started? && launch2.Started? && fenError.Some? ==>
      r == Done(PairResult(pair.pairId, BothFailed(pair, "0-0", "Error: " + fenError.value), n1, n2))
    ensures r.Done? && launch1.Started? && launch2.Started? && fenError.None? ==>
      var games := r.value.games;
      && 1 <= |games| <= 2 && games[0].id == Game1Id(pair) && RecordOf(rules, ending1, games[0])
      && (|games| == 2 ==> games[1].id == Game2Id(pair) && RecordOf(rules, ending2, games[1]))
  {
    now, engine1, engine2 := now0, null, null;
    ending1, ending2 := Ending([], true), Ending([], true);
    var s1 := StartEngine(launch1);
    if s1.Blocked? {
      return Blocked, now, engine1, engine2, ending1, ending2;
    }
    if s1.value.Failure? {
      return Done(PairResult(pair.pairId, BothFailed(pair, "0-0", "Error: " + s1.value.error), n1, n2)), now, engine1, engine2, ending1, ending2;
    }
    var e1 := s1.value.value;
    engine1 := e1;
    var s2 := StartEngine(launch2);
    var outcome: Outcome<Played>;
    if s2.Blocked? {
      return Blocked, now, engine1, engine2, ending1, ending2;
    } else if s2.value.Failure? {
      outcome := Done(Played([], Some(s2.value.error)));
    } else {
      var e2 := s2.value.value;
      engine2 := e2;
      ghost var g1, g2, ended1, started2;
      outcome, now, g1, g2, ended1, started2, ending1, ending2 := PlayBoth(pair, e1, e2, base, n1, n2, rules, fenError, now);
    }
    if outcome.Blocked? {
      return Blocked, now, engine1, engine2, ending1, ending2;
    }
    var results := outcome.value.results;
    if outcome.value.failure.Some? && results == [] {
      results := BothFailed(pair, "0-0", "Error: " + outcome.value.failure.value);
    }
    var closed := e1.Close();
    if s2.value.Success? {
      closed := s2.value.value.Close();
    }
    return Done(PairResult(pair.pairId, results, n1, n2)), now, engine1, engine2, ending1, ending2;
  }

  /**
   * PairTask.call: both games with engines the task was given, which it resets between the
   * games and never closes. The result always holds two games: whatever did not finish is
   * reported as "*" for "pair_exception".
   */
  method PairCall(pair: MatchPair, e1: Engine, e2: Engine, base: TimeControl, n1: string, n2: string,
                  rules: Rules, fenError: Option<string>, now0: int)
    returns (r: Outcome<PairResult>, now: int, ghost ending1: Ending, ghost ending2: Ending, ghost bothPlayed: bool)
    requires e1 != e2
    modifies e1`output, e1`commands, e2`output, e2`commands
    ensures now >= now0 && base.Value() == old(base.Value())
    ensures e1.closeCount == old(e1.closeCount) && e2.closeCount == old(e2.closeCount)
    ensures r.Done? ==>
      var games := r.value.games;
      && r.value.pairId == pair.pairId && r.value.engine1Name == n1 && r.value.engine2Name == n2
      && |games| == 2 && games[0].id == Game1Id(pair) && games[1].id == Game2Id(pair)
    ensures fenError.Some? ==> r == Done(PairResult(pair.pairId, BothFailed(pair, "*", "pair_exception"), n1, n2))
    ensures r.Done? && fenError.None? ==>
      var games := r.value.games;
      && RecordOf(rules, ending1, games[0])
      && (bothPlayed ==> RecordOf(rules, ending2, games[1]))
      && (!bothPlayed ==> games[1] == GameResult(Game2Id(pair), "*", "pair_exception"))
  {
    var outcome;
    ghost var g1, g2, ended1, started2;
    outcome, now, g1, g2, ended1, started2, ending1, ending2 := PlayBoth(pair, e1, e2, base, n1, n2, rules, fenError, now0);
    bothPlayed := outcome.Done? && |outcome.value.results| == 2;
    if outcome.Blocked? {
      return Blocked, now, ending1, ending2, bothPlayed;
    }
    var results := outcome.value.results;
    if outcome.value.failure.Some? {
      if results == [] {
        results := BothFailed(pair, "*", "pair_exception");
      } else if |results| == 1 {
        results := results + [GameResult(Game2Id(pair), "*", "pair_exception")];
      }
    }
    return Done(PairResult(pair.pairId, results, n1, n2)), now, ending1, ending2, bothPlayed;
  }
}
