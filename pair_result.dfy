/**
 * The outcome of one game and of one pair of games, and the points each
 * engine earns from a pair (Result/GameResult.java, Result/PairResult.java).
 */
module Results {

  /** One finished game: its id, its result ("1-0", "0-1", "1/2-1/2" or anything else) and why it ended. */
  datatype GameResult = GameResult(id: int, result: string, reason: string)

  /** Engine 1 plays white in the first game and black in the second. */
  datatype PairResult = PairResult(pairId: int, games: seq<GameResult>, engine1Name: string, engine2Name: string)

  /** The two-argument constructor names the engines "Engine1" and "Engine2". */
  function UnnamedPair(pairId: int, games: seq<GameResult>): (r: PairResult)
    ensures r.engine1Name == "Engine1" && r.engine2Name == "Engine2"
    ensures r.pairId == pairId && r.games == games
  {
    PairResult(pairId, games, "Engine1", "Engine2")
  }

  /** The three results of the PGN standard (section 8.2.6). */
  predicate IsPgnResult(result: string) {
    result == "1-0" || result == "0-1" || result == "1/2-1/2"
  }

  /** Points for white: a win, half a point for a draw, and any other result counts as a loss. */
  function WhitePoints(result: string): (points: real)
    ensures points == 1.0 <==> result == "1-0"
    ensures points == 0.5 <==> result == "1/2-1/2"
    ensures points == 0.0 <==> result != "1-0" && result != "1/2-1/2"
  {
    if result == "1-0" then 1.0 else if result == "1/2-1/2" then 0.5 else 0.0
  }

  /** Points for black: white's points for the result with the colours exchanged. */
  function BlackPoints(result: string): (points: real)
    ensures points == WhitePoints(Flip(result))
  {
    if result == "0-1" then 1.0 else if result == "1/2-1/2" then 0.5 else 0.0
  }

  /** The result with the colours exchanged. */
  function Flip(result: string): string {
    if result == "1-0" then "0-1" else if result == "0-1" then "1-0" else result
  }

  /** Engine 1's points: white's in the first game and black's in the second; an absent game scores nothing. */
  function Engine1Score(p: PairResult): (score: real)
    ensures 0.0 <= score <= 2.0
    ensures |p.games| == 0 ==> score == 0.0
    ensures |p.games| >= 2 && p.games[0].result == "1-0" && p.games[1].result == "0-1" ==> score == 2.0
  {
    (if |p.games| > 0 then WhitePoints(p.games[0].result) else 0.0)
      + (if |p.games| > 1 then BlackPoints(p.games[1].result) else 0.0)
  }

  /** Engine 2's points: together with engine 1's, one point for each decided game among the first two. */
  function Engine2Score(p: PairResult): (score: real)
    ensures 0.0 <= score <= 2.0
    ensures score + Engine1Score(p) == DecidedGames(p) as real
  {
    (if |p.games| > 0 then BlackPoints(p.games[0].result) else 0.0)
      + (if |p.games| > 1 then WhitePoints(p.games[1].result) else 0.0)
  }

  /** How many of the first two games ended with a PGN result. */
  function DecidedGames(p: PairResult): nat {
    (if |p.games| > 0 && IsPgnResult(p.games[0].result) then 1 else 0)
      + (if |p.games| > 1 && IsPgnResult(p.games[1].result) then 1 else 0)
  }

  /** A game hands out exactly one point when it has a PGN result and none otherwise. */
  lemma OneGamePoints(result: string)
    ensures WhitePoints(result) + BlackPoints(result) == if IsPgnResult(result) then 1.0 else 0.0
    ensures 0.0 <= WhitePoints(result) <= 1.0 && 0.0 <= BlackPoints(result) <= 1.0
  {
  }

  /** Scoring does not depend on colour: black's points are white's points for the flipped result. */
  lemma PointsColourSymmetric(result: string)
    ensures BlackPoints(result) == WhitePoints(Flip(result))
    ensures WhitePoints(result) == BlackPoints(Flip(result))
    ensures Flip(Flip(result)) == result
  {
  }

  /** The two engines share exactly one point per decided game of the pair, so each earns between 0 and 2. */
  lemma PairPoints(p: PairResult)
    ensures Engine1Score(p) + Engine2Score(p) == DecidedGames(p) as real
    ensures 0.0 <= Engine1Score(p) <= 2.0 && 0.0 <= Engine2Score(p) <= 2.0
    ensures DecidedGames(p) <= 2 && DecidedGames(p) <= |p.games|
  {
    if |p.games| > 0 {
      OneGamePoints(p.games[0].result);
    }
    if |p.games| > 1 {
      OneGamePoints(p.games[1].result);
    }
  }

  /** Swapping the engines and flipping both results gives each engine the other's score. */
  lemma PairScoresSymmetric(p: PairResult)
    requires |p.games| <= 2
    ensures var q := PairResult(p.pairId, seq(|p.games|, i requires 0 <= i < |p.games| => p.games[i].(result := Flip(p.games[i].result))),
                               p.engine2Name, p.engine1Name);
      Engine1Score(q) == Engine2Score(p) && Engine2Score(q) == Engine1Score(p)
  {
    if |p.games| > 0 {
      PointsColourSymmetric(p.games[0].result);
    }
    if |p.games| > 1 {
      PointsColourSymmetric(p.games[1].result);
    }
  }

  /** A pair of synthetic "0-0" records, as a failed pair produces, scores nothing for either engine. */
  lemma FailedPairScoresNothing(pairId: int, g1: int, g2: int, why: string, n1: string, n2: string)
    ensures var p := PairResult(pairId, [GameResult(g1, "0-0", why), GameResult(g2, "0-0", why)], n1, n2);
      Engine1Score(p) == 0.0 && Engine2Score(p) == 0.0 && DecidedGames(p) == 0
  {
  }
}
