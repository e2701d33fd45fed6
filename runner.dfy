/**
 * The tournament scheduler (Runner/MatchRunner.java). It takes each engine's name from
 * its path and picks two engines, an opening and a time control for every pair. It works
 * out the per-pair timeout. runPairs keeps at most `concurrency` pairs in flight. It adds
 * each finished pair to the score table and the leaderboard, and ranks the engines by
 * score at the end.
 *
 * The pair tasks run on a thread pool. Here, a finished future is chosen
 * nondeterministically among those in flight whose task ends. What each task does comes from
 * the `outcome` parameter: the result it returns, or Blocked when it never returns, as
 * OnDemandPairTask.call does when an engine hangs (PairTasks.OnDemandCall).
 */
module Runner {
  import opened Wrappers
  import opened Text
  import opened Clocks
  import opened Results
  import opened Pairs
  import opened Leaderboard
  import opened PairTasks

  // ---------------------------------------------------------------------
  // Engine names
  // ---------------------------------------------------------------------

  predicate IsSeparator(c: char) { c == '/' || c == '\\' }

  /** path.replace("\\", "/"). */
  function Slashed(path: string): (r: string)
    ensures |r| == |path| && '\\' !in r
    ensures forall i :: 0 <= i < |path| ==> r[i] == if path[i] == '\\' then '/' else path[i]
  {
    seq(|path|, i requires 0 <= i < |path| => if path[i] == '\\' then '/' else path[i])
  }

  /**
   * The name an engine is registered under: the last piece of its path split at '/'.
   * Java's split drops trailing empty pieces, so a path made only of separators leaves
   * no piece at all, and indexing the empty array throws (None).
   */
  function EngineName(path: string): (name: Option<string>)
    ensures name.Some? ==> '/' !in name.value && '\\' !in name.value
  {
    var parts := SplitOn(Slashed(path), '/');
    LastPieceHasNoSeparator(Slashed(path));
    if parts == [] then None else Some(parts[|parts| - 1])
  }

  /** The last piece of a backslash-free path split at '/' holds neither separator. */
  lemma LastPieceHasNoSeparator(s: string)
    requires '\\' !in s
    ensures var parts := SplitOn(s, '/'); parts != [] ==> '/' !in parts[|parts| - 1] && '\\' !in parts[|parts| - 1]
  {
    if '/' in s {
      PiecesFree(s, '/');
      var ps := Pieces(s, '/');
      var parts := DropTrailingEmpty(ps);
      if parts != [] {
        assert parts[|parts| - 1] == ps[|parts| - 1];
      }
    }
  }

  /** The file name after the last separator is the engine's name, whatever the directory part. */
  lemma EngineNameOfFile(dir: string, file: string)
    requires file != "" && '/' !in file && '\\' !in file
    ensures EngineName(dir + "/" + file) == Some(file)
  {
    var d := Slashed(dir);
    assert Slashed(dir + "/" + file) == d + ['/'] + file;
    assert Slashed(file) == file;
    PiecesAround(d, file, '/');
    PiecesWithout(file, '/');
    var ps := Pieces(d, '/') + [file];
    assert '/' in d + ['/'] + file by {
      assert (d + ['/'] + file)[|d|] == '/';
    }
    assert ps[|ps| - 1] == file;
  }

  /** A path without any separator is its own name. */
  lemma EngineNameOfBareFile(file: string)
    requires '/' !in file && '\\' !in file
    ensures EngineName(file) == Some(file)
  {
    assert Slashed(file) == file;
  }

  /** A trailing separator of either kind does not change the name. */
  lemma EngineNameIgnoresTrailingSeparator(path: string, sep: char)
    requires path != "" && IsSeparator(sep)
    ensures EngineName(path + [sep]) == EngineName(path)
  {
    var s := Slashed(path);
    assert Slashed(path + [sep]) == s + ['/'] + "";
    PiecesAround(s, "", '/');
    var ps := Pieces(s, '/');
    assert (ps + [""])[..|ps|] == ps;
    assert DropTrailingEmpty(ps + [""]) == DropTrailingEmpty(ps);
    assert '/' in s + ['/'] + "" by {
      assert (s + ['/'] + "")[|s|] == '/';
    }
    if '/' !in s {
      PiecesWithout(s, '/');
      assert ps == [s];
    }
  }

  /** Registration fails exactly for a non-empty path made of separators alone. */
  lemma EngineNameFails(path: string)
    ensures EngineName(path).None? <==> path != "" && forall i :: 0 <= i < |path| ==> IsSeparator(path[i])
  {
    var s := Slashed(path);
    if '/' in s {
      PiecesAllEmpty(s, '/');
      DropTrailingEmptyNone(Pieces(s, '/'));
      assert (forall i :: 0 <= i < |s| ==> s[i] == '/') <==> (forall i :: 0 <= i < |path| ==> IsSeparator(path[i]));
    } else if path != "" {
      assert s[0] == if path[0] == '\\' then '/' else path[0];
    }
  }

  const InvalidNameIndex := "Index -1 out of bounds for length 0"

  /** The registration loop of both constructors: every path with its name, or the exception of the first path that has none. */
  method RegisterEngines(paths: seq<string>) returns (r: Result<seq<string>, string>)
    ensures r.Success? <==> forall i :: 0 <= i < |paths| ==> EngineName(paths[i]).Some?
    ensures r.Success? ==> |r.value| == |paths| && forall i :: 0 <= i < |paths| ==> EngineName(paths[i]) == Some(r.value[i])
    ensures r.Failure? ==> r.error == InvalidNameIndex
  {
    var names: seq<string> := [];
    var i := 0;
    while i < |paths|
      invariant 0 <= i <= |paths| && |names| == i
      invariant forall k :: 0 <= k < i ==> EngineName(paths[k]) == Some(names[k])
    {
      var name := EngineName(paths[i]);
      if name.None? {
        return Failure(InvalidNameIndex);
      }
      names := names + [name.value];
      i := i + 1;
    }
    return Success(names);
  }

  // ---------------------------------------------------------------------
  // Random choices for one pair
  // ---------------------------------------------------------------------

  /**
   * What java.util.Random hands out for one submission. This is one nextInt for the first
   * engine and one for the opening and the time control. engine2 stands for the draw the
   * do-while loop finally accepts for the second engine. That draw is one of the n - 1 other
   * indices, counted upwards from the first index and wrapping around.
   */
  datatype Draw = Draw(engine1: nat, engine2: nat, opening: nat, timeControl: nat)

  /**
   * selectTwoDifferentEngineIndices: null with fewer than two engines, otherwise two different
   * indices. The loop that redraws the second index until it differs from the first ends
   * with one of the other count - 1 indices; the draw says which of them.
   */
  function SelectTwoDifferentEngineIndices(count: int, d: Draw): (r: Option<(nat, nat)>)
    ensures r.None? <==> count < 2
    ensures r.Some? ==> r.value.0 < count && r.value.1 < count && r.value.0 != r.value.1
  {
    if count < 2 then None
    else
      var first := d.engine1 % count;
      var other := d.engine2 % (count - 1);
      Some((first, if other < first then other else other + 1))
  }

  /** Every ordered pair of different indices is a possible choice. */
  lemma EveryEnginePairSelectable(count: int, i: nat, j: nat)
    requires i < count && j < count && i != j
    ensures SelectTwoDifferentEngineIndices(count, Draw(i, if j < i then j else j - 1, 0, 0)) == Some((i, j))
  {
    ModBelow(i, count);
    ModBelow(if j < i then j else j - 1, count - 1);
  }

  lemma ModBelow(a: int, m: int)
    requires 0 <= a < m
    ensures a % m == a
  {
  }

  lemma ModShift(a: nat, m: int)
    requires m > 0
    ensures (a + m) % m == a % m
  {
    var q, r := a / m, a % m;
    var q', r' := (a + m) / m, (a + m) % m;
    var d := q' - q - 1;
    assert m * d == m * q' - m * q - m;
    assert m * d == r - r';
  }

  /** selectStartingPosition: "startpos" without openings, a random one in "random" mode, else the openings in turn. */
  function SelectStartingPosition(startFens: seq<string>, pairIndex: nat, mode: string, d: Draw): (fen: string)
    ensures startFens == [] ==> fen == "startpos"
    ensures startFens != [] ==> fen in startFens
  {
    if startFens == [] then "startpos"
    else if EqualsIgnoreCase("random", mode) then startFens[d.opening % |startFens|]
    else startFens[pairIndex % |startFens|]
  }

  /** Outside "random" mode, pair k plays opening k mod n whatever was drawn, so the openings repeat with period n. */
  lemma SequentialOpenings(startFens: seq<string>, pairIndex: nat, mode: string, d: Draw, d': Draw)
    requires startFens != [] && !EqualsIgnoreCase("random", mode)
    ensures SelectStartingPosition(startFens, pairIndex, mode, d) == startFens[pairIndex % |startFens|]
    ensures SelectStartingPosition(startFens, pairIndex + |startFens|, mode, d') == SelectStartingPosition(startFens, pairIndex, mode, d)
  {
    ModShift(pairIndex, |startFens|);
  }

  /** In "random" mode, written in any case, every opening can be drawn for any pair. */
  lemma RandomOpeningsReachable(startFens: seq<string>, pairIndex: nat, mode: string, i: nat)
    requires EqualsIgnoreCase("random", mode) && i < |startFens|
    ensures SelectStartingPosition(startFens, pairIndex, mode, Draw(0, 0, i, 0)) == startFens[i]
  {
  }

  /** selectRandomTimeControl: the sole control, or a drawn one. The runner's list is never empty. */
  function SelectRandomTimeControl(timeControls: seq<Clock>, d: Draw): (c: Clock)
    requires |timeControls| >= 1
    ensures c in timeControls
    ensures |timeControls| == 1 ==> c == timeControls[0]
  {
    if |timeControls| == 1 then timeControls[0] else timeControls[d.timeControl % |timeControls|]
  }

  lemma EveryTimeControlSelectable(timeControls: seq<Clock>, i: nat)
    requires i < |timeControls|
    ensures SelectRandomTimeControl(timeControls, Draw(0, 0, 0, i)) == timeControls[i]
  {
  }

  // ---------------------------------------------------------------------
  // Timeout and labels
  // ---------------------------------------------------------------------

  /** The comparison key for the longest control: white's clamped base time plus sixty increments. */
  function Budget(c: Clock): int {
    Remaining(c, true) + 60 * c.whiteIncrement
  }

  /** Stream.max: the running maximum, keeping the earlier control on a tie. */
  function LongestFrom(best: Clock, rest: seq<Clock>): Clock
    decreases |rest|
  {
    if rest == [] then best
    else LongestFrom(if Budget(best) >= Budget(rest[0]) then best else rest[0], rest[1..])
  }

  /**
   * timeControls.stream().max(...).orElse(baseTimeControl): one of the controls whose budget is
   * at least that of every control, or the fallback when there is none.
   */
  function LongestControl(timeControls: seq<Clock>, fallback: Clock): (c: Clock)
    ensures timeControls == [] ==> c == fallback
    ensures timeControls != [] ==> c in timeControls
    ensures forall d :: d in timeControls ==> Budget(d) <= Budget(c)
  {
    if timeControls == [] then fallback
    else
      LongestFromIsLongest(timeControls[0], timeControls[1..]);
      assert forall d :: d in timeControls ==> d == timeControls[0] || d in timeControls[1..];
      LongestFrom(timeControls[0], timeControls[1..])
  }

  /** (long)((2 * (b + 60 * i) * 2) * 1.5), which is exactly six budgets while the product fits a double's mantissa. */
  function PairTimeoutMs(timeControls: seq<Clock>, fallback: Clock): (ms: int)
    ensures timeControls == [] ==> ms == 6 * Budget(fallback)
    ensures forall c :: c in timeControls ==> 6 * Budget(c) <= ms
  {
    6 * Budget(LongestControl(timeControls, fallback))
  }

  /** Java's long division, which truncates toward zero. */
  function TruncDiv(a: int, b: int): int
    requires b > 0
  {
    if a >= 0 then a / b else -((-a) / b)
  }

  /** The pair timeout in whole seconds, the fraction dropped toward zero. */
  function TimeoutSeconds(timeControls: seq<Clock>, fallback: Clock): (secs: int)
    ensures var ms := PairTimeoutMs(timeControls, fallback);
      if ms >= 0 then 0 <= ms - 1000 * secs < 1000 else -1000 < ms - 1000 * secs <= 0
  {
    TruncDiv(PairTimeoutMs(timeControls, fallback), 1000)
  }

  lemma {:induction false} LongestFromIsLongest(best: Clock, rest: seq<Clock>)
    ensures var r := LongestFrom(best, rest); (r == best || r in rest) && Budget(best) <= Budget(r)
    ensures forall c :: c in rest ==> Budget(c) <= Budget(LongestFrom(best, rest))
    decreases |rest|
  {
    if rest != [] {
      var next := if Budget(best) >= Budget(rest[0]) then best else rest[0];
      LongestFromIsLongest(next, rest[1..]);
      assert forall c :: c in rest ==> c == rest[0] || c in rest[1..];
    }
  }

  /** The timeout is six budgets of one of the controls, and at least six budgets of every control. */
  lemma PairTimeoutCoversEveryControl(timeControls: seq<Clock>, fallback: Clock)
    ensures timeControls != [] ==> exists c :: c in timeControls && PairTimeoutMs(timeControls, fallback) == 6 * Budget(c)
  {
    if timeControls != [] {
      assert LongestControl(timeControls, fallback) in timeControls;
    }
  }

  /** String.format("%.1fs", ms / 1000.0). Double formatting is not modelled, so the caller supplies it. */
  type SecondsText = int -> string

  /** "%02d" for a number below 100. */
  function TwoDigits(n: nat): (r: string)
    requires n < 100
    ensures |r| == 2 && AllDigits(r)
  {
    [DigitChar(n / 10), DigitChar(n % 10)]
  }

  /** The base of a control of a minute or more: "%d:%02d" when the seconds are non-zero, else minutes + ":00". */
  function MinutesText(baseMs: int): (text: string)
    requires baseMs >= 60000
  {
    var minutes := baseMs / 60000;
    var seconds := (baseMs % 60000) / 1000;
    if seconds > 0 then NatToString(minutes) + ":" + TwoDigits(seconds) else NatToString(minutes) + ":00"
  }

  /** Both branches print the same "m:ss": the whole minutes, a colon and two digits of the seconds, which are below 60. */
  lemma MinutesTextForm(baseMs: int)
    requires baseMs >= 60000
    ensures (baseMs % 60000) / 1000 < 60
    ensures MinutesText(baseMs) == NatToString(baseMs / 60000) + ":" + TwoDigits((baseMs % 60000) / 1000)
  {
    assert TwoDigits(0) == "00";
  }

  /** formatTimeControl: the label a pair's time control is recorded under in the leaderboard. */
  function FormatTimeControl(c: Clock, seconds: SecondsText): string {
    var baseMs := Remaining(c, true);
    (if baseMs < 60000 then seconds(baseMs) else MinutesText(baseMs)) + " + " + seconds(c.whiteIncrement)
  }

  /** The label is white's clamped base, in seconds or as "m:ss", followed by " + " and white's increment. */
  lemma FormatTimeControlParts(c: Clock, seconds: SecondsText)
    ensures var tcLabel := FormatTimeControl(c, seconds);
      var inc := " + " + seconds(c.whiteIncrement); var base := Remaining(c, true);
      && |inc| <= |tcLabel| && tcLabel[|tcLabel| - |inc|..] == inc
      && tcLabel[..|tcLabel| - |inc|] == if base < 60000 then seconds(base) else MinutesText(base)
  {
    var base := Remaining(c, true);
    var head := if base < 60000 then seconds(base) else MinutesText(base);
    var inc := " + " + seconds(c.whiteIncrement);
    assert FormatTimeControl(c, seconds) == head + inc;
  }

  /**
   * The minutes come back from the digits before the colon. Two digits follow the colon, and
   * they give back the whole seconds of the base.
   */
  lemma MinutesTextIsMinutesColonSeconds(baseMs: int)
    requires baseMs >= 60000
    ensures var seconds := (baseMs % 60000) / 1000;
      && DigitsValue(NatToString(baseMs / 60000)) == baseMs / 60000
      && DigitsValue(TwoDigits(seconds)) == seconds
  {
    var seconds := (baseMs % 60000) / 1000;
    DigitsOfNat(baseMs / 60000);
    var t := TwoDigits(seconds);
    assert t[..1] == [t[0]];
    assert [t[0]][..0] == [];
    assert DigitsValue([t[0]]) == seconds / 10;
    assert DigitsValue(t) == (seconds / 10) * 10 + seconds % 10;
  }

  // ---------------------------------------------------------------------
  // Scores
  // ---------------------------------------------------------------------

  /** engineScores before the first pair: every registered name at 0.0. */
  function InitialScores(names: seq<string>): (scores: map<string, real>)
    ensures forall n :: n in scores <==> n in names
    ensures forall n :: n in scores ==> scores[n] == 0.0
  {
    map n | n in names :: 0.0
  }

  function ScoreOf(scores: map<string, real>, name: string): real {
    if name in scores then scores[name] else 0.0
  }

  /**
   * engine1Score goes to engine1Name, then engine2Score to engine2Name, each starting from
   * getOrDefault(., 0.0). Each engine of the pair gains its own score and nobody else changes. When the names
   * clash, the engine gains the pair's whole point count.
   */
  function AddPairScores(scores: map<string, real>, pr: PairResult): map<string, real> {
    var s1 := scores[pr.engine1Name := ScoreOf(scores, pr.engine1Name) + Engine1Score(pr)];
    s1[pr.engine2Name := ScoreOf(s1, pr.engine2Name) + Engine2Score(pr)]
  }

  /** What a pair adds to the table, engine by engine. */
  lemma AddPairScoresCredits(scores: map<string, real>, pr: PairResult)
    ensures var r := AddPairScores(scores, pr);
      && r.Keys == scores.Keys + {pr.engine1Name, pr.engine2Name}
      && (forall n :: n in scores && n != pr.engine1Name && n != pr.engine2Name ==> r[n] == scores[n])
      && (pr.engine1Name != pr.engine2Name ==>
            r[pr.engine1Name] == ScoreOf(scores, pr.engine1Name) + Engine1Score(pr)
            && r[pr.engine2Name] == ScoreOf(scores, pr.engine2Name) + Engine2Score(pr))
      && (pr.engine1Name == pr.engine2Name ==> r[pr.engine1Name] == ScoreOf(scores, pr.engine1Name) + DecidedGames(pr) as real)
  {
    PairPoints(pr);
  }

  /** The score table after the given pairs, in completion order. */
  function TallyScores(scores: map<string, real>, finished: seq<PairResult>): map<string, real>
    decreases |finished|
  {
    if finished == [] then scores
    else AddPairScores(TallyScores(scores, finished[..|finished| - 1]), finished[|finished| - 1])
  }

  function GamesIn(finished: seq<PairResult>): nat
    decreases |finished|
  {
    if finished == [] then 0 else GamesIn(finished[..|finished| - 1]) + |finished[|finished| - 1].games|
  }

  /** Scores never go below zero, and the table lists the registered engines and everyone who played. */
  lemma {:induction false} TallyScoresBounds(scores: map<string, real>, finished: seq<PairResult>)
    requires forall n :: n in scores ==> scores[n] >= 0.0
    ensures var t := TallyScores(scores, finished);
      && (forall n :: n in t ==> t[n] >= 0.0)
      && (forall n :: n in scores ==> n in t && scores[n] <= t[n])
      && (forall i :: 0 <= i < |finished| ==> finished[i].engine1Name in t && finished[i].engine2Name in t)
    decreases |finished|
  {
    if finished != [] {
      var front := finished[..|finished| - 1];
      var last := finished[|finished| - 1];
      var t0 := TallyScores(scores, front);
      TallyScoresBounds(scores, front);
      AddPairScoresGrows(t0, last);
      var t := TallyScores(scores, finished);
      assert t == AddPairScores(t0, last);
      forall i | 0 <= i < |finished|
        ensures finished[i].engine1Name in t && finished[i].engine2Name in t
      {
        if i < |finished| - 1 {
          assert finished[i] == front[i];
        }
      }
    }
  }

  /** Adding a pair's points to a table of non-negative scores keeps them non-negative and lowers none. */
  lemma AddPairScoresGrows(scores: map<string, real>, pr: PairResult)
    requires forall n :: n in scores ==> scores[n] >= 0.0
    ensures var r := AddPairScores(scores, pr);
      && (forall n :: n in r ==> r[n] >= 0.0)
      && (forall n :: n in scores ==> n in r && scores[n] <= r[n])
  {
    PairPoints(pr);
  }

  /** Standings listed best score first; ties may come in any order. */
  predicate ScoreDescending(standings: seq<(string, real)>) {
    forall i, j :: 0 <= i < j < |standings| ==> standings[i].1 >= standings[j].1
  }

  /** The standings are the table's entries, each exactly once. */
  predicate ListsScores(standings: seq<(string, real)>, scores: map<string, real>) {
    && (forall i :: 0 <= i < |standings| ==> standings[i].0 in scores && scores[standings[i].0] == standings[i].1)
    && (forall n :: n in scores ==> (n, scores[n]) in standings)
    && (forall i, j :: 0 <= i < j < |standings| ==> standings[i].0 != standings[j].0)
  }

  /** Where an entry goes: before the first entry with a strictly lower score. */
  function ScoreSlot(standings: seq<(string, real)>, e: (string, real)): (k: nat)
    ensures k <= |standings|
    ensures forall i :: 0 <= i < k ==> standings[i].1 >= e.1
    ensures k < |standings| ==> standings[k].1 < e.1
    decreases |standings|
  {
    if standings == [] || standings[0].1 < e.1 then 0 else 1 + ScoreSlot(standings[1..], e)
  }

  function InsertScore(standings: seq<(string, real)>, e: (string, real)): seq<(string, real)> {
    var k := ScoreSlot(standings, e);
    standings[..k] + [e] + standings[k..]
  }

  lemma InsertScoreShape(standings: seq<(string, real)>, e: (string, real))
    ensures var k := ScoreSlot(standings, e); var r := InsertScore(standings, e);
      && |r| == |standings| + 1 && r[k] == e
      && (forall i :: 0 <= i < k ==> r[i] == standings[i])
      && (forall i :: k < i < |r| ==> r[i] == standings[i - 1])
  {
  }

  lemma InsertScoreKeepsOrder(standings: seq<(string, real)>, e: (string, real))
    requires ScoreDescending(standings)
    ensures ScoreDescending(InsertScore(standings, e))
  {
    var k := ScoreSlot(standings, e);
    var r := InsertScore(standings, e);
    InsertScoreShape(standings, e);
    forall i, j | 0 <= i < j < |r| ensures r[i].1 >= r[j].1 {
      if j < k {
      } else if j == k {
      } else if i < k {
        assert standings[i].1 >= standings[j - 1].1;
      } else if i == k {
        assert standings[k].1 >= standings[j - 1].1;
      } else {
        assert standings[i - 1].1 >= standings[j - 1].1;
      }
    }
  }

  lemma InsertScoreMembers(standings: seq<(string, real)>, e: (string, real))
    ensures forall x :: x in InsertScore(standings, e) <==> x == e || x in standings
  {
    var k := ScoreSlot(standings, e);
    var r := InsertScore(standings, e);
    InsertScoreShape(standings, e);
    assert forall x :: x in standings ==> x in r by {
      forall x | x in standings ensures x in r {
        var i :| 0 <= i < |standings| && standings[i] == x;
        if i < k { assert r[i] == x; } else { assert r[i + 1] == x; }
      }
    }
  }

  lemma InsertScoreKeepsDistinct(standings: seq<(string, real)>, e: (string, real))
    requires forall i, j :: 0 <= i < j < |standings| ==> standings[i].0 != standings[j].0
    requires forall i :: 0 <= i < |standings| ==> standings[i].0 != e.0
    ensures var r := InsertScore(standings, e); forall i, j :: 0 <= i < j < |r| ==> r[i].0 != r[j].0
  {
    InsertScoreShape(standings, e);
  }

  lemma InsertScoreEntries(standings: seq<(string, real)>, m: map<string, real>, e: (string, real))
    requires forall i :: 0 <= i < |standings| ==> standings[i].0 in m && m[standings[i].0] == standings[i].1
    requires e.0 !in m
    ensures var r, m' := InsertScore(standings, e), m[e.0 := e.1];
      forall i :: 0 <= i < |r| ==> r[i].0 in m' && m'[r[i].0] == r[i].1
  {
    var k := ScoreSlot(standings, e);
    var r, m' := InsertScore(standings, e), m[e.0 := e.1];
    InsertScoreShape(standings, e);
    forall i | 0 <= i < |r| ensures r[i].0 in m' && m'[r[i].0] == r[i].1 {
      if i < k {
        assert r[i] == standings[i];
      } else if i > k {
        assert r[i] == standings[i - 1];
      }
    }
  }

  lemma InsertScoreCovers(standings: seq<(string, real)>, m: map<string, real>, e: (string, real))
    requires forall n :: n in m ==> (n, m[n]) in standings
    ensures var r, m' := InsertScore(standings, e), m[e.0 := e.1]; forall n :: n in m' ==> (n, m'[n]) in r
  {
    var r, m' := InsertScore(standings, e), m[e.0 := e.1];
    InsertScoreMembers(standings, e);
    forall n | n in m' ensures (n, m'[n]) in r {
      if n != e.0 {
        assert (n, m[n]) in standings;
      }
    }
  }

  /** Inserting an entry for a new engine keeps the standings in order and lists the table with that entry added. */
  lemma InsertScoreLists(standings: seq<(string, real)>, m: map<string, real>, e: (string, real))
    requires ScoreDescending(standings) && ListsScores(standings, m) && e.0 !in m
    ensures ScoreDescending(InsertScore(standings, e)) && ListsScores(InsertScore(standings, e), m[e.0 := e.1])
  {
    InsertScoreKeepsOrder(standings, e);
    InsertScoreEntries(standings, m, e);
    InsertScoreCovers(standings, m, e);
    InsertScoreKeepsDistinct(standings, e);
  }

  /** sortedScores: the table's entries, best score first, by a comparison of the score alone. */
  method SortScores(scores: map<string, real>) returns (standings: seq<(string, real)>)
    ensures ScoreDescending(standings) && ListsScores(standings, scores)
  {
    standings := [];
    var rest := scores.Keys;
    while rest != {}
      invariant rest <= scores.Keys
      invariant ScoreDescending(standings) && ListsScores(standings, scores - rest)
      decreases rest
    {
      var n :| n in rest;
      InsertScoreLists(standings, scores - rest, (n, scores[n]));
      assert (scores - rest)[n := scores[n]] == scores - (rest - {n});
      standings := InsertScore(standings, (n, scores[n]));
      rest := rest - {n};
    }
    assert scores - rest == scores;
  }

  // ---------------------------------------------------------------------
  // Leaderboard updates per pair
  // ---------------------------------------------------------------------

  /** The exception that recording a pair raises: the first of its two games without a PGN result. */
  function PairError(pr: PairResult): Option<string> {
    if |pr.games| > 0 && !IsPgnResult(pr.games[0].result) then Some("Invalid result: " + pr.games[0].result)
    else if |pr.games| > 1 && !IsPgnResult(pr.games[1].result) then Some("Invalid result: " + pr.games[1].result)
    else None
  }

  /** String.repeat's exception for a negative count. */
  function RepeatError(count: int): (err: Option<string>)
    ensures err.Some? <==> count < 0
    ensures err.Some? ==> err.value == "count is negative: " + IntToString(count)
  {
    if count < 0 then Some("count is negative: " + IntToString(count)) else None
  }

  /** The padding of the pair report's "Pair <id> Complete [<completed>/<total>]" line. */
  function HeaderPadding(pairId: int, completed: int, total: int): int {
    50 - 30 - |IntToString(pairId)| - |IntToString(completed)| - |IntToString(total)|
  }

  /**
   * The padding of the pair report's line for one game: its id, result and reason, the last two
   * measured as String.length() does, in UTF-16 code units.
   */
  function GameLinePadding(g: GameResult): int {
    50 - 17 - |IntToString(g.id)| - |Utf16(g.result)| - |Utf16(g.reason)|
  }

  /** The exception of the first game line whose padding is negative. */
  function GameLinesError(games: seq<GameResult>): (err: Option<string>)
  {
    if games == [] then None
    else if GameLinePadding(games[0]) < 0 then RepeatError(GameLinePadding(games[0]))
    else GameLinesError(games[1..])
  }

  /** The game lines raise exactly when one of them pads with a negative count, and then with the first such count. */
  lemma {:induction false} GameLinesErrorCases(games: seq<GameResult>)
    ensures var err := GameLinesError(games);
      && (err.None? <==> forall i :: 0 <= i < |games| ==> GameLinePadding(games[i]) >= 0)
      && (err.Some? ==> exists i :: 0 <= i < |games| && GameLinePadding(games[i]) < 0 && err == RepeatError(GameLinePadding(games[i])))
  {
    if games != [] && GameLinePadding(games[0]) >= 0 {
      GameLinesErrorCases(games[1..]);
      assert forall i :: 1 <= i < |games| ==> games[i] == games[1..][i - 1];
      var err := GameLinesError(games[1..]);
      if err.Some? {
        var j :| 0 <= j < |games[1..]| && GameLinePadding(games[1..][j]) < 0 && err == RepeatError(GameLinePadding(games[1..][j]));
        assert games[j + 1] == games[1..][j];
      }
    }
  }

  /**
   * The exception the printed pair report raises: the header line pads with a negative count
   * for long numbers, and a game line for a long reason, such as the one of an engine that
   * does not start. The matchup and score lines never pad with a negative count.
   */
  function ReportError(pr: PairResult, completed: int, total: int): (err: Option<string>)
  {
    var header := HeaderPadding(pr.pairId, completed, total);
    if header < 0 then RepeatError(header) else GameLinesError(pr.games)
  }

  /** The report raises exactly when its header or one of its game lines pads with a negative count; the header is printed first. */
  lemma ReportErrorCases(pr: PairResult, completed: int, total: int)
    ensures var err := ReportError(pr, completed, total);
      && (err.None? <==> HeaderPadding(pr.pairId, completed, total) >= 0
                         && forall i :: 0 <= i < |pr.games| ==> GameLinePadding(pr.games[i]) >= 0)
      && (HeaderPadding(pr.pairId, completed, total) < 0 ==> err == RepeatError(HeaderPadding(pr.pairId, completed, total)))
      && (err.Some? ==> exists n :: n < 0 && err == RepeatError(n))
  {
    GameLinesErrorCases(pr.games);
  }

  /**
   * A pair whose engine file is missing reports "Engine introuvable: <path>" in both its game
   * lines, which are then too long to pad: with a path of three characters or more, printing
   * its report raises, whether or not a leaderboard is kept.
   */
  lemma FailedPairReportThrows(pair: MatchPair, path: string, n1: string, n2: string, completed: int, total: int)
    requires |path| >= 3
    ensures var pr := PairResult(pair.pairId, BothFailed(pair, "0-0", "Error: " + "Engine introuvable: " + path), n1, n2);
      ReportError(pr, completed, total).Some?
  {
    var pr := PairResult(pair.pairId, BothFailed(pair, "0-0", "Error: " + "Engine introuvable: " + path), n1, n2);
    ReportErrorCases(pr, completed, total);
    Utf16Length(pr.games[0].reason);
    assert GameLinePadding(pr.games[0]) < 0;
  }

  /**
   * What ends runPairs after the `completed`-th finished pair: the leaderboard's exception
   * when recording, otherwise the one from the pair report.
   */
  function CompletionError(recording: bool, pr: PairResult, completed: int, total: int): Option<string> {
    if recording && PairError(pr).Some? then PairError(pr) else ReportError(pr, completed, total)
  }

  /** The first n finished pairs were recorded and reported without raising. */
  ghost predicate PassedFirst(recording: bool, finished: seq<PairResult>, n: int, total: int) {
    HoldsForFirst(Passes(recording, total), finished, n)
  }

  /** Whether the `completed`-th finished pair passes its recording and its report. */
  function Passes(recording: bool, total: int): (PairResult, int) -> bool {
    (pr: PairResult, completed: int) => CompletionError(recording, pr, completed, total).None?
  }

  /** `ok` holds for each of the first n finished pairs, numbered from 1. */
  ghost predicate HoldsForFirst(ok: (PairResult, int) -> bool, finished: seq<PairResult>, n: int) {
    forall i :: 0 <= i < n && i < |finished| ==> ok(finished[i], i + 1)
  }

  lemma HoldsForFirstSnoc(ok: (PairResult, int) -> bool, before: seq<PairResult>, after: seq<PairResult>)
    requires HoldsForFirst(ok, before, |before|)
    requires |after| == |before| + 1 && after[..|before|] == before
    ensures HoldsForFirst(ok, after, |before|)
    ensures ok(after[|before|], |after|) ==> HoldsForFirst(ok, after, |after|)
  {
    assert forall i :: 0 <= i < |before| ==> after[i] == before[i];
  }

  /** Passing holds for fewer pairs too. */
  lemma PassedFewer(recording: bool, finished: seq<PairResult>, n: int, m: int, total: int)
    requires PassedFirst(recording, finished, n, total) && m <= n
    ensures PassedFirst(recording, finished, m, total)
  {
  }

  lemma PassedSnoc(recording: bool, before: seq<PairResult>, after: seq<PairResult>, total: int)
    requires PassedFirst(recording, before, |before|, total)
    requires |after| == |before| + 1 && after[..|before|] == before
    ensures PassedFirst(recording, after, |before|, total)
    ensures CompletionError(recording, after[|before|], |after|, total).None? ==> PassedFirst(recording, after, |after|, total)
  {
    HoldsForFirstSnoc(Passes(recording, total), before, after);
  }

  

  /**
   * The recordGame calls for one pair. Game 1 has engine 1 as white and game 2 has engine 2
   * as white, both under the pair's time-control label. An exception from game 1 stops before game 2.
   */
  function RecordedPair(m: map<string, EngineStats>, pr: PairResult, n1: string, n2: string, tcLabel: string,
                        elo: EloRule): (r: (map<string, EngineStats>, Option<string>))
    ensures r.1 == PairError(pr)
  {
    if |pr.games| == 0 then (m, None)
    else
      var first := Recorded(m, n1, n2, pr.games[0].result, Some(tcLabel), elo);
      if first.1.Some? || |pr.games| == 1 then first
      else Recorded(first.0, n2, n1, pr.games[1].result, Some(tcLabel), elo)
  }

  /**
   * Recording a pair creates the entries of its two engines, even when it raises, leaves every other
   * engine alone, and keeps the leaderboard's invariant.
   */
  lemma RecordedPairTouchesItsEngines(m: map<string, EngineStats>, pr: PairResult, n1: string, n2: string,
                                      tcLabel: string, elo: EloRule)
    ensures var r := RecordedPair(m, pr, n1, n2, tcLabel, elo).0;
      && (|pr.games| > 0 ==> r.Keys == m.Keys + {n1, n2})
      && (|pr.games| == 0 ==> r == m)
      && (forall n :: n in m && n != n1 && n != n2 ==> r[n] == m[n])
      && (ValidTable(m) ==> ValidTable(r))
  {
    if |pr.games| > 0 {
      var first := Recorded(m, n1, n2, pr.games[0].result, Some(tcLabel), elo);
      if first.1.None? && |pr.games| > 1 {
        var second := Recorded(first.0, n2, n1, pr.games[1].result, Some(tcLabel), elo);
        assert RecordedPair(m, pr, n1, n2, tcLabel, elo) == second;
        FrameCompose(m, first.0, second.0, n1, n2);
      } else {
        assert RecordedPair(m, pr, n1, n2, tcLabel, elo) == first;
      }
    }
  }

  /** Two recordings by the same two engines, one after the other, touch only those engines. */
  lemma FrameCompose(m: map<string, EngineStats>, a: map<string, EngineStats>, b: map<string, EngineStats>,
                     n1: string, n2: string)
    requires a.Keys == m.Keys + {n1, n2} && forall n :: n in m && n != n1 && n != n2 ==> a[n] == m[n]
    requires b.Keys == a.Keys + {n2, n1} && forall n :: n in a && n != n2 && n != n1 ==> b[n] == a[n]
    ensures b.Keys == m.Keys + {n1, n2} && forall n :: n in m && n != n1 && n != n2 ==> b[n] == m[n]
  {
  }

  /**
   * A failed pair that reports "0-0" for both games, as OnDemandPairTask does when an engine
   * does not start, raises an exception on its first game. With a statistics manager set,
   * this aborts runPairs (see MatchRunner.RunPairs).
   */
  lemma FailedPairAbortsRecording(m: map<string, EngineStats>, pair: MatchPair, why: string, n1: string, n2: string,
                                  tcLabel: string, elo: EloRule)
    ensures var pr := PairResult(pair.pairId, BothFailed(pair, "0-0", why), n1, n2);
      RecordedPair(m, pr, n1, n2, tcLabel, elo).1 == Some("Invalid result: 0-0")
  {
    var pr := PairResult(pair.pairId, BothFailed(pair, "0-0", why), n1, n2);
    assert pr.games[0].result == "0-0";
    assert !IsPgnResult("0-0") by {
      assert "0-0"[0] != "1-0"[0] && "0-0"[2] != "0-1"[2] && |"0-0"| != |"1/2-1/2"|;
    }
    assert PairError(pr) == Some("Invalid result: " + "0-0");
    assert "Invalid result: " + "0-0" == "Invalid result: 0-0";
    assert RecordedPair(m, pr, n1, n2, tcLabel, elo).1 == PairError(pr);
  }

  /** The arguments of the recordGame calls for one pair: its result, its engines from submission, and its label. */
  datatype Recording = Recording(pr: PairResult, name1: string, name2: string, tcLabel: string)

  /** The leaderboard after recording the given pairs in order. */
  ghost function RecordAll(m: map<string, EngineStats>, log: seq<Recording>, elo: EloRule): map<string, EngineStats>
    decreases |log|
  {
    if log == [] then m
    else
      var x := log[|log| - 1];
      RecordedPair(RecordAll(m, log[..|log| - 1], elo), x.pr, x.name1, x.name2, x.tcLabel, elo).0
  }

  /** One recordGame call that skips a result outside the PGN three instead of raising. */
  function RecordedIfDecided(m: map<string, EngineStats>, white: string, black: string, result: string, tcLabel: string,
                             elo: EloRule): (r: map<string, EngineStats>)
    ensures m.Keys <= r.Keys <= m.Keys + {white, black}
    ensures ValidTable(m) ==> ValidTable(r)
    ensures !IsPgnResult(result) ==> r == m
    ensures IsPgnResult(result) ==> r == Recorded(m, white, black, result, Some(tcLabel), elo).0
    ensures forall n :: n in m && n != white && n != black ==> r[n] == m[n]
  {
    if IsPgnResult(result) then Recorded(m, white, black, result, Some(tcLabel), elo).0 else m
  }

  /**
   * Correction of the abort through PairError, recording only the games with a PGN result:
   * nothing is raised, and a pair that decided nothing leaves the table as it was.
   */
  function RecordedDecidedPair(m: map<string, EngineStats>, pr: PairResult, n1: string, n2: string, tcLabel: string,
                               elo: EloRule): (r: map<string, EngineStats>)
    ensures m.Keys <= r.Keys <= m.Keys + {n1, n2}
    ensures ValidTable(m) ==> ValidTable(r)
    ensures DecidedGames(pr) == 0 ==> r == m
    ensures forall n :: n in m && n != n1 && n != n2 ==> r[n] == m[n]
  {
    var afterFirst := if |pr.games| > 0 then RecordedIfDecided(m, n1, n2, pr.games[0].result, tcLabel, elo) else m;
    if |pr.games| > 1 then RecordedIfDecided(afterFirst, n2, n1, pr.games[1].result, tcLabel, elo) else afterFirst
  }

  /** Where the pair raises nothing, the correction records exactly what runPairs records. */
  lemma RecordedDecidedPairAgrees(m: map<string, EngineStats>, pr: PairResult, n1: string, n2: string, tcLabel: string,
                                  elo: EloRule)
    requires PairError(pr).None?
    ensures RecordedDecidedPair(m, pr, n1, n2, tcLabel, elo) == RecordedPair(m, pr, n1, n2, tcLabel, elo).0
  {
    if |pr.games| > 0 {
      assert IsPgnResult(pr.games[0].result);
      var first := Recorded(m, n1, n2, pr.games[0].result, Some(tcLabel), elo);
      assert first.1.None?;
      var afterFirst := RecordedIfDecided(m, n1, n2, pr.games[0].result, tcLabel, elo);
      assert afterFirst == first.0;
      if |pr.games| > 1 {
        assert IsPgnResult(pr.games[1].result);
        assert RecordedPair(m, pr, n1, n2, tcLabel, elo) == Recorded(first.0, n2, n1, pr.games[1].result, Some(tcLabel), elo);
      } else {
        assert RecordedPair(m, pr, n1, n2, tcLabel, elo) == first;
      }
    }
  }

  /** Recording through the correction raises nothing even for a failed pair, which it skips. */
  lemma FailedPairSkippedWhenCorrected(m: map<string, EngineStats>, pair: MatchPair, why: string, n1: string, n2: string,
                                       tcLabel: string, elo: EloRule)
    ensures var pr := PairResult(pair.pairId, BothFailed(pair, "0-0", why), n1, n2);
      RecordedDecidedPair(m, pr, n1, n2, tcLabel, elo) == m
  {
    var pr := PairResult(pair.pairId, BothFailed(pair, "0-0", why), n1, n2);
    assert DecidedGames(pr) == 0;
  }

  // ---------------------------------------------------------------------
  // Opponent selection by name
  // ---------------------------------------------------------------------

  /**
   * Three paths where two share a file name: [sf, sf, lc0]. selectTwoDifferentEngineIndices
   * accepts indices 0 and 1, so engine "sf" plays itself. Its two colours are scored and
   * ranked as one engine.
   */
  lemma SelectionCanPairANameWithItself()
    ensures var names := ["sf", "sf", "lc0"];
      var r := SelectTwoDifferentEngineIndices(|names|, Draw(0, 0, 0, 0));
      r == Some((0, 1)) && names[r.value.0] == names[r.value.1]
  {
  }

  /** The indices below n whose name differs from x. */
  function OthersBelow(names: seq<string>, x: string, n: nat): (r: seq<nat>)
    requires n <= |names|
    ensures forall k :: 0 <= k < |r| ==> r[k] < n && names[r[k]] != x
    ensures forall j :: 0 <= j < n && names[j] != x ==> j in r
  {
    if n == 0 then [] else OthersBelow(names, x, n - 1) + (if names[n - 1] != x then [n - 1] else [])
  }

  /**
   * Correction of SelectTwoDifferentEngineIndices. The second engine is drawn among the
   * indices whose name differs from the first's. There is a choice exactly when the
   * engines do not all share one name.
   */
  function SelectTwoDifferentEngines(names: seq<string>, d: Draw): (r: Option<(nat, nat)>)
    ensures r.Some? ==> r.value.0 < |names| && r.value.1 < |names| && names[r.value.0] != names[r.value.1]
    ensures r.None? <==> forall i, j :: 0 <= i < |names| && 0 <= j < |names| ==> names[i] == names[j]
  {
    if names == [] then None
    else
      var first := d.engine1 % |names|;
      var others := OthersBelow(names, names[first], |names|);
      if others == [] then None else Some((first, others[d.engine2 % |others|]))
  }

  // ---------------------------------------------------------------------
  // The scheduler
  // ---------------------------------------------------------------------

  /** One submitted pair: the task's arguments, and the names and time-control label the scheduler keeps for its future. */
  datatype Launched = Launched(pair: MatchPair, path1: string, path2: string, name1: string, name2: string,
                               timeControl: Clock, tcLabel: string)

  const NoLaunch := Launched(MatchPair("", -1), "", "", "", "", Clock(0, 0, 0, 0), "")

  /** What stays fixed during runPairs: the engines, controls and openings, and the random draws per submission. */
  datatype Setup = Setup(paths: seq<string>, names: seq<string>, timeControls: seq<Clock>, startFens: seq<string>,
                         mode: string, random: nat -> Draw, seconds: SecondsText)

  predicate WellFormed(s: Setup) {
    |s.paths| == |s.names| && |s.timeControls| >= 1
  }

  /** Submission number k: two different engines, the opening, the control and its label, or None with fewer than two engines. */
  function Launch(s: Setup, k: nat): Option<Launched>
    requires WellFormed(s)
  {
    var d := s.random(k);
    match SelectTwoDifferentEngineIndices(|s.paths|, d)
    case None => None
    case Some((i, j)) =>
      var fen := SelectStartingPosition(s.startFens, k, s.mode, d);
      var tc := SelectRandomTimeControl(s.timeControls, d);
      Some(Launched(MatchPair(fen, k), s.paths[i], s.paths[j], s.names[i], s.names[j], tc, FormatTimeControl(tc, s.seconds)))
  }

  /** Pair k has id k and two different registered engines, an opening from the list and a control from the list. */
  lemma LaunchShape(s: Setup, k: nat)
    requires WellFormed(s)
    ensures Launch(s, k).None? <==> |s.paths| < 2
    ensures Launch(s, k).Some? ==>
      var l := Launch(s, k).value;
      && l.pair.pairId == k && l.pair.startFen == SelectStartingPosition(s.startFens, k, s.mode, s.random(k))
      && (exists i, j :: 0 <= i < |s.paths| && 0 <= j < |s.paths| && i != j
            && l.path1 == s.paths[i] && l.path2 == s.paths[j] && l.name1 == s.names[i] && l.name2 == s.names[j])
      && l.timeControl in s.timeControls && l.tcLabel == FormatTimeControl(l.timeControl, s.seconds)
  {
    var d := s.random(k);
    var sel := SelectTwoDifferentEngineIndices(|s.paths|, d);
    if sel.Some? {
      var (i, j) := sel.value;
      assert Launch(s, k).value.path1 == s.paths[i];
    }
  }

  /**
   * What the scheduler relies on in a task's result: the id and engine names of the pair it
   * was given. Every result TaskResult describes has them.
   */
  predicate Reported(pr: PairResult, l: Launched) {
    pr.pairId == l.pair.pairId && pr.engine1Name == l.name1 && pr.engine2Name == l.name2
  }

  /** Every task that returns reports the pair it was given. */
  ghost predicate ReportsOwnPair(outcome: Launched -> Outcome<PairResult>) {
    forall l :: outcome(l).Done? ==> Reported(outcome(l).value, l)
  }

  /** Every pair that was submitted and has not finished runs a task that never returns. */
  ghost predicate OnlyHungLeft(outcome: Launched -> Outcome<PairResult>, launched: seq<Launched>, finished: seq<PairResult>) {
    && (exists k :: 0 <= k < |launched| && k !in FinishedIds(finished) && outcome(launched[k]).Blocked?)
    && (forall k :: 0 <= k < |launched| && k !in FinishedIds(finished) ==> outcome(launched[k]).Blocked?)
  }

  ghost function FinishedIds(finished: seq<PairResult>): set<int> {
    set i | 0 <= i < |finished| :: finished[i].pairId
  }

  /** Pair k has id k. Each future in flight keeps the names and label its pair was submitted with. */
  ghost predicate Books(active: map<int, (string, string)>, labels: map<int, string>, launched: seq<Launched>) {
    && (forall k :: 0 <= k < |launched| ==> launched[k].pair.pairId == k)
    && (forall k :: k in active <==> k in labels)
    && (forall k :: k in active ==> 0 <= k < |launched| && active[k] == (launched[k].name1, launched[k].name2)
                                     && labels[k] == launched[k].tcLabel)
  }

  /** A pair is in flight exactly when it was submitted and has not finished. */
  ghost predicate Outstanding(active: map<int, (string, string)>, launched: seq<Launched>, finished: seq<PairResult>) {
    && |finished| <= |launched|
    && |active| == |launched| - |finished|
    && (forall k :: 0 <= k < |launched| ==> (k in active <==> k !in FinishedIds(finished)))
  }

  /** Every finished pair was reported by the task of its own submission, and none finished twice. */
  ghost predicate ReportedOnce(launched: seq<Launched>, finished: seq<PairResult>) {
    && (forall i :: 0 <= i < |finished| ==> 0 <= finished[i].pairId < |launched|
                                             && Reported(finished[i], launched[finished[i].pairId]))
    && NoneTwice(finished)
  }

  /** No pair finished twice: each finished pair's id is new among the pairs finished before it. */
  ghost predicate NoneTwice(finished: seq<PairResult>)
    decreases |finished|
  {
    finished == []
    || (NoneTwice(finished[..|finished| - 1]) && finished[|finished| - 1].pairId !in FinishedIds(finished[..|finished| - 1]))
  }

  /** The finished pairs carry pairwise different ids exactly when none finished twice. */
  lemma {:induction false} NoneTwiceDistinct(finished: seq<PairResult>)
    ensures NoneTwice(finished) <==> forall i, j :: 0 <= i < j < |finished| ==> finished[i].pairId != finished[j].pairId
    decreases |finished|
  {
    if finished != [] {
      var front := finished[..|finished| - 1];
      var last := finished[|finished| - 1];
      NoneTwiceDistinct(front);
      assert forall i :: 0 <= i < |front| ==> front[i] == finished[i];
      if NoneTwice(finished) {
        forall i, j | 0 <= i < j < |finished|
          ensures finished[i].pairId != finished[j].pairId
        {
          if j == |finished| - 1 {
            assert finished[i].pairId in FinishedIds(front) by { assert front[i] == finished[i]; }
          }
        }
      }
    }
  }

  /** The scheduler's maps against the submissions and the finished pairs. */
  ghost predicate InFlight(active: map<int, (string, string)>, labels: map<int, string>,
                           launched: seq<Launched>, finished: seq<PairResult>)
  {
    Books(active, labels, launched) && Outstanding(active, launched, finished) && ReportedOnce(launched, finished)
  }

  lemma SubmitKeepsBooks(active: map<int, (string, string)>, labels: map<int, string>, launched: seq<Launched>, l: Launched)
    requires Books(active, labels, launched) && l.pair.pairId == |launched|
    ensures Books(active[|launched| := (l.name1, l.name2)], labels[|launched| := l.tcLabel], launched + [l])
  {
    assert forall i :: 0 <= i < |launched| ==> (launched + [l])[i] == launched[i];
  }

  lemma SubmitKeepsOutstanding(active: map<int, (string, string)>, labels: map<int, string>, launched: seq<Launched>,
                               finished: seq<PairResult>, l: Launched)
    requires Books(active, labels, launched) && Outstanding(active, launched, finished)
    requires ReportedOnce(launched, finished)
    ensures Outstanding(active[|launched| := (l.name1, l.name2)], launched + [l], finished)
  {
    var k := |launched|;
    assert k !in active;
    assert k !in FinishedIds(finished);
  }

  lemma SubmitKeepsReportedOnce(launched: seq<Launched>, finished: seq<PairResult>, l: Launched)
    requires ReportedOnce(launched, finished)
    ensures ReportedOnce(launched + [l], finished)
  {
    assert forall i :: 0 <= i < |launched| ==> (launched + [l])[i] == launched[i];
  }

  lemma SubmitKeepsInFlight(active: map<int, (string, string)>, labels: map<int, string>,
                            launched: seq<Launched>, finished: seq<PairResult>, l: Launched)
    requires InFlight(active, labels, launched, finished) && l.pair.pairId == |launched|
    ensures InFlight(active[|launched| := (l.name1, l.name2)], labels[|launched| := l.tcLabel], launched + [l], finished)
  {
    SubmitKeepsBooks(active, labels, launched, l);
    SubmitKeepsOutstanding(active, labels, launched, finished, l);
    SubmitKeepsReportedOnce(launched, finished, l);
  }

  lemma FinishedIdsSnoc(finished: seq<PairResult>, pr: PairResult)
    ensures FinishedIds(finished + [pr]) == FinishedIds(finished) + {pr.pairId}
  {
    var f := finished + [pr];
    assert forall i :: 0 <= i < |finished| ==> f[i] == finished[i];
    assert f[|finished|] == pr;
  }

  lemma CompleteKeepsOutstanding(active: map<int, (string, string)>, launched: seq<Launched>,
                                 finished: seq<PairResult>, id: int, pr: PairResult)
    requires Outstanding(active, launched, finished) && id in active && pr.pairId == id && 0 <= id < |launched|
    ensures Outstanding(active - {id}, launched, finished + [pr])
  {
    FinishedIdsSnoc(finished, pr);
    assert (active - {id}).Keys == active.Keys - {id};
  }

  lemma CompleteKeepsReportedOnce(launched: seq<Launched>, finished: seq<PairResult>, pr: PairResult)
    requires ReportedOnce(launched, finished)
    requires 0 <= pr.pairId < |launched| && Reported(pr, launched[pr.pairId]) && pr.pairId !in FinishedIds(finished)
    ensures ReportedOnce(launched, finished + [pr])
  {
    var f := finished + [pr];
    assert forall i :: 0 <= i < |finished| ==> f[i] == finished[i];
    assert f[..|finished|] == finished;
  }

  lemma CompleteKeepsInFlight(active: map<int, (string, string)>, labels: map<int, string>,
                              launched: seq<Launched>, finished: seq<PairResult>, id: int, pr: PairResult)
    requires InFlight(active, labels, launched, finished) && id in active && Reported(pr, launched[id])
    ensures pr.pairId == id
    ensures InFlight(active - {id}, labels - {id}, launched, finished + [pr])
  {
    assert launched[id].pair.pairId == id;
    assert id !in FinishedIds(finished);
    CompleteKeepsOutstanding(active, launched, finished, id, pr);
    CompleteKeepsReportedOnce(launched, finished, pr);
    assert Books(active - {id}, labels - {id}, launched);
  }

  /** Once as many pairs have finished as were submitted, every submitted pair has finished. */
  lemma AllFinished(active: map<int, (string, string)>, labels: map<int, string>,
                    launched: seq<Launched>, finished: seq<PairResult>)
    requires InFlight(active, labels, launched, finished) && |finished| == |launched|
    ensures forall k :: k in FinishedIds(finished) <==> 0 <= k < |launched|
  {
    assert active.Keys == {};
    forall k | k in FinishedIds(finished)
      ensures 0 <= k < |launched|
    {
      var i :| 0 <= i < |finished| && finished[i].pairId == k;
    }
  }

  /** What runPairs reports: the standings, best first, and the number of games played. */
  datatype Standings = Standings(standings: seq<(string, real)>, totalGames: nat)

  const NeedTwoEngines := "Tournament requires at least 2 different engines"
  const PoolSizeError := "IllegalArgumentException"
  const NoTimeControl := "Index 0 out of bounds for length 0"

  function Min(a: int, b: int): int { if a < b then a else b }

  class MatchRunner {
    const enginePaths: seq<string>
    const engineNames: seq<string>
    const timeControls: seq<Clock>
    const baseTimeControl: Clock
    /** The pool's core size, which bounds the pairs in flight. */
    const concurrency: nat
    var statsManager: LeaderboardStats?

    ghost predicate Valid()
      reads this
    {
      && |enginePaths| == |engineNames| && |timeControls| >= 1 && concurrency >= 1
      && baseTimeControl == timeControls[0]
      && forall i {:trigger EngineName(enginePaths[i])} :: 0 <= i < |enginePaths| ==> EngineName(enginePaths[i]) == Some(engineNames[i])
    }

    constructor (paths: seq<string>, names: seq<string>, poolSize: nat, controls: seq<Clock>)
      requires |paths| == |names| && |controls| >= 1 && poolSize >= 1
      requires forall i :: 0 <= i < |paths| ==> EngineName(paths[i]) == Some(names[i])
      ensures Valid() && statsManager == null
      ensures enginePaths == paths && engineNames == names && concurrency == poolSize && timeControls == controls
    {
      enginePaths, engineNames, concurrency, timeControls := paths, names, poolSize, controls;
      baseTimeControl := controls[0];
      statsManager := null;
    }

    /** setStatsManager. */
    method SetStatsManager(stats: LeaderboardStats?)
      modifies this
      ensures statsManager == stats
    {
      statsManager := stats;
    }

    function SetupOf(startFens: seq<string>, mode: string, random: nat -> Draw, seconds: SecondsText): Setup {
      Setup(enginePaths, engineNames, timeControls, startFens, mode, random, seconds)
    }

    /**
     * runPairs(totalPairs, startFens, mode). The initial batch submits min(T, pool) pairs, and
     * with fewer than two engines it throws before submitting anything. Each finished pair
     * then adds its games to totalGames and its points to the score table, and is recorded
     * in the leaderboard. The pair leaves the maps, and one more pair is submitted while
     * fewer than T have been. The loop ends when T pairs have finished.
     */
    method RunPairs(totalPairs: int, startFens: seq<string>, mode: string, random: nat -> Draw,
                    outcome: Launched -> Outcome<PairResult>, elo: EloRule, seconds: SecondsText)
      returns (r: Outcome<Result<Standings, string>>, ghost launched: seq<Launched>, ghost finished: seq<PairResult>,
               ghost log: seq<Recording>)
      requires Valid()
      requires statsManager != null ==> statsManager.Valid()
      requires ReportsOwnPair(outcome)
      modifies statsManager
      ensures statsManager != null ==> statsManager.Valid()
      ensures LaunchedBy(SetupOf(startFens, mode, random, seconds), launched)
      ensures ReportedOnce(launched, finished) && FinishedBy(outcome, launched, finished)
      ensures |finished| <= |launched| <= (if totalPairs < 0 then 0 else totalPairs)
      ensures |launched| - |finished| <= concurrency
      ensures totalPairs >= 1 && |enginePaths| < 2 ==> r == Done(Failure(NeedTwoEngines)) && launched == []
      ensures r.Blocked? ==> OnlyHungLeft(outcome, launched, finished)
      ensures (forall k :: 0 <= k < |launched| ==> outcome(launched[k]).Done?) ==> r.Done?
      ensures PassedFirst(statsManager != null, finished, |finished| - 1, totalPairs)
      ensures r.Done? && r.value.Failure? && !(totalPairs >= 1 && |enginePaths| < 2) ==>
        finished != [] && CompletionError(statsManager != null, finished[|finished| - 1], |finished|, totalPairs) == Some(r.value.error)
      ensures r.Done? && r.value.Success? ==>
        && |launched| == |finished| == (if totalPairs < 0 then 0 else totalPairs)
        && (forall k :: k in FinishedIds(finished) <==> 0 <= k < |launched|)
        && PassedFirst(statsManager != null, finished, |finished|, totalPairs)
        && r.value.value.totalGames == GamesIn(finished)
        && ScoreDescending(r.value.value.standings)
        && ListsScores(r.value.value.standings, TallyScores(InitialScores(engineNames), finished))
      ensures LogOf(log, launched, finished)
      ensures statsManager != null ==> statsManager.engineStats == RecordAll(old(statsManager.engineStats), log, elo)
    {
      var setup := SetupOf(startFens, mode, random, seconds);
      var flight, pairsSubmitted, failed;
      flight, pairsSubmitted, failed, launched := SubmitFirstBatch(setup, totalPairs);
      finished, log := [], [];
      if failed {
        return Done(Failure(NeedTwoEngines)), launched, finished, log;
      }
      r, launched, finished, log := FinishRun(setup, totalPairs, outcome, elo, flight, pairsSubmitted, launched);
    }

    /** The completion loop after the initial batch, then the standings, best first. */
    method FinishRun(setup: Setup, totalPairs: int, outcome: Launched -> Outcome<PairResult>, elo: EloRule,
                     flight: Flight, pairsSubmitted: nat, ghost launched0: seq<Launched>)
      returns (r: Outcome<Result<Standings, string>>, ghost launched: seq<Launched>, ghost finished: seq<PairResult>,
               ghost log: seq<Recording>)
      requires Valid() && |setup.paths| == |enginePaths|
      requires statsManager != null ==> statsManager.Valid()
      requires ReportsOwnPair(outcome)
      requires Scheduled(setup, flight, launched0, [])
      requires pairsSubmitted == |launched0| == Min(if totalPairs < 0 then 0 else totalPairs, concurrency)
      requires totalPairs >= 1 ==> |enginePaths| >= 2
      modifies statsManager
      ensures statsManager != null ==> statsManager.Valid()
      ensures LaunchedBy(setup, launched)
      ensures ReportedOnce(launched, finished) && FinishedBy(outcome, launched, finished)
      ensures |finished| <= |launched| <= (if totalPairs < 0 then 0 else totalPairs)
      ensures |launched| - |finished| <= concurrency
      ensures r.Blocked? ==> OnlyHungLeft(outcome, launched, finished)
      ensures (forall k :: 0 <= k < |launched| ==> outcome(launched[k]).Done?) ==> r.Done?
      ensures PassedFirst(statsManager != null, finished, |finished| - 1, totalPairs)
      ensures r.Done? && r.value.Failure? ==>
        finished != [] && CompletionError(statsManager != null, finished[|finished| - 1], |finished|, totalPairs) == Some(r.value.error)
      ensures r.Done? && r.value.Success? ==>
        && |launched| == |finished| == (if totalPairs < 0 then 0 else totalPairs)
        && (forall k :: k in FinishedIds(finished) <==> 0 <= k < |launched|)
        && PassedFirst(statsManager != null, finished, |finished|, totalPairs)
        && r.value.value.totalGames == GamesIn(finished)
        && ScoreDescending(r.value.value.standings)
        && ListsScores(r.value.value.standings, TallyScores(InitialScores(engineNames), finished))
      ensures LogOf(log, launched, finished)
      ensures statsManager != null ==> statsManager.engineStats == RecordAll(old(statsManager.engineStats), log, elo)
    {
      var engineScores, totalGames, err, blocked;
      engineScores, totalGames, err, blocked, launched, finished, log :=
        CompleteAll(setup, totalPairs, outcome, elo, flight, pairsSubmitted, launched0);
      if blocked {
        return Blocked, launched, finished, log;
      }
      if err.Some? {
        return Done(Failure(err.value)), launched, finished, log;
      }
      var standings := SortScores(engineScores);
      return Done(Success(Standings(standings, totalGames))), launched, finished, log;
    }

    /**
     * The completion loop: one finished pair per pass, and a further submission after each
     * while fewer than T pairs have been submitted. When no task in flight ever returns,
     * runPairs polls forever (`blocked`).
     */
    method CompleteAll(setup: Setup, totalPairs: int, outcome: Launched -> Outcome<PairResult>, elo: EloRule,
                       flight0: Flight, pairsSubmitted0: nat, ghost launched0: seq<Launched>)
      returns (engineScores: map<string, real>, totalGames: nat, err: Option<string>, blocked: bool,
               ghost launched: seq<Launched>, ghost finished: seq<PairResult>, ghost log: seq<Recording>)
      requires Valid() && |setup.paths| == |enginePaths|
      requires statsManager != null ==> statsManager.Valid()
      requires ReportsOwnPair(outcome)
      requires Scheduled(setup, flight0, launched0, [])
      requires pairsSubmitted0 == |launched0| == Min(if totalPairs < 0 then 0 else totalPairs, concurrency)
      requires totalPairs >= 1 ==> |enginePaths| >= 2
      modifies statsManager
      ensures statsManager != null ==> statsManager.Valid()
      ensures LaunchedBy(setup, launched) && ReportedOnce(launched, finished)
      ensures FinishedBy(outcome, launched, finished) && LogOf(log, launched, finished)
      ensures |finished| <= |launched| <= (if totalPairs < 0 then 0 else totalPairs)
      ensures |launched| - |finished| <= concurrency
      ensures blocked <==> err.None? && OnlyHungLeft(outcome, launched, finished)
      ensures PassedFirst(statsManager != null, finished, |finished| - 1, totalPairs)
      ensures err.Some? ==> finished != [] && CompletionError(statsManager != null, finished[|finished| - 1], |finished|, totalPairs) == err
      ensures err.None? && !blocked ==>
        && |launched| == |finished| == (if totalPairs < 0 then 0 else totalPairs)
        && (forall k :: k in FinishedIds(finished) <==> 0 <= k < |launched|)
        && PassedFirst(statsManager != null, finished, |finished|, totalPairs)
        && totalGames == GamesIn(finished)
        && engineScores == TallyScores(InitialScores(engineNames), finished)
      ensures statsManager != null ==> statsManager.engineStats == RecordAll(old(statsManager.engineStats), log, elo)
    {
      var stats := statsManager;
      ghost var stats0 := if stats != null then stats.engineStats else map[];
      ghost var target := if totalPairs < 0 then 0 else totalPairs;
      var flight, pairsSubmitted := flight0, pairsSubmitted0;
      launched, finished, log := launched0, [], [];
      var pairsCompleted: nat := 0;
      engineScores, totalGames, err, blocked := InitialScores(engineNames), 0, None, false;
      while pairsCompleted < totalPairs
        invariant Scheduled(setup, flight, launched, finished)
        invariant FinishedBy(outcome, launched, finished) && LogOf(log, launched, finished)
        invariant pairsSubmitted == |launched| <= target && pairsCompleted == |finished|
        invariant pairsSubmitted == target || pairsSubmitted == pairsCompleted + concurrency
        invariant |launched| - |finished| <= concurrency
        invariant concurrency >= 1 && (totalPairs >= 1 ==> |setup.paths| >= 2)
        invariant engineScores == TallyScores(InitialScores(engineNames), finished)
        invariant totalGames == GamesIn(finished) && err.None? && !blocked
        invariant PassedFirst(stats != null, finished, |finished|, totalPairs)
        invariant stats != null ==> stats.Valid() && stats.engineStats == RecordAll(stats0, log, elo)
        decreases totalPairs - pairsCompleted
      {
        flight, pairsSubmitted, engineScores, totalGames, err, blocked, launched, finished, log :=
          Advance(setup, totalPairs, outcome, elo, stats, stats0, flight, pairsSubmitted, pairsCompleted, engineScores,
                  totalGames, InitialScores(engineNames), launched, finished, log);
        if blocked || err.Some? {
          return;
        }
        pairsCompleted := pairsCompleted + 1;
      }
      AllFinished(flight.activePairs, flight.pairTimeControls, launched, finished);
      NoneLeft(outcome, launched, finished);
    }

    /**
     * The initial batch: min(T, pool) pairs are submitted before any is waited for, and the
     * first selection throws when there are fewer than two engines.
     */
    method SubmitFirstBatch(setup: Setup, totalPairs: int)
      returns (flight: Flight, pairsSubmitted: nat, failed: bool, ghost launched: seq<Launched>)
      requires WellFormed(setup) && |setup.paths| == |enginePaths|
      ensures Scheduled(setup, flight, launched, [])
      ensures failed <==> totalPairs >= 1 && concurrency >= 1 && |enginePaths| < 2
      ensures failed ==> launched == []
      ensures pairsSubmitted == |launched| && (!failed ==> pairsSubmitted == Min(if totalPairs < 0 then 0 else totalPairs, concurrency))
    {
      flight, pairsSubmitted, failed, launched := Flight(map[], map[], map[]), 0, false, [];
      while pairsSubmitted < totalPairs && pairsSubmitted < concurrency
        invariant Scheduled(setup, flight, launched, [])
        invariant pairsSubmitted == |launched| <= concurrency
        invariant pairsSubmitted > 0 ==> pairsSubmitted <= totalPairs && |enginePaths| >= 2
      {
        var next := Launch(setup, pairsSubmitted);
        LaunchShape(setup, pairsSubmitted);
        if next.None? {
          return flight, pairsSubmitted, true, launched;
        }
        flight := SubmitPair(setup, next.value, flight, launched, []);
        launched := launched + [next.value];
        pairsSubmitted := pairsSubmitted + 1;
      }
    }
  }

  /**
   * One pass of the completion loop: a finished pair is taken, recorded and reported, and then,
   * unless that raised, the next pair is submitted while fewer than T have been.
   */
  method Advance(setup: Setup, totalPairs: int, outcome: Launched -> Outcome<PairResult>, elo: EloRule,
                 stats: LeaderboardStats?, ghost stats0: map<string, EngineStats>, flight: Flight, pairsSubmitted: nat,
                 pairsCompleted: nat, engineScores: map<string, real>, totalGames: nat, ghost initial: map<string, real>,
                 ghost launched: seq<Launched>, ghost finished: seq<PairResult>, ghost log: seq<Recording>)
    returns (flight': Flight, pairsSubmitted': nat, engineScores': map<string, real>, totalGames': nat,
             err: Option<string>, blocked: bool,
             ghost launched': seq<Launched>, ghost finished': seq<PairResult>, ghost log': seq<Recording>)
    requires ReportsOwnPair(outcome)
    requires Scheduled(setup, flight, launched, finished) && pairsCompleted == |finished| < |launched| == pairsSubmitted
    requires FinishedBy(outcome, launched, finished) && LogOf(log, launched, finished)
    requires engineScores == TallyScores(initial, finished) && totalGames == GamesIn(finished)
    requires PassedFirst(stats != null, finished, |finished|, totalPairs)
    requires stats != null ==> stats.Valid() && stats.engineStats == RecordAll(stats0, log, elo)
    modifies stats
    ensures stats != null ==> stats.Valid() && stats.engineStats == RecordAll(stats0, log', elo)
    ensures Scheduled(setup, flight', launched', finished') && pairsSubmitted' == |launched'|
    ensures FinishedBy(outcome, launched', finished') && LogOf(log', launched', finished')
    ensures engineScores' == TallyScores(initial, finished') && totalGames' == GamesIn(finished')
    ensures blocked ==> err.None? && OnlyHungLeft(outcome, launched, finished) && launched' == launched && finished' == finished
    ensures !blocked ==> |finished'| == |finished| + 1 && PassedFirst(stats != null, finished', |finished|, totalPairs)
    ensures err.Some? ==> !blocked && launched' == launched && finished' != []
                          && CompletionError(stats != null, finished'[|finished'| - 1], |finished'|, totalPairs) == err
    ensures blocked || err.Some? ==> PassedFirst(stats != null, finished', |finished'| - 1, totalPairs)
    ensures !blocked && err.None? ==>
      && PassedFirst(stats != null, finished', |finished'|, totalPairs)
      && if pairsSubmitted < totalPairs && |setup.paths| >= 2 then |launched'| == |launched| + 1 else launched' == launched
  {
    flight', engineScores', totalGames', err, blocked, finished', log' :=
      FinishOne(setup, totalPairs, outcome, elo, stats, stats0, flight, pairsCompleted, engineScores, totalGames,
                initial, launched, finished, log);
    launched', pairsSubmitted' := launched, pairsSubmitted;
    if blocked {
      PassedFewer(stats != null, finished, |finished|, |finished| - 1, totalPairs);
      return;
    }
    PassedSnoc(stats != null, finished, finished', totalPairs);
    if err.Some? {
      return;
    }
    flight', pairsSubmitted', launched' := Refill(setup, totalPairs, outcome, flight', pairsSubmitted, launched, finished', log');
  }

  /**
   * One pass of the completion loop up to the next submission. It polls the futures in flight
   * until one is done, forever when none ever is. The done one's result is added up and
   * recorded in the leaderboard, and then its report is printed; either can raise.
   */
  method FinishOne(ghost setup: Setup, totalPairs: int, outcome: Launched -> Outcome<PairResult>, elo: EloRule,
                   stats: LeaderboardStats?, ghost stats0: map<string, EngineStats>, flight: Flight, pairsCompleted: nat,
                   engineScores: map<string, real>, totalGames: nat, ghost initial: map<string, real>,
                   ghost launched: seq<Launched>, ghost finished: seq<PairResult>, ghost log: seq<Recording>)
    returns (flight': Flight, engineScores': map<string, real>, totalGames': nat, err: Option<string>, blocked: bool,
             ghost finished': seq<PairResult>, ghost log': seq<Recording>)
    requires ReportsOwnPair(outcome)
    requires Scheduled(setup, flight, launched, finished) && pairsCompleted == |finished| < |launched|
    requires FinishedBy(outcome, launched, finished) && LogOf(log, launched, finished)
    requires engineScores == TallyScores(initial, finished) && totalGames == GamesIn(finished)
    requires stats != null ==> stats.Valid() && stats.engineStats == RecordAll(stats0, log, elo)
    modifies stats
    ensures stats != null ==> stats.Valid() && stats.engineStats == RecordAll(stats0, log', elo)
    ensures blocked ==> err.None? && OnlyHungLeft(outcome, launched, finished) && finished' == finished && log' == log
                        && flight' == flight && engineScores' == engineScores && totalGames' == totalGames
    ensures !blocked ==>
      && |finished'| == |finished| + 1 && finished'[..|finished|] == finished
      && Scheduled(setup, flight', launched, finished')
      && FinishedBy(outcome, launched, finished') && LogOf(log', launched, finished')
      && engineScores' == TallyScores(initial, finished') && totalGames' == GamesIn(finished')
      && err == CompletionError(stats != null, finished'[|finished|], |finished'|, totalPairs)
  {
    if forall k | k in flight.futures :: outcome(flight.futures[k]).Blocked? {
      HungLeft(outcome, flight, launched, finished);
      return flight, engineScores, totalGames, None, true, finished, log;
    }
    blocked := false;
    var id :| id in flight.futures && outcome(flight.futures[id]).Done?;
    var rec;
    flight', engineScores', totalGames', rec, finished', log' :=
      TakeFinished(setup, outcome, flight, id, engineScores, totalGames, initial, launched, finished, log);
    err := RecordAndReport(stats, rec, elo, stats0, log, pairsCompleted + 1, totalPairs);
  }

  /** The leaderboard update for a finished pair, when there is a leaderboard, then its printed report. */
  method RecordAndReport(stats: LeaderboardStats?, rec: Recording, elo: EloRule, ghost stats0: map<string, EngineStats>,
                         ghost log: seq<Recording>, completed: int, total: int)
    returns (err: Option<string>)
    requires stats != null ==> stats.Valid() && stats.engineStats == RecordAll(stats0, log, elo)
    modifies stats
    ensures stats != null ==> stats.Valid() && stats.engineStats == RecordAll(stats0, log + [rec], elo)
    ensures err == CompletionError(stats != null, rec.pr, completed, total)
  {
    if stats != null {
      err := RecordLogged(stats, rec, elo, stats0, log);
      if err.Some? {
        return;
      }
    }
    err := ReportError(rec.pr, completed, total);
  }

  /**
   * The future `id` in flight has finished: its result joins the finished pairs, its games and
   * points are added up, and its entries leave the maps. `rec` holds what the leaderboard is
   * then given.
   */
  method TakeFinished(ghost setup: Setup, outcome: Launched -> Outcome<PairResult>, flight: Flight, id: int,
                      engineScores: map<string, real>, totalGames: nat, ghost initial: map<string, real>,
                      ghost launched: seq<Launched>, ghost finished: seq<PairResult>, ghost log: seq<Recording>)
    returns (flight': Flight, engineScores': map<string, real>, totalGames': nat, rec: Recording,
             ghost finished': seq<PairResult>, ghost log': seq<Recording>)
    requires ReportsOwnPair(outcome)
    requires Scheduled(setup, flight, launched, finished) && id in flight.futures && outcome(flight.futures[id]).Done?
    requires FinishedBy(outcome, launched, finished) && LogOf(log, launched, finished)
    requires engineScores == TallyScores(initial, finished) && totalGames == GamesIn(finished)
    ensures finished' == finished + [rec.pr] && log' == log + [rec]
    ensures Scheduled(setup, flight', launched, finished')
    ensures FinishedBy(outcome, launched, finished') && LogOf(log', launched, finished')
    ensures engineScores' == TallyScores(initial, finished') && totalGames' == GamesIn(finished')
  {
    assert id in flight.activePairs;
    var pr := outcome(flight.futures[id]).value;
    var names := flight.activePairs[id];
    CompleteKeeps(outcome, setup, flight, launched, finished, log, id);
    rec := Recording(pr, names.0, names.1, flight.pairTimeControls[id]);
    finished', log' := finished + [pr], log + [rec];
    assert finished'[..|finished|] == finished;
    totalGames' := totalGames + |pr.games|;
    engineScores' := AddPairScores(engineScores, pr);
    flight' := Flight(flight.futures - {id}, flight.activePairs - {id}, flight.pairTimeControls - {id});
  }

  /** No future in flight is done: every unfinished pair hangs, and there is one. */
  lemma HungLeft(outcome: Launched -> Outcome<PairResult>, f: Flight, launched: seq<Launched>, finished: seq<PairResult>)
    requires InFlight(f.activePairs, f.pairTimeControls, launched, finished) && FuturesMatch(f, launched)
    requires |finished| < |launched|
    requires forall k :: k in f.futures ==> outcome(f.futures[k]).Blocked?
    ensures OnlyHungLeft(outcome, launched, finished)
  {
    var k := AnyKey(f.activePairs);
    assert f.futures[k] == launched[k];
  }

  /** Once every submitted pair has finished, none is left to hang. */
  lemma NoneLeft(outcome: Launched -> Outcome<PairResult>, launched: seq<Launched>, finished: seq<PairResult>)
    requires forall k :: k in FinishedIds(finished) <==> 0 <= k < |launched|
    ensures !OnlyHungLeft(outcome, launched, finished)
  {
  }

  /** The pair's two recordGame calls, which extend the log the leaderboard is the replay of. */
  method RecordLogged(stats: LeaderboardStats, rec: Recording, elo: EloRule,
                      ghost stats0: map<string, EngineStats>, ghost log: seq<Recording>)
    returns (err: Option<string>)
    requires stats.Valid() && stats.engineStats == RecordAll(stats0, log, elo)
    modifies stats
    ensures stats.Valid() && stats.engineStats == RecordAll(stats0, log + [rec], elo)
    ensures err == PairError(rec.pr)
  {
    err := RecordPairStats(stats, rec.pr, rec.name1, rec.name2, rec.tcLabel, elo);
    assert (log + [rec])[..|log|] == log;
  }

  /** The pool's futures, keyed by pair id, with the task each runs, and the activePairs and pairTimeControls maps beside them. */
  datatype Flight = Flight(futures: map<int, Launched>, activePairs: map<int, (string, string)>,
                           pairTimeControls: map<int, string>)

  /** Every submission so far is what the selection gives for its number. */
  ghost predicate LaunchedBy(s: Setup, launched: seq<Launched>)
    requires WellFormed(s)
  {
    forall k {:trigger Launch(s, k)} :: 0 <= k < |launched| ==> Launch(s, k) == Some(launched[k])
  }

  /** Every finished pair is what the task of its submission returned. */
  ghost predicate FinishedBy(outcome: Launched -> Outcome<PairResult>, launched: seq<Launched>, finished: seq<PairResult>) {
    forall i :: 0 <= i < |finished| ==> 0 <= finished[i].pairId < |launched| && outcome(launched[finished[i].pairId]) == Done(finished[i])
  }

  /** A key of a non-empty map. */
  ghost function AnyKey<V>(m: map<int, V>): (k: int)
    requires |m| > 0
    ensures k in m
  {
    assert exists k :: k in m by {
      if forall k :: k !in m {
        assert false;
      }
    }
    var k :| k in m; k
  }

  /** The recordings are the finished pairs, under the names and label of their submission. */
  ghost predicate LogOf(log: seq<Recording>, launched: seq<Launched>, finished: seq<PairResult>) {
    && |log| == |finished|
    && forall i :: 0 <= i < |log| ==>
         0 <= finished[i].pairId < |launched| && log[i] == Recording(finished[i], launched[finished[i].pairId].name1,
                                                                     launched[finished[i].pairId].name2,
                                                                     launched[finished[i].pairId].tcLabel)
  }

  /** The futures run the submitted tasks, one per pair in flight. */
  ghost predicate FuturesMatch(f: Flight, launched: seq<Launched>) {
    && (forall k :: k in f.futures <==> k in f.activePairs)
    && (forall k :: k in f.futures ==> 0 <= k < |launched| && f.futures[k] == launched[k])
  }

  ghost predicate Scheduled(s: Setup, f: Flight, launched: seq<Launched>, finished: seq<PairResult>) {
    && WellFormed(s) && LaunchedBy(s, launched)
    && InFlight(f.activePairs, f.pairTimeControls, launched, finished) && FuturesMatch(f, launched)
  }

  /** pool.submit for the next pair, with its entries in activePairs and pairTimeControls. */
  method SubmitPair(ghost s: Setup, l: Launched, f: Flight, ghost launched: seq<Launched>, ghost finished: seq<PairResult>)
    returns (f': Flight)
    requires Scheduled(s, f, launched, finished) && Launch(s, |launched|) == Some(l)
    ensures Scheduled(s, f', launched + [l], finished)
    ensures f' == Flight(f.futures[|launched| := l], f.activePairs[|launched| := (l.name1, l.name2)],
                         f.pairTimeControls[|launched| := l.tcLabel])
  {
    LaunchShape(s, |launched|);
    SubmitKeepsInFlight(f.activePairs, f.pairTimeControls, launched, finished, l);
    var k := l.pair.pairId;
    f' := Flight(f.futures[k := l], f.activePairs[k := (l.name1, l.name2)], f.pairTimeControls[k := l.tcLabel]);
    assert forall i :: 0 <= i < |launched| ==> (launched + [l])[i] == launched[i];
  }

  /**
   * After a pair completes: while fewer than T pairs have been submitted, the next one is
   * selected and submitted (with two or more engines, the selection always succeeds).
   */
  method Refill(setup: Setup, totalPairs: int, ghost outcome: Launched -> Outcome<PairResult>, f: Flight, pairsSubmitted: nat,
                ghost launched: seq<Launched>, ghost finished: seq<PairResult>, ghost log: seq<Recording>)
    returns (f': Flight, pairsSubmitted': nat, ghost launched': seq<Launched>)
    requires Scheduled(setup, f, launched, finished) && pairsSubmitted == |launched|
    requires FinishedBy(outcome, launched, finished) && LogOf(log, launched, finished)
    ensures Scheduled(setup, f', launched', finished) && pairsSubmitted' == |launched'|
    ensures FinishedBy(outcome, launched', finished) && LogOf(log, launched', finished)
    ensures if pairsSubmitted < totalPairs && |setup.paths| >= 2 then |launched'| == |launched| + 1
            else launched' == launched && f' == f
  {
    f', pairsSubmitted', launched' := f, pairsSubmitted, launched;
    if pairsSubmitted < totalPairs {
      var next := Launch(setup, pairsSubmitted);
      LaunchShape(setup, pairsSubmitted);
      if next.Some? {
        f' := SubmitPair(setup, next.value, f, launched, finished);
        SubmitKeepsLog(outcome, log, launched, finished, next.value);
        launched' := launched + [next.value];
        pairsSubmitted' := pairsSubmitted + 1;
      }
    }
  }

  lemma SubmitKeepsLog(outcome: Launched -> Outcome<PairResult>, log: seq<Recording>, launched: seq<Launched>,
                       finished: seq<PairResult>, l: Launched)
    requires FinishedBy(outcome, launched, finished) && LogOf(log, launched, finished)
    ensures FinishedBy(outcome, launched + [l], finished) && LogOf(log, launched + [l], finished)
  {
    assert forall i :: 0 <= i < |launched| ==> (launched + [l])[i] == launched[i];
  }

  /** Taking the finished future `id` out: what the records look like with its result added. */
  lemma CompleteKeeps(outcome: Launched -> Outcome<PairResult>, s: Setup, f: Flight, launched: seq<Launched>,
                      finished: seq<PairResult>, log: seq<Recording>, id: int)
    requires ReportsOwnPair(outcome)
    requires Scheduled(s, f, launched, finished) && id in f.activePairs && outcome(f.futures[id]).Done?
    requires FinishedBy(outcome, launched, finished) && LogOf(log, launched, finished)
    ensures var pr := outcome(f.futures[id]).value;
      && pr.pairId == id
      && Scheduled(s, Flight(f.futures - {id}, f.activePairs - {id}, f.pairTimeControls - {id}), launched, finished + [pr])
      && FinishedBy(outcome, launched, finished + [pr])
      && LogOf(log + [Recording(pr, f.activePairs[id].0, f.activePairs[id].1, f.pairTimeControls[id])], launched, finished + [pr])
  {
    var pr := outcome(f.futures[id]).value;
    assert f.futures[id] == launched[id];
    CompleteKeepsInFlight(f.activePairs, f.pairTimeControls, launched, finished, id, pr);
    var fin := finished + [pr];
    assert forall i :: 0 <= i < |finished| ==> fin[i] == finished[i];
  }

  /** statsManager.recordGame for the two games of a pair. */
  method RecordPairStats(stats: LeaderboardStats, pr: PairResult, n1: string, n2: string, tcLabel: string, elo: EloRule)
    returns (err: Option<string>)
    requires stats.Valid()
    modifies stats
    ensures stats.Valid()
    ensures (stats.engineStats, err) == RecordedPair(old(stats.engineStats), pr, n1, n2, tcLabel, elo)
  {
    err := None;
    if |pr.games| > 0 {
      err := stats.RecordGameResult(n1, n2, pr.games[0].result, Some(tcLabel), elo);
      if err.Some? {
        return;
      }
    }
    if |pr.games| > 1 {
      err := stats.RecordGameResult(n2, n1, pr.games[1].result, Some(tcLabel), elo);
    }
  }

  /**
   * The constructor taking a list of time controls. It builds the pool, which refuses a
   * size below one. It takes the first control as the base, which fails on an empty list.
   * Then it registers the engines.
   */
  method NewMatchRunner(paths: seq<string>, poolSize: int, controls: seq<(int, int)>)
    returns (r: Result<MatchRunner, string>)
    ensures poolSize < 1 ==> r == Failure(PoolSizeError)
    ensures poolSize >= 1 && controls == [] ==> r == Failure(NoTimeControl)
    ensures r.Failure? && poolSize >= 1 && controls != [] ==>
      r.error == InvalidNameIndex && exists i :: 0 <= i < |paths| && EngineName(paths[i]).None?
    ensures r.Success? ==>
      && fresh(r.value) && r.value.Valid() && r.value.statsManager == null
      && r.value.enginePaths == paths && r.value.concurrency == poolSize
      && |r.value.timeControls| == |controls|
      && forall i :: 0 <= i < |controls| ==> r.value.timeControls[i] == Uniform(controls[i].0, controls[i].1)
  {
    if poolSize < 1 {
      return Failure(PoolSizeError);
    }
    var clocks := seq(|controls|, i requires 0 <= i < |controls| => Uniform(controls[i].0, controls[i].1));
    if clocks == [] {
      return Failure(NoTimeControl);
    }
    var names := RegisterEngines(paths);
    if names.Failure? {
      return Failure(names.error);
    }
    var runner := new MatchRunner(paths, names.value, poolSize, clocks);
    return Success(runner);
  }

  /** The constructor taking one base time and increment, which is the only control. The self-play constructor passes a single path. */
  method NewUniformMatchRunner(paths: seq<string>, poolSize: int, baseTimeMs: int, incrementMs: int)
    returns (r: Result<MatchRunner, string>)
    ensures poolSize < 1 ==> r == Failure(PoolSizeError)
    ensures r.Failure? && poolSize >= 1 ==> r.error == InvalidNameIndex && exists i :: 0 <= i < |paths| && EngineName(paths[i]).None?
    ensures r.Success? ==>
      && fresh(r.value) && r.value.Valid() && r.value.statsManager == null
      && r.value.enginePaths == paths && r.value.concurrency == poolSize
      && r.value.timeControls == [Uniform(baseTimeMs, incrementMs)]
  {
    if poolSize < 1 {
      return Failure(PoolSizeError);
    }
    var names := RegisterEngines(paths);
    if names.Failure? {
      return Failure(names.error);
    }
    var runner := new MatchRunner(paths, names.value, poolSize, [Uniform(baseTimeMs, incrementMs)]);
    return Success(runner);
  }
}
