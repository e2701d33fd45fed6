/**
 * Per-engine and per-time-control win/draw/loss counters, the rating
 * fields kept beside them, the leaderboard order and the merge of saved
 * statistics (Stats/LeaderboardStats.java). The rating arithmetic of
 * Stats/EloCalculator.java enters as a parameter; only its refusal of a
 * result other than the three PGN results is modelled.
 */
module Leaderboard {
  import opened Wrappers
  import opened Results
  import opened Text

  /** EloCalculator.DEFAULT_ELO: the rating of an engine that has not played yet. */
  const DefaultElo := 1500

  /** calculateNewElo(rating, opponentRating, score), left abstract. */
  type EloRule = (int, int, real) -> int

  /** How one game went for one engine. */
  datatype Tally = Won | Drew | Lost

  /** TimeControlStats: one engine's games under one time control. */
  datatype TcStats = TcStats(timeControl: string, games: int, wins: int, draws: int, losses: int)

  /** EngineStats: an engine's totals, its current and best rating, and its counters per time control. */
  datatype EngineStats = EngineStats(engineName: string, totalGames: int, wins: int, draws: int, losses: int,
                                     points: real, elo: int, peakElo: int, tcStats: map<string, TcStats>)

  function TallyPoints(k: Tally): real {
    match k
    case Won => 1.0
    case Drew => 0.5
    case Lost => 0.0
  }

  /** How a PGN result counts for white and for black. */
  function WhiteTally(result: string): Tally
    requires IsPgnResult(result)
  {
    if result == "1-0" then Won else if result == "0-1" then Lost else Drew
  }

  function BlackTally(result: string): Tally
    requires IsPgnResult(result)
  {
    if result == "0-1" then Won else if result == "1-0" then Lost else Drew
  }

  predicate TcConsistent(t: TcStats) {
    t.wins >= 0 && t.draws >= 0 && t.losses >= 0 && t.games == t.wins + t.draws + t.losses
  }

  /**
   * What every entry keeps: the games add up, a win is worth a point and a draw half a point,
   * the best rating is at least the current one and at least the starting one, and every
   * per-time-control entry is filed under its own name and adds up too.
   */
  predicate Consistent(s: EngineStats) {
    && s.wins >= 0 && s.draws >= 0 && s.losses >= 0
    && s.totalGames == s.wins + s.draws + s.losses
    && s.points == s.wins as real + s.draws as real / 2.0
    && s.elo <= s.peakElo && DefaultElo <= s.peakElo
    && forall tc :: tc in s.tcStats ==> s.tcStats[tc].timeControl == tc && TcConsistent(s.tcStats[tc])
  }

  /** The whole table: every engine filed under its own name, every entry consistent. */
  predicate ValidTable(m: map<string, EngineStats>) {
    forall n :: n in m ==> m[n].engineName == n && Consistent(m[n])
  }

  // ---------------------------------------------------------------------
  // Counters of one engine
  // ---------------------------------------------------------------------

  function NewTcStats(tc: string): (t: TcStats)
    ensures t.timeControl == tc && t.games == 0 && TcConsistent(t)
  {
    TcStats(tc, 0, 0, 0, 0)
  }

  /** TimeControlStats.addWin / addDraw / addLoss. */
  function TcAdd(t: TcStats, k: Tally): (r: TcStats)
    ensures TcConsistent(t) ==> TcConsistent(r)
    ensures r.timeControl == t.timeControl && r.games == t.games + 1
    ensures r.wins == t.wins + (if k == Won then 1 else 0)
    ensures r.draws == t.draws + (if k == Drew then 1 else 0)
    ensures r.losses == t.losses + (if k == Lost then 1 else 0)
  {
    match k
    case Won => t.(wins := t.wins + 1, games := t.games + 1)
    case Drew => t.(draws := t.draws + 1, games := t.games + 1)
    case Lost => t.(losses := t.losses + 1, games := t.games + 1)
  }

  /** A fresh entry: no games, no points, both ratings at the default, no time controls. */
  function NewEngineStats(name: string): (s: EngineStats)
    ensures Consistent(s) && s.engineName == name
    ensures s.totalGames == 0 && s.points == 0.0 && s.elo == s.peakElo == DefaultElo && s.tcStats == map[]
  {
    EngineStats(name, 0, 0, 0, 0, 0.0, DefaultElo, DefaultElo, map[])
  }

  /**
   * EngineStats.addWin / addDraw / addLoss: one more game and one more of the matching kind,
   * its points added, and the per-time-control entry counted too when a time control is given.
   */
  function Add(s: EngineStats, k: Tally, timeControl: Option<string>): (r: EngineStats)
    ensures Consistent(s) ==> Consistent(r)
    ensures r.totalGames == s.totalGames + 1 && r.points == s.points + TallyPoints(k)
    ensures r.wins == s.wins + (if k == Won then 1 else 0)
    ensures r.draws == s.draws + (if k == Drew then 1 else 0)
    ensures r.losses == s.losses + (if k == Lost then 1 else 0)
    ensures r.engineName == s.engineName && r.elo == s.elo && r.peakElo == s.peakElo
    ensures timeControl.None? ==> r.tcStats == s.tcStats
    ensures timeControl.Some? ==>
      && r.tcStats.Keys == s.tcStats.Keys + {timeControl.value}
      && r.tcStats[timeControl.value]
         == TcAdd(if timeControl.value in s.tcStats then s.tcStats[timeControl.value] else NewTcStats(timeControl.value), k)
      && forall tc :: tc in s.tcStats && tc != timeControl.value ==> r.tcStats[tc] == s.tcStats[tc]
  {
    var counted := match k
      case Won => s.(wins := s.wins + 1, totalGames := s.totalGames + 1, points := s.points + 1.0)
      case Drew => s.(draws := s.draws + 1, totalGames := s.totalGames + 1, points := s.points + 0.5)
      case Lost => s.(losses := s.losses + 1, totalGames := s.totalGames + 1);
    match timeControl
    case None => counted
    case Some(tc) =>
      var t := if tc in s.tcStats then s.tcStats[tc] else NewTcStats(tc);
      counted.(tcStats := s.tcStats[tc := TcAdd(t, k)])
  }

  /** updateElo: the new rating becomes current, and the best rating never goes down. */
  function UpdateElo(s: EngineStats, newElo: int): (r: EngineStats)
    ensures Consistent(s) ==> Consistent(r)
    ensures r.elo == newElo && r.peakElo >= s.peakElo && r.peakElo >= newElo
    ensures r.peakElo == s.peakElo || r.peakElo == newElo
    ensures r == s.(elo := r.elo, peakElo := r.peakElo)
  {
    if newElo > s.peakElo then s.(elo := newElo, peakElo := newElo) else s.(elo := newElo)
  }

  // ---------------------------------------------------------------------
  // Recording a game
  // ---------------------------------------------------------------------

  /** getOrCreateEngineStats, as it leaves the table. */
  function WithEntry(m: map<string, EngineStats>, name: string): (r: map<string, EngineStats>)
    ensures r.Keys == m.Keys + {name}
    ensures forall n :: n in m ==> r[n] == m[n]
    ensures name !in m ==> r[name] == NewEngineStats(name)
    ensures ValidTable(m) ==> ValidTable(r)
  {
    if name in m then m else m[name := NewEngineStats(name)]
  }

  /** One engine's rating replaced by updateElo. */
  function Rate(m: map<string, EngineStats>, name: string, newElo: int): (r: map<string, EngineStats>)
    requires name in m
    ensures r.Keys == m.Keys && forall n :: n in m && n != name ==> r[n] == m[n]
    ensures ValidTable(m) ==> ValidTable(r)
  {
    m[name := UpdateElo(m[name], newElo)]
  }

  /** One engine's game counted by addWin, addDraw or addLoss. */
  function Count(m: map<string, EngineStats>, name: string, k: Tally, timeControl: Option<string>): (r: map<string, EngineStats>)
    requires name in m
    ensures r.Keys == m.Keys && forall n :: n in m && n != name ==> r[n] == m[n]
    ensures ValidTable(m) ==> ValidTable(r)
  {
    m[name := Add(m[name], k, timeControl)]
  }

  /**
   * recordGameResult on a table: both entries are created first; a result other than the three
   * PGN results then throws out of the rating update and nothing else changes. Otherwise both
   * ratings are computed from the ratings before the game, stored white first, and the counters
   * follow. White and black are looked up again at every step, so an engine playing itself ends
   * with the black rating and both of the game's counts.
   */
  function Recorded(m: map<string, EngineStats>, white: string, black: string, result: string,
                    timeControl: Option<string>, elo: EloRule): (r: (map<string, EngineStats>, Option<string>))
    ensures r.1.Some? <==> !IsPgnResult(result)
    ensures r.1.Some? ==> r == (WithEntry(WithEntry(m, white), black), Some("Invalid result: " + result))
    ensures r.0.Keys == m.Keys + {white, black}
    ensures forall n :: n in m && n != white && n != black ==> r.0[n] == m[n]
    ensures ValidTable(m) ==> ValidTable(r.0)
  {
    var created := WithEntry(WithEntry(m, white), black);
    if !IsPgnResult(result) then (created, Some("Invalid result: " + result))
    else
      var newWhite := elo(created[white].elo, created[black].elo, WhitePoints(result));
      var newBlack := elo(created[black].elo, created[white].elo, BlackPoints(result));
      var rated := Rate(Rate(created, white, newWhite), black, newBlack);
      (Count(Count(rated, white, WhiteTally(result), timeControl), black, BlackTally(result), timeControl), None)
  }

  /**
   * Two different engines: "1-0" gives white a win and black a loss, "0-1" the mirror, a draw
   * one draw each; each plays one more game, takes its own new rating, and nobody else changes.
   */
  lemma RecordedTwoEngines(m: map<string, EngineStats>, white: string, black: string, result: string,
                           timeControl: Option<string>, elo: EloRule)
    requires white != black && IsPgnResult(result)
    ensures var r := Recorded(m, white, black, result, timeControl, elo).0;
      var w, b := WithEntry(m, white)[white], WithEntry(m, black)[black];
      && r[white].totalGames == w.totalGames + 1 && r[black].totalGames == b.totalGames + 1
      && r[white].wins == w.wins + (if result == "1-0" then 1 else 0)
      && r[white].losses == w.losses + (if result == "0-1" then 1 else 0)
      && r[white].draws == w.draws + (if result == "1/2-1/2" then 1 else 0)
      && r[black].wins == b.wins + (if result == "0-1" then 1 else 0)
      && r[black].losses == b.losses + (if result == "1-0" then 1 else 0)
      && r[black].draws == b.draws + (if result == "1/2-1/2" then 1 else 0)
      && r[white].points + r[black].points == w.points + b.points + 1.0
      && r[white].elo == elo(w.elo, b.elo, WhitePoints(result))
      && r[black].elo == elo(b.elo, w.elo, BlackPoints(result))
  {
    var created := WithEntry(WithEntry(m, white), black);
    var w, b := created[white], created[black];
    assert w == WithEntry(m, white)[white] && b == WithEntry(m, black)[black];
    var newWhite := elo(w.elo, b.elo, WhitePoints(result));
    var newBlack := elo(b.elo, w.elo, BlackPoints(result));
    var rated := Rate(Rate(created, white, newWhite), black, newBlack);
    assert rated[white] == UpdateElo(w, newWhite) && rated[black] == UpdateElo(b, newBlack);
    var counted := Count(rated, white, WhiteTally(result), timeControl);
    var r := Count(counted, black, BlackTally(result), timeControl);
    assert r == Recorded(m, white, black, result, timeControl, elo).0;
    assert r[white] == Add(UpdateElo(w, newWhite), WhiteTally(result), timeControl);
    assert r[black] == Add(UpdateElo(b, newBlack), BlackTally(result), timeControl);
    if result == "1-0" {
      assert WhiteTally(result) == Won && BlackTally(result) == Lost;
    } else if result == "0-1" {
      assert WhiteTally(result) == Lost && BlackTally(result) == Won;
    } else {
      assert WhiteTally(result) == Drew && BlackTally(result) == Drew;
    }
  }

  /**
   * An engine recorded against itself plays two games at once: a decisive result counts as one
   * win and one loss for it, a draw as two draws, and it keeps the rating computed for black.
   */
  lemma RecordedSelfPlay(m: map<string, EngineStats>, name: string, result: string,
                         timeControl: Option<string>, elo: EloRule)
    requires IsPgnResult(result)
    ensures var r := Recorded(m, name, name, result, timeControl, elo).0;
      var s := WithEntry(m, name)[name];
      && r[name].totalGames == s.totalGames + 2
      && r[name].wins == s.wins + (if result == "1/2-1/2" then 0 else 1)
      && r[name].losses == s.losses + (if result == "1/2-1/2" then 0 else 1)
      && r[name].draws == s.draws + (if result == "1/2-1/2" then 2 else 0)
      && r[name].points == s.points + 1.0
      && r[name].elo == elo(s.elo, s.elo, BlackPoints(result))
  {
    var created := WithEntry(WithEntry(m, name), name);
    var s := created[name];
    assert s == WithEntry(m, name)[name];
    var newWhite := elo(s.elo, s.elo, WhitePoints(result));
    var newBlack := elo(s.elo, s.elo, BlackPoints(result));
    var rated := Rate(Rate(created, name, newWhite), name, newBlack);
    assert rated[name] == UpdateElo(UpdateElo(s, newWhite), newBlack);
    var r := Count(Count(rated, name, WhiteTally(result), timeControl), name, BlackTally(result), timeControl);
    assert r == Recorded(m, name, name, result, timeControl, elo).0;
    assert r[name] == Add(Add(rated[name], WhiteTally(result), timeControl), BlackTally(result), timeControl);
    if result == "1/2-1/2" {
      assert WhiteTally(result) == Drew && BlackTally(result) == Drew;
    } else {
      assert WhiteTally(result) != BlackTally(result) && WhiteTally(result) != Drew && BlackTally(result) != Drew;
    }
  }

  // ---------------------------------------------------------------------
  // Leaderboard order
  // ---------------------------------------------------------------------

  /** Lexicographic order on code units, a proper prefix first: -1, 0 or 1. */
  function UnitCompare(a: seq<int>, b: seq<int>): int {
    if a == [] then (if b == [] then 0 else -1)
    else if b == [] then 1
    else if a[0] < b[0] then -1
    else if a[0] > b[0] then 1
    else UnitCompare(a[1..], b[1..])
  }

  lemma {:induction false} UnitCompareAntisymmetric(a: seq<int>, b: seq<int>)
    ensures UnitCompare(a, b) == -UnitCompare(b, a)
    ensures UnitCompare(a, b) == 0 <==> a == b
  {
    if a != [] && b != [] && a[0] == b[0] {
      UnitCompareAntisymmetric(a[1..], b[1..]);
      assert a == [a[0]] + a[1..] && b == [b[0]] + b[1..];
    }
  }

  lemma {:induction false} UnitCompareTransitive(a: seq<int>, b: seq<int>, c: seq<int>)
    requires UnitCompare(a, b) <= 0 && UnitCompare(b, c) <= 0
    ensures UnitCompare(a, c) <= 0
  {
    if a != [] && b != [] && c != [] && a[0] == b[0] && b[0] == c[0] {
      UnitCompareTransitive(a[1..], b[1..], c[1..]);
    }
  }

  /**
   * The sign of String.compareTo, which compares UTF-16 code units: a character beyond
   * U+FFFF sorts by its high surrogate, so before U+E000..U+FFFF.
   */
  function LexCompare(a: string, b: string): int {
    UnitCompare(Utf16(a), Utf16(b))
  }

  /** The order of the encoding is not the order of the characters. */
  lemma SupplementaryBeforeUpperBmp()
    ensures LexCompare("\U{10000}", "\U{E000}") == -1
    ensures "\U{E000}"[0] < "\U{10000}"[0]
  {
  }

  lemma LexCompareAntisymmetric(a: string, b: string)
    ensures LexCompare(a, b) == -LexCompare(b, a)
    ensures LexCompare(a, b) == 0 <==> a == b
  {
    UnitCompareAntisymmetric(Utf16(a), Utf16(b));
    if Utf16(a) == Utf16(b) {
      Utf16Injective(a, b);
    }
  }

  lemma LexCompareTransitive(a: string, b: string, c: string)
    requires LexCompare(a, b) <= 0 && LexCompare(b, c) <= 0
    ensures LexCompare(a, c) <= 0
  {
    UnitCompareTransitive(Utf16(a), Utf16(b), Utf16(c));
  }

  /** The leaderboard comparator: higher rating first, then more points, then more wins, then the name. */
  function Compare(a: EngineStats, b: EngineStats): int {
    if a.elo != b.elo then (if a.elo > b.elo then -1 else 1)
    else if a.points != b.points then (if a.points > b.points then -1 else 1)
    else if a.wins != b.wins then (if a.wins > b.wins then -1 else 1)
    else LexCompare(a.engineName, b.engineName)
  }

  lemma CompareAntisymmetric(a: EngineStats, b: EngineStats)
    ensures Compare(a, b) == -Compare(b, a)
  {
    LexCompareAntisymmetric(a.engineName, b.engineName);
  }

  lemma CompareTransitive(a: EngineStats, b: EngineStats, c: EngineStats)
    requires Compare(a, b) <= 0 && Compare(b, c) <= 0
    ensures Compare(a, c) <= 0
  {
    if a.elo == b.elo == c.elo && a.points == b.points == c.points && a.wins == b.wins == c.wins {
      LexCompareTransitive(a.engineName, b.engineName, c.engineName);
    }
  }

  predicate Ranked(board: seq<EngineStats>) {
    forall i, j :: 0 <= i < j < |board| ==> Compare(board[i], board[j]) <= 0
  }

  /** What a ranked board means, key by key. */
  lemma RankedOrder(board: seq<EngineStats>, i: int, j: int)
    requires Ranked(board) && 0 <= i < j < |board|
    ensures board[i].elo >= board[j].elo
    ensures board[i].elo == board[j].elo ==> board[i].points >= board[j].points
    ensures board[i].elo == board[j].elo && board[i].points == board[j].points ==> board[i].wins >= board[j].wins
    ensures board[i].elo == board[j].elo && board[i].points == board[j].points && board[i].wins == board[j].wins
            ==> LexCompare(board[i].engineName, board[j].engineName) <= 0
  {
    assert Compare(board[i], board[j]) <= 0;
  }

  /** Where an entry goes in a ranked board: before the first entry it does not come after. */
  function InsertionPoint(board: seq<EngineStats>, s: EngineStats): (k: nat)
    ensures k <= |board|
    ensures forall i :: 0 <= i < k ==> Compare(s, board[i]) > 0
    ensures k < |board| ==> Compare(s, board[k]) <= 0
  {
    if board == [] || Compare(s, board[0]) <= 0 then 0 else 1 + InsertionPoint(board[1..], s)
  }

  function Insert(board: seq<EngineStats>, s: EngineStats): seq<EngineStats> {
    var k := InsertionPoint(board, s);
    board[..k] + [s] + board[k..]
  }

  predicate DistinctNames(board: seq<EngineStats>) {
    forall i, j :: 0 <= i < j < |board| ==> board[i].engineName != board[j].engineName
  }

  /** The inserted board, position by position. */
  lemma InsertShape(board: seq<EngineStats>, s: EngineStats)
    ensures var k, r := InsertionPoint(board, s), Insert(board, s);
      && |r| == |board| + 1 && r[k] == s
      && (forall i :: 0 <= i < k ==> r[i] == board[i])
      && (forall i :: k < i < |r| ==> r[i] == board[i - 1])
  {
  }

  /** Inserting adds exactly the one entry. */
  lemma InsertMembers(board: seq<EngineStats>, s: EngineStats)
    ensures forall x :: x in Insert(board, s) <==> x in board || x == s
  {
    var k := InsertionPoint(board, s);
    assert board == board[..k] + board[k..];
  }

  /** Inserting keeps a board ranked. */
  lemma InsertKeepsRanked(board: seq<EngineStats>, s: EngineStats)
    requires Ranked(board)
    ensures Ranked(Insert(board, s))
  {
    var k := InsertionPoint(board, s);
    var r := Insert(board, s);
    InsertShape(board, s);
    forall i, j | 0 <= i < j < |r|
      ensures Compare(r[i], r[j]) <= 0
    {
      if j < k {
        assert r[i] == board[i] && r[j] == board[j];
      } else if i < k {
        CompareAntisymmetric(s, board[i]);
        if j > k {
          CompareTransitive(board[i], s, board[k]);
          if j - 1 > k {
            CompareTransitive(board[i], board[k], board[j - 1]);
          }
        }
      } else if i == k {
        if j - 1 > k {
          CompareTransitive(s, board[k], board[j - 1]);
        }
      } else {
        assert r[i] == board[i - 1] && r[j] == board[j - 1];
      }
    }
  }

  /** Inserting an entry whose name is new keeps the names distinct. */
  lemma InsertKeepsDistinct(board: seq<EngineStats>, s: EngineStats)
    requires DistinctNames(board)
    requires forall i :: 0 <= i < |board| ==> board[i].engineName != s.engineName
    ensures DistinctNames(Insert(board, s))
  {
    var k := InsertionPoint(board, s);
    var r := Insert(board, s);
    InsertShape(board, s);
    forall i, j | 0 <= i < j < |r|
      ensures r[i].engineName != r[j].engineName
    {
      if j < k {
        assert r[i] == board[i] && r[j] == board[j];
      } else if i < k && j == k {
      } else if i < k {
        assert r[i] == board[i] && r[j] == board[j - 1];
      } else if i == k {
        assert r[j] == board[j - 1];
      } else {
        assert r[i] == board[i - 1] && r[j] == board[j - 1];
      }
    }
  }

  // ---------------------------------------------------------------------
  // Merging saved statistics
  // ---------------------------------------------------------------------

  function TcEntry(m: map<string, TcStats>, tc: string): TcStats {
    if tc in m then m[tc] else NewTcStats(tc)
  }

  function Entry(m: map<string, EngineStats>, name: string): EngineStats {
    if name in m then m[name] else NewEngineStats(name)
  }

  /** The counters of one time control added together; the entry keeps its own name. */
  function TcMerge(t: TcStats, o: TcStats): (r: TcStats)
    ensures TcConsistent(t) && TcConsistent(o) ==> TcConsistent(r)
    ensures r.timeControl == t.timeControl && r.games == t.games + o.games
  {
    t.(wins := t.wins + o.wins, draws := t.draws + o.draws, losses := t.losses + o.losses, games := t.games + o.games)
  }

  /** The inner loop of merge: every time control of `from` added into `into`, created when missing. */
  function MergedTc(into: map<string, TcStats>, from: map<string, TcStats>): (r: map<string, TcStats>)
    ensures r.Keys == into.Keys + from.Keys
  {
    map tc | tc in into.Keys + from.Keys :: if tc in from then TcMerge(TcEntry(into, tc), from[tc]) else into[tc]
  }

  /**
   * One engine of merge: counters added, the rating taken from the saved entry when that one is
   * positive, and the better of the two best ratings kept.
   */
  function MergeEntry(t: EngineStats, o: EngineStats): (r: EngineStats)
    ensures r.engineName == t.engineName
    ensures r.totalGames == t.totalGames + o.totalGames && r.points == t.points + o.points
    ensures r.elo == (if o.elo > 0 then o.elo else t.elo)
    ensures r.peakElo >= t.peakElo && r.peakElo >= o.peakElo && (r.peakElo == t.peakElo || r.peakElo == o.peakElo)
  {
    EngineStats(t.engineName, t.totalGames + o.totalGames, t.wins + o.wins, t.draws + o.draws, t.losses + o.losses,
                t.points + o.points, if o.elo > 0 then o.elo else t.elo,
                if o.peakElo > t.peakElo then o.peakElo else t.peakElo,
                MergedTc(t.tcStats, o.tcStats))
  }

  /** merge on tables: every engine of `from` merged into its entry of `into`, created when missing. */
  function Merged(into: map<string, EngineStats>, from: map<string, EngineStats>): (r: map<string, EngineStats>)
    ensures r.Keys == into.Keys + from.Keys
    ensures forall n :: n in into && n !in from ==> r[n] == into[n]
  {
    map n | n in into.Keys + from.Keys :: if n in from then MergeEntry(Entry(into, n), from[n]) else into[n]
  }

  /** One more time control folded into a partly merged map. */
  lemma MergedTcStep(into: map<string, TcStats>, done: map<string, TcStats>, tc: string, o: TcStats)
    requires tc !in done
    ensures var m := MergedTc(into, done); m[tc := TcMerge(TcEntry(m, tc), o)] == MergedTc(into, done[tc := o])
  {
    var m := MergedTc(into, done);
    assert TcEntry(m, tc) == TcEntry(into, tc);
    var lhs := m[tc := TcMerge(TcEntry(into, tc), o)];
    var rhs := MergedTc(into, done[tc := o]);
    assert lhs.Keys == rhs.Keys;
    forall x | x in lhs
      ensures lhs[x] == rhs[x]
    {
    }
  }

  /** One more saved engine folded into a partly merged table. */
  lemma MergedStep(into: map<string, EngineStats>, done: map<string, EngineStats>, n: string, o: EngineStats)
    requires n !in done
    ensures var m := Merged(into, done); m[n := MergeEntry(Entry(m, n), o)] == Merged(into, done[n := o])
  {
    var m := Merged(into, done);
    assert Entry(m, n) == Entry(into, n);
    var lhs := m[n := MergeEntry(Entry(into, n), o)];
    var rhs := Merged(into, done[n := o]);
    assert lhs.Keys == rhs.Keys;
    forall x | x in lhs
      ensures lhs[x] == rhs[x]
    {
    }
  }

  /** Merging two consistent entries gives a consistent entry. */
  lemma MergeEntryConsistent(t: EngineStats, o: EngineStats)
    requires Consistent(t) && Consistent(o)
    ensures Consistent(MergeEntry(t, o))
  {
    var r := MergeEntry(t, o);
    forall tc | tc in r.tcStats
      ensures r.tcStats[tc].timeControl == tc && TcConsistent(r.tcStats[tc])
    {
      if tc in o.tcStats {
        assert TcConsistent(TcEntry(t.tcStats, tc));
      }
    }
  }

  /** Merging keeps the table valid. */
  lemma MergedValid(into: map<string, EngineStats>, from: map<string, EngineStats>)
    requires ValidTable(into) && ValidTable(from)
    ensures ValidTable(Merged(into, from))
  {
    forall n | n in Merged(into, from)
      ensures Merged(into, from)[n].engineName == n && Consistent(Merged(into, from)[n])
    {
      if n in from {
        MergeEntryConsistent(Entry(into, n), from[n]);
      }
    }
  }

  /** Time controls merged into none are the saved ones. */
  lemma MergedTcIntoEmpty(from: map<string, TcStats>)
    requires forall tc :: tc in from ==> from[tc].timeControl == tc
    ensures MergedTc(map[], from) == from
  {
    var r := MergedTc(map[], from);
    forall tc | tc in from
      ensures r[tc] == from[tc]
    {
    }
  }

  /** A saved entry with a positive rating, merged into a fresh one, is the saved entry. */
  lemma MergeIntoFreshEntry(o: EngineStats)
    requires Consistent(o) && o.elo > 0
    ensures MergeEntry(NewEngineStats(o.engineName), o) == o
  {
    MergedTcIntoEmpty(o.tcStats);
  }

  /**
   * Loading saved statistics into an empty leaderboard gives them back, as long as every saved
   * rating is positive (a rating of zero or less is not restored).
   */
  lemma MergeIntoEmptyRestores(from: map<string, EngineStats>)
    requires ValidTable(from)
    requires forall n :: n in from ==> from[n].elo > 0
    ensures Merged(map[], from) == from
  {
    forall n | n in from
      ensures Merged(map[], from)[n] == from[n]
    {
      MergeIntoFreshEntry(from[n]);
    }
  }

  // ---------------------------------------------------------------------
  // The statistics object
  // ---------------------------------------------------------------------

  class LeaderboardStats {
    var engineStats: map<string, EngineStats>

    ghost predicate Valid()
      reads this
    {
      ValidTable(engineStats)
    }

    constructor ()
      ensures Valid() && engineStats == map[]
    {
      engineStats := map[];
    }

    method GetOrCreateEngineStats(name: string)
      modifies this
      ensures engineStats == WithEntry(old(engineStats), name)
    {
      if name !in engineStats {
        engineStats := engineStats[name := NewEngineStats(name)];
      }
    }

    /** recordGameResult; the error is the IllegalArgumentException of the rating update. */
    method RecordGameResult(whiteEngine: string, blackEngine: string, result: string,
                            timeControl: Option<string>, elo: EloRule) returns (err: Option<string>)
      requires Valid()
      modifies this
      ensures Valid()
      ensures (engineStats, err) == Recorded(old(engineStats), whiteEngine, blackEngine, result, timeControl, elo)
    {
      GetOrCreateEngineStats(whiteEngine);
      GetOrCreateEngineStats(blackEngine);
      if !IsPgnResult(result) {
        return Some("Invalid result: " + result);
      }
      var whiteElo, blackElo := engineStats[whiteEngine].elo, engineStats[blackEngine].elo;
      var newWhite := elo(whiteElo, blackElo, WhitePoints(result));
      var newBlack := elo(blackElo, whiteElo, BlackPoints(result));
      engineStats := Rate(engineStats, whiteEngine, newWhite);
      engineStats := Rate(engineStats, blackEngine, newBlack);
      engineStats := Count(engineStats, whiteEngine, WhiteTally(result), timeControl);
      engineStats := Count(engineStats, blackEngine, BlackTally(result), timeControl);
      return None;
    }

    /** getLeaderboard: every entry exactly once, in comparator order. */
    method GetLeaderboard() returns (board: seq<EngineStats>)
      requires Valid()
      ensures Ranked(board) && DistinctNames(board)
      ensures forall x :: x in board ==> x.engineName in engineStats && engineStats[x.engineName] == x
      ensures forall n :: n in engineStats ==> engineStats[n] in board
    {
      board := [];
      var rest := engineStats.Keys;
      while rest != {}
        invariant rest <= engineStats.Keys
        invariant Ranked(board) && DistinctNames(board)
        invariant forall x :: x in board ==> x.engineName in engineStats - rest && engineStats[x.engineName] == x
        invariant forall n :: n in engineStats && n !in rest ==> engineStats[n] in board
        decreases rest
      {
        var n :| n in rest;
        var s := engineStats[n];
        forall i | 0 <= i < |board|
          ensures board[i].engineName != s.engineName
        {
          assert board[i] in board;
        }
        InsertKeepsRanked(board, s);
        InsertKeepsDistinct(board, s);
        InsertMembers(board, s);
        board := Insert(board, s);
        rest := rest - {n};
      }
    }

    /** getAllTimeControls: every time control any engine has played under. */
    method GetAllTimeControls() returns (tcs: set<string>)
      ensures forall tc :: tc in tcs <==> exists n :: n in engineStats && tc in engineStats[n].tcStats
    {
      tcs := {};
      var rest := engineStats.Keys;
      while rest != {}
        invariant rest <= engineStats.Keys
        invariant forall tc :: tc in tcs <==> exists n :: n in engineStats && n !in rest && tc in engineStats[n].tcStats
        decreases rest
      {
        var n :| n in rest;
        tcs := tcs + engineStats[n].tcStats.Keys;
        rest := rest - {n};
      }
    }

    /** merge: the saved entries of `other` folded in one engine at a time. */
    method Merge(other: LeaderboardStats)
      modifies this
      ensures engineStats == Merged(old(engineStats), old(other.engineStats))
      ensures old(Valid()) && old(other.Valid()) ==> Valid()
    {
      var from := other.engineStats;
      ghost var into := engineStats;
      ghost var done: map<string, EngineStats> := map[];
      var rest := from.Keys;
      while rest != {}
        invariant rest <= from.Keys
        invariant forall n :: n in done <==> n in from && n !in rest
        invariant forall n :: n in done ==> done[n] == from[n]
        invariant engineStats == Merged(into, done)
        decreases rest
      {
        var n :| n in rest;
        var o := from[n];
        MergedStep(into, done, n, o);
        MergeEngine(n, o);
        done := done[n := o];
        rest := rest - {n};
      }
      assert done == from;
      if old(Valid()) && old(other.Valid()) {
        MergedValid(into, from);
      }
    }

    /** The body of merge for one saved engine: its entry found or created, then every counter added. */
    method MergeEngine(name: string, o: EngineStats)
      modifies this
      ensures engineStats == old(engineStats)[name := MergeEntry(Entry(old(engineStats), name), o)]
    {
      GetOrCreateEngineStats(name);
      var t := engineStats[name];
      var merged := MergeTimeControls(t.tcStats, o.tcStats);
      var next := EngineStats(t.engineName, t.totalGames + o.totalGames, t.wins + o.wins, t.draws + o.draws,
                              t.losses + o.losses, t.points + o.points, if o.elo > 0 then o.elo else t.elo,
                              if o.peakElo > t.peakElo then o.peakElo else t.peakElo, merged);
      engineStats := engineStats[name := next];
    }
  }

  /** The inner loop of merge over one engine's time controls. */
  method MergeTimeControls(into: map<string, TcStats>, from: map<string, TcStats>) returns (r: map<string, TcStats>)
    ensures r == MergedTc(into, from)
  {
    r := into;
    ghost var done: map<string, TcStats> := map[];
    var rest := from.Keys;
    while rest != {}
      invariant rest <= from.Keys
      invariant forall tc :: tc in done <==> tc in from && tc !in rest
      invariant forall tc :: tc in done ==> done[tc] == from[tc]
      invariant r == MergedTc(into, done)
      decreases rest
    {
      var tc :| tc in rest;
      MergedTcStep(into, done, tc, from[tc]);
      r := r[tc := TcMerge(TcEntry(r, tc), from[tc])];
      done := done[tc := from[tc]];
      rest := rest - {tc};
    }
    assert done == from;
  }
}
