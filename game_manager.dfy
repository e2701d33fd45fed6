/**
 * One game between two engines (Game/GameManager.java): the turn loop,
 * its termination checks in source order, the wait for "bestmove" with a
 * deadline derived from the mover's clock, and the messages sent to the
 * live view.
 */
module Sessions {
  import opened Wrappers
  import opened Text
  import opened Clocks
  import opened Games
  import opened Results
  import opened Engines
  import Messages

  const MaxMoves := 500
  const MoveOverheadMs := 50
  const StandardStartFen := "rnbqkbnr/pppppppp/8/8/8/8/PPPPPPPP/RNBQKBNR w KQkq - 0 1"

  /**
   * The chess library behind the game's validator, as an oracle over the
   * moves played from the game's start position.
   */
  datatype Rules = Rules(
    mated: seq<string> -> bool,
    stalemate: seq<string> -> bool,
    insufficientMaterial: seq<string> -> bool,
    drawn: seq<string> -> bool,
    sideToMoveWhite: seq<string> -> bool,
    legal: (seq<string>, string) -> bool,
    fen: seq<string> -> string)

  /** getResult: the side to move is mated, or the position is drawn, or the game goes on. */
  function RulesResult(rules: Rules, played: seq<string>): Option<string> {
    if rules.mated(played) then Some(if rules.sideToMoveWhite(played) then "0-1" else "1-0")
    else if rules.drawn(played) || rules.stalemate(played) || rules.insufficientMaterial(played) then Some("1/2-1/2")
    else None
  }

  /** getTerminationReason. */
  function RulesReason(rules: Rules, played: seq<string>): Option<string> {
    if rules.mated(played) then Some("checkmate")
    else if rules.stalemate(played) then Some("stalemate")
    else if rules.insufficientMaterial(played) then Some("insufficient_material")
    else if rules.drawn(played) then Some("draw")
    else None
  }

  /** The oracle's verdict on a position: a result together with its reason. */
  function Verdict(rules: Rules, played: seq<string>): Option<(string, string)> {
    match (RulesResult(rules, played), RulesReason(rules, played))
    case (Some(res), Some(why)) => Some((res, why))
    case _ => None
  }

  /** A result is reported exactly when a reason is, and only checkmate is decisive. */
  lemma VerdictAgrees(rules: Rules, played: seq<string>)
    ensures RulesResult(rules, played).Some? <==> RulesReason(rules, played).Some?
    ensures Verdict(rules, played).Some? <==> RulesResult(rules, played).Some?
    ensures Verdict(rules, played).Some? ==>
      var (res, why) := Verdict(rules, played).value;
      (why == "checkmate" <==> res != "1/2-1/2") && IsPgnResult(res)
      && (why == "checkmate" ==> res == (if rules.sideToMoveWhite(played) then "0-1" else "1-0"))
  {
  }

  /** Every forfeit goes against the side to move. */
  function Forfeit(isWhite: bool): (r: string)
    ensures IsPgnResult(r)
    ensures isWhite ==> WhitePoints(r) == 0.0 && BlackPoints(r) == 1.0
    ensures !isWhite ==> WhitePoints(r) == 1.0 && BlackPoints(r) == 0.0
  {
    if isWhite then "0-1" else "1-0"
  }

  // ---------------------------------------------------------------------
  // Reading UCI output
  // ---------------------------------------------------------------------

  /** The running evaluation gathered from "info" lines during one search. */
  datatype Report = Report(score: Option<int>, depth: Option<int>, pv: Option<string>)

  /**
   * Integer.parseInt of the first piece of split("\\s+"); None when that raises. A tail that
   * starts with whitespace splits into an empty first piece, so a value is only read from a
   * tail that starts with it.
   */
  function LeadingInt(tail: string): Option<int> {
    var parts := SplitWs(tail);
    if |parts| > 0 then ParseJavaInt(parts[0]) else None
  }

  /** A value read is a Java int, and the tail starts with it. */
  lemma LeadingIntShape(tail: string)
    ensures var v := LeadingInt(tail); v.Some? ==> InInt32(v.value) && tail != [] && !IsSpace(tail[0])
  {
  }

  /** A Java int printed at the head of the tail, alone or before whitespace, is read back. */
  lemma LeadingIntReads(x: int, rest: string)
    requires InInt32(x)
    ensures LeadingInt(IntToString(x)) == Some(x)
    ensures LeadingInt(IntToString(x) + " " + rest) == Some(x)
  {
    var t := IntToString(x);
    IntToStringParses(x);
    WordsOfToken(t);
    SplitWsOfUnpadded(t);
    WordsCons(t, rest);
    SplitWsOfUnpadded(t + " " + rest);
  }

  /** A mate distance as a score: 10000 - 100·m for m > 0, otherwise -10000 - 100·m, in int arithmetic. */
  function MateScore(mateIn: int): (score: int)
    ensures InInt32(score)
    ensures 0 < mateIn <= 99 ==> 0 < score < 10000
    ensures -99 <= mateIn <= 0 ==> -10000 <= score < 0
  {
    if mateIn > 0 then Wrap32(10000 - mateIn * 100) else Wrap32(-10000 - mateIn * 100)
  }

  /**
   * At most the first five moves of the principal variation, separated by single spaces: the
   * stored text holds at most five moves, and they are the first moves the engine reported.
   */
  function PvText(tail: string): string {
    var t := Trim(tail);
    if t == [] then "" else Join(Take(SplitWs(t), 5), " ")
  }

  /**
   * The stored text holds at most five moves, they are the first moves the engine reported,
   * and they are separated by single spaces.
   */
  lemma PvTextWords(tail: string)
    ensures Words(PvText(tail)) == Take(Words(Trim(tail)), 5)
    ensures |Words(PvText(tail))| <= 5
    ensures PvText(tail) == Join(Words(PvText(tail)), " ")
  {
    var t := Trim(tail);
    if t == [] {
      assert Take(Words(t), 5) == [];
    } else {
      TrimShape(tail);
      SplitWsOfUnpadded(t);
      WordsAreTokens(t);
      var ms := Take(Words(t), 5);
      assert forall i :: 0 <= i < |ms| ==> ms[i] == Words(t)[i];
      WordsOfJoin(ms);
    }
  }

  function ReadInt(line: string, marker: string, prev: Option<int>): Option<int> {
    if Contains(line, marker) then
      match LeadingInt(After(line, marker))
      case Some(v) => Some(v)
      case None => prev
    else prev
  }

  /**
   * The evaluation after one more line: "info" lines update the fields they carry, parse
   * failures are ignored. A line that is not an "info" line changes nothing, an info line
   * without a field keeps that field's earlier value, and on a line with both, a readable
   * "score mate" replaces the "score cp" value.
   */
  function InfoUpdate(line: string, prev: Report): Report {
    if !StartsWith(line, "info ") then prev
    else
      var cp := ReadInt(line, " score cp ", prev.score);
      var score :=
        if Contains(line, " score mate ") then
          match LeadingInt(After(line, " score mate "))
          case Some(m) => Some(MateScore(m))
          case None => cp
        else cp;
      var depth := ReadInt(line, " depth ", prev.depth);
      var pv := if Contains(line, " pv ") then Some(PvText(After(line, " pv "))) else prev.pv;
      Report(score, depth, pv)
  }

  /** What one line does to each field of the evaluation. */
  lemma InfoUpdateFields(line: string, prev: Report)
    ensures var r := InfoUpdate(line, prev);
      && (!StartsWith(line, "info ") ==> r == prev)
      && (!Contains(line, " depth ") ==> r.depth == prev.depth)
      && (!Contains(line, " pv ") ==> r.pv == prev.pv)
      && (!Contains(line, " score cp ") && !Contains(line, " score mate ") ==> r.score == prev.score)
      && (StartsWith(line, "info ") && Contains(line, " score mate ") && LeadingInt(After(line, " score mate ")).Some? ==>
            r.score == Some(MateScore(LeadingInt(After(line, " score mate ")).value)))
      && (StartsWith(line, "info ") && Contains(line, " pv ") ==> r.pv.Some? && |Words(r.pv.value)| <= 5)
  {
    if Contains(line, " pv ") {
      PvTextWords(After(line, " pv "));
    }
  }

  /** The move of a "bestmove" line: its second whitespace-separated piece, when there is one. */
  function BestMoveOf(line: string): Option<string> {
    if StartsWith(line, "bestmove ") then
      var parts := SplitWs(line);
      if |parts| >= 2 then Some(parts[1]) else None
    else None
  }

  /** A move is read only from a "bestmove " line, and it is a whole token. */
  lemma BestMoveShape(line: string)
    ensures var move := BestMoveOf(line); move.Some? ==> StartsWith(line, "bestmove ") && IsToken(move.value)
  {
    if StartsWith(line, "bestmove ") {
      assert line[0] == 'b';
      SplitWsOfUnpadded(line);
      WordsAreTokens(line);
    }
  }

  /** The three move checks in source order: empty, resignation, legality. None lets the move be played. */
  function Screen(move: string, legal: bool): (reason: Option<string>)
    ensures reason.None? <==> move != "" && move != "(none)" && move != "0000" && legal
    ensures reason.Some? ==> reason.value in {"illegal_move", "resignation"}
  {
    if move == "" then Some("illegal_move")
    else if move == "(none)" || move == "0000" then Some("resignation")
    else if !legal then Some("illegal_move")
    else None
  }

  /** The checks made before each turn, in source order: move cap, rules, clock, process. */
  function PreMoveCheck(moveCount: int, verdict: Option<(string, string)>, hasTime: bool, alive: bool,
                        isWhite: bool): (stop: Option<(string, string)>)
    ensures stop.None? <==> moveCount < MaxMoves && verdict.None? && hasTime && alive
    ensures moveCount >= MaxMoves ==> stop == Some(("1/2-1/2", "max_moves"))
    ensures moveCount < MaxMoves && verdict.Some? ==> stop == verdict
    ensures moveCount < MaxMoves && verdict.None? && !hasTime ==> stop == Some((Forfeit(isWhite), "time_forfeit"))
  {
    if moveCount >= MaxMoves then Some(("1/2-1/2", "max_moves"))
    else if verdict.Some? then verdict
    else if !hasTime then Some((Forfeit(isWhite), "time_forfeit"))
    else if !alive then Some((Forfeit(isWhite), "engine_crash"))
    else None
  }

  // ---------------------------------------------------------------------
  // Properties of the parsers and checks
  // ---------------------------------------------------------------------

  /** "bestmove <m> ..." yields m for every token m, whatever follows it. */
  lemma BestMoveReadsMove(m: string, rest: string)
    requires IsToken(m)
    ensures BestMoveOf("bestmove " + m + " " + rest) == Some(m)
  {
    var line := "bestmove " + m + " " + rest;
    assert line == "bestmove" + " " + (m + " " + rest);
    assert StartsWith(line, "bestmove ");
    SplitWsOfUnpadded(line);
    WordsCons("bestmove", m + " " + rest);
    WordsCons(m, rest);
  }

  /** A "bestmove" line with nothing after the keyword does not end the wait. */
  lemma BareBestMoveIgnored(pad: string)
    requires forall i :: 0 <= i < |pad| ==> IsSpace(pad[i])
    ensures BestMoveOf("bestmove " + pad) == None
  {
    var line := "bestmove " + pad;
    assert line == "bestmove" + " " + pad;
    SplitWsOfUnpadded(line);
    WordsCons("bestmove", pad);
    AllSpaceNoWords(pad);
  }

  lemma {:induction false} AllSpaceNoWords(s: string)
    requires forall i :: 0 <= i < |s| ==> IsSpace(s[i])
    ensures Words(s) == []
    decreases |s|
  {
    if s != [] {
      AllSpaceNoWords(s[1..]);
    }
  }

  /** A mate score keeps the sign of the mate and ranks nearer mates above farther ones. */
  lemma MateScoreOrder(m1: int, m2: int)
    requires -99 <= m1 <= 99 && -99 <= m2 <= 99
    ensures 0 < m1 < m2 ==> MateScore(m1) > MateScore(m2)
    ensures m2 < m1 <= 0 ==> MateScore(m1) < MateScore(m2)
  {
  }

  /** At most the first five moves, joined by single spaces, as the StringBuilder loop builds them. */
  method BuildPv(moves: seq<string>) returns (pv: string)
    ensures pv == Join(Take(moves, 5), " ")
  {
    var count := if |moves| < 5 then |moves| else 5;
    pv := "";
    var i := 0;
    while i < count
      invariant 0 <= i <= count
      invariant pv == Join(moves[..i], " ")
    {
      if i > 0 {
        JoinSnoc(moves[..i], moves[i]);
        pv := pv + " ";
      }
      assert moves[..i + 1] == moves[..i] + [moves[i]];
      pv := pv + moves[i];
      i := i + 1;
    }
    assert moves[..count] == Take(moves, 5);
  }

  /** Reads one line of engine output into the running evaluation. */
  method ReadInfo(line: string, prev: Report) returns (r: Report)
    ensures r == InfoUpdate(line, prev)
  {
    if !StartsWith(line, "info ") {
      return prev;
    }
    var score := ReadInt(line, " score cp ", prev.score);
    if Contains(line, " score mate ") {
      var mateIn := LeadingInt(After(line, " score mate "));
      if mateIn.Some? {
        score := Some(MateScore(mateIn.value));
      }
    }
    var depth := ReadInt(line, " depth ", prev.depth);
    var pv := prev.pv;
    if Contains(line, " pv ") {
      var text := BuildPv(SplitWs(Trim(After(line, " pv "))));
      pv := Some(text);
    }
    r := Report(score, depth, pv);
  }

  // ---------------------------------------------------------------------
  // What a wait reads, as functions of the lines it took
  // ---------------------------------------------------------------------

  const NoReport := Report(None, None, None)

  predicate AnyField(r: Report) {
    r.score.Some? || r.depth.Some? || r.pv.Some?
  }

  /** The live update one line produces, given the evaluation after it: only "info" lines send one. */
  function ThinkingAfter(gameId: int, isWhite: bool, t: string, g: Report): seq<Messages.Message> {
    if StartsWith(t, "info ") && AnyField(g) then [Messages.EngineThinking(gameId, isWhite, g.score, g.depth, g.pv)] else []
  }

  /** The evaluation gathered from the first n lines read, from an empty one. */
  function Heard(lines: seq<TimedLine>, n: nat): Report
    requires n <= |lines|
  {
    if n == 0 then NoReport else InfoUpdate(lines[n - 1].text, Heard(lines, n - 1))
  }

  /** The trace once the first n lines are read: the messages sent before the wait, then each line's live update. */
  function Updates(base: seq<Messages.Message>, gameId: int, isWhite: bool, lines: seq<TimedLine>, n: nat): seq<Messages.Message>
    requires n <= |lines|
  {
    if n == 0 then base
    else Updates(base, gameId, isWhite, lines, n - 1) + ThinkingAfter(gameId, isWhite, lines[n - 1].text, Heard(lines, n))
  }

  /** Whether the wait still goes on after the first n lines: none of them gave a move. */
  function Waiting(lines: seq<TimedLine>, n: nat): bool
    requires n <= |lines|
  {
    n == 0 || (Waiting(lines, n - 1) && BestMoveOf(lines[n - 1].text).None?)
  }

  /** A wait goes on exactly while no line read so far is a "bestmove" line with a move. */
  lemma {:induction false} WaitingMeansNoBestMove(lines: seq<TimedLine>, n: nat)
    requires n <= |lines|
    ensures Waiting(lines, n) <==> forall i :: 0 <= i < n ==> BestMoveOf(lines[i].text).None?
    decreases n
  {
    if n > 0 {
      WaitingMeansNoBestMove(lines, n - 1);
    }
  }

  /** Lines that are not "info" lines send no live update. */
  lemma {:induction false} UpdatesOnlyFromInfo(base: seq<Messages.Message>, gameId: int, isWhite: bool, lines: seq<TimedLine>, n: nat)
    requires n <= |lines|
    requires forall i :: 0 <= i < n ==> !StartsWith(lines[i].text, "info ")
    ensures Updates(base, gameId, isWhite, lines, n) == base
    decreases n
  {
    if n > 0 {
      UpdatesOnlyFromInfo(base, gameId, isWhite, lines, n - 1);
      assert ThinkingAfter(gameId, isWhite, lines[n - 1].text, Heard(lines, n)) == [];
    }
  }

  /** The wait keeps what was sent before it, and every message it adds is a live update. */
  lemma {:induction false} UpdatesAreThinking(base: seq<Messages.Message>, gameId: int, isWhite: bool, lines: seq<TimedLine>, n: nat)
    requires n <= |lines|
    ensures base <= Updates(base, gameId, isWhite, lines, n)
    ensures forall i :: |base| <= i < |Updates(base, gameId, isWhite, lines, n)| ==>
      Messages.IsKind(Updates(base, gameId, isWhite, lines, n)[i], "engine_thinking")
    decreases n
  {
    if n > 0 {
      UpdatesAreThinking(base, gameId, isWhite, lines, n - 1);
      ThinkingAppended(gameId, isWhite, base, Updates(base, gameId, isWhite, lines, n - 1), lines[n - 1].text, Heard(lines, n));
    }
  }

  /** Appending one line's live update keeps the prefix and leaves only live updates after it. */
  lemma ThinkingAppended(gameId: int, isWhite: bool, base: seq<Messages.Message>, before: seq<Messages.Message>,
                         t: string, g: Report)
    requires base <= before
    requires forall i :: |base| <= i < |before| ==> Messages.IsKind(before[i], "engine_thinking")
    ensures base <= before + ThinkingAfter(gameId, isWhite, t, g)
    ensures forall i :: |base| <= i < |before + ThinkingAfter(gameId, isWhite, t, g)| ==>
      Messages.IsKind((before + ThinkingAfter(gameId, isWhite, t, g))[i], "engine_thinking")
  {
    var all := before + ThinkingAfter(gameId, isWhite, t, g);
    assert all[..|before|] == before;
    forall i | |base| <= i < |all|
      ensures Messages.IsKind(all[i], "engine_thinking")
    {
      if i >= |before| {
        assert all[i] == ThinkingAfter(gameId, isWhite, t, g)[i - |before|];
      }
    }
  }

  /**
   * How a wait that read the first `taken` lines ended with a reply: a move from the last line read,
   * before which it was still waiting and by the deadline; or no move, with the process
   * dead or the deadline passed.
   */
  ghost predicate Answered(gameId: int, isWhite: bool, lines: seq<TimedLine>, taken: nat, reply: Reply,
                           now: int, deadline: int, alive: bool)
    requires taken <= |lines|
  {
    match reply
    case BestMove(m) =>
      && taken > 0 && now <= deadline && BestMoveOf(lines[taken - 1].text) == Some(m)
      && Waiting(lines, taken - 1)
    case TimedOut(why) =>
      && Waiting(lines, taken)
      && ((why == "Engine process died" && !alive) || (why == "Engine exceeded time limit" && now >= deadline))
  }

  lemma AnsweredByTimeout(gameId: int, isWhite: bool, lines: seq<TimedLine>, taken: nat, why: string,
                          now: int, deadline: int, alive: bool)
    requires taken <= |lines| && Waiting(lines, taken)
    requires (why == "Engine process died" && !alive) || (why == "Engine exceeded time limit" && now >= deadline)
    ensures Answered(gameId, isWhite, lines, taken, TimedOut(why), now, deadline, alive)
  {
  }

  lemma AnsweredByMove(gameId: int, isWhite: bool, lines: seq<TimedLine>, taken: nat, m: string,
                       now: int, deadline: int, alive: bool)
    requires 0 < taken <= |lines| && now <= deadline
    requires BestMoveOf(lines[taken - 1].text) == Some(m) && Waiting(lines, taken - 1)
    ensures Answered(gameId, isWhite, lines, taken, BestMove(m), now, deadline, alive)
  {
  }

  /** How one pass of the game loop ends: a move played, or the game over. */
  datatype Turn = Moved(move: string) | Ended(result: string, reason: string)

  /** The messages one turn sends to the live view: live updates and moves, never the end of the game. */
  predicate TurnMessages(msgs: seq<Messages.Message>) {
    forall i :: 0 <= i < |msgs| ==> Messages.IsKind(msgs[i], "engine_thinking") || Messages.IsKind(msgs[i], "move")
  }

  /** A turn's messages hold no end of game. */
  lemma TurnMessagesHoldNoEnd(msgs: seq<Messages.Message>)
    requires TurnMessages(msgs)
    ensures Messages.CountKind(msgs, "game_end") == 0
  {
    Messages.CountKindAbsent(msgs, "game_end");
  }

  /** Adding a turn's messages to a trace adds no end of game to it. */
  lemma TurnKeepsEndCount(before: seq<Messages.Message>, after: seq<Messages.Message>)
    requires before <= after && TurnMessages(after[|before|..])
    ensures Messages.CountKind(after, "game_end") == Messages.CountKind(before, "game_end")
  {
    assert after == before + after[|before|..];
    TurnMessagesHoldNoEnd(after[|before|..]);
    Messages.CountKindAppend(before, after[|before|..], "game_end");
  }

  /** One more message adds one to the count of its kind and nothing to the others. */
  lemma CountKindSnoc(trace: seq<Messages.Message>, m: Messages.Message, kind: string)
    ensures Messages.CountKind(trace + [m], kind) == Messages.CountKind(trace, kind) + (if Messages.IsKind(m, kind) then 1 else 0)
  {
    assert (trace + [m])[..|trace|] == trace;
  }

  /**
   * How the result of a finished game agrees with the position it ended in: the move cap
   * is a draw, a rules verdict is the oracle's, every forfeit goes against the side to move,
   * and an unfinished result comes from a refused write.
   */
  predicate EndAgrees(rules: Rules, moves: seq<string>, whiteToMove: bool, result: string, reason: string) {
    && (reason == "max_moves" ==> result == "1/2-1/2" && |moves| >= MaxMoves)
    && (reason in {"checkmate", "stalemate", "insufficient_material", "draw"} ==> Verdict(rules, moves) == Some((result, reason)))
    && (reason in {"time_forfeit", "engine_crash", "timeout", "illegal_move", "resignation"} ==> result == Forfeit(whiteToMove))
    && (result == "*" ==> reason == "exception: " + BrokenPipe)
  }

  /** Every move from index `from` on was legal in the position before it. */
  predicate LegalFrom(rules: Rules, moves: seq<string>, from: int) {
    forall i :: from <= i < |moves| && 0 <= i ==> rules.legal(moves[..i], moves[i])
  }

  /** A legal move played keeps the moves legal. */
  lemma LegalSnoc(rules: Rules, moves: seq<string>, from: int, m: string)
    requires LegalFrom(rules, moves, from) && rules.legal(moves, m)
    ensures LegalFrom(rules, moves + [m], from)
  {
    forall i | from <= i < |moves + [m]| && 0 <= i
      ensures rules.legal((moves + [m])[..i], (moves + [m])[i])
    {
      if i < |moves| {
        assert (moves + [m])[..i] == moves[..i];
      } else {
        assert (moves + [m])[..i] == moves;
      }
    }
  }

  /** No command from index `from` on is "stop". */
  predicate NoStop(commands: seq<string>, from: int) {
    forall i :: from <= i < |commands| && 0 <= i ==> commands[i] != "stop"
  }

  /** How a wait for "bestmove" ends. */
  datatype Reply = BestMove(move: string) | TimedOut(why: string)

  /** The wait allowed for one move: the mover's remaining time, its increment and the safety margin. */
  function Allowance(c: Clock, isWhite: bool): (ms: int)
    ensures ms >= Increment(c, isWhite) + MoveOverheadMs
  {
    Remaining(c, isWhite) + Increment(c, isWhite) + MoveOverheadMs
  }

  /**
   * newGame on white, then on black, judged from each engine as it is before the call: a refused
   * write ends the preparation with the broken pipe, and a wait for "readyok" that never ends
   * holds it for ever. Black is asked only once white is ready.
   */
  function Prepared(whiteRefuses: bool, whiteOutput: seq<TimedLine>, blackRefuses: bool, blackOutput: seq<TimedLine>,
                    now0: int): Outcome<Option<string>>
  {
    if whiteRefuses then Done(Some(BrokenPipe))
    else
      var w := AwaitReady(whiteOutput, now0).0;
      if w.Blocked? then Blocked
      else if blackRefuses then Done(Some(BrokenPipe))
      else if AwaitReady(blackOutput, w.value.value).0.Blocked? then Blocked
      else Done(None)
  }

  /**
   * The preparation blocks exactly when an engine that took newGame never prints "readyok"; it
   * fails with the broken pipe exactly when a write is refused before that; otherwise both are ready.
   */
  lemma PreparedOutcomes(whiteRefuses: bool, whiteOutput: seq<TimedLine>, blackRefuses: bool, blackOutput: seq<TimedLine>,
                         now0: int)
    ensures var p := Prepared(whiteRefuses, whiteOutput, blackRefuses, blackOutput, now0);
      && (p.Blocked? <==> !whiteRefuses && (NeverReady(whiteOutput) || (!blackRefuses && NeverReady(blackOutput))))
      && (p == Done(Some(BrokenPipe)) <==> whiteRefuses || (!NeverReady(whiteOutput) && blackRefuses))
      && (p == Done(None) <==> !whiteRefuses && !blackRefuses && !NeverReady(whiteOutput) && !NeverReady(blackOutput))
  {
    var w := AwaitReady(whiteOutput, now0).0;
    AwaitReadyBlocksIff(whiteOutput, now0);
    if w.Done? {
      AwaitReadyBlocksIff(blackOutput, w.value.value);
    }
  }

  class GameManager {
    const gameId: int
    const white: Engine
    const black: Engine
    const state: GameState
    const rules: Rules
    const whiteName: string
    const blackName: string
    /** The moves the validator has applied. */
    var played: seq<string>
    /** Every message this game has sent to the live view, in order. */
    var broadcasts: seq<Messages.Message>

    ghost predicate Valid()
      reads this`played, state
    {
      state.Valid() && played == state.moves && white != black
    }

    /** A game needs two distinct engine processes; the start position is "startpos" or a FEN. */
    constructor (gameId: int, white: Engine, black: Engine, startFen: string, timeControl: TimeControl,
                 rules: Rules, whiteName: string, blackName: string)
      requires white != black
      ensures Valid() && fresh(state)
      ensures this.gameId == gameId && this.white == white && this.black == black && this.rules == rules
      ensures this.whiteName == whiteName && this.blackName == blackName
      ensures state.startFen == startFen && state.timeControl == timeControl && state.moves == []
      ensures broadcasts == []
    {
      this.gameId := gameId;
      this.white := white;
      this.black := black;
      this.rules := rules;
      this.whiteName := whiteName;
      this.blackName := blackName;
      state := new GameState(startFen, timeControl);
      played := [];
      broadcasts := [];
    }

    /**
     * One line taken during the wait: "info" lines update the evaluation and may send a live update;
     * a "bestmove" line with a move ends the wait.
     */
    method ReadLine(text: string, isWhite: bool, ghost lines: seq<TimedLine>, ghost n: nat, report: Report,
                    ghost sentBefore: seq<Messages.Message>)
      returns (next: Report, move: Option<string>)
      requires n < |lines| && lines[n].text == text
      requires report == Heard(lines, n) && Waiting(lines, n)
      requires broadcasts == Updates(sentBefore, gameId, isWhite, lines, n)
      modifies this`broadcasts
      ensures next == Heard(lines, n + 1)
      ensures broadcasts == Updates(sentBefore, gameId, isWhite, lines, n + 1)
      ensures move == BestMoveOf(text)
      ensures move.None? <==> Waiting(lines, n + 1)
    {
      next := ReadInfo(text, report);
      if StartsWith(text, "info ") && AnyField(next) {
        broadcasts := broadcasts + [Messages.EngineThinking(gameId, isWhite, next.score, next.depth, next.pv)];
      }
      move := BestMoveOf(text);
    }

    /**
     * One pass of the wait: the liveness and deadline checks, then one poll of the engine's
     * output, reading the line that arrives, if one does. A reply ends the wait.
     */
    method PollOnce(engine: Engine, isWhite: bool, now: int, deadline: int, ghost lines: seq<TimedLine>, ghost taken: nat,
                    report: Report, ghost base: seq<Messages.Message>)
      returns (step: Option<Reply>, next: Report, later: int, ghost after: nat)
      requires taken <= |lines| && engine.output == lines[taken..]
      requires report == Heard(lines, taken) && Waiting(lines, taken)
      requires broadcasts == Updates(base, gameId, isWhite, lines, taken)
      modifies engine`output, this`broadcasts
      ensures after <= |lines| && engine.output == lines[after..] && now <= later
      ensures next == Heard(lines, after)
      ensures broadcasts == Updates(base, gameId, isWhite, lines, after)
      ensures step.None? ==>
        && Waiting(lines, after) && later <= deadline
        && (after == taken + 1 || (after == taken && now < later < deadline))
      ensures step.Some? ==> Answered(gameId, isWhite, lines, after, step.value, later, deadline, engine.Alive(later))
    {
      if !engine.Alive(now) {
        AnsweredByTimeout(gameId, isWhite, lines, taken, "Engine process died", now, deadline, engine.Alive(now));
        return Some(TimedOut("Engine process died")), report, now, taken;
      }
      var remaining := deadline - now;
      if remaining <= 0 {
        AnsweredByTimeout(gameId, isWhite, lines, taken, "Engine exceeded time limit", now, deadline, engine.Alive(now));
        return Some(TimedOut("Engine exceeded time limit")), report, now, taken;
      }
      var pollTimeout := if remaining < 1000 then remaining else 1000;
      var got, move;
      got, move, next, later, after := ReadNext(engine, isWhite, now, pollTimeout, lines, taken, report, base);
      step := None;
      if !got && later >= deadline {
        AnsweredByTimeout(gameId, isWhite, lines, after, "Engine exceeded time limit", later, deadline, engine.Alive(later));
        step := Some(TimedOut("Engine exceeded time limit"));
      } else if got && move.Some? {
        AnsweredByMove(gameId, isWhite, lines, after, move.value, later, deadline, engine.Alive(later));
        step := Some(BestMove(move.value));
      }
    }

    /** One poll of the engine's output, reading the line that arrives, if one does. */
    method ReadNext(engine: Engine, isWhite: bool, now: int, timeout: int, ghost lines: seq<TimedLine>, ghost taken: nat,
                    report: Report, ghost base: seq<Messages.Message>)
      returns (got: bool, move: Option<string>, next: Report, later: int, ghost after: nat)
      requires taken <= |lines| && engine.output == lines[taken..]
      requires report == Heard(lines, taken) && Waiting(lines, taken)
      requires broadcasts == Updates(base, gameId, isWhite, lines, taken)
      modifies engine`output, this`broadcasts
      ensures after <= |lines| && engine.output == lines[after..] && now <= later <= now + Max(timeout, 0)
      ensures next == Heard(lines, after)
      ensures broadcasts == Updates(base, gameId, isWhite, lines, after)
      ensures !got ==> after == taken && later == now + Max(timeout, 0)
      ensures got ==> after == taken + 1 && move == BestMoveOf(lines[after - 1].text) && Waiting(lines, after - 1)
      ensures got && move.None? ==> Waiting(lines, after)
    {
      var line;
      line, later := engine.PollLine(now, timeout);
      if line.None? {
        return false, None, report, later, taken;
      }
      assert lines[taken..][1..] == lines[taken + 1..];
      next, move := ReadLine(line.value, isWhite, lines, taken, report, base);
      got, after := true, taken + 1;
      assert lines[after - 1] == lines[taken];
    }

    /**
     * Polls the mover's output until a "bestmove" line with a move arrives, reading "info" lines
     * on the way. The process dying, or the deadline passing, ends the wait without a move.
     * The evaluation gathered is returned with the move.
     */
    method WaitForBestMove(engine: Engine, isWhite: bool, now0: int)
      returns (reply: Reply, report: Report, now: int, deadline: int, ghost lines: seq<TimedLine>, ghost taken: nat)
      requires engine == white || engine == black
      modifies engine`output, this`broadcasts
      ensures lines == old(engine.output)
      ensures deadline == now0 + Allowance(state.timeControl.Value(), isWhite) && now >= now0
      ensures taken <= |lines| && engine.output == lines[taken..]
      ensures report == Heard(lines, taken)
      ensures broadcasts == Updates(old(broadcasts), gameId, isWhite, lines, taken)
      ensures Answered(gameId, isWhite, lines, taken, reply, now, deadline, engine.Alive(now))
    {
      lines := engine.output;
      var timeLeft := if isWhite then state.timeControl.GetWhiteTime() else state.timeControl.GetBlackTime();
      var increment := if isWhite then state.timeControl.whiteIncrement else state.timeControl.blackIncrement;
      deadline := now0 + timeLeft + increment + MoveOverheadMs;
      assert deadline == now0 + Allowance(state.timeControl.Value(), isWhite);
      report := NoReport;
      now := now0;
      taken := 0;
      while true
        invariant now >= now0
        invariant taken <= |lines| && engine.output == lines[taken..]
        invariant report == Heard(lines, taken) && Waiting(lines, taken)
        invariant broadcasts == Updates(old(broadcasts), gameId, isWhite, lines, taken)
        decreases |engine.output|, deadline - now
      {
        var step;
        step, report, now, taken := PollOnce(engine, isWhite, now, deadline, lines, taken, report, old(broadcasts));
        if step.Some? {
          reply := step.value;
          break;
        }
      }
    }

    /** The engine whose turn it is. */
    function Mover(): Engine
      reads state
    {
      if state.whiteToMove then white else black
    }

    /** Sends the position and the go command for the side to move; a refused write stops the sending. */
    method SendTurn(mover: Engine) returns (err: Option<string>)
      requires Valid()
      modifies mover`commands
      ensures var sent := [PositionCommand(state.startFen, state.moves), GoCommand(state.timeControl.Value())];
        && (err.None? ==> mover.commands == old(mover.commands) + sent)
        && (err.Some? ==> err.value == BrokenPipe && old(mover.commands) < mover.commands <= old(mover.commands) + sent)
      ensures NoStop(mover.commands, |old(mover.commands)|)
    {
      var position := state.GetPositionCommand();
      var go := state.GetGoCommand();
      assert position != "stop" && go != "stop" by {
        assert |position| >= 9 && go[..3] == "go ";
        assert go[0] == go[..3][0] == 'g';
      }
      err := mover.Send(position);
      if err.None? {
        err := mover.Send(go);
      }
    }

    /** After a timeout: tells the engine to stop and, if that write went through, waits up to 500 ms for its answer. */
    method StopThinking(mover: Engine, now: int) returns (later: int)
      modifies mover`commands, mover`output
      ensures mover.commands == old(mover.commands) + ["stop"]
      ensures now <= later <= now + 500
    {
      later := now;
      var err := mover.Send("stop");
      if err.None? {
        var line;
        line, later := mover.PollLine(now, 500);
      }
    }

    /** Plays an accepted move: stores the evaluation, then records the move, charges the clock and sends the new position to the live view. */
    method Apply(move: string, elapsed: int, report: Report)
      requires Valid()
      modifies this`played, this`broadcasts, state, state.timeControl
      ensures Valid()
      ensures state.moves == old(state.moves) + [move] && state.whiteToMove == !old(state.whiteToMove)
      ensures state.timeControl.Value() == Charge(old(state.timeControl.Value()), elapsed, old(state.whiteToMove))
      ensures var e := Evaluation(report.score, report.depth, None, None, None, report.pv);
        if old(state.whiteToMove) then state.whiteEval == e && state.blackEval == old(state.blackEval)
        else state.blackEval == e && state.whiteEval == old(state.whiteEval)
      ensures |broadcasts| == |old(broadcasts)| + 1 && broadcasts[..|old(broadcasts)|] == old(broadcasts)
      ensures var m := broadcasts[|broadcasts| - 1];
        m.kind == Some("move") && m.move == Some(move) && m.fen == Some(rules.fen(old(played) + [move]))
    {
      state.SetLastEvaluation(state.whiteToMove, report.score, report.depth, None, None, None, report.pv);
      played := played + [move];
      state.AddMove(move, elapsed);
      broadcasts := broadcasts + [Messages.Move(
        gameId, move, rules.fen(played),
        state.timeControl.GetWhiteTime(), state.timeControl.GetBlackTime(),
        state.fullMoveNumber, !state.whiteToMove,
        state.whiteEval.score, state.blackEval.score, state.whiteEval.depth, state.blackEval.depth,
        state.whiteEval.pv, state.blackEval.pv)];
    }

    /**
     * The part of a turn after the checks: the position and go commands, the wait, the checks
     * on the move, and on success the move applied and sent to the live view.
     */
    method Ask(mover: Engine, now0: int) returns (t: Turn, now: int)
      requires Valid() && mover == Mover()
      modifies this`played, this`broadcasts, state, state.timeControl, mover`output, mover`commands
      ensures Valid() && now >= now0
      ensures old(broadcasts) <= broadcasts && TurnMessages(broadcasts[|old(broadcasts)|..])
      ensures old(mover.commands) <= mover.commands
      ensures if t.Ended? && t.reason == "timeout"
        then |mover.commands| > 0 && mover.commands[|mover.commands| - 1] == "stop"
             && NoStop(mover.commands[..|mover.commands| - 1], |old(mover.commands)|)
        else NoStop(mover.commands, |old(mover.commands)|)
      ensures var w := old(state.whiteToMove);
        match t
        case Moved(m) =>
          && IsToken(m) && m != "(none)" && m != "0000" && rules.legal(old(played), m)
          && state.moves == old(state.moves) + [m]
          && state.timeControl.Value() == Charge(old(state.timeControl.Value()), now - now0, w)
          && mover.commands == old(mover.commands)
             + [PositionCommand(state.startFen, old(state.moves)), GoCommand(old(state.timeControl.Value()))]
          && |broadcasts| > |old(broadcasts)| && Messages.IsKind(broadcasts[|broadcasts| - 1], "move")
          && broadcasts[|broadcasts| - 1].move == Some(m)
        case Ended(result, reason) =>
          && state.moves == old(state.moves) && state.whiteToMove == w
          && state.timeControl.Value() == old(state.timeControl.Value())
          && ((result == Forfeit(w) && reason in {"timeout", "illegal_move", "resignation"})
              || (result == "*" && reason == "exception: " + BrokenPipe))
    {
      var w := state.whiteToMove;
      var err := SendTurn(mover);
      if err.Some? {
        return Ended("*", "exception: " + err.value), now0;
      }
      var reply, report, later := Await(mover, w, now0);
      if reply.TimedOut? {
        now := StopThinking(mover, later);
        return Ended(Forfeit(w), "timeout"), now;
      }
      ghost var mid := broadcasts;
      t := Conclude(reply.move, later - now0, report);
      now := later;
      assert broadcasts[|old(broadcasts)|..] == mid[|old(broadcasts)|..] + broadcasts[|mid|..];
    }

    /** The wait for the engine's move, seen from the turn: only live updates are sent, and a move read is one token. */
    method Await(mover: Engine, isWhite: bool, now0: int) returns (reply: Reply, report: Report, now: int)
      requires mover == white || mover == black
      modifies mover`output, this`broadcasts
      ensures now >= now0 && old(broadcasts) <= broadcasts
      ensures forall i :: |old(broadcasts)| <= i < |broadcasts| ==> Messages.IsKind(broadcasts[i], "engine_thinking")
      ensures reply.BestMove? ==> IsToken(reply.move)
    {
      var deadline;
      ghost var lines, taken;
      reply, report, now, deadline, lines, taken := WaitForBestMove(mover, isWhite, now0);
      UpdatesAreThinking(old(broadcasts), gameId, isWhite, lines, taken);
      if reply.BestMove? {
        BestMoveShape(lines[taken - 1].text);
      }
    }

    /** The checks on the move the engine chose, then, if it passes them, the move played. */
    method Conclude(move: string, elapsed: int, report: Report) returns (t: Turn)
      requires Valid() && IsToken(move)
      modifies this`played, this`broadcasts, state, state.timeControl
      ensures Valid() && old(broadcasts) <= broadcasts
      ensures var w := old(state.whiteToMove);
        match t
        case Moved(m) =>
          && m == move && m != "(none)" && m != "0000" && rules.legal(old(played), m)
          && state.moves == old(state.moves) + [m]
          && state.timeControl.Value() == Charge(old(state.timeControl.Value()), elapsed, w)
          && |broadcasts| == |old(broadcasts)| + 1 && Messages.IsKind(broadcasts[|broadcasts| - 1], "move")
          && broadcasts[|broadcasts| - 1].move == Some(m)
        case Ended(result, reason) =>
          && state.moves == old(state.moves) && state.whiteToMove == w && broadcasts == old(broadcasts)
          && state.timeControl.Value() == old(state.timeControl.Value())
          && result == Forfeit(w) && Screen(move, rules.legal(old(played), move)) == Some(reason)
          && reason in {"illegal_move", "resignation"}
    {
      var rejection := Screen(move, rules.legal(played, move));
      if rejection.Some? {
        return Ended(Forfeit(state.whiteToMove), rejection.value);
      }
      Apply(move, elapsed, report);
      return Moved(move);
    }

    /**
     * One pass of the game loop: the checks before the move, in the order the loop makes them,
     * then the rest of the turn. Only the engine to move is written to or read from.
     */
    method PlayTurn(now0: int) returns (t: Turn, now: int)
      requires Valid()
      modifies this`played, this`broadcasts, state, state.timeControl
      modifies white`output, white`commands, black`output, black`commands
      ensures Valid() && now >= now0
      ensures old(broadcasts) <= broadcasts && TurnMessages(broadcasts[|old(broadcasts)|..])
      ensures var w := old(state.whiteToMove);
        var mover := if w then white else black;
        var other := if w then black else white;
        && other.commands == old(other.commands) && other.output == old(other.output)
        && old(mover.commands) <= mover.commands
        && (if t.Ended? && t.reason == "timeout"
            then |mover.commands| > 0 && mover.commands[|mover.commands| - 1] == "stop"
                 && NoStop(mover.commands[..|mover.commands| - 1], |old(mover.commands)|)
            else NoStop(mover.commands, |old(mover.commands)|))
      ensures var w := old(state.whiteToMove);
        var mover := if w then white else black;
        var check := PreMoveCheck(|old(state.moves)|, Verdict(rules, old(played)), old(state.HasTimeLeft()), mover.Alive(now0), w);
        match t
        case Moved(m) =>
          && check.None? && IsToken(m) && m != "(none)" && m != "0000" && rules.legal(old(played), m)
          && state.moves == old(state.moves) + [m]
          && state.timeControl.Value() == Charge(old(state.timeControl.Value()), now - now0, w)
          && mover.commands == old(mover.commands)
             + [PositionCommand(state.startFen, old(state.moves)), GoCommand(old(state.timeControl.Value()))]
          && |broadcasts| > |old(broadcasts)| && Messages.IsKind(broadcasts[|broadcasts| - 1], "move")
          && broadcasts[|broadcasts| - 1].move == Some(m)
        case Ended(result, reason) =>
          && state.moves == old(state.moves) && state.whiteToMove == w
          && state.timeControl.Value() == old(state.timeControl.Value())
          && ((check == Some((result, reason)) && now == now0 && mover.commands == old(mover.commands))
              || (check.None? && result == Forfeit(w) && reason in {"timeout", "illegal_move", "resignation"})
              || (check.None? && result == "*" && reason == "exception: " + BrokenPipe))
    {
      var mover := Mover();
      var check := PreMoveCheck(|state.moves|, Verdict(rules, played), state.HasTimeLeft(), mover.Alive(now0), state.whiteToMove);
      if check.Some? {
        return Ended(check.value.0, check.value.1), now0;
      }
      t, now := Ask(mover, now0);
    }

    /** newGame on the white engine, then on the black one; the first refused write stops the preparation. */
    method PrepareEngines(now0: int) returns (r: Outcome<Option<string>>, now: int)
      requires Valid()
      modifies white`output, white`commands, black`output, black`commands
      ensures now >= now0
      ensures r == old(Prepared(white.RefusesNewGame(), white.output, black.RefusesNewGame(), black.output, now0))
      ensures old(white.commands) < white.commands && old(black.commands) <= black.commands
    {
      now := now0;
      var ready := white.NewGame(now);
      if ready.Done? && ready.value.Success? {
        now := ready.value.value;
        ready := black.NewGame(now);
      }
      if ready.Blocked? {
        return Blocked, now;
      }
      if ready.value.Failure? {
        return Done(Some(ready.value.error)), now;
      }
      now := ready.value.value;
      return Done(None), now;
    }

    /** broadcastGameEnd: the result, its reason and the number of moves played. */
    method Finish(result: string, reason: string) returns (gr: GameResult)
      modifies this`broadcasts
      ensures gr == GameResult(gameId, result, reason)
      ensures broadcasts == old(broadcasts) + [Messages.GameEnd(gameId, result, reason, |state.moves|)]
    {
      broadcasts := broadcasts + [Messages.GameEnd(gameId, result, reason, |state.moves|)];
      gr := GameResult(gameId, result, reason);
    }

    /** broadcastGameStart: the standard position when the game starts from it, the oracle's FEN otherwise. */
    method AnnounceStart()
      requires Valid()
      modifies this`broadcasts
      ensures var c := state.timeControl.Value();
        var fen := if Contains(PositionCommand(state.startFen, state.moves), "startpos") then StandardStartFen else rules.fen(played);
        broadcasts == old(broadcasts)
          + [Messages.GameStart(gameId, whiteName, blackName, fen, Remaining(c, true), c.whiteIncrement)]
    {
      var position := state.GetPositionCommand();
      var fen := if Contains(position, "startpos") then StandardStartFen else rules.fen(played);
      broadcasts := broadcasts + [Messages.GameStart(gameId, whiteName, blackName, fen,
                                                     state.timeControl.GetWhiteTime(), state.timeControl.whiteIncrement)];
    }

    /**
     * run: both engines start a new game, the start is sent to the live view, then turns are
     * played until one ends the game, whose end is sent with the number of moves played. An
     * engine that never answers "isready" holds the game for ever.
     */
    method Run(now0: int) returns (r: Outcome<GameResult>, now: int, ghost elapsed: seq<int>)
      requires Valid()
      modifies this`played, this`broadcasts, state, state.timeControl
      modifies white`output, white`commands, black`output, black`commands
      ensures Valid() && now >= now0
      ensures Continues(old(state.moves), old(state.timeControl.Value()), old(state.whiteToMove), elapsed)
      ensures old(broadcasts) <= broadcasts
      ensures var p := old(Prepared(white.RefusesNewGame(), white.output, black.RefusesNewGame(), black.output, now0));
        && (r.Blocked? <==> p.Blocked?)
        && (p == Done(Some(BrokenPipe)) ==> r == Done(GameResult(gameId, "*", "exception: " + BrokenPipe)))
      ensures r.Blocked? ==> broadcasts == old(broadcasts) && state.moves == old(state.moves)
      ensures r.Done? ==>
        && r.value.id == gameId
        && |broadcasts| > |old(broadcasts)|
        && (r.value.result == "*" || Messages.IsKind(broadcasts[|old(broadcasts)|], "game_start"))
        && broadcasts[|broadcasts| - 1] == Messages.GameEnd(gameId, r.value.result, r.value.reason, |state.moves|)
        && Messages.CountKind(broadcasts, "game_end") == Messages.CountKind(old(broadcasts), "game_end") + 1
        && EndAgrees(rules, state.moves, state.whiteToMove, r.value.result, r.value.reason)
    {
      now, elapsed := now0, [];
      var ready;
      ready, now := PrepareEngines(now0);
      if ready.Blocked? {
        return Blocked, now, elapsed;
      }
      if ready.value.Some? {
        var gr := Finish("*", "exception: " + ready.value.value);
        CountKindSnoc(old(broadcasts), broadcasts[|broadcasts| - 1], "game_end");
        return Done(gr), now, elapsed;
      }
      var gr;
      gr, now, elapsed := Play(now);
      return Done(gr), now, elapsed;
    }

    /** The game once both engines are ready: its start sent to the live view, then the turn loop. */
    method Play(now0: int) returns (gr: GameResult, now: int, ghost elapsed: seq<int>)
      requires Valid()
      modifies this`played, this`broadcasts, state, state.timeControl
      modifies white`output, white`commands, black`output, black`commands
      ensures Valid() && now >= now0
      ensures Continues(old(state.moves), old(state.timeControl.Value()), old(state.whiteToMove), elapsed)
      ensures gr.id == gameId && EndAgrees(rules, state.moves, state.whiteToMove, gr.result, gr.reason)
      ensures old(broadcasts) < broadcasts && Messages.IsKind(broadcasts[|old(broadcasts)|], "game_start")
      ensures broadcasts[|broadcasts| - 1] == Messages.GameEnd(gameId, gr.result, gr.reason, |state.moves|)
      ensures Messages.CountKind(broadcasts, "game_end") == Messages.CountKind(old(broadcasts), "game_end") + 1
    {
      AnnounceStart();
      ghost var started := broadcasts;
      CountKindSnoc(old(broadcasts), broadcasts[|broadcasts| - 1], "game_end");
      gr, now, elapsed := PlayUntilEnd(now0);
      assert broadcasts[|old(broadcasts)|] == started[|old(broadcasts)|];
    }

    /**
     * The game has gone on from the moves m0, the clock c0 and the side to move w0: every move
     * added was legal where it was played, the move cap still holds, the side to move alternated,
     * and the clock is c0 charged with the elapsed times of the moves in turn.
     */
    ghost predicate Continues(m0: seq<string>, c0: Clock, w0: bool, elapsed: seq<int>)
      reads state, state.timeControl
    {
      && m0 <= state.moves && LegalFrom(rules, state.moves, |m0|)
      && (|m0| <= MaxMoves ==> |state.moves| <= MaxMoves)
      && |elapsed| == |state.moves| - |m0|
      && state.whiteToMove == (if |elapsed| % 2 == 0 then w0 else !w0)
      && state.timeControl.Value() == Replay(c0, elapsed, w0)
    }

    /** The loop of run: turns until one ends the game, then the end sent to the live view. */
    method PlayUntilEnd(now0: int) returns (gr: GameResult, now: int, ghost elapsed: seq<int>)
      requires Valid()
      modifies this`played, this`broadcasts, state, state.timeControl
      modifies white`output, white`commands, black`output, black`commands
      ensures Valid() && now >= now0
      ensures Continues(old(state.moves), old(state.timeControl.Value()), old(state.whiteToMove), elapsed)
      ensures gr.id == gameId && EndAgrees(rules, state.moves, state.whiteToMove, gr.result, gr.reason)
      ensures old(broadcasts) <= broadcasts && |broadcasts| > |old(broadcasts)|
      ensures broadcasts[|broadcasts| - 1] == Messages.GameEnd(gameId, gr.result, gr.reason, |state.moves|)
      ensures Messages.CountKind(broadcasts, "game_end") == Messages.CountKind(old(broadcasts), "game_end") + 1
    {
      ghost var m0, c0, w0 := state.moves, state.timeControl.Value(), state.whiteToMove;
      now, elapsed := now0, [];
      while true
        invariant Valid() && now >= now0 && Continues(m0, c0, w0, elapsed)
        invariant old(broadcasts) <= broadcasts
        invariant Messages.CountKind(broadcasts, "game_end") == Messages.CountKind(old(broadcasts), "game_end")
        decreases MaxMoves - |state.moves|
      {
        var t;
        t, now, elapsed := Advance(now, m0, c0, w0, elapsed);
        if t.Ended? {
          ghost var ended := broadcasts;
          gr := Finish(t.result, t.reason);
          CountKindSnoc(ended, broadcasts[|broadcasts| - 1], "game_end");
          return gr, now, elapsed;
        }
      }
    }

    /** One turn of the game loop, with the loop's account of the game carried over the turn. */
    method Advance(now0: int, ghost m0: seq<string>, ghost c0: Clock, ghost w0: bool, ghost elapsed0: seq<int>)
      returns (t: Turn, now: int, ghost elapsed: seq<int>)
      requires Valid() && Continues(m0, c0, w0, elapsed0)
      modifies this`played, this`broadcasts, state, state.timeControl
      modifies white`output, white`commands, black`output, black`commands
      ensures Valid() && now >= now0 && Continues(m0, c0, w0, elapsed)
      ensures old(broadcasts) <= broadcasts
      ensures Messages.CountKind(broadcasts, "game_end") == Messages.CountKind(old(broadcasts), "game_end")
      ensures t.Moved? ==> |old(state.moves)| < |state.moves| <= MaxMoves
      ensures t.Ended? ==> EndAgrees(rules, state.moves, state.whiteToMove, t.result, t.reason)
    {
      ghost var movesBefore := state.moves;
      t, now := TakeTurn(now0);
      if t.Ended? {
        elapsed := elapsed0;
        return;
      }
      LegalSnoc(rules, movesBefore, |m0|, t.move);
      ReplaySnoc(c0, elapsed0, w0, now - now0);
      elapsed := elapsed0 + [now - now0];
    }

    /** One pass of the game loop, seen from the loop: what it needs to go on or to stop. */
    method TakeTurn(now0: int) returns (t: Turn, now: int)
      requires Valid()
      modifies this`played, this`broadcasts, state, state.timeControl
      modifies white`output, white`commands, black`output, black`commands
      ensures Valid() && now >= now0
      ensures old(broadcasts) <= broadcasts
      ensures Messages.CountKind(broadcasts, "game_end") == Messages.CountKind(old(broadcasts), "game_end")
      ensures match t
        case Moved(m) =>
          && |old(state.moves)| < MaxMoves && rules.legal(old(state.moves), m)
          && state.moves == old(state.moves) + [m]
          && state.timeControl.Value() == Charge(old(state.timeControl.Value()), now - now0, old(state.whiteToMove))
        case Ended(result, reason) =>
          && state.moves == old(state.moves) && state.whiteToMove == old(state.whiteToMove)
          && state.timeControl.Value() == old(state.timeControl.Value())
          && EndAgrees(rules, state.moves, state.whiteToMove, result, reason)
    {
      ghost var w := state.whiteToMove;
      ghost var check := PreMoveCheck(|state.moves|, Verdict(rules, played), state.HasTimeLeft(), Mover().Alive(now0), w);
      t, now := PlayTurn(now0);
      TurnKeepsEndCount(old(broadcasts), broadcasts);
      if t.Ended? && check.Some? && check == Some((t.result, t.reason)) {
        VerdictAgrees(rules, old(played));
      }
    }
  }
}
