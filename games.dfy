/**
 * The state of one game seen from EngineLab (Game/GameState.java): the
 * start position, the move list, the clock, whose turn it is and the last
 * evaluation each engine reported.
 */
module Games {
  import opened Wrappers
  import opened Text
  import opened Clocks

  /** The last search report of one engine; every field may be absent. */
  datatype Evaluation = Evaluation(
    score: Option<int>, depth: Option<int>, selDepth: Option<int>,
    nodes: Option<int>, nps: Option<int>, pv: Option<string>)

  const NoEvaluation := Evaluation(None, None, None, None, None, None)

  /** The fields of the position command: the start position, then the moves when there are any. */
  function PositionParts(startFen: string, moves: seq<string>): seq<string> {
    ["position"] + (if startFen == "startpos" then ["startpos"] else ["fen", startFen])
      + (if moves == [] then [] else ["moves"] + moves)
  }

  /** "position startpos" or "position fen <fen>", then " moves m1 m2 ..." when there are moves. */
  function PositionCommand(startFen: string, moves: seq<string>): (cmd: string)
    ensures StartsWith(cmd, "position ")
    ensures startFen == "startpos" && moves == [] ==> cmd == "position startpos"
  {
    var parts := PositionParts(startFen, moves);
    assert parts == ["position"] + parts[1..];
    JoinCons("position", parts[1..]);
    Join(parts, " ")
  }

  lemma {:induction false} JoinSnoc(init: seq<string>, last: string)
    requires init != []
    ensures Join(init + [last], " ") == Join(init, " ") + " " + last
    decreases |init|
  {
    if |init| > 1 {
      JoinSnoc(init[1..], last);
      assert (init + [last])[1..] == init[1..] + [last];
    }
  }

  lemma JoinCons(first: string, rest: seq<string>)
    requires rest != []
    ensures Join([first] + rest, " ") == first + " " + Join(rest, " ")
  {
    assert ([first] + rest)[1..] == rest;
  }

  /** The go command: nine fields separated by single spaces, the clocks clamped at zero. */
  function GoParts(c: Clock): seq<string> {
    ["go", "wtime", IntToString(Remaining(c, true)), "btime", IntToString(Remaining(c, false)),
     "winc", IntToString(c.whiteIncrement), "binc", IntToString(c.blackIncrement)]
  }

  /** The go command starts with its keyword, and splitting it at whitespace gives back exactly its nine fields. */
  function GoCommand(c: Clock): (cmd: string)
    ensures StartsWith(cmd, "go ")
    ensures Words(cmd) == GoParts(c)
  {
    var g := GoParts(c);
    assert g == ["go"] + g[1..];
    JoinCons("go", g[1..]);
    assert forall i :: 0 <= i < |g| ==> IsToken(g[i]);
    WordsOfJoin(g);
    Join(g, " ")
  }

  /** An engine reading the go command recovers the two non-negative clock readings and the increments. */
  lemma GoCommandReadsBack(c: Clock)
    ensures var w := Words(GoCommand(c));
      |w| == 9 && w[0] == "go" && w[1] == "wtime" && w[3] == "btime" && w[5] == "winc" && w[7] == "binc"
      && ParseInteger(w[2]) == Some(Remaining(c, true)) && ParseInteger(w[4]) == Some(Remaining(c, false))
      && ParseInteger(w[6]) == Some(c.whiteIncrement) && ParseInteger(w[8]) == Some(c.blackIncrement)
      && ParseInteger(w[2]).value >= 0 && ParseInteger(w[4]).value >= 0
  {
    IntToStringParses(Remaining(c, true));
    IntToStringParses(Remaining(c, false));
    IntToStringParses(c.whiteIncrement);
    IntToStringParses(c.blackIncrement);
  }

  function StartWords(startFen: string): seq<string> {
    if startFen == "startpos" then ["startpos"] else ["fen"] + Words(startFen)
  }

  lemma TwoTokensThenText(a: string, b: string, f: string)
    requires IsToken(a) && IsToken(b)
    ensures WordsOfAll([a, b, f]) == [a, b] + Words(f)
  {
    assert [a, b, f] == [a, b] + [f];
    WordsOfAllAppend([a, b], [f]);
    WordsOfAllTokens([a, b]);
    assert WordsOfAll([f]) == Words(f) + WordsOfAll([]);
  }

  lemma StartPartWords(startFen: string)
    ensures WordsOfAll(["position"] + (if startFen == "startpos" then ["startpos"] else ["fen", startFen]))
         == ["position"] + StartWords(startFen)
  {
    if startFen == "startpos" {
      WordsOfAllTokens(["position", "startpos"]);
    } else {
      TwoTokensThenText("position", "fen", startFen);
    }
  }

  /** An engine reading the position command sees the start position, then exactly the moves played. */
  lemma PositionCommandReadsBack(startFen: string, moves: seq<string>)
    requires forall i :: 0 <= i < |moves| ==> IsToken(moves[i])
    ensures Words(PositionCommand(startFen, moves))
         == ["position"] + StartWords(startFen) + (if moves == [] then [] else ["moves"] + moves)
  {
    var head := ["position"] + (if startFen == "startpos" then ["startpos"] else ["fen", startFen]);
    var tail := if moves == [] then [] else ["moves"] + moves;
    assert PositionParts(startFen, moves) == head + tail;
    assert forall i :: 0 <= i < |tail| ==> IsToken(tail[i]) by {
      if moves != [] {
        forall i | 0 <= i < |tail|
          ensures IsToken(tail[i])
        {
          if i > 0 { assert tail[i] == moves[i - 1]; }
        }
      }
    }
    calc {
      Words(PositionCommand(startFen, moves));
      { WordsOfJoinAll(head + tail); }
      WordsOfAll(head + tail);
      { WordsOfAllAppend(head, tail); }
      WordsOfAll(head) + WordsOfAll(tail);
      { StartPartWords(startFen); WordsOfAllTokens(tail); }
      ["position"] + StartWords(startFen) + tail;
    }
  }

  class GameState {
    const startFen: string
    var moves: seq<string>
    const timeControl: TimeControl
    var whiteToMove: bool
    var fullMoveNumber: int
    var halfMoveClock: int
    var whiteEval: Evaluation
    var blackEval: Evaluation

    /** The counters follow the move list: white moves first, and every move counts on the half-move clock. */
    ghost predicate Valid()
      reads this
    {
      halfMoveClock == |moves|
      && whiteToMove == (|moves| % 2 == 0)
      && fullMoveNumber == 1 + |moves| / 2
    }

    /** A new game always starts with white to move, whatever the start position says. */
    constructor (startFen: string, timeControl: TimeControl)
      ensures Valid()
      ensures this.startFen == startFen && this.timeControl == timeControl
      ensures moves == [] && whiteToMove && fullMoveNumber == 1 && halfMoveClock == 0
      ensures whiteEval == NoEvaluation && blackEval == NoEvaluation
    {
      this.startFen := startFen;
      this.timeControl := timeControl;
      moves := [];
      whiteToMove := true;
      fullMoveNumber := 1;
      halfMoveClock := 0;
      whiteEval, blackEval := NoEvaluation, NoEvaluation;
    }

    /** Records a move: the mover's clock is charged before the turn passes. */
    method AddMove(move: string, elapsedMs: int)
      requires Valid()
      modifies this, timeControl
      ensures Valid()
      ensures moves == old(moves) + [move]
      ensures timeControl.Value() == Charge(old(timeControl.Value()), elapsedMs, old(whiteToMove))
      ensures whiteToMove == !old(whiteToMove)
      ensures fullMoveNumber == old(fullMoveNumber) + (if whiteToMove then 1 else 0)
      ensures halfMoveClock == old(halfMoveClock) + 1
      ensures whiteEval == old(whiteEval) && blackEval == old(blackEval)
    {
      moves := moves + [move];
      timeControl.ApplyMove(elapsedMs, whiteToMove);
      whiteToMove := !whiteToMove;
      if whiteToMove {
        fullMoveNumber := fullMoveNumber + 1;
      }
      halfMoveClock := halfMoveClock + 1;
    }

    /** Builds the position command piece by piece. */
    method GetPositionCommand() returns (cmd: string)
      ensures cmd == PositionCommand(startFen, moves)
    {
      var head: seq<string>;
      cmd := "position ";
      if startFen == "startpos" {
        cmd := cmd + "startpos";
        head := ["position", "startpos"];
      } else {
        cmd := cmd + "fen " + startFen;
        head := ["position", "fen", startFen];
      }
      assert cmd == Join(head, " ") by {
        JoinCons("position", head[1..]);
        if |head| == 3 {
          JoinCons("fen", [startFen]);
        }
      }
      if moves != [] {
        JoinSnoc(head, "moves");
        cmd := cmd + " moves";
        var i := 0;
        assert head + ["moves"] + moves[..i] == head + ["moves"];
        while i < |moves|
          invariant 0 <= i <= |moves|
          invariant cmd == Join(head + ["moves"] + moves[..i], " ")
        {
          JoinSnoc(head + ["moves"] + moves[..i], moves[i]);
          assert head + ["moves"] + moves[..i + 1] == head + ["moves"] + moves[..i] + [moves[i]];
          cmd := cmd + " " + moves[i];
          i := i + 1;
        }
        assert head + ["moves"] + moves[..i] == PositionParts(startFen, moves);
      } else {
        assert head == PositionParts(startFen, moves);
      }
    }

    /** The go command reports the clock's own readings, as its getters give them, and both increments. */
    function GetGoCommand(): (cmd: string)
      reads this, timeControl
      ensures StartsWith(cmd, "go ")
      ensures Words(cmd) == ["go", "wtime", IntToString(timeControl.GetWhiteTime()), "btime", IntToString(timeControl.GetBlackTime()),
                             "winc", IntToString(timeControl.whiteIncrement), "binc", IntToString(timeControl.blackIncrement)]
    {
      GoCommand(timeControl.Value())
    }

    /** The side to move still has time exactly when its clock reads above zero. */
    predicate HasTimeLeft()
      reads this, timeControl
      ensures HasTimeLeft() <==> Remaining(timeControl.Value(), whiteToMove) > 0
    {
      HasTimeMeansPositiveReading(timeControl.Value(), whiteToMove);
      timeControl.HasTimeLeft(whiteToMove)
    }

    /** Stores a search report for one side and leaves the other side's report alone. */
    method SetLastEvaluation(isWhite: bool, score: Option<int>, depth: Option<int>, selDepth: Option<int>,
                             nodes: Option<int>, nps: Option<int>, pv: Option<string>)
      modifies this
      ensures var e := Evaluation(score, depth, selDepth, nodes, nps, pv);
        if isWhite then whiteEval == e && blackEval == old(blackEval)
        else blackEval == e && whiteEval == old(whiteEval)
      ensures moves == old(moves) && whiteToMove == old(whiteToMove)
      ensures fullMoveNumber == old(fullMoveNumber) && halfMoveClock == old(halfMoveClock)
    {
      var e := Evaluation(score, depth, selDepth, nodes, nps, pv);
      if isWhite {
        whiteEval := e;
      } else {
        blackEval := e;
      }
    }
  }
}
