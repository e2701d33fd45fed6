/**
 * A chess clock in milliseconds: remaining time per side and a fixed
 * increment per side (Game/TimeControl.java).
 */
module Clocks {

  /** The clock at one instant. Raw remaining times may go negative. */
  datatype Clock = Clock(whiteTime: int, blackTime: int, whiteIncrement: int, blackIncrement: int)

  /** Both sides start from the same base time with the same increment. */
  function Uniform(baseTime: int, increment: int): (c: Clock)
    ensures c.whiteTime == c.blackTime == baseTime
    ensures c.whiteIncrement == c.blackIncrement == increment
  {
    Clock(baseTime, baseTime, increment, increment)
  }

  /** applyMove: the mover pays the elapsed time and earns its increment; the other side is untouched. */
  function Charge(c: Clock, elapsed: int, isWhite: bool): (r: Clock)
    ensures r.whiteIncrement == c.whiteIncrement && r.blackIncrement == c.blackIncrement
    ensures isWhite ==> r.blackTime == c.blackTime
    ensures !isWhite ==> r.whiteTime == c.whiteTime
  {
    if isWhite then c.(whiteTime := c.whiteTime - elapsed + c.whiteIncrement)
    else c.(blackTime := c.blackTime - elapsed + c.blackIncrement)
  }

  /** The clamped reading reported to engines: never negative. */
  function Remaining(c: Clock, isWhite: bool): (ms: int)
    ensures ms >= 0
    ensures var raw := if isWhite then c.whiteTime else c.blackTime; ms == raw || (raw < 0 && ms == 0)
  {
    var raw := if isWhite then c.whiteTime else c.blackTime;
    if raw > 0 then raw else 0
  }

  function Increment(c: Clock, isWhite: bool): int {
    if isWhite then c.whiteIncrement else c.blackIncrement
  }

  /** hasTimeLeft tests the raw time, not the clamped reading. */
  predicate HasTime(c: Clock, isWhite: bool) {
    if isWhite then c.whiteTime > 0 else c.blackTime > 0
  }

  /** The clock after a game's moves, the sides alternating from `whiteFirst`. */
  function Replay(c: Clock, elapsed: seq<int>, whiteFirst: bool): Clock
    decreases |elapsed|
  {
    if elapsed == [] then c else Replay(Charge(c, elapsed[0], whiteFirst), elapsed[1..], !whiteFirst)
  }

  /** Total elapsed time of the moves at even positions (mine = true) or odd positions. */
  function SumAlternate(elapsed: seq<int>, mine: bool): int
    decreases |elapsed|
  {
    if elapsed == [] then 0
    else (if mine then elapsed[0] else 0) + SumAlternate(elapsed[1..], !mine)
  }

  /** How many of n alternating moves fall to a side that moves first (mine = true) or second. */
  function CountAlternate(n: nat, mine: bool): nat {
    if mine then (n + 1) / 2 else n / 2
  }

  /** A side's time after a game is its start time, minus what it spent, plus one increment per move it made. */
  lemma {:induction false} ReplayTotals(c: Clock, elapsed: seq<int>, whiteFirst: bool)
    ensures Replay(c, elapsed, whiteFirst).whiteTime
         == c.whiteTime - SumAlternate(elapsed, whiteFirst) + CountAlternate(|elapsed|, whiteFirst) * c.whiteIncrement
    ensures Replay(c, elapsed, whiteFirst).blackTime
         == c.blackTime - SumAlternate(elapsed, !whiteFirst) + CountAlternate(|elapsed|, !whiteFirst) * c.blackIncrement
    ensures Replay(c, elapsed, whiteFirst).whiteIncrement == c.whiteIncrement
    ensures Replay(c, elapsed, whiteFirst).blackIncrement == c.blackIncrement
    decreases |elapsed|
  {
    if elapsed != [] {
      var c' := Charge(c, elapsed[0], whiteFirst);
      ReplayTotals(c', elapsed[1..], !whiteFirst);
      var n := |elapsed|;
      assert CountAlternate(n, true) == CountAlternate(n - 1, false) + 1;
      assert CountAlternate(n, false) == CountAlternate(n - 1, true);
      OneMoreTimes(CountAlternate(n - 1, false), if whiteFirst then c.whiteIncrement else c.blackIncrement);
    }
  }

  lemma OneMoreTimes(k: int, x: int)
    ensures (k + 1) * x == k * x + x
  {
  }

  /** One more move charges the side whose turn it is after the earlier moves. */
  lemma {:induction false} ReplaySnoc(c: Clock, elapsed: seq<int>, whiteFirst: bool, last: int)
    ensures Replay(c, elapsed + [last], whiteFirst)
         == Charge(Replay(c, elapsed, whiteFirst), last, if |elapsed| % 2 == 0 then whiteFirst else !whiteFirst)
    decreases |elapsed|
  {
    if elapsed != [] {
      assert (elapsed + [last])[1..] == elapsed[1..] + [last];
      ReplaySnoc(Charge(c, elapsed[0], whiteFirst), elapsed[1..], !whiteFirst, last);
    }
  }

  /** A raw time can run out while the reading sent to the engine stays well defined. */
  lemma HasTimeMeansPositiveReading(c: Clock, isWhite: bool)
    ensures HasTime(c, isWhite) <==> Remaining(c, isWhite) > 0
    ensures HasTime(c, isWhite) ==> Remaining(c, isWhite) == (if isWhite then c.whiteTime else c.blackTime)
  {
  }

  /** The scenarios of the unit tests of TimeControl. */
  lemma TestScenarios()
    ensures Charge(Uniform(10000, 100), 2000, true).whiteTime == 8100
    ensures Charge(Charge(Uniform(10000, 100), 2000, true), 1500, false).blackTime == 8600
    ensures var c := Charge(Uniform(5000, 0), 10000, true); !HasTime(c, true) && HasTime(c, false) && Remaining(c, true) == 0
    ensures Replay(Uniform(10000, 1000), [2000, 0, 3000], true).whiteTime == 7000
  {
  }

  /** The mutable clock of one game. */
  class TimeControl {
    var whiteTime: int
    var blackTime: int
    const whiteIncrement: int
    const blackIncrement: int

    function Value(): Clock
      reads this
    {
      Clock(whiteTime, blackTime, whiteIncrement, blackIncrement)
    }

    constructor (whiteTime: int, blackTime: int, whiteIncrement: int, blackIncrement: int)
      ensures Value() == Clock(whiteTime, blackTime, whiteIncrement, blackIncrement)
    {
      this.whiteTime := whiteTime;
      this.blackTime := blackTime;
      this.whiteIncrement := whiteIncrement;
      this.blackIncrement := blackIncrement;
    }

    constructor Symmetric(baseTime: int, increment: int)
      ensures Value() == Uniform(baseTime, increment)
    {
      whiteTime, blackTime := baseTime, baseTime;
      whiteIncrement, blackIncrement := increment, increment;
    }

    method ApplyMove(elapsed: int, isWhite: bool)
      modifies this
      ensures Value() == Charge(old(Value()), elapsed, isWhite)
    {
      if isWhite {
        whiteTime := whiteTime - elapsed;
        whiteTime := whiteTime + whiteIncrement;
      } else {
        blackTime := blackTime - elapsed;
        blackTime := blackTime + blackIncrement;
      }
    }

    function GetWhiteTime(): (ms: int)
      reads this
      ensures ms == Remaining(Value(), true)
    {
      if whiteTime > 0 then whiteTime else 0
    }

    function GetBlackTime(): (ms: int)
      reads this
      ensures ms == Remaining(Value(), false)
    {
      if blackTime > 0 then blackTime else 0
    }

    predicate HasTimeLeft(isWhite: bool)
      reads this
      ensures HasTimeLeft(isWhite) == HasTime(Value(), isWhite)
    {
      if isWhite then whiteTime > 0 else blackTime > 0
    }

    /** An independent clock with the same readings. */
    method Copy() returns (t: TimeControl)
      ensures fresh(t) && t.Value() == Value()
    {
      t := new TimeControl(whiteTime, blackTime, whiteIncrement, blackIncrement);
    }
  }
}
