/**
 * EngineLab's view of one engine process (Engine/Engine.java), as an
 * environment: the lines the engine will print and when they arrive, the
 * instant the process exits, and how many writes its input pipe accepts.
 * Time is a millisecond counter that only moves forward while EngineLab
 * waits for output.
 */
module Engines {
  import opened Wrappers
  import opened Text

  /** One line of engine output and the instant it reaches EngineLab's queue. */
  datatype TimedLine = TimedLine(at: int, text: string)

  /** The message of the IOException a refused write raises. */
  const BrokenPipe := "Broken pipe"

  /** What the environment does when EngineLab starts an engine binary and runs the UCI handshake. */
  datatype Launch =
    | Started(output: seq<TimedLine>, exitsAt: Option<int>, acceptsWrites: Option<nat>, closeFails: bool)
    | LaunchFailed(message: string)
    | LaunchHangs

  function Max(a: int, b: int): int { if a < b then b else a }

  /** The index of the first line whose text contains the token. */
  function FirstWith(lines: seq<TimedLine>, token: string): (r: Option<nat>)
    ensures r.Some? ==> r.value < |lines| && Contains(lines[r.value].text, token)
    ensures r.Some? ==> forall i :: 0 <= i < r.value ==> !Contains(lines[i].text, token)
    ensures r.None? ==> forall i :: 0 <= i < |lines| ==> !Contains(lines[i].text, token)
  {
    if lines == [] then None
    else if Contains(lines[0].text, token) then Some(0)
    else match FirstWith(lines[1..], token)
      case Some(k) => Some(k + 1)
      case None => None
  }

  /** The instant the last of the lines has arrived, waiting from `now`. */
  function ArrivalAfter(now: int, lines: seq<TimedLine>): (t: int)
    ensures t >= now
    ensures forall i :: 0 <= i < |lines| ==> lines[i].at <= t
  {
    if lines == [] then now else Max(ArrivalAfter(now, lines[..|lines| - 1]), lines[|lines| - 1].at)
  }

  /** The lines still queued after a clear at `now`: every line that has already arrived is gone. */
  function Unarrived(lines: seq<TimedLine>, now: int): (r: seq<TimedLine>)
    ensures |r| <= |lines| && r == lines[|lines| - |r|..]
    ensures r != [] ==> r[0].at > now
  {
    if lines != [] && lines[0].at <= now then Unarrived(lines[1..], now) else lines
  }

  /**
   * Waiting from `now` for "readyok" on the queued lines: the outcome and the lines left. The
   * lines up to the first one that contains it are taken and the wait ends when it arrives;
   * with none, EngineLab waits forever and every line is taken.
   */
  function AwaitReady(queued: seq<TimedLine>, now: int): (w: (Outcome<Result<int, string>>, seq<TimedLine>))
    ensures w.0.Done? ==> w.0.value.Success? && w.0.value.value >= now && |w.1| < |queued|
    ensures w.0.Blocked? ==> w.1 == []
  {
    match FirstWith(queued, "readyok")
    case Some(k) => (Done(Success(ArrivalAfter(now, queued[..k + 1]))), queued[k + 1..])
    case None => (Blocked, [])
  }

  /** No queued line answers "isready": a wait for "readyok" on these lines never ends. */
  predicate NeverReady(lines: seq<TimedLine>) {
    forall i :: 0 <= i < |lines| ==> !Contains(lines[i].text, "readyok")
  }

  /** The wait for "readyok" blocks exactly when no queued line holds it. */
  lemma AwaitReadyBlocksIff(queued: seq<TimedLine>, now: int)
    ensures AwaitReady(queued, now).0.Blocked? <==> NeverReady(queued)
  {
    match FirstWith(queued, "readyok")
    case Some(k) => assert !NeverReady(queued) by { assert Contains(queued[k].text, "readyok"); }
    case None =>
  }

  class Engine {
    /** Output not yet taken by EngineLab, in arrival order. */
    var output: seq<TimedLine>
    /** Every command EngineLab tried to write, in order. */
    var commands: seq<string>
    /** How many times EngineLab closed this engine. */
    var closeCount: nat
    const exitsAt: Option<int>
    const acceptsWrites: Option<nat>
    const closeFails: bool

    constructor (output: seq<TimedLine>, exitsAt: Option<int>, acceptsWrites: Option<nat>, closeFails: bool)
      ensures this.output == output && this.exitsAt == exitsAt && this.acceptsWrites == acceptsWrites
      ensures this.closeFails == closeFails && commands == [] && closeCount == 0
    {
      this.output := output;
      this.exitsAt := exitsAt;
      this.acceptsWrites := acceptsWrites;
      this.closeFails := closeFails;
      commands := [];
      closeCount := 0;
    }

    /** isAlive: the process has not exited yet. */
    predicate Alive(now: int) {
      exitsAt.None? || now < exitsAt.value
    }

    predicate Writable()
      reads this
    {
      acceptsWrites.None? || |commands| < acceptsWrites.value
    }

    /** newGame's writes fail: "ucinewgame" is refused, or "isready" after it is. */
    predicate RefusesNewGame()
      reads this
    {
      !Writable() || (acceptsWrites.Some? && |commands| + 1 == acceptsWrites.value)
    }

    /** Writes one command line; once the pipe refuses a write it refuses every later one. */
    method Send(cmd: string) returns (err: Option<string>)
      modifies this`commands
      ensures commands == old(commands) + [cmd]
      ensures err.None? <==> old(Writable())
      ensures err.Some? ==> err.value == BrokenPipe && !Writable()
    {
      err := if Writable() then None else Some(BrokenPipe);
      commands := commands + [cmd];
    }

    /** Waits up to `timeout` ms for the next line; the result is null when none arrives in time. */
    method PollLine(now: int, timeout: int) returns (line: Option<string>, later: int)
      modifies this`output
      ensures var wait := Max(timeout, 0);
        if old(output) != [] && old(output)[0].at <= now + wait then
          line == Some(old(output)[0].text) && output == old(output)[1..] && later == Max(now, old(output)[0].at)
        else
          line.None? && output == old(output) && later == now + wait
      ensures now <= later
    {
      var wait := Max(timeout, 0);
      if output != [] && output[0].at <= now + wait {
        line, later := Some(output[0].text), Max(now, output[0].at);
        output := output[1..];
      } else {
        line, later := None, now + wait;
      }
    }

    /** Takes lines until one contains the token; with no such line EngineLab waits forever. */
    method WaitFor(now: int, token: string) returns (r: Outcome<int>)
      modifies this`output
      ensures match FirstWith(old(output), token)
        case Some(k) => r == Done(ArrivalAfter(now, old(output)[..k + 1])) && output == old(output)[k + 1..]
        case None => r.Blocked? && output == []
    {
      ghost var lines := old(output);
      var t := now;
      ghost var taken := 0;
      while output != []
        invariant 0 <= taken <= |lines| && output == lines[taken..]
        invariant forall i :: 0 <= i < taken ==> !Contains(lines[i].text, token)
        invariant t == ArrivalAfter(now, lines[..taken])
        decreases |output|
      {
        var l := output[0];
        output := output[1..];
        assert lines[..taken + 1][..taken] == lines[..taken];
        t := Max(t, l.at);
        taken := taken + 1;
        if Contains(l.text, token) {
          FirstWithIs(lines, token, taken - 1);
          return Done(t);
        }
      }
      FirstWithNone(lines, token);
      return Blocked;
    }

    /** newGame: "ucinewgame", then "isready", then wait for "readyok"; a refused write raises. */
    method NewGame(now: int) returns (r: Outcome<Result<int, string>>)
      modifies this`output, this`commands
      ensures r == Done(Failure(BrokenPipe)) <==> !old(Writable()) || (acceptsWrites.Some? && |old(commands)| + 1 == acceptsWrites.value)
      ensures r.Done? && r.value.Failure? ==> r.value.error == BrokenPipe && output == old(output)
      ensures r.Done? && r.value.Failure? && !old(Writable()) ==> commands == old(commands) + ["ucinewgame"]
      ensures r.Done? && r.value.Failure? && old(Writable()) ==> commands == old(commands) + ["ucinewgame", "isready"]
      ensures (r.Blocked? || r.value.Success?) ==> commands == old(commands) + ["ucinewgame", "isready"]
      ensures r.Done? && r.value.Success? ==> r.value.value >= now
      ensures r != Done(Failure(BrokenPipe)) ==> (r, output) == AwaitReady(old(output), now)
    {
      var err := Send("ucinewgame");
      if err.Some? {
        return Done(Failure(err.value));
      }
      err := Send("isready");
      if err.Some? {
        return Done(Failure(err.value));
      }
      var w := WaitFor(now, "readyok");
      if w.Blocked? {
        return Blocked;
      }
      return Done(Success(w.value));
    }

    /** reset: discards every line already queued, then starts a new game. */
    method Reset(now: int) returns (r: Outcome<Result<int, string>>)
      modifies this`output, this`commands
      ensures r == Done(Failure(BrokenPipe)) <==> !old(Writable()) || (acceptsWrites.Some? && |old(commands)| + 1 == acceptsWrites.value)
      ensures r.Done? && r.value.Failure? ==> r.value.error == BrokenPipe && output == Unarrived(old(output), now)
      ensures r.Done? && r.value.Failure? && !old(Writable()) ==> commands == old(commands) + ["ucinewgame"]
      ensures r.Done? && r.value.Failure? && old(Writable()) ==> commands == old(commands) + ["ucinewgame", "isready"]
      ensures (r.Blocked? || r.value.Success?) ==> commands == old(commands) + ["ucinewgame", "isready"]
      ensures r.Done? && r.value.Success? ==> r.value.value >= now
      ensures r != Done(Failure(BrokenPipe)) ==> (r, output) == AwaitReady(Unarrived(old(output), now), now)
      ensures |commands| > |old(commands)| && commands[|old(commands)|] == "ucinewgame"
      ensures old(commands) <= commands
    {
      var queued := Unarrived(output, now);
      output := queued;
      r := NewGame(now);
    }

    /** Closes the process; the environment decides whether closing raises. */
    method Close() returns (err: Option<string>)
      modifies this`closeCount
      ensures closeCount == old(closeCount) + 1
      ensures err.Some? <==> closeFails
    {
      closeCount := closeCount + 1;
      err := if closeFails then Some("close failed") else None;
    }
  }

  lemma FirstWithIs(lines: seq<TimedLine>, token: string, k: nat)
    requires k < |lines| && Contains(lines[k].text, token)
    requires forall i :: 0 <= i < k ==> !Contains(lines[i].text, token)
    ensures FirstWith(lines, token) == Some(k)
  {
  }

  lemma FirstWithNone(lines: seq<TimedLine>, token: string)
    requires forall i :: 0 <= i < |lines| ==> !Contains(lines[i].text, token)
    ensures FirstWith(lines, token).None?
  {
  }
}
