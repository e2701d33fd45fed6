/**
 * The live view's cache for clients that connect mid-game
 * (WebSocket/GameWebSocket.java, broadcast): a cached state per game and
 * the game's move history, both keyed by game id, updated by the
 * game_start, move and game_end messages before every message is
 * forwarded to the connected clients.
 */
module LiveCache {
  import opened Wrappers
  import opened Messages
  import Sessions

  /** Whose names the cached state shows when the start message names no engine. */
  const DefaultName := "Engine"

  /**
   * The JSON object cached for a game (its "type" is always "game_start"). `moves` is absent
   * until a move arrives while the history is non-empty; evaluation fields are absent until a
   * move carries them.
   */
  datatype CachedState = CachedState(
    gameId: int, white: string, black: string, fen: string, whiteTime: int, blackTime: int,
    moves: Option<seq<string>>,
    whiteScore: Option<int>, blackScore: Option<int>, whiteDepth: Option<int>, blackDepth: Option<int>,
    whitePv: Option<string>, blackPv: Option<string>)

  /** The two maps: cached states and move histories. */
  datatype Caches = Caches(states: map<int, CachedState>, moves: map<int, seq<string>>)

  /** The caches after one message, and whether handling it threw before the message was forwarded. */
  datatype Step = Step(caches: Caches, thrown: bool)

  function OrElse<T>(o: Option<T>, default: T): T {
    if o.Some? then o.value else default
  }

  /** Keeps the old value of a field unless the message carries one. */
  function Newer<T>(carried: Option<T>, kept: Option<T>): Option<T> {
    if carried.Some? then carried else kept
  }

  /** The state a game_start message caches: the message's names, fen and clocks, no moves and no evaluation. */
  function StartState(gameId: int, m: Message): (s: CachedState)
    ensures s.gameId == gameId && s.moves.None?
    ensures s.whiteScore.None? && s.blackScore.None? && s.whiteDepth.None? && s.blackDepth.None?
    ensures s.whitePv.None? && s.blackPv.None?
    ensures m.white.Some? ==> s.white == m.white.value
    ensures m.black.Some? ==> s.black == m.black.value
    ensures m.fen.Some? ==> s.fen == m.fen.value
  {
    CachedState(gameId, OrElse(m.white, DefaultName), OrElse(m.black, DefaultName),
                OrElse(m.fen, Sessions.StandardStartFen), OrElse(m.whiteTime, 0), OrElse(m.blackTime, 0),
                None, None, None, None, None, None, None)
  }

  /**
   * A move message applied to an existing state, given the game's history after the move was
   * recorded: the game and its names stay, the fen is the new one, a non-empty history is shown,
   * and each evaluation field the message leaves out keeps its cached value.
   */
  function MoveState(s: CachedState, m: Message, fen: string, history: Option<seq<string>>): (r: CachedState)
    ensures r.gameId == s.gameId && r.white == s.white && r.black == s.black && r.fen == fen
    ensures history.Some? && history.value != [] ==> r.moves == history
    ensures (history.None? || history.value == []) ==> r.moves == s.moves
    ensures m.whiteScore.None? ==> r.whiteScore == s.whiteScore
    ensures m.blackScore.None? ==> r.blackScore == s.blackScore
    ensures m.whiteDepth.None? ==> r.whiteDepth == s.whiteDepth
    ensures m.blackDepth.None? ==> r.blackDepth == s.blackDepth
    ensures m.whitePv.None? ==> r.whitePv == s.whitePv
    ensures m.blackPv.None? ==> r.blackPv == s.blackPv
    ensures m.whiteScore.Some? ==> r.whiteScore == m.whiteScore
    ensures m.blackScore.Some? ==> r.blackScore == m.blackScore
    ensures m.whiteDepth.Some? ==> r.whiteDepth == m.whiteDepth
    ensures m.blackDepth.Some? ==> r.blackDepth == m.blackDepth
    ensures m.whitePv.Some? ==> r.whitePv == m.whitePv
    ensures m.blackPv.Some? ==> r.blackPv == m.blackPv
    ensures (m.whiteTime.Some? ==> r.whiteTime == m.whiteTime.value) && (m.whiteTime.None? ==> r.whiteTime == 0)
    ensures (m.blackTime.Some? ==> r.blackTime == m.blackTime.value) && (m.blackTime.None? ==> r.blackTime == 0)
  {
    s.(fen := fen, whiteTime := OrElse(m.whiteTime, 0), blackTime := OrElse(m.blackTime, 0),
       moves := if history.Some? && history.value != [] then history else s.moves,
       whiteScore := Newer(m.whiteScore, s.whiteScore), blackScore := Newer(m.blackScore, s.blackScore),
       whiteDepth := Newer(m.whiteDepth, s.whiteDepth), blackDepth := Newer(m.blackDepth, s.blackDepth),
       whitePv := Newer(m.whitePv, s.whitePv), blackPv := Newer(m.blackPv, s.blackPv))
  }

  function Lookup<K, V>(m: map<K, V>, k: K): Option<V> {
    if k in m then Some(m[k]) else None
  }

  /**
   * The cache update of broadcast. A message with a game id but no type throws on reading the
   * type; a move for a cached game without a fen throws on reading the fen, after its move was
   * already added to the history.
   */
  function Apply(c: Caches, m: Message): (r: Step)
    ensures m.gameId.None? ==> r == Step(c, false)
    ensures r.thrown <==>
      (m.gameId.Some? && (m.kind.None? || (m.kind == Some("move") && m.gameId.value in c.states && m.fen.None?)))
    ensures c.states.Keys == c.moves.Keys ==> r.caches.states.Keys == r.caches.moves.Keys
    ensures forall h :: Some(h) != m.gameId ==>
      Lookup(r.caches.states, h) == Lookup(c.states, h) && Lookup(r.caches.moves, h) == Lookup(c.moves, h)
  {
    if m.gameId.None? then Step(c, false)
    else if m.kind.None? then Step(c, true)
    else
      var g := m.gameId.value;
      match m.kind.value
      case "game_start" => Step(Caches(c.states[g := StartState(g, m)], c.moves[g := []]), false)
      case "move" =>
        var moves := if m.move.Some? && g in c.moves then c.moves[g := c.moves[g] + [m.move.value]] else c.moves;
        if g !in c.states then Step(Caches(c.states, moves), false)
        else if m.fen.None? then Step(Caches(c.states, moves), true)
        else Step(Caches(c.states[g := MoveState(c.states[g], m, m.fen.value, Lookup(moves, g))], moves), false)
      case "game_end" => Step(Caches(c.states - {g}, c.moves - {g}), false)
      case _ => Step(c, false)
  }

  /** The in-place update of a cached state by a move message, given the game's history after the move was recorded. */
  method UpdateMove(s: CachedState, m: Message, fen: string, history: Option<seq<string>>) returns (state: CachedState)
    ensures state == MoveState(s, m, fen, history)
  {
    state := s.(fen := fen, whiteTime := OrElse(m.whiteTime, 0), blackTime := OrElse(m.blackTime, 0));
    if history.Some? && history.value != [] {
      state := state.(moves := history);
    }
    if m.whiteScore.Some? { state := state.(whiteScore := m.whiteScore); }
    if m.blackScore.Some? { state := state.(blackScore := m.blackScore); }
    if m.whiteDepth.Some? { state := state.(whiteDepth := m.whiteDepth); }
    if m.blackDepth.Some? { state := state.(blackDepth := m.blackDepth); }
    if m.whitePv.Some? { state := state.(whitePv := m.whitePv); }
    if m.blackPv.Some? { state := state.(blackPv := m.blackPv); }
  }

  /** The game-related state of the endpoint: the two static maps, and the messages forwarded to clients. */
  class LiveView {
    var gameStates: map<int, CachedState>
    var gameMoves: map<int, seq<string>>
    var forwarded: seq<Message>

    /** A game has a cached state exactly when it has a move history. */
    ghost predicate Valid()
      reads this
    {
      gameStates.Keys == gameMoves.Keys
    }

    function Current(): Caches
      reads this
    {
      Caches(gameStates, gameMoves)
    }

    constructor()
      ensures Valid() && gameStates == map[] && gameMoves == map[] && forwarded == []
    {
      gameStates, gameMoves, forwarded := map[], map[], [];
    }

    /**
     * broadcast: update the caches from a game message, then forward the message to every
     * client. `thrown` reports the exception that ends the call before anything is forwarded.
     */
    method Broadcast(m: Message) returns (thrown: bool)
      modifies this
      ensures Step(Current(), thrown) == Apply(old(Current()), m)
      ensures forwarded == old(forwarded) + (if thrown then [] else [m])
      ensures old(Valid()) ==> Valid()
    {
      thrown := false;
      if m.gameId.Some? {
        if m.kind.None? {
          return true;
        }
        var kind := m.kind.value;
        var gameId := m.gameId.value;
        if kind == "game_start" {
          var state := StartState(gameId, m);
          gameMoves := gameMoves[gameId := []];
          gameStates := gameStates[gameId := state];
        } else if kind == "move" {
          if m.move.Some? && gameId in gameMoves {
            gameMoves := gameMoves[gameId := gameMoves[gameId] + [m.move.value]];
          }
          if gameId in gameStates {
            if m.fen.None? {
              return true;
            }
            var state := UpdateMove(gameStates[gameId], m, m.fen.value, Lookup(gameMoves, gameId));
            gameStates := gameStates[gameId := state];
          }
        } else if kind == "game_end" {
          gameStates := gameStates - {gameId};
          gameMoves := gameMoves - {gameId};
        }
      }
      forwarded := forwarded + [m];
    }
  }

  // ---------------------------------------------------------------------
  // Properties of one message
  // ---------------------------------------------------------------------

  /**
   * game_start replaces the game's state with the names (default "Engine"), the fen (default
   * the standard start position) and the clocks (default 0) of the message, with no moves and
   * no evaluation, and resets its history to empty.
   */
  lemma StartReplaces(c: Caches, m: Message)
    requires m.gameId.Some? && m.kind == Some("game_start")
    ensures var r := Apply(c, m); var g := m.gameId.value;
      && !r.thrown
      && g in r.caches.states && g in r.caches.moves && r.caches.moves[g] == []
      && var s := r.caches.states[g];
      && s.gameId == g
      && s.white == (if m.white.Some? then m.white.value else "Engine")
      && s.black == (if m.black.Some? then m.black.value else "Engine")
      && s.fen == (if m.fen.Some? then m.fen.value else Sessions.StandardStartFen)
      && s.whiteTime == (if m.whiteTime.Some? then m.whiteTime.value else 0)
      && s.blackTime == (if m.blackTime.Some? then m.blackTime.value else 0)
      && s.moves.None? && s.whiteScore.None? && s.blackScore.None? && s.whitePv.None? && s.blackPv.None?
      && s.whiteDepth.None? && s.blackDepth.None?
  {
  }

  /** The start message the game sends carries base time and increment, not clocks: the cached clocks start at 0. */
  lemma StartClocksZero(c: Caches, gameId: int, white: string, black: string, fen: string, baseTime: int, increment: int)
    ensures var r := Apply(c, GameStart(gameId, white, black, fen, baseTime, increment));
      && gameId in r.caches.states
      && r.caches.states[gameId].whiteTime == 0 && r.caches.states[gameId].blackTime == 0
      && r.caches.states[gameId].white == white && r.caches.states[gameId].fen == fen
  {
    StartReplaces(c, GameStart(gameId, white, black, fen, baseTime, increment));
  }

  /** A move for a game with no cached state or history creates neither. */
  lemma MoveNeverCreates(c: Caches, m: Message)
    requires m.gameId.Some? && m.kind == Some("move")
    ensures var g := m.gameId.value; var r := Apply(c, m);
      && (g in r.caches.states <==> g in c.states)
      && (g in r.caches.moves <==> g in c.moves)
      && (g !in c.states ==> !r.thrown)
  {
  }

  /** A move appends its move to an existing history, and leaves a history alone when it carries no move. */
  lemma MoveAppends(c: Caches, m: Message)
    requires m.gameId.Some? && m.kind == Some("move") && m.gameId.value in c.moves
    ensures var g := m.gameId.value; var r := Apply(c, m);
      r.caches.moves[g] == c.moves[g] + (if m.move.Some? then [m.move.value] else [])
  {
  }

  /**
   * A move for a cached game with a fen sets the fen and clocks (absent clocks become 0),
   * shows the whole history once it is non-empty, and copies each evaluation field only when
   * the message carries it.
   */
  lemma MoveUpdatesState(c: Caches, m: Message)
    requires m.gameId.Some? && m.kind == Some("move") && m.gameId.value in c.states && m.fen.Some?
    ensures var g := m.gameId.value; var r := Apply(c, m); var before := c.states[g];
      && !r.thrown && g in r.caches.states
      && var s := r.caches.states[g];
      && s.fen == m.fen.value
      && s.whiteTime == (if m.whiteTime.Some? then m.whiteTime.value else 0)
      && s.blackTime == (if m.blackTime.Some? then m.blackTime.value else 0)
      && (g in r.caches.moves && r.caches.moves[g] != [] ==> s.moves == Some(r.caches.moves[g]))
      && (g !in r.caches.moves || r.caches.moves[g] == [] ==> s.moves == before.moves)
      && s.whiteScore == (if m.whiteScore.Some? then m.whiteScore else before.whiteScore)
      && s.blackScore == (if m.blackScore.Some? then m.blackScore else before.blackScore)
      && s.whiteDepth == (if m.whiteDepth.Some? then m.whiteDepth else before.whiteDepth)
      && s.blackDepth == (if m.blackDepth.Some? then m.blackDepth else before.blackDepth)
      && s.whitePv == (if m.whitePv.Some? then m.whitePv else before.whitePv)
      && s.blackPv == (if m.blackPv.Some? then m.blackPv else before.blackPv)
      && s.white == before.white && s.black == before.black && s.gameId == before.gameId
  {
  }

  /** game_end forgets the game in both maps. */
  lemma EndRemoves(c: Caches, m: Message)
    requires m.gameId.Some? && m.kind == Some("game_end")
    ensures var r := Apply(c, m);
      !r.thrown && m.gameId.value !in r.caches.states && m.gameId.value !in r.caches.moves
  {
  }

  // ---------------------------------------------------------------------
  // Properties of a sequence of messages
  // ---------------------------------------------------------------------

  /** The caches after broadcasting every message of a trace in turn, from empty caches. */
  function Replay(trace: seq<Message>): Caches
    decreases |trace|
  {
    if trace == [] then Caches(map[], map[])
    else Apply(Replay(trace[..|trace| - 1]), trace[|trace| - 1]).caches
  }

  /** One game's move history, read off the trace alone: reset by its start, forgotten at its end, extended by its moves. */
  function History(trace: seq<Message>, g: int): Option<seq<string>>
    decreases |trace|
  {
    if trace == [] then None
    else
      var m := trace[|trace| - 1];
      var before := History(trace[..|trace| - 1], g);
      if m.gameId != Some(g) then before
      else if m.kind == Some("game_start") then Some([])
      else if m.kind == Some("game_end") then None
      else if m.kind == Some("move") && m.move.Some? && before.Some? then Some(before.value + [m.move.value])
      else before
  }

  /**
   * After any trace, a game is cached exactly when it has a history, and its history is the
   * moves of its move messages since its last start, in order, unless it has ended since.
   */
  lemma {:induction false} ReplayHistory(trace: seq<Message>, g: int)
    ensures Replay(trace).states.Keys == Replay(trace).moves.Keys
    ensures Lookup(Replay(trace).moves, g) == History(trace, g)
    decreases |trace|
  {
    if trace != [] {
      ReplayHistory(trace[..|trace| - 1], g);
    }
  }

  /** The view forwards exactly the messages whose handling does not throw, in order. */
  function Forwarded(trace: seq<Message>): seq<Message>
    decreases |trace|
  {
    if trace == [] then []
    else
      var m := trace[|trace| - 1];
      Forwarded(trace[..|trace| - 1]) + (if Apply(Replay(trace[..|trace| - 1]), m).thrown then [] else [m])
  }

  /** When every game message has a type and every move a fen, as the message builders make them, every message is forwarded. */
  lemma {:induction false} BuiltMessagesForwarded(trace: seq<Message>)
    requires forall i :: 0 <= i < |trace| ==>
      (trace[i].gameId.Some? ==> trace[i].kind.Some?) && (trace[i].kind == Some("move") ==> trace[i].fen.Some?)
    ensures Forwarded(trace) == trace
    decreases |trace|
  {
    if trace != [] {
      BuiltMessagesForwarded(trace[..|trace| - 1]);
      assert trace[..|trace| - 1] + [trace[|trace| - 1]] == trace;
    }
  }

  /** Broadcasting a trace message by message on a fresh view leaves it in the replayed state, having forwarded what Forwarded says. */
  method BroadcastAll(view: LiveView, trace: seq<Message>)
    requires view.gameStates == map[] && view.gameMoves == map[] && view.forwarded == []
    modifies view
    ensures view.Current() == Replay(trace) && view.forwarded == Forwarded(trace) && view.Valid()
  {
    var i := 0;
    while i < |trace|
      invariant 0 <= i <= |trace|
      invariant view.Current() == Replay(trace[..i]) && view.forwarded == Forwarded(trace[..i]) && view.Valid()
    {
      assert trace[..i + 1][..i] == trace[..i];
      var thrown := view.Broadcast(trace[i]);
      i := i + 1;
    }
    assert trace[..i] == trace;
  }
}
