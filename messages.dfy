/**
 * The JSON messages EngineLab pushes to the live view
 * (WebSocket/WSMessage.java), as records whose fields may be absent.
 */
module Messages {
  import opened Wrappers

  /** Every field is absent unless a builder sets it. */
  datatype Message = Message(
    kind: Option<string> := None, gameId: Option<int> := None,
    white: Option<string> := None, black: Option<string> := None, fen: Option<string> := None,
    baseTime: Option<int> := None, increment: Option<int> := None,
    move: Option<string> := None, whiteTime: Option<int> := None, blackTime: Option<int> := None,
    moveNumber: Option<int> := None, isWhiteMove: Option<bool> := None,
    whiteScore: Option<int> := None, blackScore: Option<int> := None,
    whiteDepth: Option<int> := None, blackDepth: Option<int> := None,
    whitePv: Option<string> := None, blackPv: Option<string> := None,
    result: Option<string> := None, reason: Option<string> := None, totalMoves: Option<int> := None,
    isWhite: Option<bool> := None, score: Option<int> := None, depth: Option<int> := None, pv: Option<string> := None)

  /** A JSON property a message may carry besides its timestamp. */
  datatype Key =
    | Type | GameId | White | Black | Fen | BaseTime | Increment
    | MoveText | WhiteTime | BlackTime | MoveNumber | IsWhiteMove
    | WhiteScore | BlackScore | WhiteDepth | BlackDepth | WhitePv | BlackPv
    | Result | Reason | TotalMoves | IsWhite | Score | Depth | Pv

  /** The property's name in the JSON text. */
  function KeyName(k: Key): string {
    match k
    case Type => "type" case GameId => "gameId" case White => "white" case Black => "black"
    case Fen => "fen" case BaseTime => "baseTime" case Increment => "increment"
    case MoveText => "move" case WhiteTime => "whiteTime" case BlackTime => "blackTime"
    case MoveNumber => "moveNumber" case IsWhiteMove => "isWhiteMove"
    case WhiteScore => "whiteScore" case BlackScore => "blackScore"
    case WhiteDepth => "whiteDepth" case BlackDepth => "blackDepth"
    case WhitePv => "whitePv" case BlackPv => "blackPv"
    case Result => "result" case Reason => "reason" case TotalMoves => "totalMoves"
    case IsWhite => "isWhite" case Score => "score" case Depth => "depth" case Pv => "pv"
  }

  function KeyIf<T>(field: Option<T>, key: Key): set<Key> {
    if field.Some? then {key} else {}
  }

  /** Whether the message carries the JSON property: "type" for its kind, otherwise the field of that name. */
  predicate Carries(m: Message, k: Key) {
    match k
    case Type => m.kind.Some? case GameId => m.gameId.Some? case White => m.white.Some?
    case Black => m.black.Some? case Fen => m.fen.Some? case BaseTime => m.baseTime.Some?
    case Increment => m.increment.Some? case MoveText => m.move.Some? case WhiteTime => m.whiteTime.Some?
    case BlackTime => m.blackTime.Some? case MoveNumber => m.moveNumber.Some?
    case IsWhiteMove => m.isWhiteMove.Some? case WhiteScore => m.whiteScore.Some?
    case BlackScore => m.blackScore.Some? case WhiteDepth => m.whiteDepth.Some?
    case BlackDepth => m.blackDepth.Some? case WhitePv => m.whitePv.Some? case BlackPv => m.blackPv.Some?
    case Result => m.result.Some? case Reason => m.reason.Some? case TotalMoves => m.totalMoves.Some?
    case IsWhite => m.isWhite.Some? case Score => m.score.Some? case Depth => m.depth.Some? case Pv => m.pv.Some?
  }

  /** gameStart: type "game_start" with the game, both names, the start position and the clock settings. */
  function GameStart(gameId: int, white: string, black: string, fen: string, baseTime: int, increment: int): (m: Message)
    ensures IsKind(m, "game_start")
    ensures m.gameId == Some(gameId) && m.white == Some(white) && m.black == Some(black) && m.fen == Some(fen)
    ensures m.baseTime == Some(baseTime) && m.increment == Some(increment)
  {
    Message(kind := Some("game_start"), gameId := Some(gameId), white := Some(white), black := Some(black),
            fen := Some(fen), baseTime := Some(baseTime), increment := Some(increment))
  }

  /** A game_start message carries exactly its type, the game, both names, the position and the clock settings. */
  lemma GameStartKeys(gameId: int, white: string, black: string, fen: string, baseTime: int, increment: int)
    ensures var m := GameStart(gameId, white, black, fen, baseTime, increment);
      forall k :: Carries(m, k) <==> k in {Type, GameId, White, Black, Fen, BaseTime, Increment}
  {
  }

  /** A played move; each evaluation field is present only when the engine reported it. */
  function Move(gameId: int, move: string, fen: string, whiteTime: int, blackTime: int, moveNumber: int,
                isWhiteMove: bool, whiteScore: Option<int>, blackScore: Option<int>, whiteDepth: Option<int>,
                blackDepth: Option<int>, whitePv: Option<string>, blackPv: Option<string>): (m: Message)
    ensures IsKind(m, "move")
    ensures m.whiteScore == whiteScore && m.blackScore == blackScore && m.whiteDepth == whiteDepth
    ensures m.blackDepth == blackDepth && m.whitePv == whitePv && m.blackPv == blackPv
    ensures m.gameId == Some(gameId) && m.move == Some(move) && m.fen == Some(fen)
    ensures m.whiteTime == Some(whiteTime) && m.blackTime == Some(blackTime)
    ensures m.moveNumber == Some(moveNumber) && m.isWhiteMove == Some(isWhiteMove)
  {
    var m := Message(kind := Some("move"), gameId := Some(gameId), move := Some(move), fen := Some(fen),
                     whiteTime := Some(whiteTime), blackTime := Some(blackTime), moveNumber := Some(moveNumber),
                     isWhiteMove := Some(isWhiteMove), whiteScore := whiteScore, blackScore := blackScore,
                     whiteDepth := whiteDepth, blackDepth := blackDepth, whitePv := whitePv, blackPv := blackPv);
    m
  }

  /** A move message carries its eight fixed properties and exactly the evaluation fields that were reported. */
  lemma MoveKeys(gameId: int, move: string, fen: string, whiteTime: int, blackTime: int, moveNumber: int,
                isWhiteMove: bool, whiteScore: Option<int>, blackScore: Option<int>, whiteDepth: Option<int>,
                blackDepth: Option<int>, whitePv: Option<string>, blackPv: Option<string>)
    ensures var m := Move(gameId, move, fen, whiteTime, blackTime, moveNumber, isWhiteMove,
                          whiteScore, blackScore, whiteDepth, blackDepth, whitePv, blackPv);
      forall k :: Carries(m, k) <==> k in {Type, GameId, MoveText, Fen, WhiteTime, BlackTime, MoveNumber, IsWhiteMove}
                                           + KeyIf(whiteScore, WhiteScore) + KeyIf(blackScore, BlackScore)
                                           + KeyIf(whiteDepth, WhiteDepth) + KeyIf(blackDepth, BlackDepth)
                                           + KeyIf(whitePv, WhitePv) + KeyIf(blackPv, BlackPv)
  {
  }

  /** gameEnd: type "game_end" with the game, its result, the reason and the number of moves. */
  function GameEnd(gameId: int, result: string, reason: string, totalMoves: int): (m: Message)
    ensures IsKind(m, "game_end")
    ensures m.gameId == Some(gameId) && m.result == Some(result) && m.reason == Some(reason)
    ensures m.totalMoves == Some(totalMoves)
  {
    Message(kind := Some("game_end"), gameId := Some(gameId), result := Some(result), reason := Some(reason),
           totalMoves := Some(totalMoves))
  }

  /** A game_end message carries exactly its type, the game, the result, the reason and the move count. */
  lemma GameEndKeys(gameId: int, result: string, reason: string, totalMoves: int)
    ensures var m := GameEnd(gameId, result, reason, totalMoves);
      forall k :: Carries(m, k) <==> k in {Type, GameId, Result, Reason, TotalMoves}
  {
  }

  /** engineThinking: type "engine_thinking" with the game and the side, and the evaluation fields reported so far. */
  function EngineThinking(gameId: int, isWhite: bool, score: Option<int>, depth: Option<int>, pv: Option<string>): (m: Message)
    ensures IsKind(m, "engine_thinking")
    ensures m.gameId == Some(gameId) && m.isWhite == Some(isWhite) && m.score == score && m.depth == depth && m.pv == pv
  {
    Message(kind := Some("engine_thinking"), gameId := Some(gameId), isWhite := Some(isWhite),
           score := score, depth := depth, pv := pv)
  }

  /** An engine_thinking message carries its type, the game and the side, and exactly the evaluation fields reported. */
  lemma EngineThinkingKeys(gameId: int, isWhite: bool, score: Option<int>, depth: Option<int>, pv: Option<string>)
    ensures var m := EngineThinking(gameId, isWhite, score, depth, pv);
      forall k :: Carries(m, k) <==> k in {Type, GameId, IsWhite} + KeyIf(score, Score) + KeyIf(depth, Depth) + KeyIf(pv, Pv)
  {
  }

  predicate IsKind(m: Message, kind: string) {
    m.kind == Some(kind)
  }

  /** How many messages of a kind a trace holds. */
  function CountKind(trace: seq<Message>, kind: string): nat {
    if trace == [] then 0
    else CountKind(trace[..|trace| - 1], kind) + (if IsKind(trace[|trace| - 1], kind) then 1 else 0)
  }

  /** Counting over a concatenation adds the counts of its parts. */
  lemma {:induction false} CountKindAppend(a: seq<Message>, b: seq<Message>, kind: string)
    ensures CountKind(a + b, kind) == CountKind(a, kind) + CountKind(b, kind)
    decreases |b|
  {
    if b != [] {
      assert (a + b)[..|a + b| - 1] == a + b[..|b| - 1];
      CountKindAppend(a, b[..|b| - 1], kind);
    } else {
      assert a + b == a;
    }
  }

  /** A trace with no message of a kind counts none of it. */
  lemma {:induction false} CountKindAbsent(trace: seq<Message>, kind: string)
    requires forall i :: 0 <= i < |trace| ==> !IsKind(trace[i], kind)
    ensures CountKind(trace, kind) == 0
    decreases |trace|
  {
    if trace != [] {
      CountKindAbsent(trace[..|trace| - 1], kind);
    }
  }
}
