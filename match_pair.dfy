/**
 * A pair of games between two engines with colours swapped, identified by
 * its pair number (Game/MatchPair.java).
 */
module Pairs {
  import opened Text

  datatype MatchPair = MatchPair(startFen: string, pairId: int)

  /** The single-argument constructor plays from the standard start position. */
  function StandardPair(pairId: int): (p: MatchPair)
    ensures p.startFen == "startpos" && p.pairId == pairId
  {
    MatchPair("startpos", pairId)
  }

  /** The first game's id, computed in 32-bit int arithmetic: an even Java int, exactly 2p inside the id range. */
  function Game1Id(p: MatchPair): (id: int)
    ensures InInt32(id) && id % 2 == 0
    ensures InIdRange(p.pairId) ==> id == 2 * p.pairId
  {
    Wrap32Wraps(p.pairId * 2);
    Wrap32(p.pairId * 2)
  }

  /** The second game's id: the odd Java int after the first one, when no wrap-around intervenes. */
  function Game2Id(p: MatchPair): (id: int)
    ensures InInt32(id) && id % 2 != 0
    ensures InIdRange(p.pairId) ==> id == Game1Id(p) + 1
  {
    Wrap32Wraps(p.pairId * 2 + 1);
    Wrap32(p.pairId * 2 + 1)
  }

  /** The bracketed tag in the description: a standard start or a FEN start. */
  function StartTag(p: MatchPair): string {
    if p.startFen == "startpos" then "Standard" else "FEN"
  }

  /** "Pair %d (Games %d-%d) [%s]": the pair number first, the kind of start position last. */
  function Describe(p: MatchPair): (text: string)
    ensures "Pair " + IntToString(p.pairId) + " (Games " <= text
    ensures var tag := if p.startFen == "startpos" then "[Standard]" else "[FEN]";
      |tag| <= |text| && text[|text| - |tag|..] == tag
  {
    "Pair " + IntToString(p.pairId) + " (Games " + IntToString(Game1Id(p)) + "-"
      + IntToString(Game2Id(p)) + ") [" + StartTag(p) + "]"
  }

  /** Pair numbers that fit the id space. */
  predicate InIdRange(pairId: int) {
    0 <= pairId < 0x4000_0000
  }

  /** Within the id range the two games of a pair are 2p and 2p+1: an even id, then the next odd one. */
  lemma GameIdsOfPair(p: MatchPair)
    requires InIdRange(p.pairId)
    ensures Game1Id(p) == 2 * p.pairId && Game2Id(p) == 2 * p.pairId + 1
    ensures Game1Id(p) % 2 == 0 && Game2Id(p) == Game1Id(p) + 1
    ensures Game1Id(p) / 2 == p.pairId && Game2Id(p) / 2 == p.pairId
  {
  }

  /** Different pairs never share a game id. */
  lemma GameIdsDisjoint(p: MatchPair, q: MatchPair)
    requires InIdRange(p.pairId) && InIdRange(q.pairId) && p.pairId != q.pairId
    ensures Game1Id(p) != Game1Id(q) && Game1Id(p) != Game2Id(q)
    ensures Game2Id(p) != Game1Id(q) && Game2Id(p) != Game2Id(q)
  {
    GameIdsOfPair(p);
    GameIdsOfPair(q);
  }

  /** Beyond the id range the doubling wraps around, as Java's int does. */
  lemma GameIdsWrap()
    ensures Game1Id(MatchPair("startpos", 0x4000_0000)) == Int32Min
    ensures Game2Id(MatchPair("startpos", 0x7FFF_FFFF)) == -1
  {
  }

  /** The unit-test expectations: pair 1 plays games 2 and 3, pair 5 plays games 10 and 11. */
  lemma TestScenarios()
    ensures Game1Id(StandardPair(1)) == 2 && Game2Id(StandardPair(1)) == 3
    ensures Game1Id(StandardPair(5)) == 10 && Game2Id(StandardPair(5)) == 11
    ensures StartTag(StandardPair(0)) == "Standard" && StartTag(MatchPair("8/8/8/8/8/8/8/8 w - - 0 1", 0)) == "FEN"
  {
  }
}
