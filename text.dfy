/**
 * The pieces of Java's string library that EngineLab relies on:
 * String.trim, split("\\s+"), split on a literal character, String.join,
 * indexOf/startsWith, decimal printing of integers, Integer.parseInt and
 * 32-bit wrap-around.
 */
module Text {
  import opened Wrappers

  const Int32Min: int := -0x8000_0000
  const Int32Max: int := 0x7FFF_FFFF

  predicate InInt32(x: int) { Int32Min <= x <= Int32Max }

  /** Two's-complement wrap-around of a Java int computation. */
  function Wrap32(x: int): int {
    (x - Int32Min) % 0x1_0000_0000 + Int32Min
  }

  /** The wrapped value is a Java int congruent to x modulo 2^32, and x itself when x already is one. */
  lemma Wrap32Wraps(x: int)
    ensures InInt32(Wrap32(x))
    ensures (Wrap32(x) - x) % 0x1_0000_0000 == 0
    ensures InInt32(x) ==> Wrap32(x) == x
  {
  }

  // ---------------------------------------------------------------------
  // Whitespace, trimming and splitting
  // ---------------------------------------------------------------------

  /** The regular-expression class \s: space, tab, newline, vertical tab, form feed, carriage return. */
  predicate IsSpace(c: char) {
    c == ' ' || c == '\t' || c == '\n' || c == '\U{B}' || c == '\U{C}' || c == '\r'
  }

  predicate NoSpace(s: string) {
    forall i :: 0 <= i < |s| ==> !IsSpace(s[i])
  }

  /** A non-empty run of characters with no whitespace in it. */
  predicate IsToken(s: string) {
    s != [] && NoSpace(s)
  }

  function DropLeading(s: string): string {
    if s != [] && s[0] <= ' ' then DropLeading(s[1..]) else s
  }

  function DropTrailing(s: string): string {
    if s != [] && s[|s| - 1] <= ' ' then DropTrailing(s[..|s| - 1]) else s
  }

  /** String.trim: removes every leading and trailing character at or below U+0020. */
  function Trim(s: string): string {
    DropTrailing(DropLeading(s))
  }

  /** Dropping leading blanks leaves a suffix that is empty or starts with a visible character. */
  lemma {:induction false} DropLeadingShape(s: string)
    ensures |DropLeading(s)| <= |s| && DropLeading(s) == s[|s| - |DropLeading(s)|..]
    ensures DropLeading(s) != [] ==> DropLeading(s)[0] > ' '
    decreases |s|
  {
    if s != [] && s[0] <= ' ' {
      DropLeadingShape(s[1..]);
    }
  }

  /** Dropping trailing blanks leaves a prefix that is empty or ends with a visible character. */
  lemma {:induction false} DropTrailingShape(s: string)
    ensures |DropTrailing(s)| <= |s| && DropTrailing(s) == s[..|DropTrailing(s)|]
    ensures DropTrailing(s) != [] ==> DropTrailing(s)[|DropTrailing(s)| - 1] > ' '
    decreases |s|
  {
    if s != [] && s[|s| - 1] <= ' ' {
      DropTrailingShape(s[..|s| - 1]);
    }
  }

  /** A trimmed string is no longer than the original and is empty or starts and ends with a visible character. */
  lemma TrimShape(s: string)
    ensures |Trim(s)| <= |s|
    ensures Trim(s) != [] ==> Trim(s)[0] > ' ' && Trim(s)[|Trim(s)| - 1] > ' '
  {
    var d := DropLeading(s);
    DropLeadingShape(s);
    DropTrailingShape(d);
    if Trim(s) != [] {
      assert Trim(s)[0] == d[0];
    }
  }

  /** The longest prefix of s that holds no whitespace. */
  function WordPrefix(s: string): (r: string)
    ensures |r| <= |s|
  {
    if s == [] || IsSpace(s[0]) then [] else [s[0]] + WordPrefix(s[1..])
  }

  /** The maximal whitespace-free runs of s, left to right. */
  function Words(s: string): seq<string>
    decreases |s|
  {
    if s == [] then []
    else if IsSpace(s[0]) then Words(s[1..])
    else
      var w := WordPrefix(s);
      [w] + Words(s[|w|..])
  }

  /**
   * s.split("\\s+"): the empty string gives [""], trailing empty strings are
   * dropped, and a leading empty string stays when s starts with whitespace
   * and holds a word.
   */
  function SplitWs(s: string): seq<string> {
    if s == [] then [""]
    else if Words(s) == [] then []
    else (if IsSpace(s[0]) then [""] else []) + Words(s)
  }

  /** What is left of s once its leading whitespace run is removed. */
  function DropSpaces(s: string): string
    decreases |s|
  {
    if s != [] && IsSpace(s[0]) then DropSpaces(s[1..]) else s
  }

  /**
   * s.split("\\s+", n) for a limit n >= 1: at most n pieces, the last one holding the
   * rest of s unsplit; with a positive limit no trailing empty string is dropped.
   */
  function SplitWsLimit(s: string, n: nat): (r: seq<string>)
    requires n >= 1
    ensures 1 <= |r| <= n
    decreases n
  {
    var w := WordPrefix(s);
    if n == 1 || |w| == |s| then [s] else [w] + SplitWsLimit(DropSpaces(s[|w|..]), n - 1)
  }

  /** The pieces of s between occurrences of c: one more piece than there are occurrences. */
  function Pieces(s: string, c: char): (r: seq<string>)
    ensures |r| >= 1
    decreases |s|
  {
    if s == [] then [""]
    else if s[0] == c then [""] + Pieces(s[1..], c)
    else
      var p := Pieces(s[1..], c);
      [[s[0]] + p[0]] + p[1..]
  }

  function DropTrailingEmpty(ps: seq<string>): (r: seq<string>)
    ensures |r| <= |ps| && r == ps[..|r|]
    ensures r != [] ==> r[|r| - 1] != ""
  {
    if ps != [] && ps[|ps| - 1] == "" then DropTrailingEmpty(ps[..|ps| - 1]) else ps
  }

  /** s.split(c) for a character c that is not a regular-expression metacharacter. */
  function SplitOn(s: string, c: char): seq<string> {
    if c !in s then [s] else DropTrailingEmpty(Pieces(s, c))
  }

  /** String.join(sep, parts). */
  function Join(parts: seq<string>, sep: string): string {
    if parts == [] then ""
    else if |parts| == 1 then parts[0]
    else parts[0] + sep + Join(parts[1..], sep)
  }

  function Take<T>(s: seq<T>, n: nat): (r: seq<T>)
    ensures |r| == if |s| < n then |s| else n
    ensures r == s[..|r|]
  {
    if |s| <= n then s else s[..n]
  }

  // ---------------------------------------------------------------------
  // Searching
  // ---------------------------------------------------------------------

  predicate StartsWith(s: string, prefix: string) {
    |prefix| <= |s| && s[..|prefix|] == prefix
  }

  predicate OccursAt(s: string, sub: string, i: nat) {
    i + |sub| <= |s| && s[i..i + |sub|] == sub
  }

  function IndexFrom(s: string, sub: string, i: nat): (r: Option<nat>)
    requires i <= |s|
    ensures r.Some? ==> i <= r.value && r.value + |sub| <= |s|
    decreases |s| - i
  {
    if OccursAt(s, sub, i) then Some(i)
    else if i == |s| then None
    else IndexFrom(s, sub, i + 1)
  }

  /** The search from i finds the first occurrence at or after i, and fails only when there is none. */
  lemma {:induction false} IndexFromFirst(s: string, sub: string, i: nat)
    requires i <= |s|
    ensures IndexFrom(s, sub, i).Some? ==> OccursAt(s, sub, IndexFrom(s, sub, i).value)
    ensures IndexFrom(s, sub, i).Some? ==> forall j :: i <= j < IndexFrom(s, sub, i).value ==> !OccursAt(s, sub, j)
    ensures IndexFrom(s, sub, i).None? ==> forall j :: i <= j <= |s| ==> !OccursAt(s, sub, j)
    decreases |s| - i
  {
    if !OccursAt(s, sub, i) && i < |s| {
      IndexFromFirst(s, sub, i + 1);
    }
  }

  /** s.indexOf(sub): the first position at which sub occurs. */
  function IndexOf(s: string, sub: string): (r: Option<nat>)
    ensures r.Some? ==> r.value + |sub| <= |s|
  {
    IndexFrom(s, sub, 0)
  }

  /** indexOf finds the first occurrence, and fails only when sub occurs nowhere. */
  lemma IndexOfFirst(s: string, sub: string)
    ensures IndexOf(s, sub).Some? ==> OccursAt(s, sub, IndexOf(s, sub).value)
    ensures IndexOf(s, sub).Some? ==> forall j :: 0 <= j < IndexOf(s, sub).value ==> !OccursAt(s, sub, j)
    ensures IndexOf(s, sub).None? ==> forall j :: 0 <= j <= |s| ==> !OccursAt(s, sub, j)
  {
    IndexFromFirst(s, sub, 0);
  }

  predicate Contains(s: string, sub: string) {
    IndexOf(s, sub).Some?
  }

  /** s.substring(s.indexOf(sub) + sub.length()), for an s that contains sub. */
  function After(s: string, sub: string): string
    requires Contains(s, sub)
  {
    s[IndexOf(s, sub).value + |sub|..]
  }

  function AsciiLower(c: char): char {
    if 'A' <= c <= 'Z' then (c as int + 32) as char else c
  }

  /** equalsIgnoreCase, for ASCII text. */
  predicate EqualsIgnoreCase(a: string, b: string) {
    |a| == |b| && forall i :: 0 <= i < |a| ==> AsciiLower(a[i]) == AsciiLower(b[i])
  }

  // ---------------------------------------------------------------------
  // Decimal numbers
  // ---------------------------------------------------------------------

  predicate IsDigit(c: char) { '0' <= c <= '9' }

  predicate AllDigits(s: string) {
    forall i :: 0 <= i < |s| ==> IsDigit(s[i])
  }

  function DigitChar(d: nat): (c: char)
    requires d < 10
    ensures IsDigit(c) && c as int - '0' as int == d
  {
    ('0' as int + d) as char
  }

  /** The decimal digits of n, without leading zeros. */
  function NatToString(n: nat): (r: string)
    ensures r != [] && AllDigits(r)
    ensures |r| > 1 ==> r[0] != '0'
  {
    if n < 10 then [DigitChar(n)] else NatToString(n / 10) + [DigitChar(n % 10)]
  }

  /** String.valueOf / "%d" for an integer. */
  function IntToString(x: int): (r: string)
    ensures r != [] && NoSpace(r)
  {
    if x < 0 then "-" + NatToString(-x) else NatToString(x)
  }

  function DigitsValue(s: string): nat
    requires AllDigits(s)
  {
    if s == [] then 0 else DigitsValue(s[..|s| - 1]) * 10 + (s[|s| - 1] as int - '0' as int)
  }

  /** An optional sign followed by at least one ASCII digit, as an unbounded integer. */
  function ParseInteger(s: string): Option<int> {
    if s == [] then None
    else if s[0] == '-' || s[0] == '+' then
      if |s| > 1 && AllDigits(s[1..]) then
        var v: int := DigitsValue(s[1..]);
        Some(if s[0] == '-' then -v else v)
      else None
    else if AllDigits(s) then Some(DigitsValue(s))
    else None
  }

  /**
   * Integer.parseInt on ASCII text: None stands for the NumberFormatException. The other Unicode
   * decimal digits that Java's Character.digit also accepts are not read.
   */
  function ParseJavaInt(s: string): (r: Option<int>)
    ensures r.Some? ==> InInt32(r.value)
  {
    match ParseInteger(s)
    case Some(v) => if InInt32(v) then Some(v) else None
    case None => None
  }

  // ---------------------------------------------------------------------
  // Lemmas
  // ---------------------------------------------------------------------

  /** The word prefix is a whitespace-free prefix that stops at whitespace or at the end. */
  lemma {:induction false} WordPrefixShape(s: string)
    ensures var r := WordPrefix(s); r == s[..|r|] && NoSpace(r) && (|r| < |s| ==> IsSpace(s[|r|]))
    decreases |s|
  {
    if s != [] && !IsSpace(s[0]) {
      WordPrefixShape(s[1..]);
    }
  }

  /** Every word is a token. */
  lemma {:induction false} WordsAreTokens(s: string)
    ensures forall i :: 0 <= i < |Words(s)| ==> IsToken(Words(s)[i])
    decreases |s|
  {
    if s != [] {
      if IsSpace(s[0]) {
        WordsAreTokens(s[1..]);
      } else {
        WordPrefixShape(s);
        WordsAreTokens(s[|WordPrefix(s)|..]);
      }
    }
  }

  lemma {:induction false} WordPrefixStopsAtSpace(a: string, b: string)
    ensures WordPrefix(a + " " + b) == WordPrefix(a)
    decreases |a|
  {
    if a == [] {
      assert (a + " " + b)[0] == ' ';
    } else if IsSpace(a[0]) {
      assert (a + " " + b)[0] == a[0];
    } else {
      assert (a + " " + b)[0] == a[0];
      assert (a + " " + b)[1..] == a[1..] + " " + b;
      WordPrefixStopsAtSpace(a[1..], b);
    }
  }

  /** A space separates the words on its two sides. */
  lemma {:induction false} WordsAroundSpace(a: string, b: string)
    ensures Words(a + " " + b) == Words(a) + Words(b)
    decreases |a|
  {
    var s := a + " " + b;
    if a == [] {
      assert s[0] == ' ' && s[1..] == b;
    } else if IsSpace(a[0]) {
      assert s[0] == a[0] && s[1..] == a[1..] + " " + b;
      WordsAroundSpace(a[1..], b);
    } else {
      assert s[0] == a[0];
      var w := WordPrefix(a);
      WordPrefixStopsAtSpace(a, b);
      assert WordPrefix(s) == w;
      assert |w| >= 1 by { assert w == [a[0]] + WordPrefix(a[1..]); }
      assert s[|w|..] == a[|w|..] + " " + b;
      WordsAroundSpace(a[|w|..], b);
    }
  }

  /** A token is its own single word. */
  lemma {:induction false} WordsOfToken(t: string)
    requires IsToken(t)
    ensures Words(t) == [t]
    decreases |t|
  {
    TokenIsWordPrefix(t);
    assert t[|t|..] == [];
  }

  lemma {:induction false} TokenIsWordPrefix(t: string)
    requires NoSpace(t)
    ensures WordPrefix(t) == t
    decreases |t|
  {
    if t != [] {
      TokenIsWordPrefix(t[1..]);
    }
  }

  /** A token followed by a space is the first word. */
  lemma WordsCons(t: string, rest: string)
    requires IsToken(t)
    ensures Words(t + " " + rest) == [t] + Words(rest)
  {
    WordsAroundSpace(t, rest);
    WordsOfToken(t);
  }

  /** Joining tokens with single spaces and splitting into words gives the tokens back. */
  lemma WordsOfJoin(ts: seq<string>)
    requires forall i :: 0 <= i < |ts| ==> IsToken(ts[i])
    ensures Words(Join(ts, " ")) == ts
  {
    WordsOfJoinAll(ts);
    WordsOfAllTokens(ts);
  }

  /** The words of each part, one part after another. */
  function WordsOfAll(parts: seq<string>): seq<string>
    decreases |parts|
  {
    if parts == [] then [] else Words(parts[0]) + WordsOfAll(parts[1..])
  }

  /** Joining with single spaces never merges or splits the words of the parts. */
  lemma {:induction false} WordsOfJoinAll(parts: seq<string>)
    ensures Words(Join(parts, " ")) == WordsOfAll(parts)
    decreases |parts|
  {
    if |parts| == 1 {
      assert WordsOfAll(parts[1..]) == [];
    } else if |parts| > 1 {
      WordsAroundSpace(parts[0], Join(parts[1..], " "));
      WordsOfJoinAll(parts[1..]);
    }
  }

  lemma {:induction false} WordsOfAllAppend(a: seq<string>, b: seq<string>)
    ensures WordsOfAll(a + b) == WordsOfAll(a) + WordsOfAll(b)
    decreases |a|
  {
    if a != [] {
      assert (a + b)[1..] == a[1..] + b;
      WordsOfAllAppend(a[1..], b);
    } else {
      assert a + b == b;
    }
  }

  lemma {:induction false} WordsOfAllTokens(ts: seq<string>)
    requires forall i :: 0 <= i < |ts| ==> IsToken(ts[i])
    ensures WordsOfAll(ts) == ts
    decreases |ts|
  {
    if ts != [] {
      WordsOfToken(ts[0]);
      WordsOfAllTokens(ts[1..]);
    }
  }

  /** On a string that does not start with whitespace, split("\\s+") is exactly its words. */
  lemma SplitWsOfUnpadded(s: string)
    requires s != [] && !IsSpace(s[0])
    ensures SplitWs(s) == Words(s)
  {
  }

  /** DropSpaces leaves a suffix that is empty or starts with a character outside \s. */
  lemma {:induction false} DropSpacesShape(s: string)
    ensures |DropSpaces(s)| <= |s| && DropSpaces(s) == s[|s| - |DropSpaces(s)|..]
    ensures DropSpaces(s) != [] ==> !IsSpace(DropSpaces(s)[0])
    decreases |s|
  {
    if s != [] && IsSpace(s[0]) {
      DropSpacesShape(s[1..]);
    }
  }

  /** Words are unaffected by leading whitespace, which DropSpaces removes. */
  lemma {:induction false} WordsDropSpaces(s: string)
    ensures Words(DropSpaces(s)) == Words(s)
    decreases |s|
  {
    if s != [] && IsSpace(s[0]) {
      WordsDropSpaces(s[1..]);
    }
  }

  /**
   * On a string with no whitespace at either end, the pieces of a split with limit n are its
   * words, except that the n-th piece keeps the unsplit rest: so the first n - 1 pieces are the
   * first n - 1 words, and there are as many pieces as words, up to n.
   */
  lemma {:induction false} SplitWsLimitWords(s: string, n: nat)
    requires n >= 1 && s != [] && !IsSpace(s[0]) && !IsSpace(s[|s| - 1])
    ensures |SplitWsLimit(s, n)| == if |Words(s)| < n then |Words(s)| else n
    ensures forall i :: 0 <= i < n - 1 && i < |SplitWsLimit(s, n)| ==> SplitWsLimit(s, n)[i] == Words(s)[i]
    decreases n
  {
    var w, rest := SplitStep(s);
    if rest == [] {
      assert SplitWsLimit(s, n) == [s];
    } else if n == 1 {
      assert SplitWsLimit(s, n) == [s];
    } else {
      SplitWsLimitWords(rest, n - 1);
      var tail := SplitWsLimit(rest, n - 1);
      assert SplitWsLimit(s, n) == [w] + tail;
      forall i | 0 <= i < n - 1 && i < |SplitWsLimit(s, n)|
        ensures SplitWsLimit(s, n)[i] == Words(s)[i]
      {
        if i > 0 {
          assert SplitWsLimit(s, n)[i] == tail[i - 1];
          assert Words(s)[i] == Words(rest)[i - 1];
        }
      }
    }
  }

  /**
   * A string with no whitespace at either end is its first word alone, or that word, a
   * whitespace run, and a rest again with no whitespace at either end.
   */
  lemma SplitStep(s: string) returns (w: string, rest: string)
    requires s != [] && !IsSpace(s[0]) && !IsSpace(s[|s| - 1])
    ensures w == WordPrefix(s) && w != []
    ensures rest == [] ==> w == s && Words(s) == [s]
    ensures rest != [] ==> |w| < |s| && rest == DropSpaces(s[|w|..])
    ensures rest != [] ==> !IsSpace(rest[0]) && !IsSpace(rest[|rest| - 1])
    ensures Words(s) == [w] + Words(rest)
  {
    w := WordPrefix(s);
    var t := s[|w|..];
    WordPrefixShape(s);
    assert |w| >= 1 by { assert w == [s[0]] + WordPrefix(s[1..]); }
    assert Words(s) == [w] + Words(t);
    if |w| == |s| {
      rest := [];
      assert t == [] && w == s;
    } else {
      rest := DropSpaces(t);
      RestOfSplit(s, w, t, rest);
    }
  }

  /** Past the first word of s and the whitespace after it, what is left keeps the end of s and the rest of its words. */
  lemma RestOfSplit(s: string, w: string, t: string, rest: string)
    requires s != [] && !IsSpace(s[|s| - 1])
    requires 1 <= |w| < |s| && w == s[..|w|] && IsSpace(s[|w|])
    requires t == s[|w|..] && rest == DropSpaces(t)
    ensures rest != [] && !IsSpace(rest[0]) && !IsSpace(rest[|rest| - 1])
    ensures Words(rest) == Words(t)
  {
    WordsDropSpaces(t);
    DropSpacesShape(t);
    assert t[|t| - 1] == s[|s| - 1];
    if rest == [] {
      DropSpacesAllSpace(t);
    }
    assert rest[|rest| - 1] == t[|t| - 1];
  }

  lemma {:induction false} DropSpacesAllSpace(s: string)
    requires DropSpaces(s) == []
    ensures forall i :: 0 <= i < |s| ==> IsSpace(s[i])
    decreases |s|
  {
    if s != [] {
      DropSpacesAllSpace(s[1..]);
      assert forall i :: 1 <= i < |s| ==> s[i] == s[1..][i - 1];
    }
  }

  /** An occurrence of c splits the pieces into those before it and those after it. */
  lemma {:induction false} PiecesAround(a: string, b: string, c: char)
    ensures Pieces(a + [c] + b, c) == Pieces(a, c) + Pieces(b, c)
    decreases |a|
  {
    if a == [] {
      assert a + [c] + b == [c] + b;
      assert ([c] + b)[1..] == b;
    } else {
      assert (a + [c] + b)[0] == a[0];
      assert (a + [c] + b)[1..] == a[1..] + [c] + b;
      PiecesAround(a[1..], b, c);
    }
  }

  /** Without an occurrence of c, the whole string is the only piece. */
  lemma {:induction false} PiecesWithout(s: string, c: char)
    requires c !in s
    ensures Pieces(s, c) == [s]
    decreases |s|
  {
    if s != [] {
      assert c !in s[1..] by {
        forall i | 0 <= i < |s[1..]| ensures s[1..][i] != c {
          assert s[1..][i] == s[i + 1];
        }
      }
      PiecesWithout(s[1..], c);
      assert [s[0]] + s[1..] == s;
    }
  }

  /** No piece contains c, and every character of a piece comes from s. */
  lemma {:induction false} PiecesFree(s: string, c: char)
    ensures forall i :: 0 <= i < |Pieces(s, c)| ==> c !in Pieces(s, c)[i]
    ensures forall i, ch :: 0 <= i < |Pieces(s, c)| && ch in Pieces(s, c)[i] ==> ch in s
    decreases |s|
  {
    if s != [] {
      PiecesFree(s[1..], c);
      var p := Pieces(s[1..], c);
      assert forall ch :: ch in s[1..] ==> ch in s;
      if s[0] != c {
        assert forall ch :: ch in [s[0]] + p[0] ==> ch == s[0] || ch in p[0];
        assert forall i :: 1 <= i < |Pieces(s, c)| ==> Pieces(s, c)[i] == p[i];
      } else {
        assert forall i :: 1 <= i < |Pieces(s, c)| ==> Pieces(s, c)[i] == p[i - 1];
      }
    }
  }

  /** Every piece is empty exactly when s consists of c alone. */
  lemma {:induction false} PiecesAllEmpty(s: string, c: char)
    ensures (forall i :: 0 <= i < |Pieces(s, c)| ==> Pieces(s, c)[i] == "") <==> (forall i :: 0 <= i < |s| ==> s[i] == c)
    decreases |s|
  {
    if s != [] {
      PiecesAllEmpty(s[1..], c);
      var p := Pieces(s[1..], c);
      if s[0] == c {
        assert Pieces(s, c) == [""] + p;
        assert (forall i :: 0 <= i < |Pieces(s, c)| ==> Pieces(s, c)[i] == "") <==> (forall i :: 0 <= i < |p| ==> p[i] == "") by {
          assert forall i :: 1 <= i < |Pieces(s, c)| ==> Pieces(s, c)[i] == p[i - 1];
          assert forall i :: 0 <= i < |p| ==> p[i] == Pieces(s, c)[i + 1];
        }
        assert (forall i :: 0 <= i < |s| ==> s[i] == c) <==> (forall i :: 0 <= i < |s[1..]| ==> s[1..][i] == c) by {
          assert forall i :: 0 <= i < |s[1..]| ==> s[1..][i] == s[i + 1];
        }
      } else {
        assert Pieces(s, c)[0] != "";
      }
    }
  }

  /** Dropping trailing empty pieces leaves nothing exactly when every piece is empty. */
  lemma {:induction false} DropTrailingEmptyNone(ps: seq<string>)
    ensures DropTrailingEmpty(ps) == [] <==> forall i :: 0 <= i < |ps| ==> ps[i] == ""
    decreases |ps|
  {
    if ps != [] && ps[|ps| - 1] == "" {
      DropTrailingEmptyNone(ps[..|ps| - 1]);
    }
  }

  lemma {:induction false} DigitsOfNat(n: nat)
    ensures DigitsValue(NatToString(n)) == n
  {
    var r := NatToString(n);
    if n >= 10 {
      DigitsOfNat(n / 10);
      assert r[..|r| - 1] == NatToString(n / 10);
    }
  }

  /** Printing an integer in decimal and parsing it back gives the integer. */
  lemma IntToStringParses(x: int)
    ensures ParseInteger(IntToString(x)) == Some(x)
    ensures InInt32(x) ==> ParseJavaInt(IntToString(x)) == Some(x)
  {
    DigitsOfNat(if x < 0 then -x else x);
    if x < 0 {
      assert IntToString(x)[1..] == NatToString(-x);
    } else {
      assert IntToString(x)[0] != '-' && IntToString(x)[0] != '+';
    }
  }

  // ---------------------------------------------------------------------
  // UTF-16: Java strings are sequences of 16-bit code units
  // ---------------------------------------------------------------------

  /** A high surrogate: the first unit of a character beyond U+FFFF. */
  predicate IsHighSurrogate(u: int) {
    0xD800 <= u < 0xDC00
  }

  /**
   * The UTF-16 code units of one character: the character itself below U+10000, otherwise a
   * high and a low surrogate. The first unit alone tells how many units the character takes.
   */
  function CodeUnits(c: char): (u: seq<int>)
    ensures |u| == (if c as int < 0x1_0000 then 1 else 2)
    ensures forall k :: 0 <= k < |u| ==> 0 <= u[k] < 0x1_0000
    ensures |u| == 2 <==> IsHighSurrogate(u[0])
  {
    if c as int < 0x1_0000 then [c as int]
    else [0xD800 + (c as int - 0x1_0000) / 0x400, 0xDC00 + (c as int - 0x1_0000) % 0x400]
  }

  /** Different characters have different encodings. */
  lemma CodeUnitsInjective(a: char, b: char)
    requires CodeUnits(a) == CodeUnits(b)
    ensures a == b
  {
    if a as int >= 0x1_0000 {
      var va, vb := a as int - 0x1_0000, b as int - 0x1_0000;
      assert va / 0x400 == vb / 0x400 && va % 0x400 == vb % 0x400;
      assert va == 0x400 * (va / 0x400) + va % 0x400;
      assert vb == 0x400 * (vb / 0x400) + vb % 0x400;
    }
  }

  /** The code units of a string, as String.charAt sees them. */
  function Utf16(s: string): seq<int>
    decreases |s|
  {
    if s == [] then [] else CodeUnits(s[0]) + Utf16(s[1..])
  }

  /** Encoding loses nothing: strings with the same code units are equal. */
  lemma {:induction false} Utf16Injective(a: string, b: string)
    requires Utf16(a) == Utf16(b)
    ensures a == b
    decreases |a|
  {
    if a != [] {
      assert b != [];
      var ua, ub := CodeUnits(a[0]), CodeUnits(b[0]);
      var s := Utf16(a);
      assert ua[0] == s[0] == ub[0];
      assert |ua| == |ub|;
      assert ua == s[..|ua|] == ub;
      CodeUnitsInjective(a[0], b[0]);
      assert Utf16(a[1..]) == s[|ua|..] == Utf16(b[1..]);
      Utf16Injective(a[1..], b[1..]);
      assert a == [a[0]] + a[1..] && b == [b[0]] + b[1..];
    }
  }

  /** Every character takes one or two code units, so String.length() lies between |s| and 2|s|. */
  lemma {:induction false} Utf16Length(s: string)
    ensures |s| <= |Utf16(s)| <= 2 * |s|
    ensures (forall k :: 0 <= k < |s| ==> s[k] as int < 0x1_0000) ==> |Utf16(s)| == |s|
    decreases |s|
  {
    if s != [] {
      Utf16Length(s[1..]);
      assert forall k :: 1 <= k < |s| ==> s[k] == s[1..][k - 1];
    }
  }
}
