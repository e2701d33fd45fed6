/**
 * FEN positions for the start of games (Util/FENLoader.java): reading a
 * file of FEN lines, the basic shape check on one FEN, and the built-in
 * list of common openings. A FEN record has six space-separated fields
 * (section 16.1 of the PGN standard): piece placement as eight ranks
 * joined by "/", side to move, castling, en passant target, half-move
 * clock and full-move number.
 */
module Fen {
  import opened Wrappers
  import opened Text

  /** The fields a FEN line must have at least. */
  const MinFields := 6
  /** The ranks of a piece-placement field. */
  const BoardRanks := 8

  // ---------------------------------------------------------------------
  // Reading a file of FEN lines
  // ---------------------------------------------------------------------

  /** What loadFromFile does with one line of the file. */
  datatype LineVerdict =
    | Skipped                 // blank, or a comment line
    | Kept(fen: string)       // added to the list, inline comment removed
    | Invalid(text: string)   // reported on the error stream and left out

  /** The line with an inline comment cut off: text before the first "#", trimmed, when "#" is not its first character. */
  function Uncommented(t: string): string {
    match IndexOf(t, "#")
    case Some(k) => if k > 0 then Trim(t[..k]) else t
    case None => t
  }

  /**
   * One line of the file: skipped exactly when, trimmed, it is blank or starts with "#"; any
   * other line is kept exactly when, comment removed, it has at least six fields, and reported
   * otherwise.
   */
  function ReadLine(line: string): (v: LineVerdict)
    ensures var t := Trim(line);
      v.Skipped? <==> t == [] || StartsWith(t, "#")
    ensures var t := Trim(line);
      !v.Skipped? ==>
        (v == Kept(Uncommented(t)) <==> |Words(Uncommented(t))| >= MinFields) &&
        (v == Invalid(Uncommented(t)) <==> |Words(Uncommented(t))| < MinFields)
  {
    var t := Trim(line);
    if t == [] || StartsWith(t, "#") then Skipped
    else
      TrimShape(line);
      UncommentedShape(t);
      var u := Uncommented(t);
      assert |SplitWs(u)| < MinFields <==> |Words(u)| < MinFields by {
        if u != [] {
          SplitWsOfUnpadded(u);
        } else {
          assert Words(u) == [];
        }
      }
      if |SplitWs(u)| < MinFields then Invalid(u) else Kept(u)
  }

  /** The line written to the error stream for the invalid line at 1-based position n. */
  function Warning(n: nat, text: string): string {
    "Warning: Invalid FEN at line " + NatToString(n) + ": " + text
  }

  function KeptPart(v: LineVerdict): seq<string> {
    if v.Kept? then [v.fen] else []
  }

  function WarningPart(n: nat, v: LineVerdict): seq<string> {
    if v.Invalid? then [Warning(n, v.text)] else []
  }

  /** The positions loadFromFile returns for the lines of a file, in file order. */
  function LoadedFens(lines: seq<string>): seq<string>
    decreases |lines|
  {
    if lines == [] then []
    else LoadedFens(lines[..|lines| - 1]) + KeptPart(ReadLine(lines[|lines| - 1]))
  }

  /** The warnings loadFromFile writes for the lines of a file, each naming its line number, in file order. */
  function LoadWarnings(lines: seq<string>): seq<string>
    decreases |lines|
  {
    if lines == [] then []
    else LoadWarnings(lines[..|lines| - 1]) + WarningPart(|lines|, ReadLine(lines[|lines| - 1]))
  }

  /** How many lines of the file are neither blank nor comments. */
  function Considered(lines: seq<string>): nat
    decreases |lines|
  {
    if lines == [] then 0
    else Considered(lines[..|lines| - 1]) + (if ReadLine(lines[|lines| - 1]).Skipped? then 0 else 1)
  }

  /**
   * loadFromFile, given the lines of the file or the error that reading it raised: the
   * positions it returns and the warnings it writes to the error stream.
   */
  method LoadFromFile(read: Result<seq<string>, string>) returns (r: Result<seq<string>, string>, warnings: seq<string>)
    ensures read.Failure? ==> r == Failure(read.error) && warnings == []
    ensures read.Success? ==> r == Success(LoadedFens(read.value)) && warnings == LoadWarnings(read.value)
  {
    if read.Failure? {
      return Failure(read.error), [];
    }
    var lines := read.value;
    var fens: seq<string> := [];
    warnings := [];
    var lineNumber := 0;
    while lineNumber < |lines|
      invariant 0 <= lineNumber <= |lines|
      invariant fens == LoadedFens(lines[..lineNumber])
      invariant warnings == LoadWarnings(lines[..lineNumber])
    {
      var line := Trim(lines[lineNumber]);
      assert lines[..lineNumber + 1][..lineNumber] == lines[..lineNumber];
      lineNumber := lineNumber + 1;
      if line != [] && !StartsWith(line, "#") {
        var commentIndex := IndexOf(line, "#");
        if commentIndex.Some? && commentIndex.value > 0 {
          line := Trim(line[..commentIndex.value]);
        }
        var parts := SplitWs(line);
        if |parts| < MinFields {
          warnings := warnings + [Warning(lineNumber, line)];
        } else {
          fens := fens + [line];
        }
      }
    }
    assert lines[..lineNumber] == lines;
    return Success(fens), warnings;
  }

  /** Every character of a trimmed string comes from the original. */
  lemma TrimChars(s: string)
    ensures forall c :: c in Trim(s) ==> c in s
  {
    var d := DropLeading(s);
    DropLeadingShape(s);
    DropTrailingShape(d);
    assert forall c :: c in Trim(s) ==> c in d;
  }

  /** Cutting off the comment of a trimmed, uncommented-at-start line leaves text that starts and ends visibly and holds no "#". */
  lemma UncommentedShape(t: string)
    requires t != [] && t[0] > ' ' && t[|t| - 1] > ' ' && !StartsWith(t, "#")
    ensures var u := Uncommented(t);
      && '#' !in u
      && (u != [] ==> u[0] > ' ' && u[|u| - 1] > ' ')
  {
    IndexOfFirst(t, "#");
    match IndexOf(t, "#")
    case Some(k) =>
      assert k > 0;
      var head := t[..k];
      assert '#' !in head by {
        forall j | 0 <= j < k ensures head[j] != '#' {
          assert !OccursAt(t, "#", j);
        }
      }
      TrimChars(head);
      TrimShape(head);
    case None =>
      forall j | 0 <= j < |t| ensures t[j] != '#' {
        assert !OccursAt(t, "#", j);
      }
  }

  /** Trimming a string that starts and ends with a visible character changes nothing. */
  lemma TrimUnpadded(s: string)
    requires s != [] && s[0] > ' ' && s[|s| - 1] > ' '
    ensures Trim(s) == s
  {
  }

  /** A kept line is the line's text before its comment: trimmed, free of "#", with at least six fields. */
  lemma KeptLineShape(line: string)
    requires ReadLine(line).Kept?
    ensures var f := ReadLine(line).fen;
      && f == Uncommented(Trim(line))
      && f != [] && Trim(f) == f
      && '#' !in f
      && |Words(f)| >= MinFields
  {
    var t := Trim(line);
    TrimShape(line);
    UncommentedShape(t);
    var f := Uncommented(t);
    assert f != [];
    TrimUnpadded(f);
    SplitWsOfUnpadded(f);
  }

  /** Every position loaded from a file is trimmed, free of comments and has at least six fields. */
  lemma {:induction false} LoadedFensShape(lines: seq<string>)
    ensures forall k :: 0 <= k < |LoadedFens(lines)| ==>
      var f := LoadedFens(lines)[k];
      f != [] && Trim(f) == f && '#' !in f && |Words(f)| >= MinFields
    decreases |lines|
  {
    if lines != [] {
      LoadedFensShape(lines[..|lines| - 1]);
      var v := ReadLine(lines[|lines| - 1]);
      if v.Kept? {
        KeptLineShape(lines[|lines| - 1]);
      }
    }
  }

  /** Positions keep file order: the positions of two files one after the other are those of each, in turn. */
  lemma {:induction false} LoadedFensInOrder(a: seq<string>, b: seq<string>)
    ensures LoadedFens(a + b) == LoadedFens(a) + LoadedFens(b)
    decreases |b|
  {
    if b == [] {
      assert a + b == a;
    } else {
      var b' := b[..|b| - 1];
      assert (a + b)[..|a + b| - 1] == a + b';
      LoadedFensInOrder(a, b');
    }
  }

  /** Every line that is neither blank nor a comment gives either a position or a warning, never both. */
  lemma {:induction false} EveryLineAccounted(lines: seq<string>)
    ensures |LoadedFens(lines)| + |LoadWarnings(lines)| == Considered(lines)
    decreases |lines|
  {
    if lines != [] {
      EveryLineAccounted(lines[..|lines| - 1]);
    }
  }

  /** An invalid line adds the warning that names its own line number, and no position. */
  lemma InvalidLineWarned(lines: seq<string>, line: string)
    requires ReadLine(line).Invalid?
    ensures LoadWarnings(lines + [line]) == LoadWarnings(lines) + [Warning(|lines| + 1, ReadLine(line).text)]
    ensures LoadedFens(lines + [line]) == LoadedFens(lines)
  {
    var all := lines + [line];
    assert all[..|all| - 1] == lines && all[|all| - 1] == line;
    var v := ReadLine(line);
    assert KeptPart(v) == [] && WarningPart(|all|, v) == [Warning(|lines| + 1, v.text)];
  }

  /** A blank or comment line adds neither a position nor a warning. */
  lemma SkippedLineIgnored(lines: seq<string>, line: string)
    requires Trim(line) == [] || StartsWith(Trim(line), "#")
    ensures LoadedFens(lines + [line]) == LoadedFens(lines)
    ensures LoadWarnings(lines + [line]) == LoadWarnings(lines)
  {
    assert (lines + [line])[..|lines|] == lines;
  }

  // ---------------------------------------------------------------------
  // The basic shape check
  // ---------------------------------------------------------------------

  /**
   * isValidFEN: present, not blank, at least six fields, eight ranks in the first and "w" or "b"
   * as the second; that is, a condition on the whitespace-separated fields of the trimmed text.
   */
  predicate IsValidFen(fen: Option<string>)
    ensures IsValidFen(fen) <==>
      && fen.Some?
      && var w := Words(Trim(fen.value));
      && |w| >= MinFields
      && |SplitOn(w[0], '/')| == BoardRanks
      && (w[1] == "w" || w[1] == "b")
  {
    && fen.Some?
    && var t := Trim(fen.value);
    && (TrimShape(fen.value);
        assert t != [] ==> SplitWs(t) == Words(t) by {
          if t != [] { SplitWsOfUnpadded(t); }
        }
        t != [])
    && var parts := SplitWs(t);
    && |parts| >= MinFields
    && |SplitOn(parts[0], '/')| == BoardRanks
    && (parts[1] == "w" || parts[1] == "b")
  }

  // ---------------------------------------------------------------------
  // Building a FEN from its fields
  // ---------------------------------------------------------------------

  /** The six fields of a FEN record, the placement split into its ranks. */
  datatype FenFields = FenFields(ranks: seq<string>, side: string, castling: string,
                                 enPassant: string, halfmove: string, fullmove: string)

  /** A non-empty run of characters above U+0020. */
  predicate Visible(s: string) {
    s != [] && forall c :: c in s ==> c > ' '
  }

  /** A rank of the placement field: visible and free of "/". */
  predicate RankText(s: string) {
    s != [] && forall c :: c in s ==> c > ' ' && c != '/'
  }

  /** Eight visible ranks free of "/", side "w" or "b", and visible remaining fields. */
  predicate WellFormed(f: FenFields) {
    && |f.ranks| == BoardRanks
    && (forall i :: 0 <= i < BoardRanks ==> RankText(f.ranks[i]))
    && (f.side == "w" || f.side == "b")
    && Visible(f.castling) && Visible(f.enPassant) && Visible(f.halfmove) && Visible(f.fullmove)
  }

  function FieldTexts(f: FenFields): seq<string> {
    [Join(f.ranks, "/"), f.side, f.castling, f.enPassant, f.halfmove, f.fullmove]
  }

  /** The FEN text: ranks joined by "/", fields joined by single spaces. */
  function FenText(f: FenFields): string {
    Join(FieldTexts(f), " ")
  }

  /** Joining non-empty parts gives a text that starts with the first part's first character and ends with the last part's last. */
  lemma {:induction false} JoinEnds(ts: seq<string>, sep: string)
    requires ts != [] && forall i :: 0 <= i < |ts| ==> ts[i] != []
    ensures Join(ts, sep) != []
    ensures Join(ts, sep)[0] == ts[0][0]
    ensures Join(ts, sep)[|Join(ts, sep)| - 1] == ts[|ts| - 1][|ts[|ts| - 1]| - 1]
    decreases |ts|
  {
    if |ts| > 1 {
      JoinEnds(ts[1..], sep);
    }
  }

  /** Splitting the ranks joined by "/" on "/" gives the pieces back, with no empty piece at the end. */
  lemma {:induction false} PiecesOfJoin(ts: seq<string>)
    requires ts != [] && forall i :: 0 <= i < |ts| ==> '/' !in ts[i]
    ensures Pieces(Join(ts, "/"), '/') == ts
    decreases |ts|
  {
    if |ts| == 1 {
      PiecesWithout(ts[0], '/');
    } else {
      PiecesOfJoin(ts[1..]);
      PiecesWithout(ts[0], '/');
      PiecesAround(ts[0], Join(ts[1..], "/"), '/');
      assert Join(ts, "/") == ts[0] + ['/'] + Join(ts[1..], "/");
    }
  }

  /** Split on "/", eight "/"-free non-empty ranks joined by "/" come back as they were. */
  lemma SplitRanks(ranks: seq<string>)
    requires |ranks| == BoardRanks
    requires forall i :: 0 <= i < BoardRanks ==> ranks[i] != [] && '/' !in ranks[i]
    ensures SplitOn(Join(ranks, "/"), '/') == ranks
  {
    PiecesOfJoin(ranks);
    var s := Join(ranks, "/");
    assert s == ranks[0] + "/" + Join(ranks[1..], "/");
    assert s[|ranks[0]|] == '/';
  }

  /** A FEN built from well-formed fields passes the shape check, and its fields and ranks read back as they were built. */
  lemma FenTextValid(f: FenFields)
    requires WellFormed(f)
    ensures IsValidFen(Some(FenText(f)))
    ensures Words(FenText(f)) == FieldTexts(f)
    ensures Trim(FenText(f)) == FenText(f)
    ensures SplitOn(Join(f.ranks, "/"), '/') == f.ranks
  {
    var ts := FieldTexts(f);
    assert Visible(Join(f.ranks, "/")) by {
      VisibleJoin(f.ranks, "/");
    }
    forall i | 0 <= i < |ts| ensures IsToken(ts[i]) && Visible(ts[i]) {
      VisibleToken(ts[i]);
    }
    JoinEnds(ts, " ");
    var text := FenText(f);
    assert ts[0][0] in ts[0] && ts[5][|ts[5]| - 1] in ts[5];
    TrimUnpadded(text);
    WordsOfJoin(ts);
    SplitWsOfUnpadded(text);
    SplitRanks(f.ranks);
  }

  /** A visible text has no whitespace. */
  lemma VisibleToken(s: string)
    requires Visible(s)
    ensures IsToken(s)
  {
    forall i | 0 <= i < |s| ensures !IsSpace(s[i]) {
      assert s[i] in s;
    }
  }

  /** Visible parts joined by a visible separator make a visible text. */
  lemma {:induction false} VisibleJoin(ts: seq<string>, sep: string)
    requires ts != [] && forall i :: 0 <= i < |ts| ==> Visible(ts[i])
    requires forall c :: c in sep ==> c > ' '
    ensures Visible(Join(ts, sep))
    decreases |ts|
  {
    if |ts| > 1 {
      VisibleJoin(ts[1..], sep);
    }
  }

  // ---------------------------------------------------------------------
  // Common openings
  // ---------------------------------------------------------------------

  /** The standard starting position. */
  const StartPosition := FenFields(["rnbqkbnr", "pppppppp", "8", "8", "8", "8", "PPPPPPPP", "RNBQKBNR"], "w", "KQkq", "-", "0", "1")
  /** 1.e4 */
  const AfterE4 := FenFields(["rnbqkbnr", "pppppppp", "8", "8", "4P3", "8", "PPPP1PPP", "RNBQKBNR"], "b", "KQkq", "e3", "0", "1")
  /** 1.d4 */
  const AfterD4 := FenFields(["rnbqkbnr", "pppppppp", "8", "8", "3P4", "8", "PPP1PPPP", "RNBQKBNR"], "b", "KQkq", "d3", "0", "1")
  /** 1.c4, the English opening. */
  const AfterC4 := FenFields(["rnbqkbnr", "pppppppp", "8", "8", "2P5", "8", "PP1PPPPP", "RNBQKBNR"], "b", "KQkq", "c3", "0", "1")
  /** 1.Nf3 */
  const AfterNf3 := FenFields(["rnbqkbnr", "pppppppp", "8", "8", "8", "5N2", "PPPPPPPP", "RNBQKB1R"], "b", "KQkq", "-", "1", "1")
  /** 1.e4 e5, the open game. */
  const OpenGame := FenFields(["rnbqkbnr", "pppp1ppp", "8", "4p3", "4P3", "8", "PPPP1PPP", "RNBQKBNR"], "w", "KQkq", "e6", "0", "2")
  /** 1.e4 c5, the Sicilian defence. */
  const Sicilian := FenFields(["rnbqkbnr", "pp1ppppp", "8", "2p5", "4P3", "8", "PPPP1PPP", "RNBQKBNR"], "w", "KQkq", "c6", "0", "2")
  /** 1.d4 d5, the closed game. */
  const ClosedGame := FenFields(["rnbqkbnr", "ppp1pppp", "8", "3p4", "3P4", "8", "PPP1PPPP", "RNBQKBNR"], "w", "KQkq", "d6", "0", "2")
  /** 1.d4 Nf6, the Indian defences. */
  const IndianDefence := FenFields(["rnbqkb1r", "pppppppp", "5n2", "8", "3P4", "8", "PPP1PPPP", "RNBQKBNR"], "w", "KQkq", "-", "1", "2")

  const OpeningFields := [StartPosition, AfterE4, AfterD4, AfterC4, AfterNf3, OpenGame, Sicilian, ClosedGame, IndianDefence]

  /** getCommonOpenings: nine positions, the starting position first. */
  function CommonOpenings(): (r: seq<string>)
    ensures |r| == |OpeningFields| == 9
    ensures forall i :: 0 <= i < |r| ==> r[i] == FenText(OpeningFields[i])
  {
    seq(|OpeningFields|, i requires 0 <= i < |OpeningFields| => FenText(OpeningFields[i]))
  }

  lemma StartPositionWellFormed() ensures WellFormed(StartPosition) { }
  lemma AfterE4WellFormed() ensures WellFormed(AfterE4) { }
  lemma AfterD4WellFormed() ensures WellFormed(AfterD4) { }
  lemma AfterC4WellFormed() ensures WellFormed(AfterC4) { }
  lemma AfterNf3WellFormed() ensures WellFormed(AfterNf3) { }
  lemma OpenGameWellFormed() ensures WellFormed(OpenGame) { }
  lemma SicilianWellFormed() ensures WellFormed(Sicilian) { }
  lemma ClosedGameWellFormed() ensures WellFormed(ClosedGame) { }
  lemma IndianDefenceWellFormed() ensures WellFormed(IndianDefence) { }

  /** The fields of every common opening are well formed. */
  lemma OpeningFieldsWellFormed()
    ensures forall i :: 0 <= i < |OpeningFields| ==> WellFormed(OpeningFields[i])
  {
    StartPositionWellFormed();
    AfterE4WellFormed();
    AfterD4WellFormed();
    AfterC4WellFormed();
    AfterNf3WellFormed();
    OpenGameWellFormed();
    SicilianWellFormed();
    ClosedGameWellFormed();
    IndianDefenceWellFormed();
  }

  /** Every common opening passes isValidFEN, and the first is the starting position with white to move. */
  lemma CommonOpeningsValid()
    ensures CommonOpenings()[0] == FenText(StartPosition) && StartPosition.side == "w"
    ensures forall i :: 0 <= i < |CommonOpenings()| ==> IsValidFen(Some(CommonOpenings()[i]))
  {
    OpeningFieldsWellFormed();
    forall i | 0 <= i < |OpeningFields| ensures IsValidFen(Some(FenText(OpeningFields[i]))) {
      FenTextValid(OpeningFields[i]);
    }
  }
}
