/** `FENConverter`: the position as a Forsyth–Edwards Notation string (section 16.1 of the
    PGN standard) — piece placement, active colour, castling, en-passant target, halfmove
    and fullmove fields — with the castling and en-passant fields computed the way the
    converter computes them. */
module FenConverter {

  import opened Wrappers
  import opened JsNumbers
  import opened Models
  import opened Pieces
  import opened BoardBasics
  import ChessBoardState

  // ---------------------------------------------------------------------------------
  // Splitting a string at a separator: the reader the fields are checked against.
  // ---------------------------------------------------------------------------------

  /** The position of the last occurrence of sep in s, or -1 when there is none. */
  function LastSep(s: string, sep: char): (r: int)
    ensures -1 <= r < |s|
    ensures r >= 0 ==> s[r] == sep
    ensures forall j | r < j < |s| :: s[j] != sep
    decreases |s|
  {
    if s == [] then -1
    else if s[|s| - 1] == sep then |s| - 1
    else LastSep(s[..|s| - 1], sep)
  }

  /** The pieces of s between occurrences of sep (`s.split(sep)`), cut off from the end. */
  function Split(s: string, sep: char): (r: seq<string>)
    ensures |r| >= 1
    decreases |s|
  {
    var i := LastSep(s, sep);
    if i < 0 then [s] else Split(s[..i], sep) + [s[i + 1..]]
  }

  /** A string without the separator is one piece. */
  lemma SplitNoSep(s: string, sep: char)
    requires sep !in s
    ensures Split(s, sep) == [s]
  {
  }

  /** A separator followed by a piece without one: the piece is the last field. */
  lemma SplitLast(a: string, b: string, sep: char)
    requires sep !in b
    ensures Split(a + [sep] + b, sep) == Split(a, sep) + [b]
  {
    var s := a + [sep] + b;
    var i := LastSep(s, sep);
    assert s[|a|] == sep;
    assert i == |a|;
    assert s[..i] == a;
    assert s[i + 1..] == b;
  }

  /** Six fields without the separator, joined by it, split back into the six fields. */
  lemma SplitSixFields(f0: string, f1: string, f2: string, f3: string, f4: string, f5: string, sep: char)
    requires sep !in f0 && sep !in f1 && sep !in f2 && sep !in f3 && sep !in f4 && sep !in f5
    ensures Split(f0 + [sep] + f1 + [sep] + f2 + [sep] + f3 + [sep] + f4 + [sep] + f5, sep)
      == [f0, f1, f2, f3, f4, f5]
  {
    var s1 := f0 + [sep] + f1;
    var s2 := s1 + [sep] + f2;
    var s3 := s2 + [sep] + f3;
    var s4 := s3 + [sep] + f4;
    SplitNoSep(f0, sep);
    SplitLast(f0, f1, sep);
    SplitLast(s1, f2, sep);
    SplitLast(s2, f3, sep);
    SplitLast(s3, f4, sep);
    SplitLast(s4, f5, sep);
  }

  // ---------------------------------------------------------------------------------
  // One rank.
  // ---------------------------------------------------------------------------------

  /** `String(k)` for a counter of pending empty squares, or nothing when it is zero. */
  function Pending(k: nat): string
  {
    if k == 0 then "" else IntToString(k)
  }

  /** The text of a rank given by its view (the FEN letter of each occupied square), with
      k empty squares already counted: each maximal run of empty squares becomes its
      length, each piece its letter. */
  function RankText(v: seq<Option<FenChar>>, k: nat): string
    decreases |v|
  {
    if v == [] then Pending(k)
    else if v[0].None? then RankText(v[1..], k + 1)
    else Pending(k) + [v[0].value.Letter()] + RankText(v[1..], 0)
  }

  function Nones(k: nat): (r: seq<Option<FenChar>>)
    ensures |r| == k
    ensures forall i | 0 <= i < k :: r[i] == None
  {
    seq(k, _ => None)
  }

  /** Reads a rank text back: a digit d stands for d empty squares, any other character
      for the FEN letter it is. */
  function ExpandRank(s: string): seq<Option<FenChar>>
    decreases |s|
  {
    if s == [] then []
    else if IsDigit(s[0]) then Nones(DigitValue(s[0])) + ExpandRank(s[1..])
    else [FenCharOfLetter(s[0])] + ExpandRank(s[1..])
  }

  lemma {:induction false} ExpandRankAppend(a: string, b: string)
    ensures ExpandRank(a + b) == ExpandRank(a) + ExpandRank(b)
    decreases |a|
  {
    if a == [] {
      assert a + b == b;
    } else {
      assert (a + b)[0] == a[0];
      assert (a + b)[1..] == a[1..] + b;
      ExpandRankAppend(a[1..], b);
      var head := if IsDigit(a[0]) then Nones(DigitValue(a[0])) else [FenCharOfLetter(a[0])];
      calc {
        ExpandRank(a + b);
        head + ExpandRank(a[1..] + b);
        head + (ExpandRank(a[1..]) + ExpandRank(b));
        (head + ExpandRank(a[1..])) + ExpandRank(b);
        ExpandRank(a) + ExpandRank(b);
      }
    }
  }

  lemma PendingExpands(k: nat)
    requires k < 10
    ensures ExpandRank(Pending(k)) == Nones(k)
  {
    if k > 0 {
      SingleDigitString(k);
      assert ExpandRank(Pending(k)) == Nones(k) + ExpandRank([]);
    }
  }

  /** A letter reads back as its FEN value. */
  lemma LetterExpands(f: FenChar)
    ensures ExpandRank([f.Letter()]) == [Some(f)]
  {
    LettersAreDistinct(f);
    assert ExpandRank([f.Letter()]) == [FenCharOfLetter(f.Letter())] + ExpandRank([]);
  }

  /** A pending count and a letter in front of a text that reads back as `rest` read back
      as the empty squares, the piece and `rest`. */
  lemma PieceExpands(k: nat, f: FenChar, text: string, rest: seq<Option<FenChar>>)
    requires k < 10 && ExpandRank(text) == rest
    ensures ExpandRank(Pending(k) + [f.Letter()] + text) == Nones(k) + [Some(f)] + rest
  {
    PendingExpands(k);
    LetterExpands(f);
    ExpandRankAppend(Pending(k), [f.Letter()]);
    ExpandRankAppend(Pending(k) + [f.Letter()], text);
  }

  lemma NonesStep(k: nat, v: seq<Option<FenChar>>)
    requires v != [] && v[0] == None
    ensures Nones(k + 1) + v[1..] == Nones(k) + v
  {
    assert Nones(k + 1) == Nones(k) + [None];
    assert v == [None] + v[1..];
  }

  /** The rank text reads back as the rank: no square is lost or invented, so the digits
      and letters of a rank stand for exactly its eight squares. */
  lemma {:induction false} RankTextRoundTrip(v: seq<Option<FenChar>>, k: nat)
    requires k + |v| <= 8
    ensures ExpandRank(RankText(v, k)) == Nones(k) + v
    decreases |v|
  {
    if v == [] {
      PendingExpands(k);
    } else if v[0].None? {
      RankTextRoundTrip(v[1..], k + 1);
      NonesStep(k, v);
    } else {
      RankTextRoundTrip(v[1..], 0);
      PieceExpands(k, v[0].value, RankText(v[1..], 0), v[1..]);
      assert v == [v[0]] + v[1..];
    }
  }

  /** A character a rank text may hold: a digit or a FEN letter. */
  predicate RankChar(c: char)
  {
    IsDigit(c) || FenCharOfLetter(c).Some?
  }

  /** The shape of a rank text: digits and FEN letters only, every digit 1 to 8, and no
      two digits side by side. */
  predicate WellFormedRank(s: string)
  {
    && (forall i | 0 <= i < |s| :: RankChar(s[i]))
    && (forall i | 0 <= i < |s| && IsDigit(s[i]) :: '1' <= s[i] <= '8')
    && (forall i | 0 <= i < |s| - 1 :: !(IsDigit(s[i]) && IsDigit(s[i + 1])))
  }

  lemma LetterIsNotDigit(f: FenChar)
    ensures !IsDigit(f.Letter()) && FenCharOfLetter(f.Letter()).Some?
  {
  }

  /** A well-formed rank text holds neither "/" nor a space. */
  lemma WellFormedRankHasNoSeparator(s: string)
    requires WellFormedRank(s)
    ensures '/' !in s && ' ' !in s
  {
  }

  /** The counter of pending squares prints as at most one digit, 1 to 8. */
  lemma PendingShape(k: nat)
    requires k <= 8
    ensures |Pending(k)| <= 1 && WellFormedRank(Pending(k))
    ensures k > 0 ==> |Pending(k)| == 1 && IsDigit(Pending(k)[0])
  {
    if k > 0 {
      SingleDigitString(k);
    }
  }

  /** A letter between two well-formed pieces, the first at most one digit long, keeps
      the text well formed. */
  lemma WellFormedAroundLetter(pre: string, c: char, rest: string)
    requires |pre| <= 1 && WellFormedRank(pre) && WellFormedRank(rest)
    requires !IsDigit(c) && FenCharOfLetter(c).Some?
    ensures WellFormedRank(pre + [c] + rest)
  {
    var s := pre + [c] + rest;
    var n := |pre| + 1;
    assert forall i | n <= i < |s| :: s[i] == rest[i - n];
    forall i | 0 <= i < |s| - 1
      ensures !(IsDigit(s[i]) && IsDigit(s[i + 1]))
    {
      if i + 1 < n - 1 {
      } else if i + 1 == n - 1 {
        assert s[i + 1] == c;
      } else if i == n - 1 {
        assert s[i] == c;
      } else {
        assert s[i] == rest[i - n] && s[i + 1] == rest[i + 1 - n];
      }
    }
  }

  /** Every rank text is well formed; with squares counted and pending it starts with a
      digit. */
  lemma {:induction false} RankTextShape(v: seq<Option<FenChar>>, k: nat)
    requires k + |v| <= 8
    ensures WellFormedRank(RankText(v, k))
    ensures k > 0 ==> |RankText(v, k)| > 0 && IsDigit(RankText(v, k)[0])
    decreases |v|
  {
    PendingShape(k);
    if v == [] {
    } else if v[0].None? {
      RankTextShape(v[1..], k + 1);
    } else {
      RankTextShape(v[1..], 0);
      LetterIsNotDigit(v[0].value);
      WellFormedAroundLetter(Pending(k), v[0].value.Letter(), RankText(v[1..], 0));
    }
  }

  // ---------------------------------------------------------------------------------
  // The placement field.
  // ---------------------------------------------------------------------------------

  /** The texts of the eight ranks, rank 0 first. */
  function RankTexts(b: Board): (r: seq<string>)
    ensures |r| == 8
    ensures forall i | 0 <= i < 8 :: r[i] == RankText(BoardView(b)[i], 0)
  {
    seq(8, i requires 0 <= i < 8 => RankText(BoardView(b)[i], 0))
  }

  /** Every rank text is well formed. */
  lemma RankTextsWellFormed(b: Board)
    ensures forall i | 0 <= i < 8 :: WellFormedRank(RankTexts(b)[i])
  {
    forall i | 0 <= i < 8
      ensures WellFormedRank(RankTexts(b)[i])
    {
      RankTextShape(BoardView(b)[i], 0);
    }
  }

  /** The text the converter has built when rank i is done: the texts of ranks 7 down to
      i, each followed by "/" unless it is rank 0. */
  function JoinRanks(rs: seq<string>, i: int): string
    requires |rs| == 8 && 0 <= i <= 8
    decreases 8 - i
  {
    if i == 8 then "" else JoinRanks(rs, i + 1) + rs[i] + (if i == 0 then "" else "/")
  }

  function Placement(b: Board): string
  {
    JoinRanks(RankTexts(b), 0)
  }

  /** The texts of ranks 7 down to i. */
  function Downward(rs: seq<string>, i: int): (r: seq<string>)
    requires |rs| == 8 && 0 <= i <= 8
    ensures |r| == 8 - i
    ensures forall k | 0 <= k < 8 - i :: r[k] == rs[7 - k]
  {
    seq(8 - i, k requires 0 <= k < 8 - i => rs[7 - k])
  }

  lemma {:induction false} JoinRanksSplits(rs: seq<string>, i: int, tail: string)
    requires |rs| == 8 && 1 <= i <= 8
    requires forall j | 0 <= j < 8 :: '/' !in rs[j]
    requires '/' !in tail
    ensures Split(JoinRanks(rs, i) + tail, '/') == Downward(rs, i) + [tail]
    decreases 8 - i
  {
    if i == 8 {
      assert JoinRanks(rs, i) + tail == tail;
      SplitNoSep(tail, '/');
    } else {
      JoinRanksSplits(rs, i + 1, rs[i]);
      assert JoinRanks(rs, i) + tail == (JoinRanks(rs, i + 1) + rs[i]) + ['/'] + tail;
      SplitLast(JoinRanks(rs, i + 1) + rs[i], tail, '/');
      assert Downward(rs, i) == Downward(rs, i + 1) + [rs[i]];
    }
  }

  lemma {:induction false} JoinRanksNoSpace(rs: seq<string>, i: int)
    requires |rs| == 8 && 0 <= i <= 8
    requires forall j | 0 <= j < 8 :: ' ' !in rs[j]
    ensures ' ' !in JoinRanks(rs, i)
    decreases 8 - i
  {
    if i < 8 {
      JoinRanksNoSpace(rs, i + 1);
    }
  }

  /** No rank text holds "/" or a space. */
  lemma RankTextsHaveNoSeparator(b: Board)
    ensures forall j | 0 <= j < 8 :: '/' !in RankTexts(b)[j] && ' ' !in RankTexts(b)[j]
  {
    RankTextsWellFormed(b);
    forall j | 0 <= j < 8
      ensures '/' !in RankTexts(b)[j] && ' ' !in RankTexts(b)[j]
    {
      WellFormedRankHasNoSeparator(RankTexts(b)[j]);
    }
  }

  /** Splitting the placement at "/" gives the rank texts from rank 7 down to rank 0. */
  lemma PlacementSplits(b: Board)
    ensures Split(Placement(b), '/') == Downward(RankTexts(b), 0)
    ensures ' ' !in Placement(b)
  {
    var rs := RankTexts(b);
    RankTextsHaveNoSeparator(b);
    assert Placement(b) == JoinRanks(rs, 1) + rs[0];
    JoinRanksSplits(rs, 1, rs[0]);
    JoinRanksNoSpace(rs, 0);
    assert Downward(rs, 0) == Downward(rs, 1) + [rs[0]];
  }

  /** The placement field is the eight rank texts from rank 7 down to rank 0, joined by
      "/": splitting it at "/" gives exactly eight pieces (so it holds seven "/" and none
      at the end), piece k reads back as rank 7 - k of the board, and it holds no space. */
  lemma PlacementReadsBack(b: Board)
    ensures |Split(Placement(b), '/')| == 8
    ensures forall k | 0 <= k < 8 :: ExpandRank(Split(Placement(b), '/')[k]) == BoardView(b)[7 - k]
    ensures ' ' !in Placement(b)
  {
    PlacementSplits(b);
    var parts := Split(Placement(b), '/');
    forall k | 0 <= k < 8
      ensures ExpandRank(parts[k]) == BoardView(b)[7 - k]
    {
      assert parts[k] == RankTexts(b)[7 - k];
      RankTextRoundTrip(BoardView(b)[7 - k], 0);
    }
  }

  // ---------------------------------------------------------------------------------
  // The other fields.
  // ---------------------------------------------------------------------------------

  /** `String.prototype.toUpperCase` on the ASCII letters used here. */
  function UpperString(s: string): (r: string)
    ensures |r| == |s|
    ensures forall i | 0 <= i < |s| :: r[i] == ToUpper(s[i])
  {
    seq(|s|, i requires 0 <= i < |s| => ToUpper(s[i]))
  }

  /** A square holds a piece of that kind, of either colour, whose flag is still false. */
  predicate UnmovedOfKind(s: Square, kind: Kind)
  {
    s.Some? && s.value.kind == kind && !s.value.hasMoved
  }

  /** `castlingPossibilities(colour)`: "q" when the square on file 4 of the colour's home
      rank holds an unmoved King and the corner of file 0 an unmoved Rook (neither colour
      is checked), upper-cased for White; the Rook on file 7 is read but never used. */
  function CastlingFor(b: Board, colour: Colour): string
  {
    var home := HomeRank(colour);
    if UnmovedOfKind(b[home][4], King) then
      var s := if UnmovedOfKind(b[home][0], Rook) then "q" else "";
      if colour == White then UpperString(s) else s
    else ""
  }

  /** `castlingAvailability`: White's part, then Black's, or "-" when both are empty. */
  function CastlingField(b: Board): string
  {
    var s := CastlingFor(b, White) + CastlingFor(b, Black);
    if s != "" then s else "-"
  }

  /** The queen-side castling rights the converter sees on a home rank. */
  predicate QueenSideIntact(b: Board, home: int)
    requires home == 0 || home == 7
  {
    UnmovedOfKind(b[home][4], King) && UnmovedOfKind(b[home][0], Rook)
  }

  /** The castling field is "Qq", "Q", "q" or "-" as rank 0, rank 7, both or neither have
      an unmoved King on file 4 and an unmoved Rook on file 0; it never offers king-side
      castling and holds no space. */
  lemma CastlingFieldMeaning(b: Board)
    ensures CastlingField(b) ==
      if QueenSideIntact(b, 0) && QueenSideIntact(b, 7) then "Qq"
      else if QueenSideIntact(b, 0) then "Q"
      else if QueenSideIntact(b, 7) then "q"
      else "-"
    ensures var f := CastlingField(b); 'K' !in f && 'k' !in f && ' ' !in f
  {
    assert UpperString("q") == "Q";
    assert UpperString("") == "";
  }

  /** `columns[y]`: the file letter, or the text of `undefined` off the board. */
  function ColumnText(y: int): string
  {
    if 0 <= y < 8 then [Columns[y]] else "undefined"
  }

  /** `enPassantPossibility`: after a Pawn moved two ranks, the file letter of the square
      it left and "6" when White is to move, "3" otherwise; "-" after any other move and
      before the first. */
  function EnPassantField(last: Option<LastMove>, colour: Colour): string
  {
    if last.Some? && last.value.piece.kind == Pawn && Abs(last.value.currX - last.value.prevX) == 2 then
      ColumnText(last.value.prevY) + IntToString(if colour == White then 6 else 3)
    else "-"
  }

  /** The en-passant field names a square exactly after a two-rank Pawn move: the file
      letter of the Pawn's origin, then the rank digit picked by the side to move. It
      holds no space. */
  lemma EnPassantFieldMeaning(last: Option<LastMove>, colour: Colour)
    ensures var f := EnPassantField(last, colour);
      var twoRanks := last.Some? && last.value.piece.kind == Pawn && Abs(last.value.currX - last.value.prevX) == 2;
      && (f == "-" <==> !twoRanks)
      && (twoRanks && 0 <= last.value.prevY < 8 ==>
            f == [Columns[last.value.prevY], if colour == White then '6' else '3'])
      && ' ' !in f
  {
    SingleDigitString(6);
    SingleDigitString(3);
  }

  /** No move the rules engine accepts moves a Pawn two ranks (its double step runs along
      the rank, see `MoveGeneration.PawnDestsOneRank`), so the en-passant field of every
      position the engine reaches is "-". */
  lemma EnPassantFieldOfEngine(game: ChessBoardState.ChessBoard)
    requires game.Valid()
    ensures EnPassantField(game.lastMove, game.playerColour) == "-"
  {
  }

  /** `convertBoardToFEN`: the six fields separated by single spaces; the halfmove field
      is twice the counter passed in and the fullmove field the number passed in. */
  function FenString(b: Board, colour: Colour, last: Option<LastMove>, fiftyMoveRuleCounter: int, fullNumberOfMoves: int): string
  {
    Placement(b)
    + " " + (if colour == White then "w" else "b")
    + " " + CastlingField(b)
    + " " + EnPassantField(last, colour)
    + " " + IntToString(fiftyMoveRuleCounter * 2)
    + " " + IntToString(fullNumberOfMoves)
  }

  /** `String(n)` holds no space. */
  lemma NumberHasNoSpace(n: int)
    ensures ' ' !in IntToString(n)
  {
  }

  /** Splitting the string at spaces gives back exactly the six fields. */
  lemma FenFields(b: Board, colour: Colour, last: Option<LastMove>, fiftyMoveRuleCounter: int, fullNumberOfMoves: int)
    ensures Split(FenString(b, colour, last, fiftyMoveRuleCounter, fullNumberOfMoves), ' ')
      == [Placement(b), if colour == White then "w" else "b", CastlingField(b), EnPassantField(last, colour),
          IntToString(fiftyMoveRuleCounter * 2), IntToString(fullNumberOfMoves)]
  {
    var f0, f1, f2 := Placement(b), if colour == White then "w" else "b", CastlingField(b);
    var f3, f4, f5 := EnPassantField(last, colour), IntToString(fiftyMoveRuleCounter * 2), IntToString(fullNumberOfMoves);
    assert ' ' !in f0 by { PlacementReadsBack(b); }
    assert ' ' !in f2 by { CastlingFieldMeaning(b); }
    assert ' ' !in f3 by { EnPassantFieldMeaning(last, colour); }
    assert ' ' !in f4 by { NumberHasNoSpace(fiftyMoveRuleCounter * 2); }
    assert ' ' !in f5 by { NumberHasNoSpace(fullNumberOfMoves); }
    SplitSixFields(f0, f1, f2, f3, f4, f5, ' ');
  }

  // ---------------------------------------------------------------------------------
  // The converter's loops.
  // ---------------------------------------------------------------------------------

  /** The rank loop of `convertBoardToFEN`: count empty squares, and write the count
      before the next piece's letter and at the end of the rank. */
  method ConvertRank(row: seq<Square>) returns (text: string)
    requires |row| == 8
    ensures text == RankText(RowView(row), 0)
  {
    ghost var v := RowView(row);
    text := "";
    var counter: nat := 0;
    for j := 0 to |row|
      invariant counter <= j
      invariant text + RankText(v[j..], counter) == RankText(v, 0)
    {
      assert v[j..][0] == v[j] && v[j..][1..] == v[j + 1..];
      var piece := row[j];
      if piece.None? {
        counter := counter + 1;
        continue;
      }
      if counter != 0 {
        text := text + IntToString(counter);
      }
      counter := 0;
      text := text + [FenCharOf(piece.value.kind, piece.value.colour).Letter()];
    }
    assert v[|row|..] == [];
    if counter != 0 {
      text := text + IntToString(counter);
    }
  }

  /** `convertBoardToFEN(board, playerColour, lastMove, fiftyMoveRuleCounter,
      fullNumberOfMoves)`. */
  method ConvertBoardToFEN(board: Board, playerColour: Colour, lastMove: Option<LastMove>,
                           fiftyMoveRuleCounter: int, fullNumberOfMoves: int) returns (fen: string)
    ensures fen == FenString(board, playerColour, lastMove, fiftyMoveRuleCounter, fullNumberOfMoves)
  {
    ghost var rs := RankTexts(board);
    fen := "";
    var i := 7;
    while i >= 0
      invariant -1 <= i <= 7
      invariant fen == JoinRanks(rs, i + 1)
    {
      var rowText := ConvertRank(board[i]);
      fen := fen + (if i == 0 then rowText else rowText + "/");
      i := i - 1;
    }
    var player := if playerColour == White then "w" else "b";
    fen := fen + " " + player;
    fen := fen + " " + CastlingField(board);
    fen := fen + " " + EnPassantField(lastMove, playerColour);
    fen := fen + " " + IntToString(fiftyMoveRuleCounter * 2);
    fen := fen + " " + IntToString(fullNumberOfMoves);
  }
}
