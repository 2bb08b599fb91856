/** The decoder of the engine's reply: a move in long algebraic notation ("e7e5", "b2b1q")
    read back into board coordinates and an optional promotion piece. */
module StockfishDecoder {

  import opened Wrappers
  import opened JsNumbers
  import opened Models
  import opened BoardBasics

  /** `ChessMove`: the rank and file of origin and destination and the promotion piece.
      Ranks go through `Number(...)`, so they may be NaN; files are character-code
      differences and always integral. */
  datatype ChessMove = ChessMove(prevX: JsNumber, prevY: int, newX: JsNumber, newY: int, promotedPiece: Option<FenChar>)

  /** What reading a character past the end of the string throws. */
  datatype DecodeError = TypeError

  /** `convertColumnLetterToYCoord`: the character code minus that of 'a'. */
  function ConvertColumnLetterToYCoord(c: char): (y: int)
    ensures 'a' <= c <= 'h' <==> 0 <= y < 8
    ensures 0 <= y < 8 ==> Columns[y] == c
  {
    c as int - 'a' as int
  }

  /** `promotedPiece`: nothing when there is no fifth character; "n", "r" and "b" give the
      Black Knight, Rook and Bishop, and every other character the Black Queen. */
  function PromotedPiece(piece: Option<char>): (r: Option<FenChar>)
    ensures r.None? <==> piece.None?
    ensures r.Some? ==> !r.value.IsWhite() && r.value.Letter() in "nrbq"
    ensures piece.Some? && piece.value in "nrbq" ==> r.value.Letter() == piece.value
    ensures piece.Some? && piece.value !in "nrb" ==> r == Some(BlackQueen)
  {
    if piece.None? then None
    else if piece.value == 'n' then Some(BlackKnight)
    else if piece.value == 'r' then Some(BlackRook)
    else if piece.value == 'b' then Some(BlackBishop)
    else Some(BlackQueen)
  }

  /** The character at i, or `undefined` past the end. */
  function CharAt(s: string, i: nat): (r: Option<char>)
    ensures r.Some? <==> i < |s|
    ensures i < |s| ==> r.value == s[i]
  {
    if i < |s| then Some(s[i]) else None
  }

  /** `Number(move[i]) - 1`: `Number(undefined)` is NaN. */
  function RankOf(c: Option<char>): (r: JsNumber)
    ensures c.Some? && '1' <= c.value <= '8' ==> r.Finite? && 0 <= r.value < 8
    ensures c.None? ==> r.NaN?
  {
    if c.None? then NaN else Minus(NumberOfChar(c.value), 1)
  }

  /** A move the engine writes: file letter and rank digit of origin and destination, and
      perhaps a promotion letter. */
  predicate WellFormedMove(move: string)
  {
    && (|move| == 4 || |move| == 5)
    && 'a' <= move[0] <= 'h' && '1' <= move[1] <= '8'
    && 'a' <= move[2] <= 'h' && '1' <= move[3] <= '8'
  }

  /** `moveFromStockfishString`: files from characters 0 and 2, ranks from characters 1
      and 3, the promotion piece from character 4; a string shorter than three characters
      makes `charCodeAt` be called on `undefined`, which throws. A well-formed move decodes
      to two squares on the board. */
  function MoveFromStockfishString(move: string): (r: Result<ChessMove, DecodeError>)
    ensures r.Failure? <==> |move| < 3
    ensures r.Success? ==> (r.value.promotedPiece.Some? <==> |move| >= 5)
    ensures WellFormedMove(move) ==>
      && r.Success? && r.value.prevX.Finite? && r.value.newX.Finite?
      && InRange(r.value.prevX.value, r.value.prevY)
      && InRange(r.value.newX.value, r.value.newY)
  {
    if |move| < 3 then Failure(TypeError)
    else
      var prevY := ConvertColumnLetterToYCoord(move[0]);
      var prevX := RankOf(CharAt(move, 1));
      var newY := ConvertColumnLetterToYCoord(move[2]);
      var newX := RankOf(CharAt(move, 3));
      Success(ChessMove(prevX, prevY, newX, newY, PromotedPiece(CharAt(move, 4))))
  }

  /** The text of a move from (px, py) to (nx, ny), with an optional promotion letter. */
  function MoveText(px: int, py: int, nx: int, ny: int, promotion: Option<char>): (s: string)
    requires InRange(px, py) && InRange(nx, ny)
    ensures WellFormedMove(s)
  {
    [Columns[py], DigitChar(px + 1), Columns[ny], DigitChar(nx + 1)]
      + (if promotion.Some? then [promotion.value] else [])
  }

  /** Decoding undoes writing: the coordinates come back as they were and the promotion
      letter gives the piece `promotedPiece` maps it to. */
  lemma MoveTextRoundTrip(px: int, py: int, nx: int, ny: int, promotion: Option<char>)
    requires InRange(px, py) && InRange(nx, ny)
    ensures MoveFromStockfishString(MoveText(px, py, nx, ny, promotion))
      == Success(ChessMove(Finite(px), py, Finite(nx), ny, PromotedPiece(promotion)))
  {
    var s := MoveText(px, py, nx, ny, promotion);
    assert s[0] == Columns[py] && s[2] == Columns[ny];
    assert CharAt(s, 1) == Some(DigitChar(px + 1)) && CharAt(s, 3) == Some(DigitChar(nx + 1));
    assert CharAt(s, 4) == promotion;
  }
}
