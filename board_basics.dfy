/** The board of the rules engine: an 8x8 grid of optional pieces, indexed [x][y] with x
    the rank (0 is White's back rank) and y the file; plus the last-move record, the check
    state, the string keys of the legal-destination map and the read-only board view. */
module BoardBasics {

  import opened Wrappers
  import opened JsNumbers
  import opened Models
  import opened Pieces

  type Square = Option<Piece>

  const EmptyRow: seq<Square> := [None, None, None, None, None, None, None, None]

  type Board = b: seq<seq<Square>> | |b| == 8 && forall i | 0 <= i < 8 :: |b[i]| == 8
    witness [EmptyRow, EmptyRow, EmptyRow, EmptyRow, EmptyRow, EmptyRow, EmptyRow, EmptyRow]

  /** `areCoordsValid`. */
  predicate InRange(x: int, y: int)
  {
    0 <= x < 8 && 0 <= y < 8
  }

  /** One cell write `chessBoard[x][y] = s`. */
  function Put(b: Board, x: int, y: int, s: Square): (r: Board)
    requires InRange(x, y)
    ensures forall i, j | 0 <= i < 8 && 0 <= j < 8 :: r[i][j] == if i == x && j == y then s else b[i][j]
  {
    b[x := b[x][y := s]]
  }

  /** Two boards are equal when their 64 cells are. */
  lemma BoardsEqual(a: Board, b: Board)
    requires forall i, j | 0 <= i < 8 && 0 <= j < 8 :: a[i][j] == b[i][j]
    ensures a == b
  {
    forall i | 0 <= i < 8
      ensures a[i] == b[i]
    {
      assert forall j | 0 <= j < 8 :: a[i][j] == b[i][j];
    }
  }

  predicate HasPiece(s: Square, kind: Kind, colour: Colour)
  {
    s.Some? && s.value.kind == kind && s.value.colour == colour
  }

  predicate OwnedBy(s: Square, colour: Colour)
  {
    s.Some? && s.value.colour == colour
  }

  /** `isSquareDark`, with JavaScript's truncating `%`. */
  predicate IsSquareDark(x: int, y: int)
  {
    (JsRem(x, 2) == 0 && JsRem(y, 2) == 0) || (JsRem(x, 2) == 1 && JsRem(y, 2) == 1)
  }

  /** On the board a square is dark exactly when its rank and file have the same parity;
      off the board the truncating `%` makes odd negative coordinates never dark. */
  lemma SquareDarkIffSameParity(x: int, y: int)
    ensures x >= 0 && y >= 0 ==> (IsSquareDark(x, y) <==> x % 2 == y % 2)
    ensures x < 0 && x % 2 == 1 ==> !IsSquareDark(x, y)
  {
  }

  /** A Bishop step keeps the shade of the square: every Bishop vector changes both
      coordinates by one. */
  lemma BishopStepKeepsShade(x: int, y: int, d: Coords)
    requires InRange(x, y) && InRange(x + d.x, y + d.y)
    requires d in BishopTable
    ensures IsSquareDark(x, y) == IsSquareDark(x + d.x, y + d.y)
  {
    SquareDarkIffSameParity(x, y);
    SquareDarkIffSameParity(x + d.x, y + d.y);
  }

  /** `LastMove`: the moved piece and where it came from and went to. */
  datatype LastMove = LastMove(piece: Piece, prevX: int, prevY: int, currX: int, currY: int)

  predicate LastMoveInRange(m: Option<LastMove>)
  {
    m.Some? ==> InRange(m.value.prevX, m.value.prevY) && InRange(m.value.currX, m.value.currY)
  }

  /** `CheckState`: `{isInCheck: false}` or `{isInCheck: true, x, y}`. */
  datatype CheckState = NotInCheck | InCheckAt(x: int, y: int)

  /** `columns`: the file letters. */
  const Columns: string := "abcdefgh"

  /** Rank on which a colour's King and Rooks start. */
  function HomeRank(colour: Colour): int
  {
    if colour == White then 0 else 7
  }

  /** One rank forward for a colour. */
  function Forward(colour: Colour): int
  {
    if colour == White then 1 else -1
  }

  /** Key of an origin in the legal-destination map: `x + "," + y`. */
  function Key(x: int, y: int): string
  {
    IntToString(x) + "," + IntToString(y)
  }

  /** On the board a key is three characters, and different squares have different keys. */
  lemma KeyInjective(x1: int, y1: int, x2: int, y2: int)
    requires InRange(x1, y1) && InRange(x2, y2)
    ensures Key(x1, y1) == [DigitChar(x1), ',', DigitChar(y1)]
    ensures Key(x1, y1) == Key(x2, y2) <==> x1 == x2 && y1 == y2
  {
    SingleDigitString(x1);
    SingleDigitString(y1);
    SingleDigitString(x2);
    SingleDigitString(y2);
    if Key(x1, y1) == Key(x2, y2) {
      assert Key(x1, y1)[0] == Key(x2, y2)[0];
      assert Key(x1, y1)[2] == Key(x2, y2)[2];
    }
  }

  function SquareView(s: Square): Option<FenChar>
  {
    if s.Some? then Some(FenCharOf(s.value.kind, s.value.colour)) else None
  }

  function RowView(row: seq<Square>): (v: seq<Option<FenChar>>)
    ensures |v| == |row|
    ensures forall j | 0 <= j < |row| :: v[j] == SquareView(row[j])
  {
    if row == [] then [] else [SquareView(row[0])] + RowView(row[1..])
  }

  /** `chessBoardView`: the FEN letter of every occupied cell, null for an empty one. */
  function BoardView(b: Board): (v: seq<seq<Option<FenChar>>>)
    ensures |v| == 8
    ensures forall i | 0 <= i < 8 :: v[i] == RowView(b[i])
  {
    seq(8, i requires 0 <= i < 8 => RowView(b[i]))
  }

  function BackRank(colour: Colour): seq<Square>
  {
    [Some(NewPiece(Rook, colour)), Some(NewPiece(Knight, colour)), Some(NewPiece(Bishop, colour)),
     Some(NewPiece(Queen, colour)), Some(NewPiece(King, colour)), Some(NewPiece(Bishop, colour)),
     Some(NewPiece(Knight, colour)), Some(NewPiece(Rook, colour))]
  }

  function PawnRank(colour: Colour): seq<Square>
  {
    seq(8, _ => Some(NewPiece(Pawn, colour)))
  }

  /** The board the constructor sets up. */
  function InitialBoard(): Board
  {
    [BackRank(White), PawnRank(White), EmptyRow, EmptyRow,
     EmptyRow, EmptyRow, PawnRank(Black), BackRank(Black)]
  }

  /** A King that has not moved stands on its home square (rank HomeRank, file 4). */
  ghost predicate UnmovedKingsHome(b: Board)
  {
    forall x, y | 0 <= x < 8 && 0 <= y < 8 ::
      b[x][y].Some? && b[x][y].value.kind == King && !b[x][y].value.hasMoved ==>
        x == HomeRank(b[x][y].value.colour) && y == 4
  }

  lemma InitialBoardKingsHome()
    ensures UnmovedKingsHome(InitialBoard())
  {
  }
}
