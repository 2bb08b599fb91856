/** The board update of `move` and `handlingSpecialMoves`, as functions of a board value. */
module MoveExecution {

  import opened Wrappers
  import opened JsNumbers
  import opened Models
  import opened Pieces
  import opened BoardBasics
  import opened MoveGeneration

  /** The castling branch of `handlingSpecialMoves` fires. */
  predicate IsCastling(piece: Piece, py: int, ny: int)
  {
    piece.kind == King && Abs(ny - py) == 2
  }

  /** The en-passant branch fires: a Pawn moves from the rank a Pawn just reached by a
      two-rank move, onto that Pawn's file. */
  predicate IsEnPassantCapture(last: Option<LastMove>, piece: Piece, px: int, ny: int)
  {
    && piece.kind == Pawn
    && last.Some?
    && last.value.piece.kind == Pawn
    && Abs(last.value.currX - last.value.prevX) == 2
    && px == last.value.currX
    && ny == last.value.currY
  }

  /** After any last move other than a two-rank Pawn move, the en-passant branch of
      `handlingSpecialMoves` does not fire. */
  lemma ShortPawnMovesNoCapture(last: Option<LastMove>, piece: Piece, px: int, ny: int)
    requires PawnMovesShort(last)
    ensures !IsEnPassantCapture(last, piece, px, ny)
  {
  }

  /** The corner a castling King takes its Rook from, and the file the Rook goes to. */
  function RookCorner(py: int, ny: int): int
  {
    if ny > py then 7 else 0
  }

  function RookTarget(py: int, ny: int): int
  {
    if ny > py then 5 else 3
  }

  /** The `hasMoved` setter applied to whatever stands on a square. */
  function MarkSquare(s: Square): (r: Square)
    ensures r.Some? <==> s.Some?
    ensures s.Some? ==> r.value == MarkMoved(s.value)
  {
    match s
    case None => None
    case Some(p) => Some(MarkMoved(p))
  }

  /** `handlingSpecialMoves`: the Rook of a castling move goes next to the King's
      destination, marked as moved; an en-passant capture empties the captured Pawn's
      square. */
  function SpecialMoves(b: Board, last: Option<LastMove>, piece: Piece, px: int, py: int, nx: int, ny: int): Board
    requires InRange(px, py) && LastMoveInRange(last)
  {
    if IsCastling(piece, py, ny) then
      var ry, rny := RookCorner(py, ny), RookTarget(py, ny);
      Put(Put(b, px, ry, None), px, rny, MarkSquare(b[px][ry]))
    else if IsEnPassantCapture(last, piece, px, ny) then
      Put(b, last.value.currX, last.value.currY, None)
    else b
  }

  /** A square touched by the move: origin, destination, the castling Rook's two squares
      or the captured Pawn's square. */
  predicate Touched(b: Board, last: Option<LastMove>, px: int, py: int, nx: int, ny: int, i: int, j: int)
    requires InRange(px, py) && InRange(nx, ny) && b[px][py].Some? && LastMoveInRange(last)
  {
    var piece := b[px][py].value;
    || (i == px && j == py)
    || (i == nx && j == ny)
    || (IsCastling(piece, py, ny) && i == px && (j == RookCorner(py, ny) || j == RookTarget(py, ny)))
    || (!IsCastling(piece, py, ny) && IsEnPassantCapture(last, piece, px, ny)
        && i == last.value.currX && j == last.value.currY)
  }

  /** The board after `move(px, py, nx, ny)`: the destination holds the moved piece,
      marked as moved; the origin is empty unless it is the destination; the special
      moves act on their squares; every other square is unchanged. */
  function AfterMove(b: Board, last: Option<LastMove>, px: int, py: int, nx: int, ny: int): (r: Board)
    requires InRange(px, py) && InRange(nx, ny) && b[px][py].Some? && LastMoveInRange(last)
    ensures r[nx][ny] == Some(MarkMoved(b[px][py].value))
    ensures (px, py) != (nx, ny) ==> r[px][py] == None
    ensures forall i, j | InRange(i, j) && !Touched(b, last, px, py, nx, ny, i, j) :: r[i][j] == b[i][j]
  {
    var piece := MarkMoved(b[px][py].value);
    var b1 := SpecialMoves(b, last, piece, px, py, nx, ny);
    Put(Put(b1, px, py, None), nx, ny, Some(piece))
  }

  /** A King's destination two files away is a castling move allowed by `canCastle`: the
      King stands on file 4 of its home rank, an unmoved Rook stands in the corner on that
      side, and the move leaves that Rook, marked as moved, on the square the King
      crosses, with the corner emptied. */
  lemma CastlingMoveFindsRook(b: Board, check: CheckState, last: Option<LastMove>, x: int, y: int, ny: int)
    requires InRange(x, y) && b[x][y].Some? && b[x][y].value.kind == King && LastMoveInRange(last)
    requires UnmovedKingsHome(b)
    requires Coords(x, ny) in PieceDests(b, check, last, x, y) && Abs(ny - y) == 2
    ensures x == HomeRank(b[x][y].value.colour) && y == 4 && (ny == 6 || ny == 2)
    ensures CastlingAllowed(b, check, b[x][y].value, ny == 6)
    ensures var corner := b[x][RookCorner(y, ny)];
      corner.Some? && corner.value.kind == Rook && !corner.value.hasMoved
    ensures var r := AfterMove(b, last, x, y, x, ny);
      && r[x][RookCorner(y, ny)] == None
      && r[x][RookTarget(y, ny)] == Some(MarkMoved(b[x][RookCorner(y, ny)].value))
      && r[x][RookTarget(y, ny)].value.hasMoved
      && r[x][ny] == Some(MarkMoved(b[x][y].value))
  {
    KingDestsShape(b, check, last, x, y);
  }

  /** The invariant that an unmoved King stands on its home square survives every move. */
  lemma AfterMoveKeepsKingsHome(b: Board, last: Option<LastMove>, px: int, py: int, nx: int, ny: int)
    requires InRange(px, py) && InRange(nx, ny) && b[px][py].Some? && LastMoveInRange(last)
    requires UnmovedKingsHome(b)
    ensures UnmovedKingsHome(AfterMove(b, last, px, py, nx, ny))
  {
    var r := AfterMove(b, last, px, py, nx, ny);
    forall i, j | 0 <= i < 8 && 0 <= j < 8 && r[i][j].Some? && r[i][j].value.kind == King && !r[i][j].value.hasMoved
      ensures i == HomeRank(r[i][j].value.colour) && j == 4
    {
      assert r[i][j] == b[i][j];
    }
  }
}
