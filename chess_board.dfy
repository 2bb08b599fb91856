/** The `ChessBoard` class: the board, the side to move, the legal-destination map, the
    last move and the check state, updated in place by `move`. Each method is proved to
    compute the function of the board value that specifies it. */
module ChessBoardState {

  import opened Wrappers
  import opened JsNumbers
  import opened Models
  import opened Pieces
  import opened BoardBasics
  import opened Attacks
  import opened MoveGeneration
  import opened MoveExecution

  /** What `move` does with a request: ignores it (off the board, empty square or a piece
      of the side not to move), refuses it with the error the source throws, or plays it. */
  datatype MoveOutcome = Ignored | Moved | Failed(message: string)

  function Opponent(colour: Colour): (r: Colour)
    ensures r != colour
  {
    if colour == White then Black else White
  }

  /** `move` returns without doing anything: a coordinate is off the board, or the origin
      holds no piece of the side to move. */
  predicate MoveIgnored(b: Board, colour: Colour, px: int, py: int, nx: int, ny: int)
  {
    !InRange(px, py) || !InRange(nx, ny) || !OwnedBy(b[px][py], colour)
  }

  /** The destination is listed under the origin's key in the legal-destination map. */
  predicate Listed(m: map<string, seq<Coords>>, px: int, py: int, nx: int, ny: int)
  {
    Key(px, py) in m && Coords(nx, ny) in m[Key(px, py)]
  }

  /** A move found in the legal-destination map of a position is one of the piece's
      destinations. */
  lemma ListedIsDest(b: Board, colour: Colour, check: CheckState, last: Option<LastMove>,
                     m: map<string, seq<Coords>>, px: int, py: int, nx: int, ny: int)
    requires LastMoveInRange(last)
    requires m == SafeSquareMap(b, colour, check, last)
    requires !MoveIgnored(b, colour, px, py, nx, ny) && Listed(m, px, py, nx, ny)
    ensures Coords(nx, ny) in PieceDests(b, check, last, px, py)
  {
    SafeSquareMapKeys(b, colour, check, last);
  }

  /** In a position the engine reaches, every move the legal-destination map lists leaves
      the mover's King out of check: `move` never plays an unsafe move. */
  lemma ListedIsSafe(b: Board, colour: Colour, check: CheckState, last: Option<LastMove>,
                     m: map<string, seq<Coords>>, px: int, py: int, nx: int, ny: int)
    requires LastMoveInRange(last) && UnmovedKingsHome(b) && PawnMovesShort(last)
    requires m == SafeSquareMap(b, colour, check, last)
    requires !MoveIgnored(b, colour, px, py, nx, ny) && Listed(m, px, py, nx, ny)
    ensures SafeAfterMove(b, b[px][py].value, px, py, nx, ny)
  {
    ListedIsDest(b, colour, check, last, m, px, py, nx, ny);
    PieceDestsSafe(b, check, last, px, py);
  }

  /** A Pawn's move to one of its destinations changes rank by at most one. */
  lemma DestKeepsPawnMovesShort(b: Board, check: CheckState, last: Option<LastMove>, px: int, py: int, nx: int, ny: int)
    requires InRange(px, py) && b[px][py].Some? && LastMoveInRange(last)
    requires Coords(nx, ny) in PieceDests(b, check, last, px, py)
    ensures PawnMovesShort(Some(LastMove(MarkMoved(b[px][py].value), px, py, nx, ny)))
  {
    if b[px][py].value.kind == Pawn {
      PawnDestsOneRank(b, check, last, px, py);
    }
  }

  class ChessBoard {
    var board: Board
    var playerColour: Colour
    var safeSquares: map<string, seq<Coords>>
    var lastMove: Option<LastMove>
    var checkState: CheckState

    ghost predicate Valid()
      reads this
    {
      && LastMoveInRange(lastMove)
      && UnmovedKingsHome(board)
      && PawnMovesShort(lastMove)
      && safeSquares == SafeSquareMap(board, playerColour, checkState, lastMove)
    }

    /** The attack examined from square (x, y): the per-piece body of `isInCheck`. */
    method SquareAttack(x: int, y: int, colour: Colour) returns (hit: Option<Coords>)
      requires InRange(x, y)
      ensures hit == PieceHit(board, colour, x, y)
    {
      var square := board[x][y];
      if square.None? || square.value.colour == colour {
        return None;
      }
      var piece := square.value;
      DirectionsNonZero(piece.kind, piece.colour);
      hit := VectorsAttack(x, y, piece, Directions(piece.kind, piece.colour), colour);
    }

    /** The direction loop of `isInCheck` for the piece on (x, y), with its ray walk:
        only a Pawn, Knight or King walks its vectors, and a Pawn skips those with dy = 0. */
    method VectorsAttack(x: int, y: int, piece: Piece, directions: seq<Coords>, colour: Colour) returns (hit: Option<Coords>)
      requires InRange(x, y) && NonZeroVectors(directions)
      ensures hit == if StepsOnce(piece.kind) then DirectionsHit(board, colour, x, y, piece, directions, 0) else None
    {
      for i := 0 to |directions|
        invariant StepsOnce(piece.kind) ==>
          DirectionsHit(board, colour, x, y, piece, directions, 0) == DirectionsHit(board, colour, x, y, piece, directions, i)
      {
        var d := directions[i];
        var newX, newY := x + d.x, y + d.y;
        if !InRange(newX, newY) {
          continue;
        }
        if StepsOnce(piece.kind) {
          if piece.kind == Pawn && d.y == 0 {
            continue;
          }
          if IsKingOf(board[newX][newY], colour) {
            return Some(Coords(newX, newY));
          }
          while InRange(newX, newY)
            invariant FirstOccupied(board, x + d.x, y + d.y, d) == FirstOccupied(board, newX, newY, d)
            decreases RayMeasure(newX, newY, d)
          {
            if IsKingOf(board[newX][newY], colour) {
              return Some(Coords(newX, newY));
            }
            if board[newX][newY].Some? {
              break;
            }
            newX, newY := newX + d.x, newY + d.y;
          }
        }
      }
      return None;
    }

    /** `isInCheck(colour, checking)`: whether an opposing piece attacks the King of
        `colour`; when `checking`, the check state records the attacked square. */
    method IsInCheck(colour: Colour, checking: bool) returns (r: bool)
      modifies this`checkState
      ensures r == InCheck(board, colour)
      ensures checking ==> checkState == CheckStateOf(board, colour)
      ensures !checking ==> checkState == old(checkState)
    {
      for x := 0 to 8
        invariant CheckScan(board, colour) == ScanFrom(board, colour, x, 0)
        invariant checkState == old(checkState)
      {
        for y := 0 to 8
          invariant CheckScan(board, colour) == ScanFrom(board, colour, x, y)
          invariant checkState == old(checkState)
        {
          var hit := SquareAttack(x, y, colour);
          if hit.Some? {
            if checking {
              checkState := InCheckAt(hit.value.x, hit.value.y);
            }
            return true;
          }
        }
      }
      if checking {
        checkState := NotInCheck;
      }
      return false;
    }

    /** `isPositionSafeAfterMove`: the piece is put on the destination, the origin
        emptied, the check test run, and the two squares written back; the origin gets
        the piece passed in, so the board is restored when that piece stood there. */
    method IsPositionSafeAfterMove(piece: Piece, prevX: int, prevY: int, newX: int, newY: int) returns (safe: bool)
      requires InRange(prevX, prevY) && InRange(newX, newY)
      modifies this`board, this`checkState
      ensures safe == SafeAfterMove(old(board), piece, prevX, prevY, newX, newY)
      ensures checkState == old(checkState)
      ensures OwnedBy(old(board)[newX][newY], piece.colour) ==> board == old(board)
      ensures !OwnedBy(old(board)[newX][newY], piece.colour) ==>
        board == Put(Put(old(board), prevX, prevY, Some(piece)), newX, newY, old(board)[newX][newY])
      ensures old(board)[prevX][prevY] == Some(piece) ==> board == old(board)
    {
      var newPiece := board[newX][newY];
      if OwnedBy(newPiece, piece.colour) {
        return false;
      }
      board := Put(board, prevX, prevY, None);
      board := Put(board, newX, newY, Some(piece));
      assert board == Speculate(old(board), piece, prevX, prevY, newX, newY);
      var inCheck := IsInCheck(piece.colour, false);
      safe := !inCheck;
      board := Put(board, prevX, prevY, Some(piece));
      board := Put(board, newX, newY, newPiece);
      forall i, j | 0 <= i < 8 && 0 <= j < 8
        ensures board[i][j] == Put(Put(old(board), prevX, prevY, Some(piece)), newX, newY, newPiece)[i][j]
      {
      }
      BoardsEqual(board, Put(Put(old(board), prevX, prevY, Some(piece)), newX, newY, newPiece));
      if old(board)[prevX][prevY] == Some(piece) {
        BoardsEqual(board, old(board));
      }
    }

    /** `canCaptureEnPassant(pawn, pawnX, pawnY)`: the captured Pawn is lifted for the
        safety test and put back. */
    method CanCaptureEnPassant(pawn: Piece, pawnX: int, pawnY: int) returns (r: bool)
      requires InRange(pawnX, pawnY) && LastMoveInRange(lastMove) && board[pawnX][pawnY] == Some(pawn)
      modifies this`board, this`checkState
      ensures r == EnPassantAllowed(old(board), lastMove, pawn, pawnX, pawnY)
      ensures board == old(board) && checkState == old(checkState)
    {
      if lastMove.None? {
        return false;
      }
      var m := lastMove.value;
      if m.piece.kind != Pawn || Abs(m.currX - m.prevX) != 2 {
        return false;
      }
      if pawnX != m.currX || Abs(pawnY - m.currY) != 1 {
        return false;
      }
      if m.piece.colour == pawn.colour {
        return false;
      }
      if (pawn.colour == White && pawnX != 4) || (pawn.colour == Black && pawnX != 3) {
        return false;
      }
      var newX, newY := pawnX + Forward(pawn.colour), m.currY;
      var captured := board[m.currX][m.currY];
      board := Put(board, m.currX, m.currY, None);
      r := IsPositionSafeAfterMove(pawn, pawnX, pawnY, newX, newY);
      board := Put(board, m.currX, m.currY, captured);
      BoardsEqual(board, old(board));
    }

    /** `canCastle(king, kingSide)`: the squares are those of the King's home rank, so the
        speculative moves start from file 4 there. */
    method CanCastle(king: Piece, kingSide: bool) returns (r: bool)
      requires !king.hasMoved ==> board[HomeRank(king.colour)][4] == Some(king)
      modifies this`board, this`checkState
      ensures r == CastlingAllowed(old(board), checkState, king, kingSide)
      ensures board == old(board) && checkState == old(checkState)
    {
      if king.hasMoved {
        return false;
      }
      var kingX, kingY := HomeRank(king.colour), 4;
      var rookX, rookY := kingX, if kingSide then 7 else 0;
      var rook := board[rookX][rookY];
      if !(rook.Some? && rook.value.kind == Rook) || rook.value.hasMoved || checkState.InCheckAt? {
        return false;
      }
      var firstY := kingY + (if kingSide then 1 else -1);
      var secondY := kingY + (if kingSide then 2 else -2);
      if board[kingX][firstY].Some? || board[kingX][secondY].Some? {
        return false;
      }
      if !kingSide && board[kingX][1].Some? {
        return false;
      }
      r := IsPositionSafeAfterMove(king, kingX, kingY, kingX, firstY);
      if r {
        r := IsPositionSafeAfterMove(king, kingX, kingY, kingX, secondY);
      }
    }

    /** The direction loop of `findSafeSquares` for the piece on (x, y). */
    method VectorsDests(x: int, y: int, piece: Piece, directions: seq<Coords>) returns (dests: seq<Coords>)
      requires InRange(x, y) && NonZeroVectors(directions) && board[x][y] == Some(piece)
      modifies this`board, this`checkState
      ensures board == old(board) && checkState == old(checkState)
      ensures dests == DirectionsDests(board, piece, x, y, directions, |directions|, SafeTest(board, piece, x, y))
    {
      dests := [];
      for i := 0 to |directions|
        invariant board == old(board) && checkState == old(checkState)
        invariant dests == DirectionsDests(board, piece, x, y, directions, i, SafeTest(board, piece, x, y))
      {
        var found := VectorDests(x, y, piece, directions[i]);
        dests := dests + found;
      }
    }

    /** One pass of that loop, for the vector d: the Pawn filters, one safety test for a
        Pawn, Knight or King, the slide for the others. */
    method VectorDests(x: int, y: int, piece: Piece, d: Coords) returns (found: seq<Coords>)
      requires InRange(x, y) && d != Coords(0, 0) && board[x][y] == Some(piece)
      modifies this`board, this`checkState
      ensures board == old(board) && checkState == old(checkState)
      ensures found == DirectionDests(board, piece, x, y, d, SafeTest(board, piece, x, y))
    {
      ghost var safeTest := SafeTest(board, piece, x, y);
      var newX, newY := x + d.x, y + d.y;
      if !InRange(newX, newY) {
        return [];
      }
      var newPiece := board[newX][newY];
      if OwnedBy(newPiece, piece.colour) {
        return [];
      }
      if piece.kind == Pawn {
        if d.x == 2 || d.x == -2 {
          if newPiece.Some? {
            return [];
          }
          if board[newX + (if d.x == 2 then -1 else 1)][newY].Some? {
            return [];
          }
        }
        if (d.x == 1 || d.x == -1) && d.y == 0 && newPiece.Some? {
          return [];
        }
        if (d.y == 1 || d.y == -1) && (newPiece.None? || piece.colour == newPiece.value.colour) {
          return [];
        }
      }
      found := [];
      if StepsOnce(piece.kind) {
        var safe := IsPositionSafeAfterMove(piece, x, y, newX, newY);
        SafeTestMeans(board, piece, x, y, newX, newY);
        if safe {
          found := [Coords(newX, newY)];
        }
      } else {
        found := SlideSquares(x, y, piece, d);
      }
    }

    /** The sliding half of the vector loop of `findSafeSquares`: walk along d from
        the square next to (x, y), stop before a piece of the mover's colour, keep each
        square that is safe to move to, stop after the first occupied square. */
    method SlideSquares(x: int, y: int, piece: Piece, d: Coords) returns (found: seq<Coords>)
      requires InRange(x, y) && board[x][y] == Some(piece) && d != Coords(0, 0)
      modifies this`board, this`checkState
      ensures board == old(board) && checkState == old(checkState)
      ensures found == SlideDests(board, piece.colour, x + d.x, y + d.y, d, SafeTest(board, piece, x, y))
    {
      ghost var safeTest := SafeTest(board, piece, x, y);
      ghost var target := SlideDests(board, piece.colour, x + d.x, y + d.y, d, safeTest);
      var newX, newY := x + d.x, y + d.y;
      found := [];
      while InRange(newX, newY)
        invariant board == old(board) && checkState == old(checkState)
        invariant found + SlideDests(board, piece.colour, newX, newY, d, safeTest) == target
        decreases RayMeasure(newX, newY, d)
      {
        var newPiece := board[newX][newY];
        if OwnedBy(newPiece, piece.colour) {
          assert SlideDests(board, piece.colour, newX, newY, d, safeTest) == [];
          break;
        }
        var safe := IsPositionSafeAfterMove(piece, x, y, newX, newY);
        SafeTestMeans(board, piece, x, y, newX, newY);
        assert safe == safeTest(newX, newY);
        SlideAdvance(board, piece.colour, newX, newY, d, safeTest, found, target);
        ghost var before := found;
        if safe {
          found := found + [Coords(newX, newY)];
        }
        assert found == before + (if safeTest(newX, newY) then [Coords(newX, newY)] else []);
        if newPiece.Some? {
          break;
        }
        newX, newY := newX + d.x, newY + d.y;
      }
    }

    /** The destinations `findSafeSquares` lists for the piece on (x, y): its vectors,
        then castling for a King or the en-passant capture for a Pawn. */
    method PieceSafeSquares(x: int, y: int) returns (dests: seq<Coords>)
      requires InRange(x, y) && board[x][y].Some? && LastMoveInRange(lastMove) && UnmovedKingsHome(board)
      modifies this`board, this`checkState
      ensures board == old(board) && checkState == old(checkState)
      ensures dests == PieceDests(board, checkState, lastMove, x, y)
    {
      var piece := board[x][y].value;
      DirectionsNonZero(piece.kind, piece.colour);
      var steps := VectorsDests(x, y, piece, Directions(piece.kind, piece.colour));
      ghost var special := SpecialDests(board, checkState, lastMove, piece, x, y);
      var extra: seq<Coords> := [];
      if piece.kind == King {
        var kingSide := CanCastle(piece, true);
        if kingSide {
          extra := extra + [Coords(x, 6)];
        }
        var queenSide := CanCastle(piece, false);
        if queenSide {
          extra := extra + [Coords(x, 2)];
        }
      } else if piece.kind == Pawn {
        var enPassant := CanCaptureEnPassant(piece, x, y);
        if enPassant {
          extra := [Coords(x + Forward(piece.colour), lastMove.value.prevY)];
        }
      }
      assert extra == special;
      dests := steps + extra;
    }

    /** One square of the scan of `findSafeSquares`: record the destinations of a piece
        of the side to move when there are any. */
    method ScanSquare(x: int, y: int, ghost table: seq<seq<seq<Coords>>>, safeIn: map<string, seq<Coords>>)
      returns (safe: map<string, seq<Coords>>)
      requires InRange(x, y) && LastMoveInRange(lastMove) && UnmovedKingsHome(board)
      requires table == DestTable(board, playerColour, checkState, lastMove)
      requires safeIn == MapBefore(table, x, y)
      modifies this`board, this`checkState
      ensures board == old(board) && checkState == old(checkState)
      ensures safe == MapBefore(table, x, y + 1)
    {
      MapBeforeStep(table, x, y);
      DestTableEntry(board, playerColour, checkState, lastMove, x, y);
      safe := safeIn;
      var square := board[x][y];
      if square.None? || square.value.colour != playerColour {
        return;
      }
      var dests := PieceSafeSquares(x, y);
      if |dests| > 0 {
        safe := safe[Key(x, y) := dests];
      }
    }

    /** `findSafeSquares`: the legal-destination map of the side to move. */
    method FindSafeSquares() returns (safe: map<string, seq<Coords>>)
      requires LastMoveInRange(lastMove) && UnmovedKingsHome(board)
      modifies this`board, this`checkState
      ensures board == old(board) && checkState == old(checkState)
      ensures safe == SafeSquareMap(board, playerColour, checkState, lastMove)
    {
      ghost var table := DestTable(board, playerColour, checkState, lastMove);
      safe := map[];
      for x := 0 to 8
        invariant board == old(board) && checkState == old(checkState)
        invariant safe == MapBefore(table, x, 0)
      {
        for y := 0 to 8
          invariant board == old(board) && checkState == old(checkState)
          invariant safe == MapBefore(table, x, y)
        {
          safe := ScanSquare(x, y, table, safe);
        }
        MapBeforeNextRank(table, x);
      }
    }

    /** `handlingSpecialMoves`: moves the castling Rook or removes the Pawn taken en
        passant, judged against the last move before this one. */
    method HandlingSpecialMoves(piece: Piece, prevX: int, prevY: int, newX: int, newY: int)
      requires InRange(prevX, prevY) && InRange(newX, newY) && LastMoveInRange(lastMove)
      modifies this`board
      ensures board == SpecialMoves(old(board), lastMove, piece, prevX, prevY, newX, newY)
    {
      if piece.kind == King && Abs(newY - prevY) == 2 {
        var rookY := if newY > prevY then 7 else 0;
        var rook := board[prevX][rookY];
        var rookNewY := if newY > prevY then 5 else 3;
        board := Put(board, prevX, rookY, None);
        board := Put(board, prevX, rookNewY, MarkSquare(rook));
      } else if
        && piece.kind == Pawn
        && lastMove.Some?
        && lastMove.value.piece.kind == Pawn
        && Abs(lastMove.value.currX - lastMove.value.prevX) == 2
        && prevX == lastMove.value.currX
        && newY == lastMove.value.currY
      {
        board := Put(board, lastMove.value.currX, lastMove.value.currY, None);
      }
    }

    /** The constructor: the initial position, White to move, no last move, not in
        check, and the legal-destination map of that position. */
    constructor()
      ensures Valid()
      ensures board == InitialBoard() && playerColour == White
      ensures lastMove == None && checkState == NotInCheck
    {
      board := InitialBoard();
      playerColour := White;
      safeSquares := map[];
      lastMove := None;
      checkState := NotInCheck;
      new;
      InitialBoardKingsHome();
      ComputeSafeSquares();
    }

    /** The last step of the constructor and of `move`: `_safeSquares = findSafeSquares()`. */
    method ComputeSafeSquares()
      requires LastMoveInRange(lastMove) && UnmovedKingsHome(board) && PawnMovesShort(lastMove)
      modifies this`board, this`checkState, this`safeSquares
      ensures Valid()
      ensures board == old(board) && checkState == old(checkState)
    {
      safeSquares := FindSafeSquares();
    }

    /** The part of `move` after the destination is found in the map: every field is
        updated, and the map of the new position is rebuilt. */
    method PlayMove(prevX: int, prevY: int, newX: int, newY: int)
      requires InRange(prevX, prevY) && InRange(newX, newY) && board[prevX][prevY].Some?
      requires LastMoveInRange(lastMove)
      requires UnmovedKingsHome(AfterMove(board, lastMove, prevX, prevY, newX, newY))
      requires PawnMovesShort(Some(LastMove(MarkMoved(board[prevX][prevY].value), prevX, prevY, newX, newY)))
      modifies this`board, this`lastMove, this`playerColour, this`checkState, this`safeSquares
      ensures Valid()
      ensures board == AfterMove(old(board), old(lastMove), prevX, prevY, newX, newY)
      ensures lastMove == Some(LastMove(MarkMoved(old(board)[prevX][prevY].value), prevX, prevY, newX, newY))
      ensures playerColour == Opponent(old(playerColour))
      ensures checkState == CheckStateOf(board, playerColour)
    {
      ghost var before, last := board, lastMove;
      var piece := MarkMoved(board[prevX][prevY].value);
      HandlingSpecialMoves(piece, prevX, prevY, newX, newY);
      board := Put(board, prevX, prevY, None);
      board := Put(board, newX, newY, Some(piece));
      assert board == AfterMove(before, last, prevX, prevY, newX, newY);
      lastMove := Some(LastMove(piece, prevX, prevY, newX, newY));
      playerColour := Opponent(playerColour);
      var inCheck := IsInCheck(playerColour, true);
      ComputeSafeSquares();
    }

    /** `move` once the origin holds a piece of the side to move and the destination is
        listed under it: the destination is one of the piece's destinations and is safe,
        and playing it keeps the invariant. */
    method MoveListed(prevX: int, prevY: int, newX: int, newY: int)
      requires Valid()
      requires !MoveIgnored(board, playerColour, prevX, prevY, newX, newY)
      requires Listed(safeSquares, prevX, prevY, newX, newY)
      modifies this`board, this`lastMove, this`playerColour, this`checkState, this`safeSquares
      ensures Valid()
      ensures Coords(newX, newY) in PieceDests(old(board), old(checkState), old(lastMove), prevX, prevY)
      ensures SafeAfterMove(old(board), old(board)[prevX][prevY].value, prevX, prevY, newX, newY)
      ensures board == AfterMove(old(board), old(lastMove), prevX, prevY, newX, newY)
      ensures lastMove == Some(LastMove(MarkMoved(old(board)[prevX][prevY].value), prevX, prevY, newX, newY))
      ensures playerColour == Opponent(old(playerColour))
      ensures checkState == CheckStateOf(board, playerColour)
    {
      ListedIsDest(board, playerColour, checkState, lastMove, safeSquares, prevX, prevY, newX, newY);
      ListedIsSafe(board, playerColour, checkState, lastMove, safeSquares, prevX, prevY, newX, newY);
      DestKeepsPawnMovesShort(board, checkState, lastMove, prevX, prevY, newX, newY);
      AfterMoveKeepsKingsHome(board, lastMove, prevX, prevY, newX, newY);
      PlayMove(prevX, prevY, newX, newY);
    }

    /** `move(prevX, prevY, newX, newY)`. A request off the board or from a square without
        a piece of the side to move is ignored; a destination not listed in the map is
        refused with the error the source throws, changing nothing; otherwise the piece is
        marked as moved, the special moves are applied, the piece is moved, the last move
        recorded, the turn passed, the check state of the side now to move computed and
        the map rebuilt. A move that is played is one of the piece's destinations and leaves
        the mover's King out of check. */
    method Move(prevX: int, prevY: int, newX: int, newY: int) returns (outcome: MoveOutcome)
      requires Valid()
      modifies this`board, this`lastMove, this`playerColour, this`checkState, this`safeSquares
      ensures Valid()
      ensures outcome == Ignored <==> MoveIgnored(old(board), old(playerColour), prevX, prevY, newX, newY)
      ensures outcome.Failed? <==>
        !MoveIgnored(old(board), old(playerColour), prevX, prevY, newX, newY)
        && !Listed(old(safeSquares), prevX, prevY, newX, newY)
      ensures outcome.Failed? ==> outcome.message == "Square is not safe."
      ensures outcome != Moved ==> unchanged(this)
      ensures outcome == Moved ==>
        && Coords(newX, newY) in PieceDests(old(board), old(checkState), old(lastMove), prevX, prevY)
        && SafeAfterMove(old(board), old(board)[prevX][prevY].value, prevX, prevY, newX, newY)
        && board == AfterMove(old(board), old(lastMove), prevX, prevY, newX, newY)
        && lastMove == Some(LastMove(MarkMoved(old(board)[prevX][prevY].value), prevX, prevY, newX, newY))
        && playerColour == Opponent(old(playerColour))
        && checkState == CheckStateOf(board, playerColour)
    {
      if !InRange(prevX, prevY) || !InRange(newX, newY) {
        return Ignored;
      }
      var square := board[prevX][prevY];
      if square.None? || square.value.colour != playerColour {
        return Ignored;
      }
      var key := Key(prevX, prevY);
      if key !in safeSquares || Coords(newX, newY) !in safeSquares[key] {
        return Failed("Square is not safe.");
      }
      MoveListed(prevX, prevY, newX, newY);
      return Moved;
    }
  }
}
