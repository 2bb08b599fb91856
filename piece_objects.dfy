/** The three piece classes whose objects change after construction: Pawn, King and Rook
    each carry a `hasMoved` flag that only its setter changes, and the Pawn's setter also
    rebuilds the direction table. `AsPiece` gives the value the board stores for each. */
module PieceObjects {

  import opened Models
  import P = Pieces

  class Pawn {
    const colour: Colour
    const fenChar: FenChar
    var hasMoved: bool
    var directions: seq<Coords>

    /** A new Pawn has not moved; a Black Pawn's table is the White one mirrored in x. */
    constructor (pieceColour: Colour)
      ensures colour == pieceColour && !hasMoved
      ensures directions == P.Directions(P.Pawn, pieceColour)
      ensures fenChar == P.FenCharOf(P.Pawn, pieceColour)
      ensures AsPiece() == P.NewPiece(P.Pawn, pieceColour)
    {
      colour := pieceColour;
      fenChar := if pieceColour == White then WhitePawn else BlackPawn;
      hasMoved := false;
      directions := P.PawnBase;
      new;
      if pieceColour == Black {
        SetBlackPawnDirections();
      }
    }

    method SetBlackPawnDirections()
      modifies this`directions
      ensures directions == P.MirrorX(old(directions))
    {
      directions := P.MirrorX(directions);
    }

    /** The `hasMoved` setter: whatever `value` is, the flag becomes true and the table is
        rebuilt from the base table, mirrored once for Black. Whatever the table was before,
        it is afterwards exactly the constructor's table. */
    method SetHasMoved(value: bool)
      modifies this`hasMoved, this`directions
      ensures hasMoved
      ensures directions == P.Directions(P.Pawn, colour)
      ensures AsPiece() == P.MarkMoved(old(AsPiece()))
    {
      hasMoved := true;
      directions := P.PawnBase;
      if colour == Black {
        SetBlackPawnDirections();
      }
    }

    function AsPiece(): P.Piece
      reads this
    {
      P.Piece(P.Pawn, colour, hasMoved)
    }
  }

  class King {
    const colour: Colour
    const fenChar: FenChar
    const directions: seq<Coords>
    var hasMoved: bool

    constructor (pieceColour: Colour)
      ensures colour == pieceColour && !hasMoved
      ensures directions == P.Directions(P.King, pieceColour)
      ensures fenChar == P.FenCharOf(P.King, pieceColour)
      ensures AsPiece() == P.NewPiece(P.King, pieceColour)
    {
      colour := pieceColour;
      fenChar := if pieceColour == White then WhiteKing else BlackKing;
      directions := P.KingTable;
      hasMoved := false;
    }

    /** The `hasMoved` setter always stores true, so the flag never returns to false. */
    method SetHasMoved(value: bool)
      modifies this`hasMoved
      ensures hasMoved
      ensures AsPiece() == P.MarkMoved(old(AsPiece()))
    {
      hasMoved := true;
    }

    function AsPiece(): P.Piece
      reads this
    {
      P.Piece(P.King, colour, hasMoved)
    }
  }

  class Rook {
    const colour: Colour
    const fenChar: FenChar
    const directions: seq<Coords>
    var hasMoved: bool

    constructor (pieceColour: Colour)
      ensures colour == pieceColour && !hasMoved
      ensures directions == P.Directions(P.Rook, pieceColour)
      ensures fenChar == P.FenCharOf(P.Rook, pieceColour)
      ensures AsPiece() == P.NewPiece(P.Rook, pieceColour)
    {
      colour := pieceColour;
      fenChar := if pieceColour == White then WhiteRook else BlackRook;
      directions := P.RookTable;
      hasMoved := false;
    }

    /** The `hasMoved` setter always stores true, so the flag never returns to false. */
    method SetHasMoved(value: bool)
      modifies this`hasMoved
      ensures hasMoved
      ensures AsPiece() == P.MarkMoved(old(AsPiece()))
    {
      hasMoved := true;
    }

    function AsPiece(): P.Piece
      reads this
    {
      P.Piece(P.Rook, colour, hasMoved)
    }
  }
}
