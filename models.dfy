/** The shared vocabulary of the engine: colours, coordinates and the twelve FEN letters. */
module Models {

  import opened Wrappers

  /** `Colour`: exactly two values. */
  datatype Colour = White | Black

  /** `Coords`: x is the rank (0 is White's back rank), y is the file. */
  datatype Coords = Coords(x: int, y: int)

  /** `FENChar`: one value per kind and colour, each standing for one letter. */
  datatype FenChar =
    | WhitePawn | WhiteRook | WhiteKnight | WhiteBishop | WhiteQueen | WhiteKing
    | BlackPawn | BlackRook | BlackKnight | BlackBishop | BlackQueen | BlackKing
  {
    function Letter(): char
    {
      match this
      case WhitePawn => 'P'
      case WhiteRook => 'R'
      case WhiteKnight => 'N'
      case WhiteBishop => 'B'
      case WhiteQueen => 'Q'
      case WhiteKing => 'K'
      case BlackPawn => 'p'
      case BlackRook => 'r'
      case BlackKnight => 'n'
      case BlackBishop => 'b'
      case BlackQueen => 'q'
      case BlackKing => 'k'
    }

    predicate IsWhite()
    {
      WhitePawn? || WhiteRook? || WhiteKnight? || WhiteBishop? || WhiteQueen? || WhiteKing?
    }
  }

  predicate IsUpper(c: char)
  {
    'A' <= c <= 'Z'
  }

  predicate IsLower(c: char)
  {
    'a' <= c <= 'z'
  }

  /** ASCII upper-casing (`String.prototype.toUpperCase` on the letters used here). */
  function ToUpper(c: char): (u: char)
    ensures IsLower(c) ==> IsUpper(u)
    ensures !IsLower(c) ==> u == c
  {
    if IsLower(c) then (c as int - 32) as char else c
  }

  function ToLower(c: char): (l: char)
    ensures IsUpper(c) ==> IsLower(l)
    ensures !IsUpper(c) ==> l == c
  {
    if IsUpper(c) then (c as int + 32) as char else c
  }

  /** Reads a letter back; the partner of Letter. */
  function FenCharOfLetter(c: char): (r: Option<FenChar>)
  {
    match c
    case 'P' => Some(WhitePawn)
    case 'R' => Some(WhiteRook)
    case 'N' => Some(WhiteKnight)
    case 'B' => Some(WhiteBishop)
    case 'Q' => Some(WhiteQueen)
    case 'K' => Some(WhiteKing)
    case 'p' => Some(BlackPawn)
    case 'r' => Some(BlackRook)
    case 'n' => Some(BlackKnight)
    case 'b' => Some(BlackBishop)
    case 'q' => Some(BlackQueen)
    case 'k' => Some(BlackKing)
    case _ => None
  }

  /** The twelve letters are pairwise distinct: reading a letter back gives its value. */
  lemma LettersAreDistinct(f: FenChar)
    ensures FenCharOfLetter(f.Letter()) == Some(f)
  {
  }

  /** White letters are upper case, Black letters lower case. */
  lemma LetterCase(f: FenChar)
    ensures f.IsWhite() ==> IsUpper(f.Letter())
    ensures !f.IsWhite() ==> IsLower(f.Letter())
  {
  }
}
