/** The piece model: a piece is a value {kind, colour, hasMoved}; its direction table and
    its FEN letter are functions of its kind and colour. A Pawn's table is mirrored in x
    for Black, and the `hasMoved` setter rebuilds exactly the constructor's table, so the
    table never depends on `hasMoved`. */
module Pieces {

  import opened Models
  import opened JsNumbers

  datatype Kind = Pawn | Knight | Bishop | Rook | Queen | King

  datatype Piece = Piece(kind: Kind, colour: Colour, hasMoved: bool)

  /** Every piece is created with `hasMoved` false. */
  function NewPiece(kind: Kind, colour: Colour): (p: Piece)
    ensures p.kind == kind && p.colour == colour && !p.hasMoved
  {
    Piece(kind, colour, false)
  }

  /** The Pawn table as the constructor writes it (White's). */
  const PawnBase: seq<Coords> := [Coords(0, 1), Coords(0, 2), Coords(1, 1), Coords(-1, 1)]

  const KnightTable: seq<Coords> :=
    [Coords(2, 1), Coords(-2, 1), Coords(2, -1), Coords(-2, -1),
     Coords(1, 2), Coords(-1, 2), Coords(1, -2), Coords(-1, -2)]

  const BishopTable: seq<Coords> := [Coords(1, 1), Coords(1, -1), Coords(-1, 1), Coords(-1, -1)]

  const RookTable: seq<Coords> := [Coords(0, 1), Coords(0, -1), Coords(1, 0), Coords(-1, 0)]

  const QueenTable: seq<Coords> :=
    [Coords(1, 0), Coords(-1, 0), Coords(0, 1), Coords(-1, 1),
     Coords(1, 1), Coords(0, -1), Coords(1, -1), Coords(-1, -1)]

  const KingTable: seq<Coords> :=
    [Coords(0, 1), Coords(0, -1), Coords(1, 0), Coords(1, -1),
     Coords(1, 1), Coords(-1, 0), Coords(-1, 1), Coords(-1, -1)]

  /** `setBlackPawnDirections`: every vector with its x negated, order kept. */
  function MirrorX(ds: seq<Coords>): (r: seq<Coords>)
    ensures |r| == |ds|
    ensures forall i | 0 <= i < |ds| :: r[i] == Coords(-1 * ds[i].x, ds[i].y)
  {
    if ds == [] then [] else [Coords(-1 * ds[0].x, ds[0].y)] + MirrorX(ds[1..])
  }

  function PawnDirections(colour: Colour): seq<Coords>
  {
    if colour == Black then MirrorX(PawnBase) else PawnBase
  }

  /** The `directions` getter of each piece class. */
  function Directions(kind: Kind, colour: Colour): seq<Coords>
  {
    match kind
    case Pawn => PawnDirections(colour)
    case Knight => KnightTable
    case Bishop => BishopTable
    case Rook => RookTable
    case Queen => QueenTable
    case King => KingTable
  }

  /** The `FENChar` getter of each piece class. */
  function FenCharOf(kind: Kind, colour: Colour): FenChar
  {
    match (kind, colour)
    case (Pawn, White) => WhitePawn
    case (Pawn, Black) => BlackPawn
    case (Knight, White) => WhiteKnight
    case (Knight, Black) => BlackKnight
    case (Bishop, White) => WhiteBishop
    case (Bishop, Black) => BlackBishop
    case (Rook, White) => WhiteRook
    case (Rook, Black) => BlackRook
    case (Queen, White) => WhiteQueen
    case (Queen, Black) => BlackQueen
    case (King, White) => WhiteKing
    case (King, Black) => BlackKing
  }

  /** Pawns, Knights and Kings test one offset per direction when generating moves. */
  predicate StepsOnce(kind: Kind)
  {
    kind == Pawn || kind == Knight || kind == King
  }

  /** Only Pawn, King and Rook have a `hasMoved` flag. */
  predicate TracksMoved(kind: Kind)
  {
    kind == Pawn || kind == King || kind == Rook
  }

  /** Assigning `hasMoved` on a Pawn, King or Rook: the setter ignores the value and stores
      true. The other kinds have no such flag. */
  function MarkMoved(p: Piece): (r: Piece)
    ensures r.kind == p.kind && r.colour == p.colour
    ensures r.hasMoved == (p.hasMoved || TracksMoved(p.kind))
  {
    if TracksMoved(p.kind) then p.(hasMoved := true) else p
  }

  predicate NonZeroVectors(ds: seq<Coords>)
  {
    forall i | 0 <= i < |ds| :: ds[i] != Coords(0, 0)
  }

  /** No table holds the zero vector, and every component is at most 2 in size: each walk
      along a direction leaves the board. */
  lemma DirectionsNonZero(kind: Kind, colour: Colour)
    ensures NonZeroVectors(Directions(kind, colour))
    ensures forall i | 0 <= i < |Directions(kind, colour)| ::
      -2 <= Directions(kind, colour)[i].x <= 2 && -2 <= Directions(kind, colour)[i].y <= 2
  {
    var ds := Directions(kind, colour);
    assert MirrorX(PawnBase) == [Coords(0, 1), Coords(0, 2), Coords(-1, 1), Coords(1, 1)];
  }

  /** The White Pawn table in the order the constructor writes it. Its x components are
      0 or ±1: a Pawn's first two vectors change only the file. */
  lemma PawnTables()
    ensures Directions(Pawn, White) == [Coords(0, 1), Coords(0, 2), Coords(1, 1), Coords(-1, 1)]
    ensures Directions(Pawn, Black) == MirrorX(Directions(Pawn, White))
    ensures Directions(Pawn, Black) == [Coords(0, 1), Coords(0, 2), Coords(-1, 1), Coords(1, 1)]
  {
    assert MirrorX(PawnBase) == [Coords(0, 1), Coords(0, 2), Coords(-1, 1), Coords(1, 1)];
  }

  /** Every Pawn vector moves at most one rank and one or two files forward in y. */
  lemma PawnVectorsShape(colour: Colour)
    ensures |Directions(Pawn, colour)| == 4
    ensures forall i | 0 <= i < 4 ::
      -1 <= Directions(Pawn, colour)[i].x <= 1 && 1 <= Directions(Pawn, colour)[i].y <= 2
  {
    PawnTables();
  }

  /** `setBlackPawnDirections` is an involution: mirroring a table twice gives it back. */
  lemma {:induction false} MirrorTwice(ds: seq<Coords>)
    ensures MirrorX(MirrorX(ds)) == ds
  {
    if ds != [] {
      MirrorTwice(ds[1..]);
      assert MirrorX(ds)[1..] == MirrorX(ds[1..]);
    }
  }

  /** The King table holds exactly the eight non-zero vectors with components in {-1,0,1},
      each once. */
  lemma KingTableIsUnitVectors()
    ensures |KingTable| == 8
    ensures forall i, j | 0 <= i < j < 8 :: KingTable[i] != KingTable[j]
    ensures forall d: Coords :: d in KingTable <==> (d != Coords(0, 0) && -1 <= d.x <= 1 && -1 <= d.y <= 1)
  {
  }

  /** The Rook table is the four orthogonal unit vectors. */
  lemma RookTableIsOrthogonal()
    ensures |RookTable| == 4
    ensures forall d: Coords :: d in RookTable <==> (Abs(d.x) + Abs(d.y) == 1)
  {
  }

  /** The Bishop table is the four vectors (±1, ±1). */
  lemma BishopTableIsDiagonal()
    ensures |BishopTable| == 4
    ensures forall d: Coords :: d in BishopTable <==> (Abs(d.x) == 1 && Abs(d.y) == 1)
  {
  }

  /** The Knight table: eight distinct vectors, each with {|x|, |y|} = {1, 2}. */
  lemma KnightTableIsLShaped()
    ensures |KnightTable| == 8
    ensures forall i, j | 0 <= i < j < 8 :: KnightTable[i] != KnightTable[j]
    ensures forall d: Coords :: d in KnightTable <==>
      ((Abs(d.x) == 1 && Abs(d.y) == 2) || (Abs(d.x) == 2 && Abs(d.y) == 1))
  {
  }

  /** As a set the Queen table is the union of the Rook and Bishop tables; it holds eight
      distinct vectors, the same ones as the King table. */
  lemma QueenTableIsRookPlusBishop()
    ensures |QueenTable| == 8
    ensures forall i, j | 0 <= i < j < 8 :: QueenTable[i] != QueenTable[j]
    ensures forall d: Coords :: d in QueenTable <==> d in RookTable || d in BishopTable
    ensures forall d: Coords :: d in QueenTable <==> d in KingTable
  {
  }

  /** Only the Pawn's table depends on the colour. */
  lemma TablesColourIndependent(kind: Kind)
    ensures kind != Pawn ==> Directions(kind, White) == Directions(kind, Black)
  {
  }

  /** The letter of a piece is upper case for White and the lower case of the White letter
      for Black; kind and colour can be read back from the letter. */
  lemma FenLetters(kind: Kind, colour: Colour)
    ensures colour == White ==> IsUpper(FenCharOf(kind, colour).Letter())
    ensures FenCharOf(kind, Black).Letter() == ToLower(FenCharOf(kind, White).Letter())
    ensures forall k: Kind, c: Colour ::
      FenCharOf(k, c) == FenCharOf(kind, colour) ==> k == kind && c == colour
  {
  }
}
