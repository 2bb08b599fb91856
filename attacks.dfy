/** The attack detector of `isInCheck` and the speculative test of
    `isPositionSafeAfterMove`, as functions of a board value.

    As the source is written, the ray walk sits inside the branch for Pawns, Knights and
    Kings: each of their vectors is followed square by square until the first occupied
    square, and that square is an attack when it holds the King of the side in question.
    Rooks, Bishops and Queens are skipped and never attack. */
module Attacks {

  import opened Wrappers
  import opened Models
  import opened Pieces
  import opened BoardBasics

  /** Squares left before a walk from (x, y) along d leaves the board. */
  function RayMeasure(x: int, y: int, d: Coords): nat
  {
    if !InRange(x, y) then 0
    else if d.x > 0 then 8 - x
    else if d.x < 0 then x + 1
    else if d.y > 0 then 8 - y
    else if d.y < 0 then y + 1
    else 0
  }

  /** The square k steps from (x, y) along d. */
  function Step(x: int, y: int, d: Coords, k: nat): Coords
  {
    Coords(x + k * d.x, y + k * d.y)
  }

  /** The first k squares of the walk from (x, y) along d are on the board and empty. */
  ghost predicate ClearFor(b: Board, x: int, y: int, d: Coords, k: nat)
  {
    forall j: nat | j < k :: InRange(Step(x, y, d, j).x, Step(x, y, d, j).y)
      && b[Step(x, y, d, j).x][Step(x, y, d, j).y].None?
  }

  /** The first occupied square of the walk that starts at (x, y) (included) and follows d,
      or None when the walk leaves the board first. */
  function FirstOccupied(b: Board, x: int, y: int, d: Coords): (r: Option<Coords>)
    requires d != Coords(0, 0)
    ensures r.Some? ==> InRange(r.value.x, r.value.y) && b[r.value.x][r.value.y].Some?
    decreases RayMeasure(x, y, d)
  {
    if !InRange(x, y) then None
    else if b[x][y].Some? then Some(Coords(x, y))
    else FirstOccupied(b, x + d.x, y + d.y, d)
  }

  lemma StepShift(x: int, y: int, d: Coords, k: nat)
    ensures Step(x + d.x, y + d.y, d, k) == Step(x, y, d, k + 1)
    ensures Step(x, y, d, 0) == Coords(x, y)
  {
    assert (k + 1) * d.x == k * d.x + d.x;
    assert (k + 1) * d.y == k * d.y + d.y;
  }

  /** FirstOccupied finds exactly the square that is occupied and has only empty board
      squares before it on the walk. */
  lemma {:induction false} FirstOccupiedIsFirstOnRay(b: Board, x: int, y: int, d: Coords)
    requires d != Coords(0, 0)
    ensures FirstOccupied(b, x, y, d).Some? ==>
      exists k: nat :: FirstOccupied(b, x, y, d).value == Step(x, y, d, k) && ClearFor(b, x, y, d, k)
    ensures forall k: nat ::
      (InRange(Step(x, y, d, k).x, Step(x, y, d, k).y) && b[Step(x, y, d, k).x][Step(x, y, d, k).y].Some?
       && ClearFor(b, x, y, d, k)) ==> FirstOccupied(b, x, y, d) == Some(Step(x, y, d, k))
    decreases RayMeasure(x, y, d)
  {
    var r := FirstOccupied(b, x, y, d);
    StepShift(x, y, d, 0);
    if !InRange(x, y) {
      forall k: nat | InRange(Step(x, y, d, k).x, Step(x, y, d, k).y) && ClearFor(b, x, y, d, k)
        ensures false
      {
      }
    } else if b[x][y].Some? {
      assert ClearFor(b, x, y, d, 0);
      forall k: nat | ClearFor(b, x, y, d, k)
        ensures k == 0
      {
      }
    } else {
      var nx, ny := x + d.x, y + d.y;
      FirstOccupiedIsFirstOnRay(b, nx, ny, d);
      if r.Some? {
        var k: nat :| r.value == Step(nx, ny, d, k) && ClearFor(b, nx, ny, d, k);
        StepShift(x, y, d, k);
        forall j: nat | j < k + 1
          ensures InRange(Step(x, y, d, j).x, Step(x, y, d, j).y) && b[Step(x, y, d, j).x][Step(x, y, d, j).y].None?
        {
          if j > 0 {
            StepShift(x, y, d, j - 1);
          }
        }
        assert r.value == Step(x, y, d, k + 1) && ClearFor(b, x, y, d, k + 1);
      }
      forall k: nat | InRange(Step(x, y, d, k).x, Step(x, y, d, k).y)
          && b[Step(x, y, d, k).x][Step(x, y, d, k).y].Some? && ClearFor(b, x, y, d, k)
        ensures r == Some(Step(x, y, d, k))
      {
        assert k != 0;
        StepShift(x, y, d, k - 1);
        forall j: nat | j < k - 1
          ensures InRange(Step(nx, ny, d, j).x, Step(nx, ny, d, j).y) && b[Step(nx, ny, d, j).x][Step(nx, ny, d, j).y].None?
        {
          StepShift(x, y, d, j);
          assert j + 1 < k;
        }
        assert ClearFor(b, nx, ny, d, k - 1);
      }
    }
  }

  predicate IsKingOf(s: Square, colour: Colour)
  {
    HasPiece(s, King, colour)
  }

  /** One vector d of the attacker p on (x, y): the King of `colour` that the walk from
      the first step along d reaches, if it is the first occupied square. */
  function DirectionHit(b: Board, colour: Colour, x: int, y: int, p: Piece, d: Coords): Option<Coords>
    requires d != Coords(0, 0)
  {
    var nx, ny := x + d.x, y + d.y;
    if !InRange(nx, ny) then None
    else if p.kind == Pawn && d.y == 0 then None
    else
      match FirstOccupied(b, nx, ny, d)
      case Some(s) => if IsKingOf(b[s.x][s.y], colour) then Some(s) else None
      case None => None
  }

  /** The vectors ds of p from index i on, in table order; the first hit wins. */
  function DirectionsHit(b: Board, colour: Colour, x: int, y: int, p: Piece, ds: seq<Coords>, i: nat): Option<Coords>
    requires NonZeroVectors(ds) && i <= |ds|
    decreases |ds| - i
  {
    if i == |ds| then None
    else
      var h := DirectionHit(b, colour, x, y, p, ds[i]);
      if h.Some? then h else DirectionsHit(b, colour, x, y, p, ds, i + 1)
  }

  /** The square (x, y) in the scan: only opposing Pawns, Knights and Kings are examined. */
  function PieceHit(b: Board, colour: Colour, x: int, y: int): Option<Coords>
    requires InRange(x, y)
  {
    match b[x][y]
    case None => None
    case Some(p) =>
      if p.colour == colour || !StepsOnce(p.kind) then None
      else
        DirectionsNonZero(p.kind, p.colour);
        DirectionsHit(b, colour, x, y, p, Directions(p.kind, p.colour), 0)
  }

  /** The scan of `isInCheck` from square (x, y) on: files y.. of rank x, then every later
      rank, file 0 first. */
  function ScanFrom(b: Board, colour: Colour, x: int, y: int): Option<Coords>
    requires 0 <= x <= 8 && 0 <= y <= 8
    decreases 8 - x, 8 - y
  {
    if x == 8 then None
    else if y == 8 then ScanFrom(b, colour, x + 1, 0)
    else
      var h := PieceHit(b, colour, x, y);
      if h.Some? then h else ScanFrom(b, colour, x, y + 1)
  }

  /** `isInCheck(colour, …)`: the King of `colour` the scan meets first, if any. */
  function CheckScan(b: Board, colour: Colour): Option<Coords>
  {
    ScanFrom(b, colour, 0, 0)
  }

  predicate InCheck(b: Board, colour: Colour)
  {
    CheckScan(b, colour).Some?
  }

  /** The `_checkState` that `isInCheck(colour, true)` records. */
  function CheckStateOf(b: Board, colour: Colour): CheckState
  {
    match CheckScan(b, colour)
    case Some(s) => InCheckAt(s.x, s.y)
    case None => NotInCheck
  }

  /** Reference definition of an attack: the piece on (x, y) is an opposing Pawn, Knight or
      King, d is one of its vectors (not a Pawn vector with dy = 0), and the first occupied
      square on the walk from (x, y) along d is s, which holds the King of `colour`. */
  ghost predicate AttacksAlong(b: Board, colour: Colour, x: int, y: int, d: Coords, s: Coords)
  {
    && InRange(x, y)
    && b[x][y].Some?
    && b[x][y].value.colour != colour
    && StepsOnce(b[x][y].value.kind)
    && d in Directions(b[x][y].value.kind, b[x][y].value.colour)
    && !(b[x][y].value.kind == Pawn && d.y == 0)
    && d != Coords(0, 0)
    && InRange(x + d.x, y + d.y)
    && FirstOccupied(b, x + d.x, y + d.y, d) == Some(s)
    && IsKingOf(b[s.x][s.y], colour)
  }

  lemma {:induction false} DirectionsHitSpec(b: Board, colour: Colour, x: int, y: int, p: Piece, ds: seq<Coords>, i: nat)
    requires NonZeroVectors(ds) && i <= |ds|
    ensures DirectionsHit(b, colour, x, y, p, ds, i).Some? ==>
      exists j | i <= j < |ds| :: DirectionHit(b, colour, x, y, p, ds[j]) == DirectionsHit(b, colour, x, y, p, ds, i)
    ensures forall j | i <= j < |ds| ::
      DirectionHit(b, colour, x, y, p, ds[j]).Some? ==> DirectionsHit(b, colour, x, y, p, ds, i).Some?
    decreases |ds| - i
  {
    if i < |ds| {
      DirectionsHitSpec(b, colour, x, y, p, ds, i + 1);
    }
  }

  /** Square (i, j) comes at or after (x, y) in the scan order. */
  predicate AtOrAfter(i: int, j: int, x: int, y: int)
  {
    InRange(i, j) && (i > x || (i == x && j >= y))
  }

  lemma {:induction false} ScanFromSound(b: Board, colour: Colour, x: int, y: int)
    requires 0 <= x <= 8 && 0 <= y <= 8
    ensures ScanFrom(b, colour, x, y).Some? ==>
      exists i, j | AtOrAfter(i, j, x, y) :: PieceHit(b, colour, i, j) == ScanFrom(b, colour, x, y)
    decreases 8 - x, 8 - y
  {
    if x < 8 {
      if y == 8 {
        ScanFromSound(b, colour, x + 1, 0);
      } else {
        ScanFromSound(b, colour, x, y + 1);
      }
    }
  }

  lemma {:induction false} ScanFromComplete(b: Board, colour: Colour, x: int, y: int, i: int, j: int)
    requires 0 <= x <= 8 && 0 <= y <= 8
    requires AtOrAfter(i, j, x, y) && PieceHit(b, colour, i, j).Some?
    ensures ScanFrom(b, colour, x, y).Some?
    decreases 8 - x, 8 - y
  {
    if y == 8 {
      ScanFromComplete(b, colour, x + 1, 0, i, j);
    } else if i != x || j != y {
      ScanFromComplete(b, colour, x, y + 1, i, j);
    }
  }

  /** The found square lies on the board and holds the King of `colour`. */
  lemma PieceHitIsKing(b: Board, colour: Colour, x: int, y: int)
    requires InRange(x, y)
    ensures PieceHit(b, colour, x, y).Some? ==>
      var s := PieceHit(b, colour, x, y).value;
      InRange(s.x, s.y) && IsKingOf(b[s.x][s.y], colour) && AttacksAlongSome(b, colour, x, y, s)
  {
    if PieceHit(b, colour, x, y).Some? {
      var p := b[x][y].value;
      var ds := Directions(p.kind, p.colour);
      DirectionsNonZero(p.kind, p.colour);
      DirectionsHitSpec(b, colour, x, y, p, ds, 0);
      var j :| 0 <= j < |ds| && DirectionHit(b, colour, x, y, p, ds[j]) == DirectionsHit(b, colour, x, y, p, ds, 0);
      assert AttacksAlong(b, colour, x, y, ds[j], PieceHit(b, colour, x, y).value);
    }
  }

  ghost predicate AttacksAlongSome(b: Board, colour: Colour, x: int, y: int, s: Coords)
  {
    exists d :: AttacksAlong(b, colour, x, y, d, s)
  }

  /** The scan is sound with respect to the reference definition: a reported square holds
      a King of `colour` that some opposing piece attacks. */
  lemma CheckScanIsAttack(b: Board, colour: Colour)
    ensures CheckScan(b, colour).Some? ==>
      var s := CheckScan(b, colour).value;
      InRange(s.x, s.y) && IsKingOf(b[s.x][s.y], colour) &&
      exists x, y | InRange(x, y) :: AttacksAlongSome(b, colour, x, y, s)
  {
    ScanFromSound(b, colour, 0, 0);
    if CheckScan(b, colour).Some? {
      var i, j :| AtOrAfter(i, j, 0, 0) && PieceHit(b, colour, i, j) == CheckScan(b, colour);
      PieceHitIsKing(b, colour, i, j);
    }
  }

  lemma DirectionsHitFinds(b: Board, colour: Colour, x: int, y: int, p: Piece, ds: seq<Coords>, d: Coords)
    requires NonZeroVectors(ds) && d in ds && d != Coords(0, 0)
    requires DirectionHit(b, colour, x, y, p, d).Some?
    ensures DirectionsHit(b, colour, x, y, p, ds, 0).Some?
  {
    var j :| 0 <= j < |ds| && ds[j] == d;
    DirectionsHitSpec(b, colour, x, y, p, ds, 0);
  }

  lemma PieceHitComplete(b: Board, colour: Colour, x: int, y: int, d: Coords, s: Coords)
    requires AttacksAlong(b, colour, x, y, d, s)
    ensures PieceHit(b, colour, x, y).Some?
  {
    var p := b[x][y].value;
    DirectionsNonZero(p.kind, p.colour);
    DirectionsHitFinds(b, colour, x, y, p, Directions(p.kind, p.colour), d);
  }

  /** The scan is complete: any attack in the sense of the reference definition is found. */
  lemma AttackIsFound(b: Board, colour: Colour, x: int, y: int, d: Coords, s: Coords)
    requires AttacksAlong(b, colour, x, y, d, s)
    ensures InCheck(b, colour)
  {
    PieceHitComplete(b, colour, x, y, d, s);
    ScanFromComplete(b, colour, 0, 0, x, y);
  }

  /** As written, Rooks, Bishops and Queens never give check: on a board where every piece
      not of `colour` is one of them, `colour` is never in check. */
  lemma SlidersNeverGiveCheck(b: Board, colour: Colour)
    requires forall x, y | 0 <= x < 8 && 0 <= y < 8 ::
      b[x][y].Some? && b[x][y].value.colour != colour ==> !StepsOnce(b[x][y].value.kind)
    ensures !InCheck(b, colour)
  {
    CheckScanIsAttack(b, colour);
  }

  /** The board `isPositionSafeAfterMove` tests: origin emptied, piece on the destination. */
  function Speculate(b: Board, piece: Piece, px: int, py: int, nx: int, ny: int): Board
    requires InRange(px, py) && InRange(nx, ny)
  {
    Put(Put(b, px, py, None), nx, ny, Some(piece))
  }

  /** `isPositionSafeAfterMove`: the destination does not hold a piece of the mover's colour,
      and with the piece moved the mover's side is not in check. */
  predicate SafeAfterMove(b: Board, piece: Piece, px: int, py: int, nx: int, ny: int)
    requires InRange(px, py) && InRange(nx, ny)
  {
    !OwnedBy(b[nx][ny], piece.colour) && !InCheck(Speculate(b, piece, px, py, nx, ny), piece.colour)
  }
}
