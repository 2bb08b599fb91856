/** The legal-destination map of `findSafeSquares`, with `canCastle` and
    `canCaptureEnPassant`, as functions of a board value, the side to move, the check
    state and the last move. */
module MoveGeneration {

  import opened Wrappers
  import opened JsNumbers
  import opened Models
  import opened Pieces
  import opened BoardBasics
  import opened Attacks

  /** The Pawn filters: a vector along which a Pawn gets no destination. As written they
      read d.x as the rank step, while the Pawn table puts the forward step in d.y. */
  predicate PawnSkips(b: Board, piece: Piece, x: int, y: int, d: Coords)
    requires InRange(x, y) && InRange(x + d.x, y + d.y)
  {
    var nx, ny := x + d.x, y + d.y;
    var np := b[nx][ny];
    || ((d.x == 2 || d.x == -2) && (np.Some? || b[nx + (if d.x == 2 then -1 else 1)][ny].Some?))
    || ((d.x == 1 || d.x == -1) && d.y == 0 && np.Some?)
    || ((d.y == 1 || d.y == -1) && (np.None? || piece.colour == np.value.colour))
  }

  /** `isPositionSafeAfterMove` for the piece on (x, y), as a test of its destination. */
  function SafeTest(b: Board, piece: Piece, x: int, y: int): (int, int) -> bool
    requires InRange(x, y)
  {
    (i, j) => InRange(i, j) && SafeAfterMove(b, piece, x, y, i, j)
  }

  /** The slide of a Rook, Bishop or Queen of `colour` along d, from (nx, ny) on: stop
      before a piece of that colour, keep each square that passes the safety test, stop
      after the first occupied square. */
  function SlideDests(b: Board, colour: Colour, nx: int, ny: int, d: Coords, safe: (int, int) -> bool): seq<Coords>
    requires d != Coords(0, 0)
    decreases RayMeasure(nx, ny, d)
  {
    if !InRange(nx, ny) then []
    else if OwnedBy(b[nx][ny], colour) then []
    else
      (if safe(nx, ny) then [Coords(nx, ny)] else [])
      + (if b[nx][ny].Some? then [] else SlideDests(b, colour, nx + d.x, ny + d.y, d, safe))
  }

  /** The safety test applied to a square on the board is `isPositionSafeAfterMove`. */
  lemma SafeTestMeans(b: Board, piece: Piece, x: int, y: int, i: int, j: int)
    requires InRange(x, y) && InRange(i, j)
    ensures SafeTest(b, piece, x, y)(i, j) == SafeAfterMove(b, piece, x, y, i, j)
  {
  }

  /** One step of a slide from a square on the board that holds no piece of `colour`. */
  lemma SlideStep(b: Board, colour: Colour, nx: int, ny: int, d: Coords, safe: (int, int) -> bool)
    requires d != Coords(0, 0) && InRange(nx, ny) && !OwnedBy(b[nx][ny], colour)
    ensures SlideDests(b, colour, nx, ny, d, safe)
      == (if safe(nx, ny) then [Coords(nx, ny)] else [])
         + (if b[nx][ny].Some? then [] else SlideDests(b, colour, nx + d.x, ny + d.y, d, safe))
  {
  }

  lemma AppendAssoc<T>(a: seq<T>, b: seq<T>, c: seq<T>)
    ensures (a + b) + c == a + (b + c)
  {
  }

  /** One pass of a slide loop that has listed `found` so far: after the square (nx, ny),
      which holds no piece of `colour`, the listed squares still extend to the whole slide. */
  lemma SlideAdvance(b: Board, colour: Colour, nx: int, ny: int, d: Coords, safe: (int, int) -> bool,
                     found: seq<Coords>, target: seq<Coords>)
    requires d != Coords(0, 0) && InRange(nx, ny) && !OwnedBy(b[nx][ny], colour)
    requires found + SlideDests(b, colour, nx, ny, d, safe) == target
    ensures var found' := found + (if safe(nx, ny) then [Coords(nx, ny)] else []);
      && (b[nx][ny].Some? ==> found' == target)
      && (b[nx][ny].None? ==> found' + SlideDests(b, colour, nx + d.x, ny + d.y, d, safe) == target)
  {
    var head := if safe(nx, ny) then [Coords(nx, ny)] else [];
    var rest := if b[nx][ny].Some? then [] else SlideDests(b, colour, nx + d.x, ny + d.y, d, safe);
    SlideStep(b, colour, nx, ny, d, safe);
    AppendAssoc(found, head, rest);
  }

  /** Reference definition of a sliding destination: c is k steps along d from (nx, ny),
      every square before it on the way is empty, it holds no piece of `colour`, and it
      passes the safety test. */
  ghost predicate SlideReaches(b: Board, colour: Colour, nx: int, ny: int, d: Coords, safe: (int, int) -> bool, c: Coords)
  {
    exists k: nat ::
      && c == Step(nx, ny, d, k) && InRange(c.x, c.y)
      && ClearFor(b, nx, ny, d, k)
      && !OwnedBy(b[c.x][c.y], colour) && safe(c.x, c.y)
  }

  /** Every square a slide lists is one it reaches across empty squares and may move to. */
  lemma {:induction false} SlideDestsSound(b: Board, colour: Colour, nx: int, ny: int, d: Coords, safe: (int, int) -> bool, c: Coords)
    requires d != Coords(0, 0)
    requires c in SlideDests(b, colour, nx, ny, d, safe)
    ensures SlideReaches(b, colour, nx, ny, d, safe, c)
    decreases RayMeasure(nx, ny, d)
  {
    if InRange(nx, ny) && !OwnedBy(b[nx][ny], colour) {
      var mx, my := nx + d.x, ny + d.y;
      var head := if safe(nx, ny) then [Coords(nx, ny)] else [];
      var rest := if b[nx][ny].Some? then [] else SlideDests(b, colour, mx, my, d, safe);
      SlideStep(b, colour, nx, ny, d, safe);
      if c in head {
        StepShift(nx, ny, d, 0);
        assert c == Step(nx, ny, d, 0) && ClearFor(b, nx, ny, d, 0);
      } else {
        assert c in rest;
        SlideDestsSound(b, colour, mx, my, d, safe, c);
        SlideReachesBack(b, colour, nx, ny, d, safe, c);
      }
    }
  }

  /** A square reached from the next square along d is reached from an empty square. */
  lemma SlideReachesBack(b: Board, colour: Colour, nx: int, ny: int, d: Coords, safe: (int, int) -> bool, c: Coords)
    requires d != Coords(0, 0) && InRange(nx, ny) && b[nx][ny].None?
    requires SlideReaches(b, colour, nx + d.x, ny + d.y, d, safe, c)
    ensures SlideReaches(b, colour, nx, ny, d, safe, c)
  {
    var mx, my := nx + d.x, ny + d.y;
    StepShift(nx, ny, d, 0);
    var k: nat :| c == Step(mx, my, d, k) && InRange(c.x, c.y) && ClearFor(b, mx, my, d, k)
      && !OwnedBy(b[c.x][c.y], colour) && safe(c.x, c.y);
    StepShift(nx, ny, d, k);
    forall j: nat | j < k + 1
      ensures InRange(Step(nx, ny, d, j).x, Step(nx, ny, d, j).y)
        && b[Step(nx, ny, d, j).x][Step(nx, ny, d, j).y].None?
    {
      if j > 0 {
        StepShift(nx, ny, d, j - 1);
      }
    }
    assert c == Step(nx, ny, d, k + 1) && ClearFor(b, nx, ny, d, k + 1);
  }

  /** A walk that is clear for k > 0 squares starts on an empty board square, and the walk
      from the next square is clear for k - 1. */
  lemma ClearShift(b: Board, nx: int, ny: int, d: Coords, k: nat)
    requires k > 0 && ClearFor(b, nx, ny, d, k)
    ensures InRange(nx, ny) && b[nx][ny].None?
    ensures ClearFor(b, nx + d.x, ny + d.y, d, k - 1)
  {
    var mx, my := nx + d.x, ny + d.y;
    StepShift(nx, ny, d, 0);
    assert Step(nx, ny, d, 0) == Coords(nx, ny);
    forall j: nat | j < k - 1
      ensures InRange(Step(mx, my, d, j).x, Step(mx, my, d, j).y)
        && b[Step(mx, my, d, j).x][Step(mx, my, d, j).y].None?
    {
      StepShift(nx, ny, d, j);
      assert j + 1 < k;
    }
  }

  /** Every square a slide reaches across empty squares and may move to is listed. */
  lemma {:induction false} SlideDestsComplete(b: Board, colour: Colour, nx: int, ny: int, d: Coords, safe: (int, int) -> bool, c: Coords)
    requires d != Coords(0, 0)
    requires SlideReaches(b, colour, nx, ny, d, safe, c)
    ensures c in SlideDests(b, colour, nx, ny, d, safe)
    decreases RayMeasure(nx, ny, d)
  {
    var k: nat :| c == Step(nx, ny, d, k) && InRange(c.x, c.y) && ClearFor(b, nx, ny, d, k)
      && !OwnedBy(b[c.x][c.y], colour) && safe(c.x, c.y);
    StepShift(nx, ny, d, 0);
    if k > 0 {
      var mx, my := nx + d.x, ny + d.y;
      ClearShift(b, nx, ny, d, k);
      StepShift(nx, ny, d, k - 1);
      assert SlideReaches(b, colour, mx, my, d, safe, c);
      SlideDestsComplete(b, colour, mx, my, d, safe, c);
      SlideStep(b, colour, nx, ny, d, safe);
    } else {
      assert c == Coords(nx, ny);
      SlideStep(b, colour, nx, ny, d, safe);
    }
  }

  /** Destinations along one vector d of the piece on (x, y); `safe` is the safety test of
      that piece (`SafeTest`). */
  function DirectionDests(b: Board, piece: Piece, x: int, y: int, d: Coords, safe: (int, int) -> bool): seq<Coords>
    requires InRange(x, y) && d != Coords(0, 0)
  {
    var nx, ny := x + d.x, y + d.y;
    if !InRange(nx, ny) then []
    else if OwnedBy(b[nx][ny], piece.colour) then []
    else if piece.kind == Pawn && PawnSkips(b, piece, x, y, d) then []
    else if StepsOnce(piece.kind) then
      (if safe(nx, ny) then [Coords(nx, ny)] else [])
    else SlideDests(b, piece.colour, nx, ny, d, safe)
  }

  /** Destinations along the first n vectors of ds, in order. */
  function DirectionsDests(b: Board, piece: Piece, x: int, y: int, ds: seq<Coords>, n: nat, safe: (int, int) -> bool): seq<Coords>
    requires InRange(x, y) && NonZeroVectors(ds) && n <= |ds|
  {
    if n == 0 then [] else DirectionsDests(b, piece, x, y, ds, n - 1, safe) + DirectionDests(b, piece, x, y, ds[n - 1], safe)
  }

  /** Every destination along a vector is on the board, holds no piece of the mover's
      colour and passes the safety test. */
  lemma DirectionDestsSafe(b: Board, piece: Piece, x: int, y: int, d: Coords, safe: (int, int) -> bool)
    requires InRange(x, y) && d != Coords(0, 0)
    ensures forall c | c in DirectionDests(b, piece, x, y, d, safe) ::
      InRange(c.x, c.y) && !OwnedBy(b[c.x][c.y], piece.colour) && safe(c.x, c.y)
  {
    var nx, ny := x + d.x, y + d.y;
    if InRange(nx, ny) && !OwnedBy(b[nx][ny], piece.colour) && !StepsOnce(piece.kind) {
      forall c | c in SlideDests(b, piece.colour, nx, ny, d, safe)
        ensures InRange(c.x, c.y) && !OwnedBy(b[c.x][c.y], piece.colour) && safe(c.x, c.y)
      {
        SlideDestsSound(b, piece.colour, nx, ny, d, safe, c);
      }
    }
  }

  lemma {:induction false} DirectionsDestsSafe(b: Board, piece: Piece, x: int, y: int, ds: seq<Coords>, n: nat,
                                               safe: (int, int) -> bool)
    requires InRange(x, y) && NonZeroVectors(ds) && n <= |ds|
    ensures forall c | c in DirectionsDests(b, piece, x, y, ds, n, safe) ::
      InRange(c.x, c.y) && !OwnedBy(b[c.x][c.y], piece.colour) && safe(c.x, c.y)
  {
    if n > 0 {
      var before, last := DirectionsDests(b, piece, x, y, ds, n - 1, safe), DirectionDests(b, piece, x, y, ds[n - 1], safe);
      assert DirectionsDests(b, piece, x, y, ds, n, safe) == before + last;
      DirectionsDestsSafe(b, piece, x, y, ds, n - 1, safe);
      DirectionDestsSafe(b, piece, x, y, ds[n - 1], safe);
      forall c: Coords | c in before + last
        ensures InRange(c.x, c.y) && !OwnedBy(b[c.x][c.y], piece.colour) && safe(c.x, c.y)
      {
        if c in before {
        } else {
          assert c in last;
        }
      }
    }
  }

  /** For a Pawn, Knight or King every destination along the vectors is one vector away. */
  lemma {:induction false} StepDestsAreOffsets(b: Board, piece: Piece, x: int, y: int, ds: seq<Coords>, n: nat,
                                               safe: (int, int) -> bool)
    requires InRange(x, y) && NonZeroVectors(ds) && n <= |ds|
    requires StepsOnce(piece.kind)
    ensures forall c | c in DirectionsDests(b, piece, x, y, ds, n, safe) ::
      exists i | 0 <= i < n :: c == Coords(x + ds[i].x, y + ds[i].y)
  {
    if n > 0 {
      StepDestsAreOffsets(b, piece, x, y, ds, n - 1, safe);
      forall c | c in DirectionsDests(b, piece, x, y, ds, n, safe)
        ensures exists i | 0 <= i < n :: c == Coords(x + ds[i].x, y + ds[i].y)
      {
        if c !in DirectionsDests(b, piece, x, y, ds, n - 1, safe) {
          assert c == Coords(x + ds[n - 1].x, y + ds[n - 1].y);
        }
      }
    }
  }

  /** `canCastle(king, kingSide)`. The squares and the rook are looked up on the King's
      home rank, file 4, whatever square the King is actually on. */
  predicate CastlingAllowed(b: Board, check: CheckState, king: Piece, kingSide: bool)
  {
    && !king.hasMoved
    && var kx := HomeRank(king.colour);
      var rook := b[kx][if kingSide then 7 else 0];
      && rook.Some? && rook.value.kind == Rook && !rook.value.hasMoved
      && !check.InCheckAt?
      && var f1 := 4 + (if kingSide then 1 else -1);
        var f2 := 4 + (if kingSide then 2 else -2);
        && b[kx][f1].None? && b[kx][f2].None?
        && (kingSide || b[kx][1].None?)
        && SafeAfterMove(b, king, kx, 4, kx, f1)
        && SafeAfterMove(b, king, kx, 4, kx, f2)
  }

  /** The last move was not a Pawn moving two ranks. With the Pawn vectors as written a
      Pawn changes rank by at most one (`PawnDestsOneRank`), so this holds in every game. */
  predicate PawnMovesShort(last: Option<LastMove>)
  {
    last.Some? && last.value.piece.kind == Pawn ==> Abs(last.value.currX - last.value.prevX) <= 1
  }

  /** `canCaptureEnPassant(pawn, px, py)`: the safety test runs with the captured pawn
      removed from its square. */
  predicate EnPassantAllowed(b: Board, last: Option<LastMove>, pawn: Piece, px: int, py: int)
    requires InRange(px, py) && LastMoveInRange(last)
  {
    && last.Some?
    && var m := last.value;
      && m.piece.kind == Pawn
      && Abs(m.currX - m.prevX) == 2
      && px == m.currX
      && Abs(py - m.currY) == 1
      && m.piece.colour != pawn.colour
      && !((pawn.colour == White && px != 4) || (pawn.colour == Black && px != 3))
      && SafeAfterMove(Put(b, m.currX, m.currY, None), pawn, px, py, px + Forward(pawn.colour), m.currY)
  }

  /** After any last move other than a two-rank Pawn move, `canCaptureEnPassant` refuses. */
  lemma ShortPawnMovesNoEnPassant(b: Board, last: Option<LastMove>, pawn: Piece, px: int, py: int)
    requires InRange(px, py) && LastMoveInRange(last)
    requires PawnMovesShort(last)
    ensures !EnPassantAllowed(b, last, pawn, px, py)
  {
  }

  /** The castling and en-passant destinations added after the vectors. The en-passant
      destination lies on the file the last move started from. */
  function SpecialDests(b: Board, check: CheckState, last: Option<LastMove>, p: Piece, x: int, y: int): seq<Coords>
    requires InRange(x, y) && LastMoveInRange(last)
  {
    if p.kind == King then
      (if CastlingAllowed(b, check, p, true) then [Coords(x, 6)] else [])
      + (if CastlingAllowed(b, check, p, false) then [Coords(x, 2)] else [])
    else if p.kind == Pawn && EnPassantAllowed(b, last, p, x, y) then
      [Coords(x + Forward(p.colour), last.value.prevY)]
    else []
  }

  /** All destinations of the piece on (x, y), in the order `findSafeSquares` lists them. */
  function PieceDests(b: Board, check: CheckState, last: Option<LastMove>, x: int, y: int): seq<Coords>
    requires InRange(x, y) && b[x][y].Some? && LastMoveInRange(last)
  {
    var p := b[x][y].value;
    DirectionsNonZero(p.kind, p.colour);
    var ds := Directions(p.kind, p.colour);
    DirectionsDests(b, p, x, y, ds, |ds|, SafeTest(b, p, x, y)) + SpecialDests(b, check, last, p, x, y)
  }

  /** Square (i, j) comes before (x, y) in scan order (rank by rank, file by file). */
  predicate Before(i: int, j: int, x: int, y: int)
  {
    InRange(i, j) && (i < x || (i == x && j < y))
  }

  /** An 8x8 table of destination lists, one per square. */
  predicate IsTable(t: seq<seq<seq<Coords>>>)
  {
    |t| == 8 && forall i | 0 <= i < 8 :: |t[i]| == 8
  }

  /** The destinations `findSafeSquares` computes on square (i, j): those of the piece
      there when it belongs to the side to move, nothing otherwise. */
  function SquareDests(b: Board, colour: Colour, check: CheckState, last: Option<LastMove>, i: int, j: int): seq<Coords>
    requires LastMoveInRange(last) && InRange(i, j)
  {
    if OwnedBy(b[i][j], colour) then PieceDests(b, check, last, i, j) else []
  }

  /** `SquareDests` as a function of the square, for building the table. */
  function SquareFn(b: Board, colour: Colour, check: CheckState, last: Option<LastMove>): (int, int) -> seq<Coords>
    requires LastMoveInRange(last)
  {
    (i, j) => if InRange(i, j) then SquareDests(b, colour, check, last, i, j) else []
  }

  /** The 8x8 table of the values of f. */
  function Tabulate(f: (int, int) -> seq<Coords>): (t: seq<seq<seq<Coords>>>)
    ensures IsTable(t)
    ensures forall i, j | 0 <= i < 8 && 0 <= j < 8 :: t[i][j] == f(i, j)
  {
    seq(8, i => seq(8, j => f(i, j)))
  }

  /** The table of destinations of the 64 squares. */
  function DestTable(b: Board, colour: Colour, check: CheckState, last: Option<LastMove>): (t: seq<seq<seq<Coords>>>)
    requires LastMoveInRange(last)
    ensures IsTable(t)
  {
    Tabulate(SquareFn(b, colour, check, last))
  }

  /** Entry (i, j) of the table is what `findSafeSquares` computes on that square. */
  lemma DestTableEntry(b: Board, colour: Colour, check: CheckState, last: Option<LastMove>, i: int, j: int)
    requires LastMoveInRange(last) && InRange(i, j)
    ensures DestTable(b, colour, check, last)[i][j] == SquareDests(b, colour, check, last, i, j)
  {
    assert SquareFn(b, colour, check, last)(i, j) == SquareDests(b, colour, check, last, i, j);
  }

  /** The map after the squares before (x, y) in scan order: a square is recorded only
      when its list is non-empty. */
  function MapBefore(t: seq<seq<seq<Coords>>>, x: int, y: int): map<string, seq<Coords>>
    requires IsTable(t)
    requires 0 <= x <= 8 && 0 <= y <= 8 && (x == 8 ==> y == 0)
    decreases x, y
  {
    if x == 0 && y == 0 then map[]
    else if y == 0 then MapBefore(t, x - 1, 8)
    else
      var m := MapBefore(t, x, y - 1);
      if |t[x][y - 1]| > 0 then m[Key(x, y - 1) := t[x][y - 1]] else m
  }

  /** One square of the scan: the map grows by (x, y) when its list is non-empty. */
  lemma MapBeforeStep(t: seq<seq<seq<Coords>>>, x: int, y: int)
    requires IsTable(t) && 0 <= x < 8 && 0 <= y < 8
    ensures MapBefore(t, x, y + 1)
      == if |t[x][y]| > 0 then MapBefore(t, x, y)[Key(x, y) := t[x][y]] else MapBefore(t, x, y)
  {
  }

  /** The end of rank x is the start of rank x + 1. */
  lemma MapBeforeNextRank(t: seq<seq<seq<Coords>>>, x: int)
    requires IsTable(t) && 0 <= x < 8
    ensures MapBefore(t, x + 1, 0) == MapBefore(t, x, 8)
  {
  }

  /** `findSafeSquares`: origin key to its destinations, for the side `colour`. */
  function SafeSquareMap(b: Board, colour: Colour, check: CheckState, last: Option<LastMove>): map<string, seq<Coords>>
    requires LastMoveInRange(last)
  {
    MapBefore(DestTable(b, colour, check, last), 8, 0)
  }

  lemma {:induction false} MapBeforeKeys(t: seq<seq<seq<Coords>>>, x: int, y: int)
    requires IsTable(t)
    requires 0 <= x <= 8 && 0 <= y <= 8 && (x == 8 ==> y == 0)
    ensures forall k | k in MapBefore(t, x, y) :: exists i, j | Before(i, j, x, y) :: k == Key(i, j)
    ensures forall i, j | Before(i, j, x, y) ::
      && (Key(i, j) in MapBefore(t, x, y) <==> |t[i][j]| > 0)
      && (Key(i, j) in MapBefore(t, x, y) ==> MapBefore(t, x, y)[Key(i, j)] == t[i][j])
    decreases x, y
  {
    if x == 0 && y == 0 {
    } else if y == 0 {
      MapBeforeKeys(t, x - 1, 8);
    } else {
      MapBeforeKeys(t, x, y - 1);
      var m := MapBefore(t, x, y - 1);
      var m' := MapBefore(t, x, y);
      if Key(x, y - 1) in m {
        var i, j :| Before(i, j, x, y - 1) && Key(x, y - 1) == Key(i, j);
        KeyInjective(i, j, x, y - 1);
        assert false;
      }
      forall i, j | Before(i, j, x, y)
        ensures Key(i, j) in m' <==> |t[i][j]| > 0
        ensures Key(i, j) in m' ==> m'[Key(i, j)] == t[i][j]
      {
        KeyInjective(i, j, x, y - 1);
        if !(i == x && j == y - 1) {
          assert Before(i, j, x, y - 1);
        }
      }
      forall k | k in m' ensures exists i, j | Before(i, j, x, y) :: k == Key(i, j)
      {
        if k in m {
          var i, j :| Before(i, j, x, y - 1) && k == Key(i, j);
          assert Before(i, j, x, y);
        } else {
          assert Before(x, y - 1, x, y);
        }
      }
    }
  }

  /** An origin is a key of the map exactly when it holds a piece of the side to move that
      has at least one destination, and its entry is that piece's destination list; the
      map has no other keys. */
  lemma SafeSquareMapKeys(b: Board, colour: Colour, check: CheckState, last: Option<LastMove>)
    requires LastMoveInRange(last)
    ensures forall k | k in SafeSquareMap(b, colour, check, last) :: exists i, j | InRange(i, j) :: k == Key(i, j)
    ensures forall i, j | InRange(i, j) ::
      && (Key(i, j) in SafeSquareMap(b, colour, check, last)
          <==> OwnedBy(b[i][j], colour) && |PieceDests(b, check, last, i, j)| > 0)
      && (Key(i, j) in SafeSquareMap(b, colour, check, last) ==>
          SafeSquareMap(b, colour, check, last)[Key(i, j)] == PieceDests(b, check, last, i, j))
  {
    MapBeforeKeys(DestTable(b, colour, check, last), 8, 0);
    forall i, j | InRange(i, j) {
      DestTableEntry(b, colour, check, last, i, j);
    }
  }

  /** In every position the engine reaches (an unmoved King on its home square, no
      two-rank Pawn move last) every destination of a piece is on the board and passes
      `isPositionSafeAfterMove` on the board itself. Castling squares are measured from
      the King's own square because an unmoved King stands on its home square; there is
      no en-passant destination (`ShortPawnMovesNoEnPassant`). */
  lemma PieceDestsSafe(b: Board, check: CheckState, last: Option<LastMove>, x: int, y: int)
    requires InRange(x, y) && b[x][y].Some? && LastMoveInRange(last)
    requires UnmovedKingsHome(b) && PawnMovesShort(last)
    ensures var p := b[x][y].value;
      forall c | c in PieceDests(b, check, last, x, y) :: InRange(c.x, c.y) && SafeAfterMove(b, p, x, y, c.x, c.y)
  {
    var p := b[x][y].value;
    DirectionsNonZero(p.kind, p.colour);
    var ds := Directions(p.kind, p.colour);
    var safe := SafeTest(b, p, x, y);
    DirectionsDestsSafe(b, p, x, y, ds, |ds|, safe);
    var steps := DirectionsDests(b, p, x, y, ds, |ds|, safe);
    var special := SpecialDests(b, check, last, p, x, y);
    assert PieceDests(b, check, last, x, y) == steps + special;
    ShortPawnMovesNoEnPassant(b, last, p, x, y);
    forall c | c in special
      ensures InRange(c.x, c.y) && SafeAfterMove(b, p, x, y, c.x, c.y)
    {
      assert p.kind == King && x == HomeRank(p.colour) && y == 4;
    }
  }

  lemma KingStepDests(b: Board, p: Piece, x: int, y: int, safe: (int, int) -> bool)
    requires InRange(x, y) && p.kind == King
    ensures NonZeroVectors(KingTable)
    ensures forall c | c in DirectionsDests(b, p, x, y, KingTable, |KingTable|, safe) ::
      Abs(c.x - x) <= 1 && Abs(c.y - y) <= 1
  {
    DirectionsNonZero(King, p.colour);
    StepDestsAreOffsets(b, p, x, y, KingTable, |KingTable|, safe);
    KingTableIsUnitVectors();
    forall c | c in DirectionsDests(b, p, x, y, KingTable, |KingTable|, safe)
      ensures Abs(c.x - x) <= 1 && Abs(c.y - y) <= 1
    {
      var i :| 0 <= i < |KingTable| && c == Coords(x + KingTable[i].x, y + KingTable[i].y);
      assert KingTable[i] in KingTable;
    }
  }

  /** A King moves one square in any direction, or two files along its home rank from
      file 4 when castling on that side is allowed. */
  lemma KingDestsShape(b: Board, check: CheckState, last: Option<LastMove>, x: int, y: int)
    requires InRange(x, y) && b[x][y].Some? && b[x][y].value.kind == King && LastMoveInRange(last)
    requires UnmovedKingsHome(b)
    ensures forall c | c in PieceDests(b, check, last, x, y) ::
      || (Abs(c.x - x) <= 1 && Abs(c.y - y) <= 1)
      || (c.x == x == HomeRank(b[x][y].value.colour) && y == 4 && (c.y == 6 || c.y == 2)
          && CastlingAllowed(b, check, b[x][y].value, c.y == 6))
  {
    var p := b[x][y].value;
    var safe := SafeTest(b, p, x, y);
    KingStepDests(b, p, x, y, safe);
    assert Directions(p.kind, p.colour) == KingTable;
    var steps := DirectionsDests(b, p, x, y, KingTable, |KingTable|, safe);
    var special := SpecialDests(b, check, last, p, x, y);
    assert PieceDests(b, check, last, x, y) == steps + special;
    forall c | c in special
      ensures c.x == x == HomeRank(p.colour) && y == 4 && (c.y == 6 || c.y == 2)
        && CastlingAllowed(b, check, p, c.y == 6)
    {
      assert x == HomeRank(p.colour) && y == 4;
    }
  }

  /** A Pawn never changes rank by more than one: its vectors have rank component -1, 0
      or 1, and an en-passant capture advances one rank. */
  lemma PawnDestsOneRank(b: Board, check: CheckState, last: Option<LastMove>, x: int, y: int)
    requires InRange(x, y) && b[x][y].Some? && b[x][y].value.kind == Pawn && LastMoveInRange(last)
    ensures forall c | c in PieceDests(b, check, last, x, y) :: Abs(c.x - x) <= 1
  {
    var p := b[x][y].value;
    DirectionsNonZero(p.kind, p.colour);
    var ds := Directions(p.kind, p.colour);
    var safe := SafeTest(b, p, x, y);
    StepDestsAreOffsets(b, p, x, y, ds, |ds|, safe);
    PawnVectorsShape(p.colour);
  }
}
