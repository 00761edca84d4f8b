/** The circle cursor: what the circle plots, and that taking the cursor away again
    leaves the frame buffer as it was. */
module Cursor {
  import opened Raster

  // ---------------------------------------------------------------- circle

  /** The error term of the circle loop. */
  function CircleError(r: nat, x: int, y: int): int {
    (x + 1) * (x + 1) + (y + 1) * (y + 1) - r * r
  }

  /** One turn of the loop: x moves right, y moves down, or both. */
  function MoveX(x: int, y: int, err: int): (int, int) {
    if err <= x then (x + 1, err + 2 * (x + 1) + 1) else (x, err)
  }

  function MoveY(x: int, y: int, err: int, oldErr: int): (int, int) {
    if oldErr > y || err > x then (y + 1, err + 2 * (y + 1) + 1) else (y, err)
  }

  /** Right of the center column and not below the center row, within the radius. */
  predicate Quadrant(r: nat, x: int, y: int) {
    0 <= x <= r && 0 <= -y <= r
  }

  /** The offsets that the loop plots from (x, y) on. */
  function Offsets(r: nat, x: int, y: int): (s: seq<(int, int)>)
    requires Quadrant(r, x, y)
    ensures forall i :: 0 <= i < |s| ==> Quadrant(r, s[i].0, s[i].1)
    decreases r - x - y
  {
    var err := CircleError(r, x, y);
    StaysInside(r, x, y);
    var (x', err') := MoveX(x, y, err);
    var (y', _) := MoveY(x', y, err', err);
    [(x, y)] + (if y' < 0 then Offsets(r, x', y') else [])
  }

  /** While y is negative, x stays within the radius, one of them moves, and the error
      term keeps its meaning. */
  lemma StaysInside(r: nat, x: int, y: int)
    requires Quadrant(r, x, y)
    ensures var err := CircleError(r, x, y);
      var (x', err') := MoveX(x, y, err);
      var (y', err'') := MoveY(x', y, err', err);
      && x <= x' <= x + 1 && y <= y' <= y + 1 && (x' > x || y' > y) && x' <= r
      && err'' == CircleError(r, x', y')
  {
    RightEdge(r, y);
    hide CircleError;
    ErrorMoves(r, x, y);
    ErrorMoves(r, x + 1, y);
  }

  /** At the right edge the error term keeps x from moving on. */
  lemma RightEdge(r: nat, y: int)
    ensures CircleError(r, r, y) > r
  {
    Square(r);
    assert (y + 1) * (y + 1) >= 0;
  }

  lemma ErrorMoves(r: nat, x: int, y: int)
    ensures CircleError(r, x + 1, y) == CircleError(r, x, y) + 2 * (x + 1) + 1
    ensures CircleError(r, x, y + 1) == CircleError(r, x, y) + 2 * (y + 1) + 1
  {
    Square(x + 1);
    Square(y + 1);
  }

  lemma Square(v: int)
    ensures (v + 1) * (v + 1) == v * v + 2 * v + 1
  {
  }

  /** The four pixels of one offset. */
  function Four(x0: u16, y0: u16, o: (int, int)): seq<(u16, u16)> {
    [(Wrap(x0 - o.0), Wrap(y0 + o.1)), (Wrap(x0 - o.1), Wrap(y0 - o.0)),
     (Wrap(x0 + o.0), Wrap(y0 - o.1)), (Wrap(x0 + o.1), Wrap(y0 + o.0))]
  }

  function FourEach(x0: u16, y0: u16, s: seq<(int, int)>): seq<(u16, u16)>
    decreases |s|
  {
    if s == [] then [] else Four(x0, y0, s[0]) + FourEach(x0, y0, s[1..])
  }

  /** The pixels of lcdDrawCircle in the order of drawing. */
  function CirclePoints(x0: u16, y0: u16, r: nat): seq<(u16, u16)> {
    FourEach(x0, y0, Offsets(r, 0, 0 - r))
  }

  /** The square around the circle lies inside the 16-bit range. */
  predicate Fits(x0: u16, y0: u16, r: nat) {
    r <= x0 && r <= y0 && x0 + r < 0x10000 && y0 + r < 0x10000
  }

  predicate Inside(p: (u16, u16), x1: int, y1: int, x2: int, y2: int) {
    x1 <= p.0 <= x2 && y1 <= p.1 <= y2
  }

  predicate AllInside(points: seq<(u16, u16)>, x1: int, y1: int, x2: int, y2: int) {
    forall k :: 0 <= k < |points| ==> Inside(points[k], x1, y1, x2, y2)
  }

  /** Every pixel of the circle lies in the square. */
  lemma {:induction false} CircleInside(x0: u16, y0: u16, r: nat, s: seq<(int, int)>)
    requires Fits(x0, y0, r)
    requires forall i :: 0 <= i < |s| ==> Quadrant(r, s[i].0, s[i].1)
    ensures AllInside(FourEach(x0, y0, s), x0 - r, y0 - r, x0 + r, y0 + r)
    decreases |s|
  {
    if s != [] {
      hide Four, Fits, AllInside;
      CircleInside(x0, y0, r, s[1..]);
      FourInside(x0, y0, r, s[0]);
      JoinInside(Four(x0, y0, s[0]), FourEach(x0, y0, s[1..]), x0 - r, y0 - r, x0 + r, y0 + r);
    } else {
      assert FourEach(x0, y0, s) == [];
    }
  }

  lemma JoinInside(a: seq<(u16, u16)>, b: seq<(u16, u16)>, x1: int, y1: int, x2: int, y2: int)
    requires AllInside(a, x1, y1, x2, y2) && AllInside(b, x1, y1, x2, y2)
    ensures AllInside(a + b, x1, y1, x2, y2)
  {
  }

  lemma NoWrap(v: int)
    requires 0 <= v < 0x10000
    ensures Wrap(v) == v
  {
  }

  lemma FourInside(x0: u16, y0: u16, r: nat, o: (int, int))
    requires Fits(x0, y0, r) && Quadrant(r, o.0, o.1)
    ensures AllInside(Four(x0, y0, o), x0 - r, y0 - r, x0 + r, y0 + r)
  {
    hide Wrap;
    NoWrap(x0 - o.0);
    NoWrap(y0 + o.1);
    NoWrap(x0 - o.1);
    NoWrap(y0 - o.0);
    NoWrap(x0 + o.0);
    NoWrap(y0 - o.1);
    NoWrap(x0 + o.1);
    NoWrap(y0 + o.0);
  }

  // ------------------------------------------------------ how round it is

  /** The distance from the center is less than half a pixel from the radius: squared and
      in whole numbers, r*r - r + 1/4 and r*r + r + 1/4 are the bounds. */
  predicate Near(r: nat, x: int, y: int) {
    if r == 0 then x == 0 && y == 0 else r * r - r < x * x + y * y <= r * r + r
  }

  /** From a pixel above the center row to the next: by one to the right, one down, or both. */
  predicate Beside(a: (int, int), b: (int, int)) {
    a.0 <= b.0 <= a.0 + 1 && a.1 <= b.1 <= a.1 + 1 && a != b
  }

  lemma SquareLe(a: int, b: int)
    requires 0 <= a <= b
    ensures a * a <= b * b
  {
    assert b * b - a * a == (b - a) * (b + a);
  }

  /** What the error term says of the three pixels that may come next. */
  lemma NextErrors(r: nat, x: int, y: int)
    ensures var e := CircleError(r, x, y);
      && (x + 1) * (x + 1) + (y + 1) * (y + 1) == r * r + e
      && (x + 1) * (x + 1) + y * y == r * r + e - 2 * y - 1
      && x * x + (y + 1) * (y + 1) == r * r + e - 2 * x - 1
      && x * x + y * y == r * r + e - 2 * x - 2 * y - 2
  {
    Square(x);
    Square(y);
  }

  /** One turn of the loop stays near the ideal circle. */
  lemma TurnIsNear(r: nat, x: int, y: int)
    requires Quadrant(r, x, y) && Near(r, x, y) && y < 0
    ensures var err := CircleError(r, x, y);
      var (x', err') := MoveX(x, y, err);
      var (y', _) := MoveY(x', y, err', err);
      Near(r, x', y') && Quadrant(r, x', y') && Beside((x, y), (x', y'))
  {
    StaysInside(r, x, y);
    NextErrors(r, x, y);
    var e := CircleError(r, x, y);
    if x >= r - 1 { LastColumns(r, x, y); }
    var (x', err') := MoveX(x, y, e);
    var (y', _) := MoveY(x', y, err', e);
    if x' == x {
      if x == r { assert x * x + (y + 1) * (y + 1) >= r * r; }
    } else if y' == y {
      assert x * x <= (x + 1) * (x + 1) by { SquareLe(x, x + 1); }
    }
  }

  /** In the last two columns the error term is not negative. */
  lemma LastColumns(r: nat, x: int, y: int)
    requires r - 1 <= x <= r && x >= 0
    ensures CircleError(r, x, y) >= 0 && (x == r ==> x * x + (y + 1) * (y + 1) >= r * r)
  {
    SquareLe(r, x + 1);
    assert (y + 1) * (y + 1) >= 0;
  }

  lemma OnCenterRow(r: nat, x: int)
    requires 0 <= x <= r && Near(r, x, 0)
    ensures x == r
  {
    if x < r {
      SquareLe(x, r - 1);
      Square(r - 1);
    }
  }

  /** The offsets of one quadrant: each is near the ideal circle and beside the one before;
      the last lies in the row above the center and beside (r, 0), where the next quadrant
      begins. */
  lemma {:induction false} QuadrantIsRound(r: nat, x: int, y: int)
    requires Quadrant(r, x, y) && Near(r, x, y) && (y < 0 || r == 0)
    ensures var s := Offsets(r, x, y);
      && s != [] && s[0] == (x, y)
      && (forall i :: 0 <= i < |s| ==> Near(r, s[i].0, s[i].1))
      && (forall i :: 0 < i < |s| ==> Beside(s[i - 1], s[i]))
      && (r > 0 ==> s[|s| - 1].1 == -1 && Beside(s[|s| - 1], (r, 0)))
    decreases r - x - y
  {
    hide CircleError, Near, MoveX, MoveY;
    var s := Offsets(r, x, y);
    if r > 0 {
      StaysInside(r, x, y);
      TurnIsNear(r, x, y);
      var err := CircleError(r, x, y);
      var (x', err') := MoveX(x, y, err);
      var (y', _) := MoveY(x', y, err', err);
      if y' < 0 {
        QuadrantIsRound(r, x', y');
        var rest := Offsets(r, x', y');
        assert s == [(x, y)] + rest;
        forall i | 0 < i < |s| ensures Beside(s[i - 1], s[i]) {
          assert s[i] == rest[i - 1];
          if i > 1 { assert s[i - 1] == rest[i - 2]; }
        }
      } else {
        assert s == [(x, y)];
        OnCenterRow(r, x');
      }
    } else {
      DotOnly(x, y);
    }
  }

  lemma DotOnly(x: int, y: int)
    requires x == 0 && y == 0
    ensures Offsets(0, x, y) == [(0, 0)]
  {
  }

  /** A quarter turn about the center. */
  function Turned(d: (int, int)): (int, int) {
    (0 - d.1, d.0)
  }

  /** Where a pixel lies, seen from the center. */
  function From(x0: u16, y0: u16, q: (u16, u16)): (int, int) {
    (q.0 - x0, q.1 - y0)
  }

  /** The four pixels of an offset are one pixel turned three times. */
  lemma FourTurns(x0: u16, y0: u16, r: nat, o: (int, int))
    requires Fits(x0, y0, r) && Quadrant(r, o.0, o.1)
    ensures var f := Four(x0, y0, o);
      && From(x0, y0, f[0]) == (0 - o.0, o.1)
      && From(x0, y0, f[1]) == Turned(From(x0, y0, f[0])) && From(x0, y0, f[2]) == Turned(From(x0, y0, f[1]))
      && From(x0, y0, f[3]) == Turned(From(x0, y0, f[2])) && From(x0, y0, f[0]) == Turned(From(x0, y0, f[3]))
  {
    hide Wrap;
    NoWrap(x0 - o.0);
    NoWrap(y0 + o.1);
    NoWrap(x0 - o.1);
    NoWrap(y0 - o.0);
    NoWrap(x0 + o.0);
    NoWrap(y0 - o.1);
    NoWrap(x0 + o.1);
    NoWrap(y0 + o.0);
  }

  /** The pixels of the i-th offset. */
  function FourOf(points: seq<(u16, u16)>, i: nat): seq<(u16, u16)> {
    if 4 * i + 4 <= |points| then points[4 * i..4 * i + 4] else []
  }

  lemma {:induction false} FourEachAt(x0: u16, y0: u16, s: seq<(int, int)>, i: nat)
    requires i < |s|
    ensures |FourEach(x0, y0, s)| == 4 * |s|
    ensures FourOf(FourEach(x0, y0, s), i) == Four(x0, y0, s[i])
    decreases |s|
  {
    hide Four;
    var f, rest := Four(x0, y0, s[0]), FourEach(x0, y0, s[1..]);
    assert |f| == 4 by { FourAre(x0, y0, s[0]); }
    if |s| > 1 {
      FourEachAt(x0, y0, s[1..], if i > 0 then i - 1 else 0);
      if i > 0 { assert FourEach(x0, y0, s)[4 * i..4 * i + 4] == rest[4 * (i - 1)..4 * (i - 1) + 4]; }
    } else {
      assert s[1..] == [] && rest == [];
    }
  }

  lemma FourAre(x0: u16, y0: u16, o: (int, int))
    ensures |Four(x0, y0, o)| == 4
  {
  }

  /** Offsets of one quadrant from (0, -r) to beside (r, 0), each near the ideal circle and
      beside the one before. */
  ghost predicate Round(r: nat, s: seq<(int, int)>) {
    && s != [] && s[0] == (0, 0 - r)
    && (forall i :: 0 <= i < |s| ==> Near(r, s[i].0, s[i].1))
    && (forall i :: 0 < i < |s| ==> Beside(s[i - 1], s[i]))
    && (r > 0 ==> s[|s| - 1].1 == -1 && Beside(s[|s| - 1], (r, 0)))
  }

  /** Four pixels: the offset mirrored at the column of the center, and its three turns. */
  predicate FourAround(x0: u16, y0: u16, r: nat, f: seq<(u16, u16)>, o: (int, int)) {
    && |f| == 4 && From(x0, y0, f[0]) == (0 - o.0, o.1)
    && (forall m :: 0 < m < 4 ==> From(x0, y0, f[m]) == Turned(From(x0, y0, f[m - 1])))
    && (forall m :: 0 <= m < 4 ==> Near(r, From(x0, y0, f[m]).0, From(x0, y0, f[m]).1))
  }

  /** The circle that is drawn is one: four turned copies of a quadrant, within half a pixel
      of the ideal circle, without a gap in a quadrant or between two. */
  lemma CircleIsRound(x0: u16, y0: u16, r: nat) returns (s: seq<(int, int)>)
    requires Fits(x0, y0, r)
    ensures var points := CirclePoints(x0, y0, r);
      && Round(r, s) && |points| == 4 * |s|
      && forall i :: 0 <= i < |s| ==> FourAround(x0, y0, r, FourOf(points, i), s[i])
  {
    hide Offsets, Four, FourOf, FourEach, Near, Wrap, Fits, FourAround, Round;
    s := Offsets(r, 0, 0 - r);
    StartIsNear(r);
    WholeQuadrant(r);
    FourEachAt(x0, y0, s, 0);
    forall i | 0 <= i < |s| ensures FourAround(x0, y0, r, FourOf(CirclePoints(x0, y0, r), i), s[i]) {
      FourEachAt(x0, y0, s, i);
      FourIsAround(x0, y0, r, s[i]);
    }
  }

  lemma WholeQuadrant(r: nat)
    requires Quadrant(r, 0, 0 - r)
    ensures Round(r, Offsets(r, 0, 0 - r)) && |Offsets(r, 0, 0 - r)| > 0
    ensures var s := Offsets(r, 0, 0 - r); forall i :: 0 <= i < |s| ==> Near(r, s[i].0, s[i].1) && Quadrant(r, s[i].0, s[i].1)
  {
    hide Near, Offsets, Beside;
    StartIsNear(r);
    QuadrantIsRound(r, 0, 0 - r);
  }

  lemma FourIsAround(x0: u16, y0: u16, r: nat, o: (int, int))
    requires Fits(x0, y0, r) && Quadrant(r, o.0, o.1) && Near(r, o.0, o.1)
    ensures FourAround(x0, y0, r, Four(x0, y0, o), o)
  {
    hide Four, Near, Wrap;
    FourAre(x0, y0, o);
    FourTurns(x0, y0, r, o);
    NearTurns(r, (0 - o.0, o.1), o);
    var f := Four(x0, y0, o);
    forall m | 0 < m < 4 ensures From(x0, y0, f[m]) == Turned(From(x0, y0, f[m - 1])) {
      assert m == 1 || m == 2 || m == 3;
    }
  }

  lemma StartIsNear(r: nat)
    ensures Near(r, 0, 0 - r) && Quadrant(r, 0, 0 - r)
  {
    assert (0 - r) * (0 - r) == r * r;
  }

  lemma NearTurns(r: nat, a: (int, int), o: (int, int))
    requires Near(r, o.0, o.1) && a == (0 - o.0, o.1)
    ensures Near(r, a.0, a.1) && Near(r, Turned(a).0, Turned(a).1)
    ensures Near(r, Turned(Turned(a)).0, Turned(Turned(a)).1)
    ensures Near(r, Turned(Turned(Turned(a))).0, Turned(Turned(Turned(a))).1)
  {
    assert (0 - o.0) * (0 - o.0) == o.0 * o.0 && (0 - o.1) * (0 - o.1) == o.1 * o.1;
  }

  // ------------------------------------------------------------- rectangles

  /** A rectangle clipped at the panel; nothing when it begins off the panel. */
  datatype Rect = Nothing | Rect(x1: nat, y1: nat, x2: nat, y2: nat)

  function Clip(w: nat, h: nat, x1: u16, y1: u16, x2: u16, y2: u16): Rect
    requires w > 0 && h > 0
  {
    if x1 >= w || y1 >= h then Nothing
    else Rect(x1, y1, if x2 >= w then w - 1 else x2, if y2 >= h then h - 1 else y2)
  }

  predicate OnPanel(c: Rect, w: nat, h: nat) {
    c.Rect? && c.x1 <= c.x2 < w && c.y1 <= c.y2 < h
  }

  function Columns(c: Rect): (n: nat)
    requires c.Rect? && c.x1 <= c.x2
    ensures n > 0
  {
    c.x2 - c.x1 + 1
  }

  function Area(c: Rect): nat
    requires c.Rect? && c.x1 <= c.x2 && c.y1 <= c.y2
  {
    (c.y2 - c.y1 + 1) * Columns(c)
  }

  predicate Covers(c: Rect, w: nat, p: nat)
    requires w > 0
  {
    c.Rect? && c.x1 <= p % w <= c.x2 && c.y1 <= p / w <= c.y2
  }

  /** Row by row in rows of n. */
  function Linear(row: int, column: int, n: int): int {
    row * n + column
  }

  /** The place in the save buffer of a covered pixel. */
  function Slot(c: Rect, w: nat, p: nat): int
    requires w > 0 && Covers(c, w, p)
  {
    Linear(p / w - c.y1, p % w - c.x1, Columns(c))
  }

  /** The pixel at a place in the save buffer. */
  function Pixel(c: Rect, w: nat, k: nat): int
    requires c.Rect? && c.x1 <= c.x2
  {
    Linear(c.y1 + k / Columns(c), c.x1 + k % Columns(c), w)
  }

  /** The two are inverse. */
  lemma SlotOfPixel(c: Rect, w: nat, h: nat, k: nat)
    requires OnPanel(c, w, h) && k < Area(c)
    ensures 0 <= Pixel(c, w, k) < h * w && Covers(c, w, Pixel(c, w, k)) && Slot(c, w, Pixel(c, w, k)) == k
  {
    hide *;
    var j, i := PlaceOf(c, w, h, k);
    SlotAt(c, w, h, j, i);
  }

  lemma PlaceOf(c: Rect, w: nat, h: nat, k: nat) returns (j: int, i: int)
    requires OnPanel(c, w, h) && k < Area(c)
    ensures 0 <= j <= c.y2 - c.y1 && 0 <= i < Columns(c)
    ensures Pixel(c, w, k) == Linear(c.y1 + j, c.x1 + i, w) && k == Linear(j, i, Columns(c))
  {
    hide Columns, Linear;
    RowOf(k, c.y2 - c.y1 + 1, Columns(c));
    j, i := k / Columns(c), k % Columns(c);
  }

  lemma SlotAt(c: Rect, w: nat, h: nat, j: int, i: int)
    requires OnPanel(c, w, h) && 0 <= j <= c.y2 - c.y1 && 0 <= i < Columns(c)
    ensures var p := Linear(c.y1 + j, c.x1 + i, w);
      0 <= p < h * w && Covers(c, w, p) && Slot(c, w, p) == Linear(j, i, Columns(c))
  {
    DivMod(w, c.y1 + j, c.x1 + i);
    InRow(w, h, c.x1 + i, c.y1 + j);
  }

  lemma RowOf(k: nat, rows: nat, n: nat)
    requires n > 0 && k < rows * n
    ensures 0 <= k / n < rows && 0 <= k % n < n && Linear(k / n, k % n, n) == k
  {
    assert k == n * (k / n) + k % n;
    assert (rows - 1) * n == rows * n - n;
    if rows <= k / n { MulGap(rows - 1, k / n, n); }
  }

  lemma PixelOfSlot(c: Rect, w: nat, h: nat, p: nat)
    requires OnPanel(c, w, h) && Covers(c, w, p)
    ensures 0 <= Slot(c, w, p) < Area(c) && Pixel(c, w, Slot(c, w, p)) == p
  {
    hide Linear, Area, Columns;
    var n := Columns(c);
    var j, i := p / w - c.y1, p % w - c.x1;
    assert i < n by { ColumnsOf(c); }
    Place(n, j, i);
    RowColumn(w, p);
    AreaHolds(c, j, i);
  }

  lemma ColumnsOf(c: Rect)
    requires c.Rect? && c.x1 <= c.x2
    ensures Columns(c) == c.x2 - c.x1 + 1
  {
  }

  lemma Place(n: int, j: int, i: int)
    requires 0 <= i < n
    ensures Linear(j, i, n) / n == j && Linear(j, i, n) % n == i
  {
    DivMod(n, j, i);
  }

  lemma RowColumn(w: nat, p: nat)
    requires w > 0
    ensures Linear(p / w, p % w, w) == p
  {
    assert p == w * (p / w) + p % w;
    assert w * (p / w) == (p / w) * w;
  }

  lemma AreaHolds(c: Rect, j: int, i: int)
    requires c.Rect? && c.x1 <= c.x2 && c.y1 <= c.y2 && 0 <= j <= c.y2 - c.y1 && 0 <= i < Columns(c)
    ensures 0 <= Linear(j, i, Columns(c)) < Area(c)
  {
    InRow(Columns(c), c.y2 - c.y1 + 1, i, j);
  }

  /** lcdGetRect: the covered pixels, row by row. */
  function SavedRect(buf: seq<u16>, w: nat, h: nat, c: Rect): (r: seq<u16>)
    requires Sized(buf, w, h) && OnPanel(c, w, h)
    ensures |r| == Area(c)
  {
    seq(Area(c), k requires 0 <= k < Area(c) =>
      SlotOfPixel(c, w, h, k);
      buf[Pixel(c, w, k)])
  }

  /** lcdSetRect after n pixels: the covered pixels come from the save buffer. */
  function RestoredRect(buf: seq<u16>, w: nat, h: nat, c: Rect, save: seq<u16>, n: nat): (r: seq<u16>)
    requires Sized(buf, w, h) && OnPanel(c, w, h) && n <= |save|
    ensures Sized(r, w, h)
  {
    seq(|buf|, p requires 0 <= p < |buf| =>
      if Covers(c, w, p) && 0 <= Slot(c, w, p) < n then save[Slot(c, w, p)] else buf[p])
  }

  /** Restoring what was saved undoes any change inside the rectangle. */
  lemma RestoreUndoes(buf: seq<u16>, now: seq<u16>, w: nat, h: nat, c: Rect)
    requires Sized(buf, w, h) && Sized(now, w, h) && OnPanel(c, w, h)
    requires forall p :: 0 <= p < |buf| && !Covers(c, w, p) ==> now[p] == buf[p]
    ensures RestoredRect(now, w, h, c, SavedRect(buf, w, h, c), Area(c)) == buf
  {
    hide Covers, Slot, Pixel, Area;
    var save := SavedRect(buf, w, h, c);
    var r := RestoredRect(now, w, h, c, save, Area(c));
    forall p | 0 <= p < |buf| ensures r[p] == buf[p] {
      if Covers(c, w, p) {
        PixelOfSlot(c, w, h, p);
        assert save[Slot(c, w, p)] == buf[Pixel(c, w, Slot(c, w, p))];
      }
    }
  }

  /** Drawing inside a square changes no pixel outside its clipped rectangle. */
  lemma {:induction false} PaintInside(buf: seq<u16>, w: nat, h: nat, points: seq<(u16, u16)>, color: u16,
                                       x1: u16, y1: u16, x2: u16, y2: u16)
    requires Sized(buf, w, h)
    requires AllInside(points, x1, y1, x2, y2)
    ensures var now := Paint(buf, w, h, points, color); var c := Clip(w, h, x1, y1, x2, y2);
      && Sized(now, w, h)
      && (forall p :: 0 <= p < |buf| && !Covers(c, w, p) ==> now[p] == buf[p])
    decreases |points|
  {
    if points != [] {
      var k := |points| - 1;
      var front := points[..k];
      assert points == front + [points[k]];
      PaintInside(buf, w, h, front, color, x1, y1, x2, y2);
      PixelInside(Paint(buf, w, h, front, color), w, h, points[k], color, x1, y1, x2, y2);
    }
  }

  lemma PixelInside(buf: seq<u16>, w: nat, h: nat, q: (u16, u16), color: u16, x1: u16, y1: u16, x2: u16, y2: u16)
    requires Sized(buf, w, h) && Inside(q, x1, y1, x2, y2)
    ensures var now := SetPixel(buf, w, h, q.0, q.1, color); var c := Clip(w, h, x1, y1, x2, y2);
      forall p :: 0 <= p < |buf| && !Covers(c, w, p) ==> now[p] == buf[p]
  {
    if q.0 < w && q.1 < h {
      DivMod(w, q.1, q.0);
      assert Covers(Clip(w, h, x1, y1, x2, y2), w, q.1 * w + q.0);
    }
  }

  // ---------------------------------------------------------------- cursor

  /** The square of the cursor as lcdSetCursor passes it on. */
  function CursorSquare(x0: u16, y0: u16, r: u16, w: nat, h: nat): Rect
    requires w > 0 && h > 0
  {
    Clip(w, h, Wrap(x0 - r), Wrap(y0 - r), Wrap(x0 + r), Wrap(y0 + r))
  }

  /** The frame after lcdSetRect of what lcdGetRect saved. */
  function PutBack(now: seq<u16>, saved: seq<u16>, w: nat, h: nat, c: Rect): seq<u16>
    requires Sized(now, w, h) && (c.Rect? ==> OnPanel(c, w, h) && |saved| >= Area(c))
  {
    if c.Nothing? then now else RestoredRect(now, w, h, c, saved, Area(c))
  }

  function Save(buf: seq<u16>, w: nat, h: nat, c: Rect): (r: seq<u16>)
    requires Sized(buf, w, h) && (c.Rect? ==> OnPanel(c, w, h))
    ensures c.Rect? ==> |r| == Area(c)
  {
    if c.Nothing? then [] else SavedRect(buf, w, h, c)
  }

  /** Setting the cursor and taking it away leaves the whole frame as it was, wherever
      on or off the panel its square lies inside the 16-bit range. */
  lemma CursorUndone(buf: seq<u16>, w: nat, h: nat, x0: u16, y0: u16, r: u16, color: u16)
    requires Sized(buf, w, h) && Fits(x0, y0, r)
    ensures var c := CursorSquare(x0, y0, r, w, h);
      && (c.Rect? ==> OnPanel(c, w, h))
      && PutBack(Paint(buf, w, h, CirclePoints(x0, y0, r), color), Save(buf, w, h, c), w, h, c) == buf
  {
    hide *;
    var points := CirclePoints(x0, y0, r);
    SquareIs(buf, x0, y0, r, w, h);
    CirclePointsInside(x0, y0, r);
    PaintInside(buf, w, h, points, color, x0 - r, y0 - r, x0 + r, y0 + r);
    PutBackUndoes(buf, Paint(buf, w, h, points, color), w, h, CursorSquare(x0, y0, r, w, h));
  }

  lemma SquareIs(buf: seq<u16>, x0: u16, y0: u16, r: u16, w: nat, h: nat)
    requires Sized(buf, w, h) && Fits(x0, y0, r)
    ensures w > 0 && h > 0 && r <= x0 && r <= y0 && x0 + r < 0x10000 && y0 + r < 0x10000
    ensures var c := CursorSquare(x0, y0, r, w, h);
      c == Clip(w, h, x0 - r, y0 - r, x0 + r, y0 + r) && (c.Rect? ==> OnPanel(c, w, h))
  {
    hide Wrap;
    NoWrap(x0 - r);
    NoWrap(y0 - r);
    NoWrap(x0 + r);
    NoWrap(y0 + r);
  }

  lemma CirclePointsInside(x0: u16, y0: u16, r: nat)
    requires Fits(x0, y0, r)
    ensures AllInside(CirclePoints(x0, y0, r), x0 - r, y0 - r, x0 + r, y0 + r)
  {
    CircleInside(x0, y0, r, Offsets(r, 0, 0 - r));
  }

  lemma PutBackUndoes(buf: seq<u16>, now: seq<u16>, w: nat, h: nat, c: Rect)
    requires Sized(buf, w, h) && Sized(now, w, h) && (c.Rect? ==> OnPanel(c, w, h))
    requires forall p :: 0 <= p < |buf| && !Covers(c, w, p) ==> now[p] == buf[p]
    ensures PutBack(now, Save(buf, w, h, c), w, h, c) == buf
  {
    hide RestoredRect, SavedRect, Area, Sized;
    if c.Rect? {
      RestoreUndoes(buf, now, w, h, c);
    } else {
      SameSize(buf, now, w, h);
      forall p | 0 <= p < |buf| ensures now[p] == buf[p] {
        NothingCovered(c, w, p);
      }
    }
  }

  lemma SameSize(a: seq<u16>, b: seq<u16>, w: nat, h: nat)
    requires Sized(a, w, h) && Sized(b, w, h)
    ensures |a| == |b| && w > 0 && h > 0
  {
  }

  lemma NothingCovered(c: Rect, w: nat, p: nat)
    requires w > 0 && c.Nothing?
    ensures !Covers(c, w, p)
  {
  }

  lemma {:induction false} PaintSets(buf: seq<u16>, w: nat, h: nat, points: seq<(u16, u16)>, color: u16, k: nat)
    requires Sized(buf, w, h) && k < |points| && points[k].0 < w && points[k].1 < h
    ensures 0 <= points[k].1 * w + points[k].0 < |buf|
    ensures Paint(buf, w, h, points, color)[points[k].1 * w + points[k].0] == color
    decreases |points|
  {
    InRow(w, h, points[k].0, points[k].1);
    var last := |points| - 1;
    if k < last {
      PaintSets(buf, w, h, points[..last], color, k);
    }
  }

  /** Within its radius of the left edge nothing is saved: the cursor stays, at least
      with its rightmost pixel. */
  lemma EdgeCursorStays(buf: seq<u16>, w: nat, h: nat, x0: u16, y0: u16, r: u16, color: u16)
    requires Sized(buf, w, h) && x0 < r && x0 + r < w && y0 < h
    ensures var c := CursorSquare(x0, y0, r, w, h); var at := y0 * w + x0 + r;
      && c == Nothing && 0 <= at < |buf|
      && PutBack(Paint(buf, w, h, CirclePoints(x0, y0, r), color), Save(buf, w, h, c), w, h, c)[at] == color
  {
    hide *;
    EdgeSquare(buf, w, h, x0, y0, r);
    RightmostPixel(x0, y0, r);
    PaintSets(buf, w, h, CirclePoints(x0, y0, r), color, 1);
    var now := Paint(buf, w, h, CirclePoints(x0, y0, r), color);
    assert PutBack(now, Save(buf, w, h, Nothing), w, h, Nothing) == now by { NothingPutBack(buf, now, w, h); }
  }

  lemma EdgeSquare(buf: seq<u16>, w: nat, h: nat, x0: u16, y0: u16, r: u16)
    requires Sized(buf, w, h) && x0 < r && x0 + r < w && y0 < h
    ensures w > 0 && h > 0 && x0 + r < 0x10000
    ensures CursorSquare(x0, y0, r, w, h) == Nothing
  {
    assert Wrap(x0 - r) == x0 - r + 0x10000;
  }

  lemma NothingPutBack(buf: seq<u16>, now: seq<u16>, w: nat, h: nat)
    requires Sized(buf, w, h) && Sized(now, w, h)
    ensures PutBack(now, Save(buf, w, h, Nothing), w, h, Nothing) == now
  {
  }

  lemma RightmostPixel(x0: u16, y0: u16, r: u16)
    requires x0 + r < 0x10000
    ensures |CirclePoints(x0, y0, r)| > 1 && CirclePoints(x0, y0, r)[1] == (x0 + r, y0)
  {
    var s := Offsets(r, 0, 0 - r);
    assert s[0] == (0, 0 - r);
    var f := Four(x0, y0, s[0]);
    assert CirclePoints(x0, y0, r) == f + FourEach(x0, y0, s[1..]);
    assert f[1] == (Wrap(x0 + r), Wrap(y0));
  }

  // ------------------------------------------------- which cursors are undone

  predicate Visible(q: (u16, u16), w: nat, h: nat) {
    q.0 < w && q.1 < h
  }

  /** The place of a pixel in the frame buffer. */
  function At(q: (u16, u16), w: nat): nat {
    InOrder(q, w);
    q.1 * w + q.0
  }

  lemma InOrder(q: (u16, u16), w: nat)
    ensures q.1 * w + q.0 >= 0
  {
  }

  ghost predicate Hit(points: seq<(u16, u16)>, w: nat, h: nat, p: nat) {
    exists k :: 0 <= k < |points| && Visible(points[k], w, h) && At(points[k], w) == p
  }

  lemma SetPixelAt(buf: seq<u16>, w: nat, h: nat, q: (u16, u16), color: u16, p: nat)
    requires Sized(buf, w, h) && p < |buf|
    ensures SetPixel(buf, w, h, q.0, q.1, color)[p] == if Visible(q, w, h) && At(q, w) == p then color else buf[p]
  {
    if Visible(q, w, h) { InRow(w, h, q.0, q.1); }
  }

  /** Drawing changes the pixels of the list that are on the panel, and no other. */
  lemma {:induction false} PaintIs(buf: seq<u16>, w: nat, h: nat, points: seq<(u16, u16)>, color: u16, p: nat)
    requires Sized(buf, w, h) && p < |buf|
    ensures Paint(buf, w, h, points, color)[p] == if Hit(points, w, h, p) then color else buf[p]
    decreases |points|
  {
    hide SetPixel, At, Visible, Sized;
    if points != [] {
      var k := |points| - 1;
      var front := points[..k];
      assert points == front + [points[k]];
      PaintIs(buf, w, h, front, color, p);
      SameSize(buf, Paint(buf, w, h, front, color), w, h);
      SetPixelAt(Paint(buf, w, h, front, color), w, h, points[k], color, p);
      HitLast(front, points[k], w, h, p);
    }
  }

  lemma HitLast(front: seq<(u16, u16)>, q: (u16, u16), w: nat, h: nat, p: nat)
    ensures Hit(front + [q], w, h, p) <==> Hit(front, w, h, p) || (Visible(q, w, h) && At(q, w) == p)
  {
    hide At, Visible;
    var all := front + [q];
    assert all[|front|] == q && forall k :: 0 <= k < |front| ==> all[k] == front[k];
  }

  lemma PutBackAt(buf: seq<u16>, now: seq<u16>, w: nat, h: nat, c: Rect, p: nat)
    requires Sized(buf, w, h) && Sized(now, w, h) && (c.Rect? ==> OnPanel(c, w, h)) && p < |buf|
    ensures PutBack(now, Save(buf, w, h, c), w, h, c)[p] == if Covers(c, w, p) then buf[p] else now[p]
  {
    hide Slot, Pixel, Area;
    if c.Rect? && Covers(c, w, p) { PixelOfSlot(c, w, h, p); }
  }

  /** No square end beyond 65535. */
  predicate EndsFit(x0: u16, y0: u16, r: u16) {
    x0 + r < 0x10000 && y0 + r < 0x10000
  }

  lemma SquareOnPanel(w: nat, h: nat, x0: u16, y0: u16, r: u16)
    requires 0 < w < 0x8000 && 0 < h < 0x8000 && EndsFit(x0, y0, r)
    ensures var c := CursorSquare(x0, y0, r, w, h); c.Rect? ==> OnPanel(c, w, h)
    ensures r <= x0 + 0x8000 && r <= y0 + 0x8000 && !(r <= x0 && r <= y0) ==> CursorSquare(x0, y0, r, w, h) == Nothing
  {
    assert Wrap(x0 + r) == x0 + r && Wrap(y0 + r) == y0 + r;
    assert Wrap(x0 - r) == if r <= x0 then x0 - r else x0 - r + 0x10000;
    assert Wrap(y0 - r) == if r <= y0 then y0 - r else y0 - r + 0x10000;
  }

  /** The cursor is taken away without a trace exactly if every pixel of the circle is
      off the panel, or in the saved rectangle, or had the color of the cursor. */
  lemma UndoneWhen(buf: seq<u16>, w: nat, h: nat, x0: u16, y0: u16, r: u16, color: u16)
    requires Sized(buf, w, h) && EndsFit(x0, y0, r)
    ensures var c := CursorSquare(x0, y0, r, w, h); var points := CirclePoints(x0, y0, r);
      && (c.Rect? ==> OnPanel(c, w, h))
      && (PutBack(Paint(buf, w, h, points, color), Save(buf, w, h, c), w, h, c) == buf
          <==> forall k :: 0 <= k < |points| && Visible(points[k], w, h) ==>
                 At(points[k], w) < |buf| && (Covers(c, w, At(points[k], w)) || buf[At(points[k], w)] == color))
  {
    hide *;
    SizedIs(buf, w, h);
    SquareOnPanel(w, h, x0, y0, r);
    TraceOnly(buf, w, h, CirclePoints(x0, y0, r), color, CursorSquare(x0, y0, r, w, h));
  }

  lemma SizedIs(buf: seq<u16>, w: nat, h: nat)
    requires Sized(buf, w, h)
    ensures 0 < w < 0x8000 && 0 < h < 0x8000
  {
  }

  lemma VisibleAt(buf: seq<u16>, w: nat, h: nat, q: (u16, u16))
    requires Sized(buf, w, h) && Visible(q, w, h)
    ensures At(q, w) < |buf|
  {
    InRow(w, h, q.0, q.1);
  }

  lemma TraceOnly(buf: seq<u16>, w: nat, h: nat, points: seq<(u16, u16)>, color: u16, c: Rect)
    requires Sized(buf, w, h) && w > 0 && (c.Rect? ==> OnPanel(c, w, h))
    ensures PutBack(Paint(buf, w, h, points, color), Save(buf, w, h, c), w, h, c) == buf
      <==> forall k :: 0 <= k < |points| && Visible(points[k], w, h) ==>
             At(points[k], w) < |buf| && (Covers(c, w, At(points[k], w)) || buf[At(points[k], w)] == color)
  {
    hide Paint, PutBack, Save, Covers, Sized, OnPanel, At, Visible;
    var now := Paint(buf, w, h, points, color);
    var back := PutBack(now, Save(buf, w, h, c), w, h, c);
    SameSize(buf, now, w, h);
    SameLength(buf, now, w, h, c);
    forall p | 0 <= p < |buf|
      ensures back[p] == if !Covers(c, w, p) && Hit(points, w, h, p) then color else buf[p]
    {
      PaintIs(buf, w, h, points, color, p);
      PutBackAt(buf, now, w, h, c, p);
    }
    forall k | 0 <= k < |points| && Visible(points[k], w, h) ensures At(points[k], w) < |buf| && Hit(points, w, h, At(points[k], w)) {
      VisibleAt(buf, w, h, points[k]);
    }
    if forall k :: 0 <= k < |points| && Visible(points[k], w, h) ==>
         At(points[k], w) < |buf| && (Covers(c, w, At(points[k], w)) || buf[At(points[k], w)] == color) {
      forall p | 0 <= p < |buf| ensures back[p] == buf[p] {}
    }
  }

  lemma SameLength(buf: seq<u16>, now: seq<u16>, w: nat, h: nat, c: Rect)
    requires Sized(buf, w, h) && Sized(now, w, h) && (c.Rect? ==> OnPanel(c, w, h))
    ensures |PutBack(now, Save(buf, w, h, c), w, h, c)| == |buf|
  {
  }

  /** Setting the cursor and taking it away leaves every frame as it was. */
  ghost predicate AlwaysUndone(w: nat, h: nat, x0: u16, y0: u16, r: u16)
    requires w > 0 && h > 0 && (CursorSquare(x0, y0, r, w, h).Rect? ==> OnPanel(CursorSquare(x0, y0, r, w, h), w, h))
  {
    var c := CursorSquare(x0, y0, r, w, h);
    forall buf: seq<u16>, color: u16 | Sized(buf, w, h) ::
      PutBack(Paint(buf, w, h, CirclePoints(x0, y0, r), color), Save(buf, w, h, c), w, h, c) == buf
  }

  ghost predicate AnyVisible(points: seq<(u16, u16)>, w: nat, h: nat) {
    exists k :: 0 <= k < |points| && Visible(points[k], w, h)
  }

  /** Every frame is restored exactly if the cursor keeps its radius from the left and
      the upper edge, or is not on the panel at all. (A circle that reaches more than
      32768 columns or rows beyond the edge has its square wrap onto the panel;
      UndoneWhen decides it.) */
  lemma UndoneExactly(w: nat, h: nat, x0: u16, y0: u16, r: u16)
    requires 0 < w < 0x8000 && 0 < h < 0x8000 && EndsFit(x0, y0, r)
    requires r <= x0 + 0x8000 && r <= y0 + 0x8000
    ensures var c := CursorSquare(x0, y0, r, w, h); c.Rect? ==> OnPanel(c, w, h)
    ensures AlwaysUndone(w, h, x0, y0, r) <==> (r <= x0 && r <= y0) || !AnyVisible(CirclePoints(x0, y0, r), w, h)
  {
    hide Paint, PutBack, Save, Sized, CirclePoints, Visible, CursorSquare, At, OnPanel;
    SquareOnPanel(w, h, x0, y0, r);
    var points := CirclePoints(x0, y0, r);
    if r <= x0 && r <= y0 {
      assert Fits(x0, y0, r);
      forall buf: seq<u16>, color: u16 | Sized(buf, w, h)
        ensures PutBack(Paint(buf, w, h, points, color), Save(buf, w, h, CursorSquare(x0, y0, r, w, h)), w, h, CursorSquare(x0, y0, r, w, h)) == buf
      {
        CursorUndone(buf, w, h, x0, y0, r, color);
      }
    } else if AnyVisible(points, w, h) {
      var k :| 0 <= k < |points| && Visible(points[k], w, h);
      BlackFrame(w, h);
      var buf: seq<u16> := seq(h * w, _ => 0);
      UndoneWhen(buf, w, h, x0, y0, r, 1);
      assert !Covers(CursorSquare(x0, y0, r, w, h), w, At(points[k], w));
    } else {
      forall buf: seq<u16>, color: u16 | Sized(buf, w, h)
        ensures PutBack(Paint(buf, w, h, points, color), Save(buf, w, h, CursorSquare(x0, y0, r, w, h)), w, h, CursorSquare(x0, y0, r, w, h)) == buf
      {
        UndoneWhen(buf, w, h, x0, y0, r, color);
      }
    }
  }

  lemma BlackFrame(w: nat, h: nat)
    requires 0 < w < 0x8000 && 0 < h < 0x8000
    ensures Sized(seq(h * w, _ => 0), w, h)
  {
  }

  // -------------------------------------------------------------- the loops

  /** lcdDrawCircle */
  method DrawCircle(d: Display, x0: u16, y0: u16, r: u16, color: u16)
    requires d.Valid()
    modifies d.frame
    ensures d.Valid()
    ensures d.frame[..] == Paint(old(d.frame[..]), d.width, d.height, CirclePoints(x0, y0, r), color)
  {
    hide Paint, SetPixel, Wrap, CircleError, Offsets, FourEach;
    var x: int, y: int, err: int := 0, 0 - r, 2 - 2 * r;
    ghost var buf := d.frame[..];
    ghost var done: seq<(u16, u16)> := [];
    PaintNothing(buf, d.width, d.height, color);
    ErrorAtStart(r);
    var more := true;
    assert [] + CirclePoints(x0, y0, r) == CirclePoints(x0, y0, r);
    while more
      invariant d.Valid() && d.frame[..] == Paint(buf, d.width, d.height, done, color)
      invariant more ==> Quadrant(r, x, y) && err == CircleError(r, x, y)
      invariant CirclePoints(x0, y0, r) == done + (if more then FourEach(x0, y0, Offsets(r, x, y)) else [])
      decreases if more then 1 + r - x - y else 0
    {
      PaintFour(buf, d.width, d.height, done, x0, y0, (x, y), color);
      d.DrawPixel(Wrap(x0 - x), Wrap(y0 + y), color);
      d.DrawPixel(Wrap(x0 - y), Wrap(y0 - x), color);
      d.DrawPixel(Wrap(x0 + x), Wrap(y0 - y), color);
      d.DrawPixel(Wrap(x0 + y), Wrap(y0 + x), color);
      OffsetsTurn(x0, y0, r, x, y, done);
      StaysInside(r, x, y);
      done := done + Four(x0, y0, (x, y));
      var oldErr := err;
      if oldErr <= x {
        x := x + 1;
        err := err + 2 * x + 1;
      }
      if oldErr > y || err > x {
        y := y + 1;
        err := err + 2 * y + 1;
      }
      more := y < 0;
    }
    assert done + [] == done;
  }

  lemma OffsetsTurn(x0: u16, y0: u16, r: nat, x: int, y: int, done: seq<(u16, u16)>)
    requires Quadrant(r, x, y)
    ensures var err := CircleError(r, x, y);
      var (x', err') := MoveX(x, y, err);
      var (y', _) := MoveY(x', y, err', err);
      && Quadrant(r, x', if y' < 0 then y' else 0)
      && done + FourEach(x0, y0, Offsets(r, x, y))
         == done + Four(x0, y0, (x, y)) + (if y' < 0 then FourEach(x0, y0, Offsets(r, x', y')) else [])
  {
    hide CircleError, Four;
    StaysInside(r, x, y);
    var s := Offsets(r, x, y);
    assert s[0] == (x, y);
    var err := CircleError(r, x, y);
    var (x', err') := MoveX(x, y, err);
    var (y', _) := MoveY(x', y, err', err);
    assert s[1..] == if y' < 0 then Offsets(r, x', y') else [];
    assert FourEach(x0, y0, s) == Four(x0, y0, (x, y)) + FourEach(x0, y0, s[1..]);
  }

  lemma ErrorAtStart(r: nat)
    ensures CircleError(r, 0, 0 - r) == 2 - 2 * r && Quadrant(r, 0, 0 - r)
  {
    Square(0 - r);
  }

  lemma PaintFour(buf: seq<u16>, w: nat, h: nat, done: seq<(u16, u16)>, x0: u16, y0: u16, o: (int, int), color: u16)
    requires Sized(buf, w, h)
    ensures var f := Four(x0, y0, o); var b0 := Paint(buf, w, h, done, color);
      var b1 := SetPixel(b0, w, h, f[0].0, f[0].1, color); var b2 := SetPixel(b1, w, h, f[1].0, f[1].1, color);
      var b3 := SetPixel(b2, w, h, f[2].0, f[2].1, color);
      Paint(buf, w, h, done + f, color) == SetPixel(b3, w, h, f[3].0, f[3].1, color)
  {
    hide Paint, SetPixel;
    var f := Four(x0, y0, o);
    PaintMore(buf, w, h, done, f[0], color);
    PaintMore(buf, w, h, done + [f[0]], f[1], color);
    PaintMore(buf, w, h, done + [f[0]] + [f[1]], f[2], color);
    PaintMore(buf, w, h, done + [f[0]] + [f[1]] + [f[2]], f[3], color);
    assert done + [f[0]] + [f[1]] + [f[2]] + [f[3]] == done + f;
  }

  /** lcdGetRect */
  method GetRect(d: Display, x1: u16, y1: u16, x2: u16, y2: u16, save: array<u16>)
    requires d.Valid() && save != d.frame
    requires var c := Clip(d.width, d.height, x1, y1, x2, y2);
      c.Rect? ==> c.x1 <= c.x2 && c.y1 <= c.y2 && Area(c) <= save.Length
    modifies save
    ensures var c := Clip(d.width, d.height, x1, y1, x2, y2);
      if c.Nothing? then save[..] == old(save[..])
      else save[..Area(c)] == SavedRect(d.frame[..], d.width, d.height, c) && save[Area(c)..] == old(save[Area(c)..])
  {
    if x1 >= d.width || y1 >= d.height {
      return;
    }
    var right := if x2 >= d.width then d.width - 1 else x2;
    var bottom := if y2 >= d.height then d.height - 1 else y2;
    ghost var c := Rect(x1, y1, right, bottom);
    ghost var want := SavedRect(d.frame[..], d.width, d.height, c);
    hide Area, Columns, SavedRect, Clip, Sized;
    var index := 0;
    var j: int := y1;
    FirstRow(c);
    while j <= bottom
      invariant y1 <= j <= bottom + 1 && index == (j - y1) * Columns(c)
      invariant 0 <= index <= Area(c) && save[..index] == want[..index] && save[Area(c)..] == old(save[Area(c)..])
    {
      var i: int := x1;
      RowEnds(c, j);
      while i <= right
        invariant x1 <= i <= right + 1 && index == (j - y1) * Columns(c) + (i - x1)
        invariant 0 <= index <= Area(c) && save[..index] == want[..index] && save[Area(c)..] == old(save[Area(c)..])
      {
        SavedAt(d.frame[..], d.width, d.height, c, j, i);
        save[index] := d.frame[j * d.width + i];
        index := index + 1;
        i := i + 1;
      }
      j := j + 1;
    }
    LastRow(c);
  }

  lemma FirstRow(c: Rect)
    requires c.Rect? && c.x1 <= c.x2 && c.y1 <= c.y2
    ensures (c.y1 - c.y1) * Columns(c) == 0 <= Area(c) && Columns(c) == c.x2 - c.x1 + 1
  {
  }

  lemma LastRow(c: Rect)
    requires c.Rect? && c.x1 <= c.x2 && c.y1 <= c.y2
    ensures (c.y2 + 1 - c.y1) * Columns(c) == Area(c)
  {
  }

  lemma SavedAt(buf: seq<u16>, w: nat, h: nat, c: Rect, j: int, i: int)
    requires Sized(buf, w, h) && OnPanel(c, w, h) && c.y1 <= j <= c.y2 && c.x1 <= i <= c.x2
    ensures 0 <= j * w + i < |buf|
    ensures var k := (j - c.y1) * Columns(c) + (i - c.x1);
      0 <= k < Area(c) && SavedRect(buf, w, h, c)[k] == buf[j * w + i]
  {
    var n := Columns(c);
    InRow(w, h, i, j);
    DivMod(n, j - c.y1, i - c.x1);
    InRow(n, c.y2 - c.y1 + 1, i - c.x1, j - c.y1);
  }

  lemma RowEnds(c: Rect, j: int)
    requires c.Rect? && c.x1 <= c.x2 && c.y1 <= j <= c.y2
    ensures (j - c.y1) * Columns(c) + Columns(c) == (j + 1 - c.y1) * Columns(c) <= Area(c)
  {
    var n := Columns(c);
    assert (j + 1 - c.y1) * n == (j - c.y1) * n + n;
    if j < c.y2 { MulGap(j + 1 - c.y1, c.y2 - c.y1 + 1, n); }
  }

  /** lcdSetRect */
  method SetRect(d: Display, x1: u16, y1: u16, x2: u16, y2: u16, save: array<u16>)
    requires d.Valid() && save != d.frame
    requires var c := Clip(d.width, d.height, x1, y1, x2, y2);
      c.Rect? ==> c.x1 <= c.x2 && c.y1 <= c.y2 && Area(c) <= save.Length
    modifies d.frame
    ensures d.Valid()
    ensures d.frame[..] == PutBack(old(d.frame[..]), save[..], d.width, d.height, Clip(d.width, d.height, x1, y1, x2, y2))
  {
    if x1 >= d.width || y1 >= d.height {
      return;
    }
    var right := if x2 >= d.width then d.width - 1 else x2;
    var bottom := if y2 >= d.height then d.height - 1 else y2;
    ghost var c := Rect(x1, y1, right, bottom);
    ghost var buf, saved := d.frame[..], save[..];
    hide Area, Columns, RestoredRect, Clip, Sized;
    var index := 0;
    var j: int := y1;
    FirstRow(c);
    RestoreNothing(buf, d.width, d.height, c, saved);
    while j <= bottom
      invariant y1 <= j <= bottom + 1 && index == (j - y1) * Columns(c)
      invariant 0 <= index <= Area(c) && d.frame[..] == RestoredRect(buf, d.width, d.height, c, saved, index)
    {
      var i: int := x1;
      RowEnds(c, j);
      while i <= right
        invariant x1 <= i <= right + 1 && index == (j - y1) * Columns(c) + (i - x1)
        invariant 0 <= index <= Area(c) && d.frame[..] == RestoredRect(buf, d.width, d.height, c, saved, index)
      {
        RestoreTurn(buf, d.width, d.height, c, saved, j, i);
        d.frame[j * d.width + i] := save[index];
        index := index + 1;
        i := i + 1;
      }
      j := j + 1;
    }
    LastRow(c);
  }

  lemma RestoreNothing(buf: seq<u16>, w: nat, h: nat, c: Rect, save: seq<u16>)
    requires Sized(buf, w, h) && OnPanel(c, w, h)
    ensures RestoredRect(buf, w, h, c, save, 0) == buf
  {
  }

  lemma RestoreTurn(buf: seq<u16>, w: nat, h: nat, c: Rect, save: seq<u16>, j: int, i: int)
    requires Sized(buf, w, h) && OnPanel(c, w, h) && c.y1 <= j <= c.y2 && c.x1 <= i <= c.x2
    requires Area(c) <= |save|
    ensures 0 <= j * w + i < |buf|
    ensures var k := (j - c.y1) * Columns(c) + (i - c.x1);
      && 0 <= k < Area(c)
      && RestoredRect(buf, w, h, c, save, k + 1) == RestoredRect(buf, w, h, c, save, k)[j * w + i := save[k]]
  {
    SavedAt(buf, w, h, c, j, i);
    var k := (j - c.y1) * Columns(c) + (i - c.x1);
    SlotAt(c, w, h, j - c.y1, i - c.x1);
    assert Linear(j, i, w) == j * w + i && Linear(j - c.y1, i - c.x1, Columns(c)) == k;
    hide Covers, Slot, Pixel, Linear, Area, Columns;
    var r, r' := RestoredRect(buf, w, h, c, save, k), RestoredRect(buf, w, h, c, save, k + 1);
    forall p | 0 <= p < |buf| ensures r'[p] == r[j * w + i := save[k]][p] {
      if Covers(c, w, p) && Slot(c, w, p) == k {
        PixelOfSlot(c, w, h, p);
        PixelOfSlot(c, w, h, j * w + i);
      }
    }
  }

  /** lcdSetCursor */
  method SetCursor(d: Display, x0: u16, y0: u16, r: u16, color: u16, save: array<u16>)
    requires d.Valid() && save != d.frame && Fits(x0, y0, r)
    requires var c := CursorSquare(x0, y0, r, d.width, d.height); c.Rect? ==> OnPanel(c, d.width, d.height) && Area(c) <= save.Length
    modifies save, d.frame
    ensures d.Valid()
    ensures d.frame[..] == Paint(old(d.frame[..]), d.width, d.height, CirclePoints(x0, y0, r), color)
    ensures var c := CursorSquare(x0, y0, r, d.width, d.height);
      c.Rect? ==> OnPanel(c, d.width, d.height) && save[..Area(c)] == Save(old(d.frame[..]), d.width, d.height, c)
  {
    hide Wrap, Clip, Sized, Paint, SavedRect, CirclePoints;
    SquareIs(d.frame[..], x0, y0, r, d.width, d.height);
    GetRect(d, Wrap(x0 - r), Wrap(y0 - r), Wrap(x0 + r), Wrap(y0 + r), save);
    DrawCircle(d, x0, y0, r, color);
  }

  /** lcdResetCursor */
  method ResetCursor(d: Display, x0: u16, y0: u16, r: u16, save: array<u16>)
    requires d.Valid() && save != d.frame && Fits(x0, y0, r)
    requires var c := CursorSquare(x0, y0, r, d.width, d.height); c.Rect? ==> OnPanel(c, d.width, d.height) && Area(c) <= save.Length
    modifies d.frame
    ensures d.Valid()
    ensures d.frame[..] == PutBack(old(d.frame[..]), save[..], d.width, d.height, CursorSquare(x0, y0, r, d.width, d.height))
  {
    SetRect(d, Wrap(x0 - r), Wrap(y0 - r), Wrap(x0 + r), Wrap(y0 + r), save);
  }

  /** Both in a row: the frame is what it was. */
  method ShowAndHideCursor(d: Display, x0: u16, y0: u16, r: u16, color: u16, save: array<u16>)
    requires d.Valid() && save != d.frame && Fits(x0, y0, r)
    requires var c := CursorSquare(x0, y0, r, d.width, d.height); c.Rect? ==> OnPanel(c, d.width, d.height) && Area(c) <= save.Length
    modifies save, d.frame
    ensures d.frame[..] == old(d.frame[..])
  {
    ghost var buf := d.frame[..];
    hide CursorSquare, Paint, Save, PutBack, CirclePoints;
    SetCursor(d, x0, y0, r, color, save);
    ghost var now := d.frame[..];
    ResetCursor(d, x0, y0, r, save);
    ghost var c := CursorSquare(x0, y0, r, d.width, d.height);
    PutBackPrefix(now, save[..], d.width, d.height, c);
    CursorUndone(buf, d.width, d.height, x0, y0, r, color);
  }

  lemma PutBackPrefix(now: seq<u16>, saved: seq<u16>, w: nat, h: nat, c: Rect)
    requires Sized(now, w, h) && (c.Rect? ==> OnPanel(c, w, h) && |saved| >= Area(c))
    ensures PutBack(now, saved, w, h, c) == PutBack(now, if c.Rect? then saved[..Area(c)] else [], w, h, c)
  {
    hide Covers, Slot, Area;
  }
}
