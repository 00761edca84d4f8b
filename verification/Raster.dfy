/** Lines and circles in the frame buffer, and the cursor that is drawn over a saved
    area and taken away again (st7789.c, with the frame buffer in use). */
module Raster {
  type u16 = x: int | 0 <= x < 0x10000

  /** A value stored in a uint16_t. */
  function Wrap(v: int): u16 {
    v % 0x10000
  }

  // ------------------------------------------------------------ the buffer

  /** A buffer of rows. The panel is smaller than the range of an int16_t, the type of
      the source's loop variables. */
  predicate Sized(buf: seq<u16>, w: nat, h: nat) {
    0 < w < 0x8000 && 0 < h < 0x8000 && |buf| == h * w
  }

  lemma InRow(w: nat, h: nat, x: nat, y: nat)
    requires x < w && y < h
    ensures 0 <= y * w + x < h * w
  {
    assert (y + 1) * w <= h * w;
  }

  lemma {:induction false} NonNegative(a: int, w: int)
    requires a >= 0 && w >= 0
    ensures a * w >= 0
    decreases a
  {
    if a > 0 {
      NonNegative(a - 1, w);
      assert a * w == (a - 1) * w + w;
    }
  }

  lemma MulGap(a: int, b: int, w: int)
    requires a < b && w >= 0
    ensures a * w + w <= b * w
  {
    NonNegative(b - a - 1, w);
    assert (b - a - 1) * w == b * w - a * w - w;
  }

  /** Quotient and remainder are unique. */
  lemma DivMod(w: int, y: int, x: int)
    requires 0 <= x < w
    ensures (y * w + x) / w == y && (y * w + x) % w == x
  {
    var p := y * w + x;
    var q := p / w;
    assert p == w * q + p % w;
    if q < y { MulGap(q, y, w); }
    if y < q { MulGap(y, q, w); }
  }

  /** lcdDrawPixel: pixels off the panel are left out. */
  function SetPixel(buf: seq<u16>, w: nat, h: nat, x: nat, y: nat, color: u16): (r: seq<u16>)
    requires Sized(buf, w, h)
    ensures Sized(r, w, h)
  {
    if x >= w || y >= h then buf
    else
      InRow(w, h, x, y);
      buf[y * w + x := color]
  }

  /** Pixels drawn one after another. */
  function Paint(buf: seq<u16>, w: nat, h: nat, points: seq<(u16, u16)>, color: u16): (r: seq<u16>)
    requires Sized(buf, w, h)
    ensures Sized(r, w, h)
    decreases |points|
  {
    if points == [] then buf
    else
      var k := |points| - 1;
      SetPixel(Paint(buf, w, h, points[..k], color), w, h, points[k].0, points[k].1, color)
  }

  lemma PaintMore(buf: seq<u16>, w: nat, h: nat, points: seq<(u16, u16)>, p: (u16, u16), color: u16)
    requires Sized(buf, w, h)
    ensures Paint(buf, w, h, points + [p], color)
      == SetPixel(Paint(buf, w, h, points, color), w, h, p.0, p.1, color)
  {
    assert (points + [p])[..|points|] == points;
  }

  // ------------------------------------------------------------------ lines

  function Distance(a: int, b: int): nat {
    if b > a then b - a else a - b
  }

  /** k pixels from a toward b. */
  function Toward(a: int, b: int, k: int): int {
    if b > a then a + k else a - k
  }

  /** The offset after i of n steps toward m, rounded to the nearest pixel: the ideal
      line is at m * i / n. */
  function Rounded(i: nat, m: nat, n: nat): nat {
    if n == 0 then 0 else (2 * m * i + n) / (2 * n)
  }

  /** The i-th pixel of the line. */
  function LinePoint(x1: u16, y1: u16, x2: u16, y2: u16, i: nat): (u16, u16) {
    var dx, dy := Distance(x1, x2), Distance(y1, y2);
    if dx > dy then
      (Wrap(Toward(x1, x2, i)), Wrap(Toward(y1, y2, Rounded(i, dy, dx))))
    else
      (Wrap(Toward(x1, x2, Rounded(i, dx, dy))), Wrap(Toward(y1, y2, i)))
  }

  function Steps(x1: u16, y1: u16, x2: u16, y2: u16): nat {
    if Distance(x1, x2) > Distance(y1, y2) then Distance(x1, x2) else Distance(y1, y2)
  }

  /** The line drawn up to its i-th pixel. */
  function LinePoints(x1: u16, y1: u16, x2: u16, y2: u16, i: nat): (r: seq<(u16, u16)>)
    ensures |r| == i
  {
    if i == 0 then [] else LinePoints(x1, y1, x2, y2, i - 1) + [LinePoint(x1, y1, x2, y2, i - 1)]
  }

  /** How far the offset k is from the ideal line, in units of 1 / (2 * n) pixels. */
  function Error(i: nat, m: nat, n: nat, k: int): int {
    2 * m * i - 2 * n * k
  }

  /** The rounded offset is the only one within half a pixel of the ideal line. */
  lemma RoundedIs(i: nat, m: nat, n: nat, k: int)
    requires n > 0
    ensures -(n as int) <= Error(i, m, n, k) < n <==> k == Rounded(i, m, n)
  {
    var a := 2 * m * i + n;
    var r := a / (2 * n);
    assert a == (2 * n) * r + a % (2 * n);
    assert (2 * n) * k == k * (2 * n) == 2 * n * k;
    if -(n as int) <= Error(i, m, n, k) < n {
      DivMod(2 * n, k, a - 2 * n * k);
    }
  }

  lemma RoundedEnds(m: nat, n: nat)
    requires m <= n
    ensures Rounded(0, m, n) == 0 && Rounded(n, m, n) == m
  {
    if n > 0 {
      RoundedIs(0, m, n, 0);
      assert 2 * m * n == 2 * n * m;
      RoundedIs(n, m, n, m);
    }
  }

  /** One step along the line moves the offset by at most one. */
  lemma RoundedStep(i: nat, m: nat, n: nat)
    requires m <= n && n > 0
    ensures Rounded(i, m, n) <= Rounded(i + 1, m, n) <= Rounded(i, m, n) + 1
  {
    hide Rounded;
    var k, k' := Rounded(i, m, n), Rounded(i + 1, m, n);
    RoundedIs(i, m, n, k);
    RoundedIs(i + 1, m, n, k');
    assert 2 * m * (i + 1) == 2 * m * i + 2 * m;
    StepCore(2 * m * i, m, n, k, k');
  }

  lemma StepCore(a: int, m: int, n: int, k: int, k': int)
    requires 0 <= m <= n && 0 < n
    requires -n <= a - 2 * n * k < n && -n <= a + 2 * m - 2 * n * k' < n
    ensures k <= k' <= k + 1
  {
    assert 2 * n * k == k * (2 * n) && 2 * n * k' == k' * (2 * n);
    if k' < k { MulGap(k', k, 2 * n); }
    if k' > k + 1 { MulGap(k + 1, k', 2 * n); }
  }

  lemma {:induction false} RoundedMonotone(i: nat, j: nat, m: nat, n: nat)
    requires m <= n && i <= j && n > 0
    ensures Rounded(i, m, n) <= Rounded(j, m, n)
    decreases j - i
  {
    hide Rounded;
    if i < j {
      RoundedStep(j - 1, m, n);
      RoundedMonotone(i, j - 1, m, n);
    }
  }

  /** The i-th pixel without the wrap of its 16-bit coordinates. */
  function IdealPoint(x1: u16, y1: u16, x2: u16, y2: u16, i: nat): (int, int) {
    var dx, dy := Distance(x1, x2), Distance(y1, y2);
    if dx > dy then (Toward(x1, x2, i), Toward(y1, y2, Rounded(i, dy, dx)))
    else (Toward(x1, x2, Rounded(i, dx, dy)), Toward(y1, y2, i))
  }

  predicate Between(v: int, a: int, b: int) {
    (a <= v <= b) || (b <= v <= a)
  }

  /** Every pixel lies in the box of the end points, so no coordinate wraps. */
  lemma LineInside(x1: u16, y1: u16, x2: u16, y2: u16, i: nat)
    requires i <= Steps(x1, y1, x2, y2)
    ensures var p := IdealPoint(x1, y1, x2, y2, i);
      Between(p.0, x1, x2) && Between(p.1, y1, y2) && LinePoint(x1, y1, x2, y2, i) == p
  {
    hide Rounded;
    var dx, dy := Distance(x1, x2), Distance(y1, y2);
    var n, m := if dx > dy then dx else dy, if dx > dy then dy else dx;
    RoundedEnds(m, n);
    if n > 0 {
      RoundedMonotone(0, i, m, n);
      RoundedMonotone(i, n, m, n);
    } else {
      assert i == 0;
    }
    assert 0 <= Rounded(i, m, n) <= m;
    Along(x1, x2, if dx > dy then i else Rounded(i, m, n));
    Along(y1, y2, if dx > dy then Rounded(i, m, n) else i);
  }

  lemma Along(a: u16, b: u16, k: nat)
    requires k <= Distance(a, b)
    ensures Between(Toward(a, b, k), a, b) && Wrap(Toward(a, b, k)) == Toward(a, b, k)
    ensures k == Distance(a, b) ==> Toward(a, b, k) == b
  {
  }

  lemma LineEnds(x1: u16, y1: u16, x2: u16, y2: u16)
    ensures LinePoint(x1, y1, x2, y2, 0) == (x1, y1)
    ensures LinePoint(x1, y1, x2, y2, Steps(x1, y1, x2, y2)) == (x2, y2)
  {
    hide Rounded;
    var dx, dy := Distance(x1, x2), Distance(y1, y2);
    RoundedEnds(if dx > dy then dy else dx, Steps(x1, y1, x2, y2));
    Along(x1, x2, 0);
    Along(y1, y2, 0);
    Along(x1, x2, dx);
    Along(y1, y2, dy);
  }

  /** Each pixel touches the one before it. */
  lemma Neighbours(x1: u16, y1: u16, x2: u16, y2: u16, i: nat)
    requires i < Steps(x1, y1, x2, y2)
    ensures var p, q := LinePoint(x1, y1, x2, y2, i), LinePoint(x1, y1, x2, y2, i + 1);
      p != q && Distance(p.0, q.0) <= 1 && Distance(p.1, q.1) <= 1
  {
    hide Rounded, LinePoint, Wrap;
    var dx, dy := Distance(x1, x2), Distance(y1, y2);
    LineInside(x1, y1, x2, y2, i);
    LineInside(x1, y1, x2, y2, i + 1);
    RoundedStep(i, if dx > dy then dy else dx, Steps(x1, y1, x2, y2));
  }

  /** The line has max(dx, dy) + 1 pixels, runs from one end point to the other, and each
      pixel touches the one before it. */
  lemma LineIsConnected(x1: u16, y1: u16, x2: u16, y2: u16)
    ensures var n := Steps(x1, y1, x2, y2); var p := LinePoints(x1, y1, x2, y2, n + 1);
      && p[0] == (x1, y1) && p[n] == (x2, y2)
      && (forall i :: 0 <= i < n ==>
            p[i] != p[i + 1] && Distance(p[i].0, p[i + 1].0) <= 1 && Distance(p[i].1, p[i + 1].1) <= 1)
  {
    hide LinePoint, LinePoints, Steps, Distance;
    var n := Steps(x1, y1, x2, y2);
    var p := LinePoints(x1, y1, x2, y2, n + 1);
    LineEnds(x1, y1, x2, y2);
    PointAt(x1, y1, x2, y2, n + 1, 0);
    PointAt(x1, y1, x2, y2, n + 1, n);
    forall i | 0 <= i < n
      ensures p[i] != p[i + 1] && Distance(p[i].0, p[i + 1].0) <= 1 && Distance(p[i].1, p[i + 1].1) <= 1
    {
      PointAt(x1, y1, x2, y2, n + 1, i);
      PointAt(x1, y1, x2, y2, n + 1, i + 1);
      Neighbours(x1, y1, x2, y2, i);
    }
  }

  lemma {:induction false} PointAt(x1: u16, y1: u16, x2: u16, y2: u16, n: nat, i: nat)
    requires i < n
    ensures LinePoints(x1, y1, x2, y2, n)[i] == LinePoint(x1, y1, x2, y2, i)
    decreases n
  {
    hide LinePoint;
    if i < n - 1 {
      PointAt(x1, y1, x2, y2, n - 1, i);
    }
  }

  /** Each pixel is within half a pixel of the ideal line, measured along the minor axis. */
  lemma LineIsExact(x1: u16, y1: u16, x2: u16, y2: u16, i: nat)
    requires i <= Steps(x1, y1, x2, y2) && Steps(x1, y1, x2, y2) > 0
    ensures var dx, dy := Distance(x1, x2), Distance(y1, y2); var p := LinePoint(x1, y1, x2, y2, i);
      if dx > dy then
        Distance(x1, p.0) == i && -(dx as int) <= Error(i, dy, dx, Distance(y1, p.1)) < dx
      else
        Distance(y1, p.1) == i && -(dy as int) <= Error(i, dx, dy, Distance(x1, p.0)) < dy
  {
    hide Rounded, Error;
    LineInside(x1, y1, x2, y2, i);
    var dx, dy := Distance(x1, x2), Distance(y1, y2);
    if dx > dy {
      RoundedIs(i, dy, dx, Rounded(i, dy, dx));
      RoundedEnds(dy, dx);
      RoundedMonotone(0, i, dy, dx);
      RoundedMonotone(i, dx, dy, dx);
    } else {
      RoundedIs(i, dx, dy, Rounded(i, dx, dy));
      RoundedEnds(dx, dy);
      RoundedMonotone(0, i, dx, dy);
      RoundedMonotone(i, dy, dx, dy);
    }
  }

  class Display {
    const width: nat
    const height: nat
    const frame: array<u16>

    ghost predicate Valid()
      reads frame
    {
      Sized(frame[..], width, height)
    }

    constructor (width: nat, height: nat)
      requires 0 < width < 0x8000 && 0 < height < 0x8000
      ensures Valid() && this.width == width && this.height == height && fresh(frame)
    {
      this.width, this.height := width, height;
      frame := new u16[height * width];
    }

    /** lcdDrawPixel */
    method DrawPixel(x: u16, y: u16, color: u16)
      requires Valid()
      modifies frame
      ensures Valid() && frame[..] == SetPixel(old(frame[..]), width, height, x, y, color)
    {
      if x >= width || y >= height {
        return;
      }
      InRow(width, height, x, y);
      frame[y * width + x] := color;
    }

    /** The loop of lcdDrawLine for inclinations below one: the error term tells when
        the minor coordinate moves. */
    method DrawFlatLine(startX: u16, startY: u16, x2: u16, y2: u16, color: u16)
      requires Valid() && Distance(startX, x2) > Distance(startY, y2)
      modifies frame
      ensures Valid()
      ensures frame[..] == Paint(old(frame[..]), width, height,
                                 LinePoints(startX, startY, x2, y2, Steps(startX, startY, x2, y2) + 1), color)
    {
      hide Rounded, Paint, SetPixel, Error, Wrap, Toward;
      var x1, y1 := startX, startY;
      var dx := if x2 > x1 then x2 - x1 else x1 - x2;
      var dy := if y2 > y1 then y2 - y1 else y1 - y2;
      var sx := if x2 > x1 then 1 else -1;
      var sy := if y2 > y1 then 1 else -1;
      ghost var buf := frame[..];
      ghost var k: int := 0;
      var i := 0;
      PaintNothing(buf, width, height, color);
      Starts(startX, startY, x2, y2, dy, dx);
      var e := -dx;
      while i <= dx
        invariant 0 <= i <= dx + 1 && Valid()
        invariant -2 * dx <= e < 0 && e == Error(i, dy, dx, k) - dx
        invariant x1 == Wrap(Toward(startX, x2, i)) && y1 == Wrap(Toward(startY, y2, k))
        invariant frame[..] == Paint(buf, width, height, LinePoints(startX, startY, x2, y2, i), color)
      {
        RoundedIs(i, dy, dx, k);
        PaintMore(buf, width, height, LinePoints(startX, startY, x2, y2, i), (x1, y1), color);
        DrawPixel(x1, y1, color);
        ErrorSteps(i, dy, dx, k);
        Turn(startX, x2, i);
        x1 := Wrap(x1 + sx);
        e := e + 2 * dy;
        if e >= 0 {
          Turn(startY, y2, k);
          y1 := Wrap(y1 + sy);
          e := e - 2 * dx;
          k := k + 1;
        }
        i := i + 1;
      }
    }

    /** Its loop for the other inclinations; a line of one pixel is among them. */
    method DrawSteepLine(startX: u16, startY: u16, x2: u16, y2: u16, color: u16)
      requires Valid() && Distance(startX, x2) <= Distance(startY, y2)
      modifies frame
      ensures Valid()
      ensures frame[..] == Paint(old(frame[..]), width, height,
                                 LinePoints(startX, startY, x2, y2, Steps(startX, startY, x2, y2) + 1), color)
    {
      hide Rounded, Paint, SetPixel, Error, Wrap, Toward;
      var x1, y1 := startX, startY;
      var dx := if x2 > x1 then x2 - x1 else x1 - x2;
      var dy := if y2 > y1 then y2 - y1 else y1 - y2;
      var sx := if x2 > x1 then 1 else -1;
      var sy := if y2 > y1 then 1 else -1;
      ghost var buf := frame[..];
      ghost var k: int := 0;
      var i := 0;
      PaintNothing(buf, width, height, color);
      Starts(startX, startY, x2, y2, dx, dy);
      RoundedEnds(dx, dy);
      var e := -dy;
      while i <= dy
        invariant 0 <= i <= dy + 1 && Valid()
        invariant dy > 0 ==> -2 * dy <= e < 0 && e == Error(i, dx, dy, k) - dy
        invariant dy == 0 ==> e == 0 && (i == 0 ==> k == 0)
        invariant y1 == Wrap(Toward(startY, y2, i)) && x1 == Wrap(Toward(startX, x2, k))
        invariant frame[..] == Paint(buf, width, height, LinePoints(startX, startY, x2, y2, i), color)
      {
        if dy > 0 {
          RoundedIs(i, dx, dy, k);
        }
        PaintMore(buf, width, height, LinePoints(startX, startY, x2, y2, i), (x1, y1), color);
        DrawPixel(x1, y1, color);
        ErrorSteps(i, dx, dy, k);
        Turn(startY, y2, i);
        y1 := Wrap(y1 + sy);
        e := e + 2 * dx;
        if e >= 0 {
          Turn(startX, x2, k);
          x1 := Wrap(x1 + sx);
          e := e - 2 * dy;
          k := k + 1;
        }
        i := i + 1;
      }
    }

    /** lcdDrawLine */
    method DrawLine(x1: u16, y1: u16, x2: u16, y2: u16, color: u16)
      requires Valid()
      modifies frame
      ensures Valid()
      ensures frame[..] == Paint(old(frame[..]), width, height,
                                 LinePoints(x1, y1, x2, y2, Steps(x1, y1, x2, y2) + 1), color)
    {
      var dx := if x2 > x1 then x2 - x1 else x1 - x2;
      var dy := if y2 > y1 then y2 - y1 else y1 - y2;
      if dx > dy {
        DrawFlatLine(x1, y1, x2, y2, color);
      } else {
        DrawSteepLine(x1, y1, x2, y2, color);
      }
    }
  }

  lemma PaintNothing(buf: seq<u16>, w: nat, h: nat, color: u16)
    requires Sized(buf, w, h)
    ensures Paint(buf, w, h, [], color) == buf
  {
  }

  lemma Turn(a: int, b: int, k: int)
    ensures Wrap(Wrap(Toward(a, b, k)) + (if b > a then 1 else -1)) == Wrap(Toward(a, b, k + 1))
  {
  }

  lemma Starts(x1: u16, y1: u16, x2: u16, y2: u16, m: nat, n: nat)
    ensures Wrap(Toward(x1, x2, 0)) == x1 && Wrap(Toward(y1, y2, 0)) == y1 && Error(0, m, n, 0) == 0
  {
  }

  lemma ErrorSteps(i: nat, m: nat, n: nat, k: int)
    ensures Error(i + 1, m, n, k) == Error(i, m, n, k) + 2 * m
    ensures Error(i + 1, m, n, k + 1) == Error(i, m, n, k) + 2 * m - 2 * n
  {
    assert 2 * m * (i + 1) == 2 * m * i + 2 * m;
    assert 2 * n * (k + 1) == 2 * n * k + 2 * n;
  }
}
