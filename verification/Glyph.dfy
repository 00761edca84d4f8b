/** Font patterns turned into display bytes: the bits of a glyph, stored row by row,
    become bytes of eight rows each (fontx.c). */
module Glyph {
  import opened Raster
  import Names

  type byte = Names.byte

  /** 1 << k */
  function Power(k: nat): (n: nat)
    ensures n > 0
  {
    if k == 0 then 1 else 2 * Power(k - 1)
  }

  /** b & (1 << k) */
  predicate Bit(b: nat, k: nat) {
    if k == 0 then b % 2 == 1 else Bit(b / 2, k - 1)
  }

  /** Bytes in one row of a glyph. */
  function Stride(w: nat): nat {
    (w + 7) / 8
  }

  /** The pattern holds h rows. */
  predicate Pattern(fonts: seq<byte>, w: nat, h: nat) {
    h * Stride(w) <= |fonts|
  }

  /** The pixel that ShowFont prints. */
  predicate FontPixel(fonts: seq<byte>, w: nat, h: nat, x: nat, y: nat)
    requires Pattern(fonts, w, h) && x < w && y < h
  {
    InRow(Stride(w), h, x / 8, y);
    Bit(fonts[y * Stride(w) + x / 8], 7 - x % 8)
  }

  /** The pixel that ShowBitmap prints. */
  predicate BitmapPixel(line: seq<byte>, x: nat, y: nat)
    requires x + y / 8 * 32 < |line|
  {
    Bit(line[x + y / 8 * 32], 7 - y % 8)
  }

  // ------------------------------------------------------------------ bits

  /** The lowest n bits are clear. */
  predicate Clear(b: nat, n: nat) {
    n == 0 || (b % 2 == 0 && Clear(b / 2, n - 1))
  }

  /** Adding 1 << k to a number without bits up to k sets bit k and nothing else: there
      is no carry. */
  lemma {:induction false} AddBit(b: nat, k: nat, n: nat)
    requires k < n && Clear(b, k + 1) && b < Power(n)
    ensures b + Power(k) < Power(n)
    ensures Clear(b, k) && !Bit(b, k) && Clear(b + Power(k), k) && Bit(b + Power(k), k)
    decreases k
  {
    if k > 0 {
      assert (b + Power(k)) / 2 == b / 2 + Power(k - 1) && (b + Power(k)) % 2 == 0;
      AddBit(b / 2, k - 1, n - 1);
    }
  }

  /** Higher bits stay. */
  lemma {:induction false} AddBitKeeps(b: nat, k: nat, j: nat)
    requires k < j && Clear(b, k + 1)
    ensures Bit(b + Power(k), j) == Bit(b, j)
    decreases k
  {
    if k > 0 {
      assert (b + Power(k)) / 2 == b / 2 + Power(k - 1);
      AddBitKeeps(b / 2, k - 1, j - 1);
    }
  }

  /** RotateByte: bit k becomes bit 7 - k. */
  method RotateByte(b: byte) returns (ch2: byte)
    ensures forall k :: 0 <= k < 8 ==> Bit(ch2, k) == Bit(b, 7 - k)
  {
    var c2: nat, c1: nat := 0, b;
    var j := 0;
    while j < 8
      invariant 0 <= j <= 8 && c2 < Power(j) && c1 < Power(8 - j)
      invariant forall k: nat :: Bit(c1, k) == Bit(b, j + k)
      invariant forall k :: 0 <= k < j ==> Bit(c2, k) == Bit(b, j - 1 - k)
    {
      ghost var was, was1 := c2, c1;
      assert Bit(c1, 0) == Bit(b, j);
      c2 := 2 * c2 + c1 % 2;
      c1 := c1 / 2;
      forall k: nat | 0 <= k < j + 1 ensures Bit(c2, k) == Bit(b, j - k) {
        if k > 0 {
          assert c2 / 2 == was;
        }
      }
      forall k: nat ensures Bit(c1, k) == Bit(b, j + 1 + k) {
        assert Bit(was1, k + 1) == Bit(b, j + (k + 1)) && Bit(was1, k + 1) == Bit(c1, k);
      }
      j := j + 1;
    }
    assert Power(8) == 256 by { SmallPowers(); }
    ch2 := c2;
  }

  lemma SmallPowers()
    ensures Power(8) == 256
  {
    assert Power(4) == 16;
    assert Power(6) == 64;
  }

  // ------------------------------------------------------------- the bitmap

  /** Every byte of the bitmap has its place in the line buffer. */
  predicate Shape(w: nat, h: nat, size: nat) {
    w <= 32 && h <= 64 && h % 8 == 0 && h / 8 * 32 <= size
  }

  /** The pixel in row j of a band. */
  predicate BandPixel(fonts: seq<byte>, w: nat, h: nat, x: nat, band: nat, j: nat)
    requires Pattern(fonts, w, h) && x < w && 8 * band + j < h
  {
    FontPixel(fonts, w, h, x, 8 * band + j)
  }

  /** The byte of a column in a band. */
  function ByteAt(line: seq<byte>, band: nat, x: nat): byte
    requires band * 32 + x < |line|
  {
    line[band * 32 + x]
  }

  /** A byte after m of its eight rows: their bits are set, the lower ones still clear. */
  predicate Rows(b: byte, fonts: seq<byte>, w: nat, h: nat, x: nat, band: nat, m: nat)
    requires Pattern(fonts, w, h) && x < w && 8 * band + 8 <= h && m <= 8
  {
    Clear(b, 8 - m) && forall j :: 0 <= j < m ==> BandPixel(fonts, w, h, x, band, j) == Bit(b, 7 - j)
  }

  /** One row more. */
  lemma NextRow(b: byte, b': byte, fonts: seq<byte>, w: nat, h: nat, x: nat, band: nat, m: nat)
    requires Pattern(fonts, w, h) && x < w && 8 * band + 8 <= h && m < 8
    requires Rows(b, fonts, w, h, x, band, m)
    requires b' as int == b as int + if BandPixel(fonts, w, h, x, band, m) then Power(7 - m) else 0
    ensures Rows(b', fonts, w, h, x, band, m + 1)
  {
    hide BandPixel, Power;
    SmallPowers();
    AddBit(b, 7 - m, 8);
    forall j | 0 <= j < m + 1 ensures BandPixel(fonts, w, h, x, band, j) == Bit(b', 7 - j) {
      if j < m {
        AddBitKeeps(b, 7 - m, 7 - j);
      }
    }
  }

  /** No sum of bits leaves the byte. */
  lemma NextFits(b: byte, fonts: seq<byte>, w: nat, h: nat, x: nat, band: nat, m: nat)
    requires Pattern(fonts, w, h) && x < w && 8 * band + 8 <= h && m < 8
    requires Rows(b, fonts, w, h, x, band, m)
    ensures b + Power(7 - m) < 256
  {
    SmallPowers();
    AddBit(b, 7 - m, 8);
  }

  /** How many rows of a band lie before row y. */
  function RowsBefore(band: nat, y: nat): nat {
    if y <= 8 * band then 0 else if y >= 8 * band + 8 then 8 else y - 8 * band
  }

  /** The bitmap when rows below y are done, and row y up to column x. */
  predicate Progress(line: seq<byte>, fonts: seq<byte>, w: nat, h: nat, y: nat, x: nat)
    requires Pattern(fonts, w, h) && Shape(w, h, |line|) && y <= h && x <= w
  {
    forall band, i :: 0 <= band < h / 8 && 0 <= i < w ==>
      Rows(ByteAt(line, band, i), fonts, w, h, i, band, RowsBefore(band, if i < x && y < h then y + 1 else y))
  }

  lemma BeforeRow(line: seq<byte>, fonts: seq<byte>, w: nat, h: nat, y: nat)
    requires Pattern(fonts, w, h) && Shape(w, h, |line|) && y < h
    requires Progress(line, fonts, w, h, y, w)
    ensures Progress(line, fonts, w, h, y + 1, 0)
  {
    hide Rows;
    forall band, i | 0 <= band < h / 8 && 0 <= i < w
      ensures Rows(ByteAt(line, band, i), fonts, w, h, i, band, RowsBefore(band, y + 1))
    {
    }
  }

  /** Row y of column x is done: only its byte changes. */
  lemma OnePixel(line: seq<byte>, line': seq<byte>, fonts: seq<byte>, w: nat, h: nat, y: nat, x: nat)
    requires Pattern(fonts, w, h) && Shape(w, h, |line|) && y < h && x < w && Progress(line, fonts, w, h, y, x)
    requires |line'| == |line| && y / 8 * 32 + x < |line|
    requires forall p :: 0 <= p < |line| && p != y / 8 * 32 + x ==> line'[p] == line[p]
    requires line'[y / 8 * 32 + x] as int
      == line[y / 8 * 32 + x] as int + if BandPixel(fonts, w, h, x, y / 8, y % 8) then Power(7 - y % 8) else 0
    ensures Progress(line', fonts, w, h, y, x + 1)
  {
    hide Rows, Power, BandPixel;
    forall band, i | 0 <= band < h / 8 && 0 <= i < w
      ensures Rows(ByteAt(line', band, i), fonts, w, h, i, band, RowsBefore(band, if i < x + 1 then y + 1 else y))
    {
      assert Rows(ByteAt(line, band, i), fonts, w, h, i, band, RowsBefore(band, if i < x then y + 1 else y));
      if band == y / 8 && i == x {
        NextRow(ByteAt(line, band, i), ByteAt(line', band, i), fonts, w, h, x, band, y % 8);
      } else if i == x {
        assert ByteAt(line', band, i) == ByteAt(line, band, i);
      }
    }
  }

  /** Bytes outside the glyph's columns and bands. */
  predicate Elsewhere(w: nat, h: nat, p: nat) {
    p / 32 >= h / 8 || p % 32 >= w
  }

  /** One row of the pattern, added bit by bit. */
  method FillRow(fonts: seq<byte>, line: array<byte>, w: nat, h: nat, y: nat, mask: nat, fontp: nat)
    requires Shape(w, h, line.Length) && Pattern(fonts, w, h) && y < h && mask == 7 - y % 8 && fontp == y * Stride(w)
    requires Progress(line[..], fonts, w, h, y, 0)
    modifies line
    ensures Progress(line[..], fonts, w, h, y + 1, 0)
    ensures forall p :: 0 <= p < line.Length && Elsewhere(w, h, p) ==> line[p] == old(line[p])
  {
    hide Rows, BandPixel, Power, Progress, Bit, Stride;
    var x := 0;
    while x < w
      invariant 0 <= x <= w && Progress(line[..], fonts, w, h, y, x)
      invariant forall p :: 0 <= p < line.Length && Elsewhere(w, h, p) ==> line[p] == old(line[p])
    {
      PixelRead(fonts, w, h, x, y);
      var d := fonts[fontp + x / 8];
      var linep := y / 8 * 32 + x;
      ghost var before := line[..];
      RoomFor(before, fonts, w, h, y, x);
      if Bit(d, 7 - x % 8) {
        line[linep] := line[linep] + Power(mask);
      }
      OnePixel(before, line[..], fonts, w, h, y, x);
      x := x + 1;
    }
    BeforeRow(line[..], fonts, w, h, y);
  }

  /** Font2Bitmap without the inversion: both read as the same picture. */
  method FillBitmap(fonts: seq<byte>, line: array<byte>, w: nat, h: nat)
    requires Shape(w, h, line.Length) && Pattern(fonts, w, h)
    modifies line
    ensures Progress(line[..], fonts, w, h, h, 0)
    ensures forall p :: 0 <= p < line.Length && Elsewhere(w, h, p) ==> line[p] == old(line[p])
  {
    hide Rows, BandPixel, Power, Progress, Stride, Pattern;
    ClearBitmap(line, w, h);
    NothingYet(line[..], fonts, w, h);
    var mask := 7;
    var fontp := 0;
    var y := 0;
    while y < h
      invariant 0 <= y <= h && mask == 7 - y % 8 && fontp == y * Stride(w)
      invariant Progress(line[..], fonts, w, h, y, 0)
      invariant forall p :: 0 <= p < line.Length && Elsewhere(w, h, p) ==> line[p] == old(line[p])
    {
      FillRow(fonts, line, w, h, y, mask, fontp);
      mask := mask - 1;
      if mask < 0 {
        mask := 7;
      }
      NextFontRow(y, Stride(w));
      fontp := fontp + Stride(w);
      y := y + 1;
    }
  }

  lemma NextFontRow(y: nat, s: nat)
    ensures (y + 1) * s == y * s + s
  {
  }

  lemma PixelRead(fonts: seq<byte>, w: nat, h: nat, x: nat, y: nat)
    requires Pattern(fonts, w, h) && x < w && y < h
    ensures y * Stride(w) + x / 8 < |fonts|
    ensures BandPixel(fonts, w, h, x, y / 8, y % 8) == Bit(fonts[y * Stride(w) + x / 8], 7 - x % 8)
  {
    InRow(Stride(w), h, x / 8, y);
    assert 8 * (y / 8) + y % 8 == y;
  }

  lemma RoomFor(line: seq<byte>, fonts: seq<byte>, w: nat, h: nat, y: nat, x: nat)
    requires Pattern(fonts, w, h) && Shape(w, h, |line|) && y < h && x < w && Progress(line, fonts, w, h, y, x)
    ensures y / 8 * 32 + x < |line| && line[y / 8 * 32 + x] + Power(7 - y % 8) < 256
    ensures !Elsewhere(w, h, y / 8 * 32 + x)
  {
    hide Rows, Power;
    var b := ByteAt(line, y / 8, x);
    assert Rows(b, fonts, w, h, x, y / 8, y % 8);
    NextFits(b, fonts, w, h, x, y / 8, y % 8);
  }

  method ClearBitmap(line: array<byte>, w: nat, h: nat)
    requires Shape(w, h, line.Length)
    modifies line
    ensures forall p :: 0 <= p < line.Length ==> line[p] == if Elsewhere(w, h, p) then old(line[p]) else 0
  {
    var y := 0;
    while y < h / 8
      invariant 0 <= y <= h / 8
      invariant forall p :: 0 <= p < line.Length ==>
        line[p] == if p / 32 < y && p % 32 < w then 0 else old(line[p])
    {
      var x := 0;
      while x < w
        invariant 0 <= x <= w
        invariant forall p :: 0 <= p < line.Length ==>
          line[p] == if (p / 32 < y && p % 32 < w) || (p / 32 == y && p % 32 < x) then 0 else old(line[p])
      {
        line[y * 32 + x] := 0;
        x := x + 1;
      }
      y := y + 1;
    }
  }

  lemma NothingYet(line: seq<byte>, fonts: seq<byte>, w: nat, h: nat)
    requires Shape(w, h, |line|) && Pattern(fonts, w, h)
    requires forall p :: 0 <= p < |line| && !Elsewhere(w, h, p) ==> line[p] == 0
    ensures Progress(line, fonts, w, h, 0, 0)
  {
    forall band, i | 0 <= band < h / 8 && 0 <= i < w
      ensures Rows(ByteAt(line, band, i), fonts, w, h, i, band, RowsBefore(band, 0))
    {
      assert !Elsewhere(w, h, band * 32 + i);
      ZeroClear(8);
    }
  }

  lemma {:induction false} ZeroClear(n: nat)
    ensures Clear(0, n)
  {
    if n > 0 {
      ZeroClear(n - 1);
    }
  }

  /** The finished bitmap shows the pattern. */
  lemma SamePicture(line: seq<byte>, fonts: seq<byte>, w: nat, h: nat, x: nat, y: nat)
    requires Pattern(fonts, w, h) && Shape(w, h, |line|) && Progress(line, fonts, w, h, h, 0) && x < w && y < h
    ensures x + y / 8 * 32 < |line|
    ensures BitmapPixel(line, x, y) == FontPixel(fonts, w, h, x, y)
  {
    hide FontPixel;
    assert Rows(ByteAt(line, y / 8, x), fonts, w, h, x, y / 8, 8);
    assert BandPixel(fonts, w, h, x, y / 8, y % 8) == FontPixel(fonts, w, h, x, y);
  }

  /** Font2Bitmap: the picture of the bitmap is the picture of the pattern; with the
      inverse flag every band of eight rows is upside down. */
  method Font2Bitmap(fonts: seq<byte>, line: array<byte>, w: nat, h: nat, inverse: bool)
    requires Shape(w, h, line.Length) && Pattern(fonts, w, h)
    modifies line
    ensures forall x, y :: 0 <= x < w && 0 <= y < h ==>
      BitmapPixel(line[..], x, y) == FontPixel(fonts, w, h, x, if inverse then y / 8 * 8 + (7 - y % 8) else y)
    ensures forall p :: 0 <= p < line.Length && Elsewhere(w, h, p) ==> line[p] == old(line[p])
  {
    hide Progress, FontPixel, Bit, Pattern;
    FillBitmap(fonts, line, w, h);
    ghost var filled := line[..];
    if inverse {
      var y := 0;
      while y < h / 8
        invariant 0 <= y <= h / 8
        invariant forall p :: 0 <= p < line.Length ==>
          if p / 32 < y && p % 32 < w then Mirrored(line[p], filled[p]) else line[p] == filled[p]
      {
        var x := 0;
        while x < w
          invariant 0 <= x <= w
          invariant forall p :: 0 <= p < line.Length ==>
            if (p / 32 < y && p % 32 < w) || (p / 32 == y && p % 32 < x) then Mirrored(line[p], filled[p])
            else line[p] == filled[p]
        {
          var b := RotateByte(line[y * 32 + x]);
          line[y * 32 + x] := b;
          x := x + 1;
        }
        y := y + 1;
      }
    }
    forall x, y | 0 <= x < w && 0 <= y < h
      ensures BitmapPixel(line[..], x, y) == FontPixel(fonts, w, h, x, if inverse then y / 8 * 8 + (7 - y % 8) else y)
    {
      var y' := if inverse then y / 8 * 8 + (7 - y % 8) else y;
      SamePicture(filled, fonts, w, h, x, y');
      var p := x + y / 8 * 32;
      assert inverse ==> Mirrored(line[p], filled[p]) && y' / 8 == y / 8 && y' % 8 == 7 - y % 8;
    }
  }

  predicate Mirrored(a: byte, b: byte) {
    forall k :: 0 <= k < 8 ==> Bit(a, k) == Bit(b, 7 - k)
  }
}
