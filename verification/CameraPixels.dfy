/** The camera's pixel loops: nearest-neighbour scaling of a YUYV picture, and its conversion to
  * NV21. A YUYV picture of width w keeps pixel (x, y) at byte 2 * (y * w + x); a pixel pair
  * (Y0 U Y1 V) starts at a multiple of 4.
  */
module CameraPixels {
  newtype byte = x: int | 0 <= x < 256

  /** Where scaleDownYuv422 takes byte p of the result from. */
  function ScaledFrom(p: nat, srcWidth: nat, srcHeight: nat, dstWidth: nat, dstHeight: nat): int
    requires dstWidth > 0 && dstHeight > 0
  {
    var y, c := p / (2 * dstWidth), p % (2 * dstWidth);
    RowStart(y, srcWidth, srcHeight, dstHeight) + c / 4 * 4 * (srcWidth / dstWidth) + c % 4
  }

  function RowStart(y: int, srcWidth: nat, srcHeight: nat, dstHeight: nat): int
    requires dstHeight > 0
  {
    y * (srcHeight / dstHeight) * (srcWidth * 2)
  }

  lemma RowStartIs(y: nat, srcWidth: nat, srcHeight: nat, dstHeight: nat)
    requires dstHeight > 0
    ensures RowStart(y, srcWidth, srcHeight, dstHeight) == y * (srcHeight / dstHeight) * (srcWidth * 2)
  {}

  lemma DivMod(y: nat, c: nat, w: nat)
    requires c < w
    ensures (y * w + c) / w == y && (y * w + c) % w == c
  {
    var a := y * w + c;
    Unique(a, w, a / w, a % w, y, c);
  }

  lemma Unique(a: int, w: nat, q: int, r: int, y: int, c: int)
    requires a == q * w + r == y * w + c && 0 <= r < w && 0 <= c < w
    ensures q == y && r == c
  {
    if q < y {
      assert (q + 1) * w == q * w + w;
      Times(q + 1, y, w);
    } else if q > y {
      assert (y + 1) * w == y * w + w;
      Times(y + 1, q, w);
    }
  }

  /** Multiplication is monotone. */
  lemma Times(a: int, b: int, c: nat)
    requires a <= b
    ensures a * c <= b * c
  {}

  lemma ScaledRow(y: nat, srcHeight: nat, dstHeight: nat)
    requires y < dstHeight && srcHeight > 0
    ensures 0 <= y * (srcHeight / dstHeight) < srcHeight
  {
    DivTimes(srcHeight, dstHeight);
    SteppedRow(y, srcHeight / dstHeight, srcHeight, dstHeight);
  }

  lemma SteppedRow(y: nat, step: nat, srcHeight: nat, dstHeight: nat)
    requires y < dstHeight && srcHeight > 0 && dstHeight * step <= srcHeight
    ensures 0 <= y * step < srcHeight
  {
    Times(y + 1, dstHeight, step);
    assert (y + 1) * step == y * step + step;
    Times(0, y, step);
    if step == 0 { assert y * step == 0; }
  }

  lemma ScaledColumn(x: nat, srcWidth: nat, dstWidth: nat)
    requires x % 2 == 0 && x + 2 <= dstWidth && srcWidth >= 2
    ensures 0 <= x * (srcWidth / dstWidth * 2) && x * (srcWidth / dstWidth * 2) + 3 < 2 * srcWidth
  {
    DivTimes(srcWidth, dstWidth);
    SteppedColumn(x, srcWidth / dstWidth, srcWidth, dstWidth);
  }

  lemma DivTimes(a: nat, b: nat)
    requires b > 0
    ensures 0 <= b * (a / b) <= a && a / b >= 0
  {}

  lemma SteppedColumn(x: nat, step: nat, srcWidth: nat, dstWidth: nat)
    requires x + 2 <= dstWidth && srcWidth >= 2 && dstWidth * step <= srcWidth
    ensures 0 <= x * (step * 2) && x * (step * 2) + 3 < 2 * srcWidth
  {
    Times(x + 2, dstWidth, step);
    assert (x + 2) * step == x * step + 2 * step;
    Twice(x, step);
    Times(0, x, step);
    if step == 0 { assert x * step == 0; }
  }

  /** A byte group of the result, seen from the loops. */
  lemma GroupFrom(y: nat, x: nat, k: nat, srcWidth: nat, srcHeight: nat, dstWidth: nat, dstHeight: nat)
    requires y < dstHeight && x % 2 == 0 && x + 2 <= dstWidth && k < 4 && srcWidth >= 2 && srcHeight > 0
    ensures var from := RowStart(y, srcWidth, srcHeight, dstHeight) + x * (srcWidth / dstWidth * 2) + k;
            && ScaledFrom(y * (2 * dstWidth) + 2 * x + k, srcWidth, srcHeight, dstWidth, dstHeight) == from
            && 0 <= from < 2 * (srcWidth * srcHeight)
  {
    DivMod(y, 2 * x + k, 2 * dstWidth);
    var step := srcWidth / dstWidth;
    assert (2 * x + k) / 4 * 4 == 2 * x;
    assert 2 * x * step == x * (step * 2);
    ScaledRow(y, srcHeight, dstHeight);
    ScaledColumn(x, srcWidth, dstWidth);
    var row := y * (srcHeight / dstHeight);
    Times(row + 1, srcHeight, srcWidth * 2);
    assert (row + 1) * (srcWidth * 2) == row * (srcWidth * 2) + srcWidth * 2;
    assert srcHeight * (srcWidth * 2) == 2 * (srcWidth * srcHeight);
  }

  /** scaleDownYuv422. Every byte of the result is written, from the place ScaledFrom says. */
  method ScaleDownYuv422(src: array<byte>, srcWidth: nat, srcHeight: nat, dst: array<byte>, dstWidth: nat,
                         dstHeight: nat)
    returns (ok: bool)
    requires src != dst && src.Length >= 2 * (srcWidth * srcHeight) && dst.Length >= 2 * (dstWidth * dstHeight)
    requires srcWidth >= 2 && srcHeight >= 1 && dstWidth >= 1 && dstHeight >= 1
    modifies dst
    ensures ok <==> dstWidth % 2 == 0 && dstHeight % 2 == 0
    ensures !ok ==> dst[..] == old(dst[..])
    ensures ok ==> Scaled(src[..], srcWidth, srcHeight, dst[..], dstWidth, dstHeight, 2 * (dstWidth * dstHeight))
    ensures forall p :: 2 * (dstWidth * dstHeight) <= p < dst.Length ==> dst[p] == old(dst[p])
  {
    if dstWidth % 2 != 0 || dstHeight % 2 != 0 {
      return false;
    }
    assert Scaled(src[..], srcWidth, srcHeight, dst[..], dstWidth, dstHeight, 0);
    hide Scaled, RowStart;
    var stepX := srcWidth / dstWidth;
    var stepY := srcHeight / dstHeight;
    var dstPos := 0;
    ghost var size := 2 * (dstWidth * dstHeight);
    for y := 0 to dstHeight
      invariant dstPos == y * (2 * dstWidth)
      invariant Scaled(src[..], srcWidth, srcHeight, dst[..], dstWidth, dstHeight, dstPos)
      invariant forall p :: size <= p < dst.Length ==> dst[p] == old(dst[p])
    {
      RowEnd(y, dstWidth, dstHeight);
      var srcYStartPos := y * stepY * (srcWidth * 2);
      RowStartIs(y, srcWidth, srcHeight, dstHeight);
      ScaleRow(src, srcYStartPos, stepX, srcWidth, srcHeight, dst, dstPos, dstWidth, dstHeight, y);
      dstPos := dstPos + 2 * dstWidth;
    }
    EndOfRows(dstWidth, dstHeight);
    return true;
  }

  lemma EndOfRows(dstWidth: nat, dstHeight: nat)
    ensures dstHeight * (2 * dstWidth) == 2 * (dstWidth * dstHeight)
  {
    Twice(dstHeight, dstWidth);
  }

  /** The inner loop: one row of the result. */
  method ScaleRow(src: array<byte>, srcYStartPos: int, stepX: nat, ghost srcWidth: nat, ghost srcHeight: nat,
                  dst: array<byte>, start: nat, dstWidth: nat, ghost dstHeight: nat, ghost y: nat)
    requires src != dst && 2 * (srcWidth * srcHeight) <= src.Length && start + 2 * dstWidth <= dst.Length
    requires y < dstHeight && dstWidth > 0 && dstWidth % 2 == 0 && srcWidth >= 2 && srcHeight > 0
    requires srcYStartPos == RowStart(y, srcWidth, srcHeight, dstHeight)
    requires stepX == srcWidth / dstWidth && start == y * (2 * dstWidth)
    requires Scaled(src[..], srcWidth, srcHeight, dst[..], dstWidth, dstHeight, start)
    modifies dst
    ensures Scaled(src[..], srcWidth, srcHeight, dst[..], dstWidth, dstHeight, start + 2 * dstWidth)
    ensures forall p :: start + 2 * dstWidth <= p < dst.Length ==> dst[p] == old(dst[p])
  {
    hide Scaled, RowStart;
    var dstPos := start;
    var x := 0;
    while x < dstWidth
      invariant x % 2 == 0 && x <= dstWidth
      invariant dstPos == start + 2 * x
      invariant Scaled(src[..], srcWidth, srcHeight, dst[..], dstWidth, dstHeight, dstPos)
      invariant forall p :: start + 2 * dstWidth <= p < dst.Length ==> dst[p] == old(dst[p])
    {
      EvenStep(x, dstWidth);
      var srcPos := srcYStartPos + x * (stepX * 2);
      GroupBounds(y, x, srcWidth, srcHeight, dstWidth, dstHeight);
      CopyGroup(src, srcPos, srcWidth, srcHeight, dst, dstPos, dstWidth, dstHeight, y, x);
      dstPos := dstPos + 4;
      x := x + 2;
    }
  }

  /** The body of the inner loop: the four bytes of one pixel pair. */
  method CopyGroup(src: array<byte>, srcPos: nat, ghost srcWidth: nat, ghost srcHeight: nat,
                   dst: array<byte>, dstPos: nat, ghost dstWidth: nat, ghost dstHeight: nat, ghost y: nat, ghost x: nat)
    requires src != dst && srcPos + 3 < 2 * (srcWidth * srcHeight) <= src.Length && dstPos + 4 <= dst.Length
    requires y < dstHeight && x % 2 == 0 && x + 2 <= dstWidth && srcWidth >= 2 && srcHeight > 0
    requires srcPos == RowStart(y, srcWidth, srcHeight, dstHeight) + x * (srcWidth / dstWidth * 2)
    requires dstPos == y * (2 * dstWidth) + 2 * x
    requires Scaled(src[..], srcWidth, srcHeight, dst[..], dstWidth, dstHeight, dstPos)
    modifies dst
    ensures Scaled(src[..], srcWidth, srcHeight, dst[..], dstWidth, dstHeight, dstPos + 4)
    ensures forall p :: dstPos + 4 <= p < dst.Length ==> dst[p] == old(dst[p])
  {
    ghost var before := dst[..];
    hide Scaled, RowStart;
    dst[dstPos] := src[srcPos];
    dst[dstPos + 1] := src[srcPos + 1];
    dst[dstPos + 2] := src[srcPos + 2];
    dst[dstPos + 3] := src[srcPos + 3];
    ScaledGroup(src[..], srcWidth, srcHeight, before, dst[..], dstWidth, dstHeight, y, x);
  }

  lemma EvenStep(x: nat, width: nat)
    requires x % 2 == 0 == width % 2 && x < width
    ensures x + 2 <= width && (x + 2) % 2 == 0
  {}

  lemma RowEnd(y: nat, dstWidth: nat, dstHeight: nat)
    requires y < dstHeight
    ensures (y + 1) * (2 * dstWidth) == y * (2 * dstWidth) + 2 * dstWidth <= 2 * (dstWidth * dstHeight)
  {
    Times(y + 1, dstHeight, 2 * dstWidth);
    assert dstHeight * (2 * dstWidth) == 2 * (dstWidth * dstHeight);
  }

  lemma GroupBounds(y: nat, x: nat, srcWidth: nat, srcHeight: nat, dstWidth: nat, dstHeight: nat)
    requires y < dstHeight && x % 2 == 0 && x + 2 <= dstWidth && srcWidth >= 2 && srcHeight > 0
    ensures var srcPos := RowStart(y, srcWidth, srcHeight, dstHeight) + x * (srcWidth / dstWidth * 2);
            0 <= srcPos && srcPos + 3 < 2 * (srcWidth * srcHeight)
  {
    GroupFrom(y, x, 0, srcWidth, srcHeight, dstWidth, dstHeight);
    GroupFrom(y, x, 3, srcWidth, srcHeight, dstWidth, dstHeight);
  }

  /** The first n bytes of the result are in place. */
  ghost predicate Scaled(src: seq<byte>, srcWidth: nat, srcHeight: nat, dst: seq<byte>, dstWidth: nat,
                         dstHeight: nat, n: nat)
    requires dstWidth > 0 && dstHeight > 0
  {
    n <= |dst| &&
    forall p :: 0 <= p < n ==>
      var from := ScaledFrom(p, srcWidth, srcHeight, dstWidth, dstHeight);
      0 <= from < |src| && dst[p] == src[from]
  }

  lemma ScaledGroup(src: seq<byte>, srcWidth: nat, srcHeight: nat, before: seq<byte>, dst: seq<byte>, dstWidth: nat,
                    dstHeight: nat, y: nat, x: nat)
    requires y < dstHeight && x % 2 == 0 && x + 2 <= dstWidth && srcWidth >= 2 && srcHeight > 0
    requires |src| >= 2 * (srcWidth * srcHeight)
    requires var n := y * (2 * dstWidth) + 2 * x;
             && Scaled(src, srcWidth, srcHeight, before, dstWidth, dstHeight, n)
             && n + 4 <= |dst| == |before| && (forall p :: 0 <= p < n ==> dst[p] == before[p])
             && var srcPos := RowStart(y, srcWidth, srcHeight, dstHeight) + x * (srcWidth / dstWidth * 2);
                && 0 <= srcPos && srcPos + 3 < |src|
                && dst[n] == src[srcPos] && dst[n + 1] == src[srcPos + 1]
                && dst[n + 2] == src[srcPos + 2] && dst[n + 3] == src[srcPos + 3]
    ensures Scaled(src, srcWidth, srcHeight, dst, dstWidth, dstHeight, y * (2 * dstWidth) + 2 * x + 4)
  {
    GroupFrom(y, x, 0, srcWidth, srcHeight, dstWidth, dstHeight);
    GroupFrom(y, x, 1, srcWidth, srcHeight, dstWidth, dstHeight);
    GroupFrom(y, x, 2, srcWidth, srcHeight, dstWidth, dstHeight);
    GroupFrom(y, x, 3, srcWidth, srcHeight, dstWidth, dstHeight);
    var n := y * (2 * dstWidth) + 2 * x;
    hide Scaled, ScaledFrom;
    FourMore(src, srcWidth, srcHeight, before, dst, dstWidth, dstHeight, n);
  }

  lemma FourMore(src: seq<byte>, srcWidth: nat, srcHeight: nat, before: seq<byte>, dst: seq<byte>, dstWidth: nat,
                 dstHeight: nat, n: nat)
    requires dstWidth > 0 && dstHeight > 0 && n + 4 <= |dst| == |before|
    requires Scaled(src, srcWidth, srcHeight, before, dstWidth, dstHeight, n)
    requires forall p :: 0 <= p < n ==> dst[p] == before[p]
    requires var from := ScaledFrom(n, srcWidth, srcHeight, dstWidth, dstHeight);
             && 0 <= from && from + 3 < |src|
             && ScaledFrom(n + 1, srcWidth, srcHeight, dstWidth, dstHeight) == from + 1
             && ScaledFrom(n + 2, srcWidth, srcHeight, dstWidth, dstHeight) == from + 2
             && ScaledFrom(n + 3, srcWidth, srcHeight, dstWidth, dstHeight) == from + 3
             && dst[n] == src[from] && dst[n + 1] == src[from + 1]
             && dst[n + 2] == src[from + 2] && dst[n + 3] == src[from + 3]
    ensures Scaled(src, srcWidth, srcHeight, dst, dstWidth, dstHeight, n + 4)
  {
    hide ScaledFrom;
  }

  // -------- what the scaled picture shows

  /** The number of pixel (x, y), row by row. */
  function Index(x: int, y: int, width: int): int { y * width + x }

  ghost predicate Fits(buf: seq<byte>, width: nat, height: nat) {
    width % 2 == 0 && 2 * (width * height) <= |buf|
  }

  lemma EvenProduct(y: int, width: int)
    requires width % 2 == 0
    ensures y * width % 2 == 0
  {
    assert y * width == 2 * (y * (width / 2));
  }

  lemma IndexInside(x: nat, y: nat, width: nat, height: nat)
    requires x < width && y < height && width % 2 == 0
    ensures 0 <= Index(x, y, width) < width * height && Index(x, y, width) % 2 == x % 2 && width * height % 2 == 0
  {
    Times(y + 1, height, width);
    Times(0, y, width);
    assert (y + 1) * width == y * width + width;
    EvenProduct(y, width);
    EvenProduct(height, width);
    Commute(height, width);
    EvenSum(y * width, x);
  }

  lemma Commute(a: int, b: int)
    ensures a * b == b * a
  {}

  lemma EvenSum(p: int, x: int)
    requires p % 2 == 0
    ensures (p + x) % 2 == x % 2
  {}

  /** A pixel of a YUYV picture: its luma and the chroma of its pair. */
  datatype Pixel = Pixel(luma: byte, u: byte, v: byte)

  function PixelAt(buf: seq<byte>, width: nat, height: nat, x: nat, y: nat): Pixel
    requires Fits(buf, width, height) && x < width && y < height
  {
    IndexInside(x, y, width, height);
    var n := Index(x, y, width);
    Pixel(buf[2 * n], buf[4 * (n / 2) + 1], buf[4 * (n / 2) + 3])
  }

  /** The source column of a result column: pixel pairs stay together. */
  function Column(x: nat, srcWidth: nat, dstWidth: nat): int
    requires dstWidth > 0
  {
    x / 2 * 2 * (srcWidth / dstWidth) + x % 2
  }

  /** Every pixel of the result is the source pixel at its scaled position, chroma included. */
  lemma ScaledPicture(src: seq<byte>, srcWidth: nat, srcHeight: nat, dst: seq<byte>, dstWidth: nat, dstHeight: nat,
                      x: nat, y: nat)
    requires Fits(src, srcWidth, srcHeight) && Fits(dst, dstWidth, dstHeight)
    requires srcWidth > 0 && srcHeight > 0 && x < dstWidth && y < dstHeight
    requires Scaled(src, srcWidth, srcHeight, dst, dstWidth, dstHeight, 2 * (dstWidth * dstHeight))
    ensures var x', y' := Column(x, srcWidth, dstWidth), y * (srcHeight / dstHeight);
            && 0 <= x' < srcWidth && 0 <= y' < srcHeight
            && PixelAt(dst, dstWidth, dstHeight, x, y) == PixelAt(src, srcWidth, srcHeight, x', y')
  {
    ColumnInside(x, srcWidth, dstWidth);
    ScaledRow(y, srcHeight, dstHeight);
    var x', y' := Column(x, srcWidth, dstWidth), y * (srcHeight / dstHeight);
    hide *;
    forall k: nat | k < 4 ensures SameByte(src, srcWidth, srcHeight, x', y', dst, dstWidth, dstHeight, x, y, k) {
      ScaledByte(src, srcWidth, srcHeight, dst, dstWidth, dstHeight, x, y, k);
    }
    SamePixel(src, srcWidth, srcHeight, x', y', dst, dstWidth, dstHeight, x, y);
  }

  lemma ScaledByte(src: seq<byte>, srcWidth: nat, srcHeight: nat, dst: seq<byte>, dstWidth: nat, dstHeight: nat,
                   x: nat, y: nat, k: nat)
    requires Fits(src, srcWidth, srcHeight) && Fits(dst, dstWidth, dstHeight)
    requires srcWidth > 0 && srcHeight > 0 && x < dstWidth && y < dstHeight && k < 4
    requires Scaled(src, srcWidth, srcHeight, dst, dstWidth, dstHeight, 2 * (dstWidth * dstHeight))
    ensures var x', y' := Column(x, srcWidth, dstWidth), y * (srcHeight / dstHeight);
            x' >= 0 && y' >= 0 && SameByte(src, srcWidth, srcHeight, x', y', dst, dstWidth, dstHeight, x, y, k)
  {
    ColumnInside(x, srcWidth, dstWidth);
    ScaledRow(y, srcHeight, dstHeight);
    var x', y' := Column(x, srcWidth, dstWidth), y * (srcHeight / dstHeight);
    assert x' / 2 * 2 == x / 2 * 2 * (srcWidth / dstWidth);
    hide Column, Scaled, ScaledFrom, Index;
    PairCopied(src, srcWidth, srcHeight, dst, dstWidth, dstHeight, x / 2 * 2, y, k);
    PairBase(x, y, dstWidth);
    PairBase(x', y', srcWidth);
  }

  /** Byte k of the pairs that contain two pixels. */
  ghost predicate SameByte(src: seq<byte>, srcWidth: nat, srcHeight: nat, x': nat, y': nat,
                           dst: seq<byte>, dstWidth: nat, dstHeight: nat, x: nat, y: nat, k: nat)
  {
    var n, n' := Index(x, y, dstWidth) / 2, Index(x', y', srcWidth) / 2;
    0 <= 4 * n + k < |dst| && 0 <= 4 * n' + k < |src| && dst[4 * n + k] == src[4 * n' + k]
  }

  lemma SamePixel(src: seq<byte>, srcWidth: nat, srcHeight: nat, x': nat, y': nat,
                  dst: seq<byte>, dstWidth: nat, dstHeight: nat, x: nat, y: nat)
    requires Fits(src, srcWidth, srcHeight) && x' < srcWidth && y' < srcHeight
    requires Fits(dst, dstWidth, dstHeight) && x < dstWidth && y < dstHeight
    requires x % 2 == x' % 2
    requires forall k: nat :: k < 4 ==> SameByte(src, srcWidth, srcHeight, x', y', dst, dstWidth, dstHeight, x, y, k)
    ensures PixelAt(dst, dstWidth, dstHeight, x, y) == PixelAt(src, srcWidth, srcHeight, x', y')
  {
    IndexInside(x, y, dstWidth, dstHeight);
    IndexInside(x', y', srcWidth, srcHeight);
    hide Index;
    assert SameByte(src, srcWidth, srcHeight, x', y', dst, dstWidth, dstHeight, x, y, 2 * (x % 2));
    assert SameByte(src, srcWidth, srcHeight, x', y', dst, dstWidth, dstHeight, x, y, 1);
    assert SameByte(src, srcWidth, srcHeight, x', y', dst, dstWidth, dstHeight, x, y, 3);
  }

  lemma PairBase(x: nat, y: int, width: nat)
    requires width % 2 == 0
    ensures 2 * Index(x / 2 * 2, y, width) == 4 * (Index(x, y, width) / 2)
  {
    EvenProduct(y, width);
  }

  lemma ColumnInside(x: nat, srcWidth: nat, dstWidth: nat)
    requires x < dstWidth && dstWidth % 2 == 0 && srcWidth > 0 && srcWidth % 2 == 0
    ensures 0 <= Column(x, srcWidth, dstWidth) < srcWidth
    ensures Column(x, srcWidth, dstWidth) % 2 == x % 2
    ensures Column(x, srcWidth, dstWidth) / 2 * 2 == Column(x / 2 * 2, srcWidth, dstWidth)
  {
    var i, step := x / 2, srcWidth / dstWidth;
    ScaledColumn(2 * i, srcWidth, dstWidth);
    Twice(2 * i, step);
    Doubled(i, step);
    OddOrEven(i * step, x % 2);
  }

  lemma Doubled(i: int, step: int)
    ensures 2 * i * step == 2 * (i * step) == i * 2 * step
  {}

  lemma OddOrEven(e: int, r: int)
    requires 0 <= r < 2
    ensures (2 * e + r) % 2 == r && (2 * e + r) / 2 * 2 == 2 * e
  {}

  /** One byte of a pixel pair. */
  lemma PairCopied(src: seq<byte>, srcWidth: nat, srcHeight: nat, dst: seq<byte>, dstWidth: nat, dstHeight: nat,
                   x: nat, y: nat, k: nat)
    requires Fits(src, srcWidth, srcHeight) && Fits(dst, dstWidth, dstHeight)
    requires srcWidth > 0 && srcHeight > 0 && x % 2 == 0 && x < dstWidth && y < dstHeight && k < 4
    requires Scaled(src, srcWidth, srcHeight, dst, dstWidth, dstHeight, 2 * (dstWidth * dstHeight))
    ensures var n, n' := Index(x, y, dstWidth), Index(x * (srcWidth / dstWidth), y * (srcHeight / dstHeight), srcWidth);
            && 0 <= 2 * n + k < |dst| && 0 <= 2 * n' + k < |src|
            && dst[2 * n + k] == src[2 * n' + k]
  {
    IndexInside(x, y, dstWidth, dstHeight);
    PairFrom(y, x, k, srcWidth, srcHeight, dstWidth, dstHeight);
    hide ScaledFrom, Index;
  }

  lemma PairFrom(y: nat, x: nat, k: nat, srcWidth: nat, srcHeight: nat, dstWidth: nat, dstHeight: nat)
    requires y < dstHeight && x % 2 == 0 && x + 2 <= dstWidth && k < 4 && srcWidth >= 2 && srcHeight > 0
    ensures var n, n' := Index(x, y, dstWidth), Index(x * (srcWidth / dstWidth), y * (srcHeight / dstHeight), srcWidth);
            && 0 <= n && ScaledFrom(2 * n + k, srcWidth, srcHeight, dstWidth, dstHeight) == 2 * n' + k
            && 0 <= 2 * n' + k < 2 * (srcWidth * srcHeight)
  {
    GroupFrom(y, x, k, srcWidth, srcHeight, dstWidth, dstHeight);
    hide ScaledFrom, RowStart, Index;
    PairStarts(y, x, srcWidth / dstWidth, y * (srcHeight / dstHeight), srcWidth, dstWidth);
    RowStartIs(y, srcWidth, srcHeight, dstHeight);
  }

  /** The loops' positions are twice the pixels' numbers. */
  lemma PairStarts(y: nat, x: nat, stepX: nat, row: int, srcWidth: nat, dstWidth: nat)
    ensures y * (2 * dstWidth) + 2 * x == 2 * Index(x, y, dstWidth) && Index(x, y, dstWidth) >= 0
    ensures row * (srcWidth * 2) + x * (stepX * 2) == 2 * Index(x * stepX, row, srcWidth)
  {
    Twice(row, srcWidth);
    Twice(x, stepX);
    Twice(y, dstWidth);
    Times(0, y, dstWidth);
  }

  lemma Twice(a: int, b: int)
    ensures a * (b * 2) == 2 * (a * b) == a * (2 * b)
  {}

  /** Copied groups start at a pixel pair of the source, exactly if its rows or the step between
    * them is even; otherwise the odd rows of the result exchange the two chroma parts. */
  lemma PairsKept(srcWidth: nat, srcHeight: nat, dstWidth: nat, dstHeight: nat)
    requires srcWidth >= 2 && srcHeight > 0 && dstWidth > 0 && dstHeight > 0
    requires dstWidth % 2 == 0 && dstHeight % 2 == 0
    ensures (forall x: nat, y: nat :: x % 2 == 0 && x < dstWidth && y < dstHeight ==>
              PairStart(x, y, srcWidth, srcHeight, dstWidth, dstHeight) % 4 == 0)
            <==> srcWidth % 2 == 0 || srcHeight / dstHeight % 2 == 0
  {
    var stepY := srcHeight / dstHeight;
    forall x: nat, y: nat | x % 2 == 0 && x < dstWidth && y < dstHeight
      ensures PairStart(x, y, srcWidth, srcHeight, dstWidth, dstHeight) % 4 == 0
              <==> y % 2 == 0 || stepY % 2 == 0 || srcWidth % 2 == 0
    {
      PairPhase(x, y, srcWidth, srcHeight, dstWidth, dstHeight);
    }
    hide PairStart;
    var odd := PairStart(0, 1, srcWidth, srcHeight, dstWidth, dstHeight);
    assert odd % 4 == 0 <==> stepY % 2 == 0 || srcWidth % 2 == 0;
  }

  /** Where the loops read the pair for result pixels (x, y) and (x + 1, y). */
  function PairStart(x: nat, y: nat, srcWidth: nat, srcHeight: nat, dstWidth: nat, dstHeight: nat): int
    requires x % 2 == 0 && x < dstWidth && y < dstHeight
  {
    assert 0 <= y * dstWidth;
    ScaledFrom(2 * Index(x, y, dstWidth), srcWidth, srcHeight, dstWidth, dstHeight)
  }

  lemma PairPhase(x: nat, y: nat, srcWidth: nat, srcHeight: nat, dstWidth: nat, dstHeight: nat)
    requires x % 2 == 0 && x + 2 <= dstWidth && y < dstHeight && srcWidth >= 2 && srcHeight > 0
    ensures PairStart(x, y, srcWidth, srcHeight, dstWidth, dstHeight) % 4 == 0
            <==> y % 2 == 0 || srcHeight / dstHeight % 2 == 0 || srcWidth % 2 == 0
  {
    hide ScaledFrom, Index;
    PairFrom(y, x, 0, srcWidth, srcHeight, dstWidth, dstHeight);
    ScaledRow(y, srcHeight, dstHeight);
    StepPhase(x, y, srcWidth / dstWidth, srcHeight / dstHeight, srcWidth);
  }

  lemma StepPhase(x: nat, y: nat, stepX: nat, stepY: nat, srcWidth: nat)
    requires x % 2 == 0 && y * stepY >= 0
    ensures 2 * Index(x * stepX, y * stepY, srcWidth) % 4 == 0 <==> y % 2 == 0 || stepY % 2 == 0 || srcWidth % 2 == 0
  {
    hide Index;
    Parity(x, stepX);
    Parity(y, stepY);
    RowPhase(x * stepX, y * stepY, srcWidth);
  }

  lemma RowPhase(column: int, row: int, width: nat)
    requires column % 2 == 0 && row >= 0
    ensures 2 * Index(column, row, width) % 4 == 0 <==> row % 2 == 0 || width % 2 == 0
  {
    Parity(row, width);
    HalfPhase(column, row * width);
  }

  lemma HalfPhase(column: int, p: int)
    requires column % 2 == 0
    ensures 2 * (p + column) % 4 == 0 <==> p % 2 == 0
  {
    var i, j := p / 2, column / 2;
    assert 2 * (p + column) == 4 * (i + j) + 2 * (p % 2);
  }

  lemma Parity(a: nat, b: nat)
    ensures a * b % 2 == 0 <==> a % 2 == 0 || b % 2 == 0
  {
    if a % 2 == 0 {
      EvenProduct(b, a);
    } else if b % 2 == 0 {
      EvenProduct(a, b);
    } else {
      OddProduct(a, b, a / 2, b / 2);
    }
  }

  lemma OddProduct(a: nat, b: nat, i: nat, j: nat)
    requires a == 2 * i + 1 && b == 2 * j + 1
    ensures a * b % 2 == 1
  {
    assert a * b == 2 * (2 * (i * j) + i + j) + 1;
  }

  // -------- conversion to NV21

  /** Where YUY2toNV21 takes byte p of the result from: first all luma, then for every other row
    * the pairs' V and U. */
  function NvFrom(p: nat, width: nat, height: nat): int {
    if p < width * height || width == 0 then 2 * p
    else
      var cw := ChromaWidth(width);
      var row, c := (p - width * height) / cw, (p - width * height) % cw;
      2 * row * (width * 2) + c / 2 * 4 + (if c % 2 == 0 then 3 else 1)
  }

  /** The length of a chroma row: of an odd width, the last pair is only half inside the row. */
  function ChromaWidth(width: nat): nat { (width + 1) / 2 * 2 }

  function NvSize(width: nat, height: nat): int { width * height + (height + 1) / 2 * ChromaWidth(width) }

  /** How much of the source is read: if both sizes are odd, two bytes more than the picture has. */
  function SourceSize(width: nat, height: nat): int {
    2 * (width * height) + (if width % 2 == 1 && height % 2 == 1 then 2 else 0)
  }

  /** Bytes lo to hi of the result are in place. */
  ghost predicate Converted(src: seq<byte>, dst: seq<byte>, width: nat, height: nat, lo: nat, hi: nat) {
    hi <= |dst| &&
    forall p :: lo <= p < hi ==> var from := NvFrom(p, width, height); 0 <= from < |src| && dst[p] == src[from]
  }

  /** YUY2toNV21. */
  method YUY2toNV21(src: array<byte>, dst: array<byte>, srcWidth: nat, srcHeight: nat)
    requires src != dst && src.Length >= SourceSize(srcWidth, srcHeight) && dst.Length >= NvSize(srcWidth, srcHeight)
    modifies dst
    ensures Converted(src[..], dst[..], srcWidth, srcHeight, 0, NvSize(srcWidth, srcHeight))
    ensures forall p :: NvSize(srcWidth, srcHeight) <= p < dst.Length ==> dst[p] == old(dst[p])
  {
    NvLarger(srcWidth, srcHeight);
    hide Converted, NvFrom, NvSize, ChromaWidth;
    ghost var size, cw := srcWidth * srcHeight, ChromaWidth(srcWidth);
    Luma(src, dst, srcWidth, srcHeight);
    var dstCbcrPos := srcWidth * srcHeight;
    var y: nat := 0;
    while y < srcHeight
      invariant y <= srcHeight + 1 && y % 2 == 0
      invariant dstCbcrPos == size + y / 2 * cw
      invariant Converted(src[..], dst[..], srcWidth, srcHeight, 0, dstCbcrPos)
      invariant forall p :: NvSize(srcWidth, srcHeight) <= p < dst.Length ==> dst[p] == old(dst[p])
    {
      dstCbcrPos := ChromaRow(src, dst, srcWidth, srcHeight, y, dstCbcrPos);
      NextRow(y, cw);
      y := y + 2;
    }
    LastRow(y, srcWidth, srcHeight);
  }

  lemma LastRow(y: nat, width: nat, height: nat)
    requires y % 2 == 0 && height <= y <= height + 1
    ensures width * height + y / 2 * ChromaWidth(width) == NvSize(width, height)
  {
    assert y / 2 == (height + 1) / 2;
  }

  lemma NvLarger(width: nat, height: nat)
    ensures NvSize(width, height) >= width * height && SourceSize(width, height) >= 2 * (width * height)
  {
    Times(0, (height + 1) / 2, ChromaWidth(width));
  }

  lemma NextRow(y: nat, width: nat)
    ensures (y + 2) / 2 * width == y / 2 * width + width
  {
    assert (y / 2 + 1) * width == y / 2 * width + width;
  }

  /** The luma loops. */
  method Luma(src: array<byte>, dst: array<byte>, srcWidth: nat, srcHeight: nat)
    requires src != dst && src.Length >= 2 * (srcWidth * srcHeight) && dst.Length >= srcWidth * srcHeight
    modifies dst
    ensures Converted(src[..], dst[..], srcWidth, srcHeight, 0, srcWidth * srcHeight)
    ensures forall p :: srcWidth * srcHeight <= p < dst.Length ==> dst[p] == old(dst[p])
  {
    var dstPos := 0;
    assert Halved(src[..], dst[..], 0);
    hide Halved;
    ghost var size := srcWidth * srcHeight;
    for y := 0 to srcHeight
      invariant dstPos == y * srcWidth
      invariant Halved(src[..], dst[..], dstPos)
      invariant forall p :: size <= p < dst.Length ==> dst[p] == old(dst[p])
    {
      LumaRow(y, srcWidth, srcHeight);
      var srcYStartPos := y * (srcWidth * 2);
      CopyLuma(src, dst, srcWidth, srcYStartPos, dstPos);
      dstPos := dstPos + srcWidth;
    }
    HalvedIsConverted(src[..], dst[..], srcWidth, srcHeight) by { Commute(srcWidth, srcHeight); }
  }

  ghost predicate Halved(src: seq<byte>, dst: seq<byte>, n: nat) {
    n <= |dst| && 2 * n <= |src| && forall p :: 0 <= p < n ==> dst[p] == src[2 * p]
  }

  lemma HalvedIsConverted(src: seq<byte>, dst: seq<byte>, width: nat, height: nat)
    requires Halved(src, dst, width * height)
    ensures Converted(src, dst, width, height, 0, width * height)
  {}

  /** One row of the luma loops: every other byte. */
  method CopyLuma(src: array<byte>, dst: array<byte>, srcWidth: nat, srcYStartPos: nat, start: nat)
    requires src != dst && srcYStartPos == 2 * start && Halved(src[..], dst[..], start)
    requires start + srcWidth <= dst.Length && 2 * (start + srcWidth) <= src.Length
    modifies dst
    ensures Halved(src[..], dst[..], start + srcWidth)
    ensures forall p :: start + srcWidth <= p < dst.Length ==> dst[p] == old(dst[p])
  {
    var dstPos := start;
    var x := 0;
    while x < srcWidth * 2
      invariant x % 2 == 0 && x <= srcWidth * 2 && 2 * dstPos == 2 * start + x
      invariant Halved(src[..], dst[..], dstPos)
      invariant forall p :: start + srcWidth <= p < dst.Length ==> dst[p] == old(dst[p])
    {
      var srcPos := srcYStartPos + x;
      dst[dstPos] := src[srcPos];
      dstPos := dstPos + 1;
      x := x + 2;
    }
  }

  lemma LumaRow(y: nat, width: nat, height: nat)
    requires y < height
    ensures 0 <= y * width && y * (width * 2) == 2 * (y * width)
    ensures (y + 1) * width == y * width + width <= width * height
  {
    Twice(y, width);
    Times(0, y, width);
    Times(y + 1, height, width);
  }

  /** The body of the chroma loop: one row of pairs. */
  method ChromaRow(src: array<byte>, dst: array<byte>, srcWidth: nat, srcHeight: nat, y: nat, start: nat)
    returns (end: nat)
    requires src != dst && y % 2 == 0 && y < srcHeight
    requires src.Length >= SourceSize(srcWidth, srcHeight) && dst.Length >= NvSize(srcWidth, srcHeight)
    requires start == srcWidth * srcHeight + y / 2 * ChromaWidth(srcWidth)
    requires Converted(src[..], dst[..], srcWidth, srcHeight, 0, start)
    modifies dst
    ensures end == start + ChromaWidth(srcWidth) <= NvSize(srcWidth, srcHeight)
    ensures Converted(src[..], dst[..], srcWidth, srcHeight, 0, end)
    ensures forall p :: end <= p < dst.Length ==> dst[p] == old(dst[p])
  {
    RowInside(y, srcWidth, srcHeight);
    hide NvFrom, NvSize, Converted, SourceSize, ChromaWidth;
    ghost var cw := ChromaWidth(srcWidth);
    var srcYStartPos := y * (srcWidth * 2);
    var x := 0;
    end := start;
    FourStep(0, srcWidth);
    while x < srcWidth * 2
      invariant x % 4 == 0 && x <= cw * 2 && 2 * end == 2 * start + x
      invariant Converted(src[..], dst[..], srcWidth, srcHeight, 0, end)
      invariant forall p :: start + cw <= p < dst.Length ==> dst[p] == old(dst[p])
    {
      FourStep(x, srcWidth);
      ChromaPair(src, srcYStartPos + x, dst, end, srcWidth, srcHeight, y, x);
      end := end + 2;
      x := x + 4;
    }
    AllPairs(x, srcWidth);
  }

  lemma FourStep(x: nat, width: nat)
    requires x % 4 == 0
    ensures x < width * 2 ==> x + 4 <= ChromaWidth(width) * 2 && (x + 4) % 4 == 0
  {
    var q, h := x / 4, (width + 1) / 2;
    assert x == 4 * q && ChromaWidth(width) * 2 == 4 * h;
    if x < width * 2 { assert 2 * q + 1 <= width && q + 1 <= h; }
  }

  lemma AllPairs(x: nat, width: nat)
    requires x % 4 == 0 && width * 2 <= x <= ChromaWidth(width) * 2
    ensures x == ChromaWidth(width) * 2
  {
    var q, h := x / 4, (width + 1) / 2;
    assert x == 4 * q && ChromaWidth(width) * 2 == 4 * h && 2 * h <= width + 1;
  }

  /** The V and U of one pixel pair. */
  method ChromaPair(src: array<byte>, srcPos: nat, dst: array<byte>, dstCbcrPos: nat,
                    ghost srcWidth: nat, ghost srcHeight: nat, ghost y: nat, ghost x: nat)
    requires src != dst && y % 2 == 0 && y < srcHeight && x % 4 == 0 && x < srcWidth * 2
    requires srcPos == y * (srcWidth * 2) + x && srcPos + 4 <= src.Length
    requires dstCbcrPos == srcWidth * srcHeight + y / 2 * ChromaWidth(srcWidth) + x / 2 && dstCbcrPos + 2 <= dst.Length
    requires Converted(src[..], dst[..], srcWidth, srcHeight, 0, dstCbcrPos)
    modifies dst
    ensures Converted(src[..], dst[..], srcWidth, srcHeight, 0, dstCbcrPos + 2)
    ensures forall p :: dstCbcrPos + 2 <= p < dst.Length ==> dst[p] == old(dst[p])
  {
    hide NvFrom, Converted;
    ChromaFrom(y, x, srcWidth, srcHeight);
    ghost var before := dst[..];
    dst[dstCbcrPos] := src[srcPos + 3];
    dst[dstCbcrPos + 1] := src[srcPos + 1];
    TwoMore(src[..], before, dst[..], srcWidth, srcHeight, dstCbcrPos);
  }

  lemma TwoMore(src: seq<byte>, before: seq<byte>, dst: seq<byte>, width: nat, height: nat, n: nat)
    requires Converted(src, before, width, height, 0, n) && n + 2 <= |dst|
    requires forall p :: 0 <= p < n ==> dst[p] == before[p]
    requires forall p :: n <= p < n + 2 ==>
              var from := NvFrom(p, width, height); 0 <= from < |src| && dst[p] == src[from]
    ensures Converted(src, dst, width, height, 0, n + 2)
  {}

  lemma RowInside(y: nat, width: nat, height: nat)
    requires y % 2 == 0 && y < height
    ensures width * height + y / 2 * ChromaWidth(width) + ChromaWidth(width) <= NvSize(width, height)
    ensures 0 <= y * (width * 2) && y * (width * 2) + 2 * ChromaWidth(width) <= SourceSize(width, height)
  {
    var cw := ChromaWidth(width);
    Times(y / 2 + 1, (height + 1) / 2, cw);
    assert (y / 2 + 1) * cw == y / 2 * cw + cw;
    Times(0, y, width * 2);
    Twice(height, width);
    if y + 1 == height {
      assert (y + 1) * (width * 2) == y * (width * 2) + width * 2;
    } else {
      Times(y + 2, height, width * 2);
      assert (y + 2) * (width * 2) == y * (width * 2) + 2 * (width * 2);
    }
  }

  lemma ChromaFrom(y: nat, x: nat, width: nat, height: nat)
    requires y % 2 == 0 && y < height && x % 4 == 0 && x < width * 2
    ensures var p, from := width * height + y / 2 * ChromaWidth(width) + x / 2, y * (width * 2) + x;
            NvFrom(p, width, height) == from + 3 && NvFrom(p + 1, width, height) == from + 1
  {
    var cw := ChromaWidth(width);
    DivMod(y / 2, x / 2, cw);
    DivMod(y / 2, x / 2 + 1, cw);
    Times(0, y / 2, cw);
    assert 2 * (y / 2) == y;
  }

  /** Where an NV21 picture keeps the V (then U) of the two-by-two block with pixel (x, y). */
  function NvChroma(x: nat, y: nat, width: nat, height: nat): int {
    width * height + y / 2 * width + x / 2 * 2
  }

  lemma NvInside(x: nat, y: nat, width: nat, height: nat)
    requires x < width && y < height && width % 2 == 0
    ensures 0 <= Index(x, y, width) < width * height
    ensures width * height <= NvChroma(x, y, width, height)
    ensures NvChroma(x, y, width, height) + 2 <= NvSize(width, height)
  {
    IndexInside(x, y, width, height);
    assert ChromaWidth(width) == width;
    Times(0, y / 2, width);
    Times(y / 2 + 1, (height + 1) / 2, width);
    assert (y / 2 + 1) * width == y / 2 * width + width;
  }

  function NvPixelAt(buf: seq<byte>, width: nat, height: nat, x: nat, y: nat): Pixel
    requires width % 2 == 0 && NvSize(width, height) <= |buf| && x < width && y < height
  {
    NvInside(x, y, width, height);
    var c := NvChroma(x, y, width, height);
    Pixel(buf[Index(x, y, width)], buf[c + 1], buf[c])
  }

  /** Every pixel keeps its luma, and takes the chroma of its pair in the even row of its block. */
  lemma ConvertedPicture(src: seq<byte>, dst: seq<byte>, width: nat, height: nat, x: nat, y: nat)
    requires Fits(src, width, height) && x < width && y < height
    requires Converted(src, dst, width, height, 0, NvSize(width, height))
    ensures var pair := PixelAt(src, width, height, x, y / 2 * 2);
            NvPixelAt(dst, width, height, x, y) == pair.(luma := PixelAt(src, width, height, x, y).luma)
  {
    hide NvFrom, NvChroma, Index, NvSize, ChromaWidth, Converted;
    var y0, c, n := y / 2 * 2, NvChroma(x, y, width, height), Index(x, y, width);
    NvInside(x, y, width, height);
    IndexInside(x, y, width, height);
    IndexInside(x, y0, width, height);
    ChromaOfBlock(x, y, width, height);
    LumaFrom(n, width, height);
    ByteConverted(src, dst, width, height, c);
    ByteConverted(src, dst, width, height, c + 1);
    ByteConverted(src, dst, width, height, n);
  }

  lemma ByteConverted(src: seq<byte>, dst: seq<byte>, width: nat, height: nat, p: nat)
    requires Converted(src, dst, width, height, 0, NvSize(width, height)) && p < NvSize(width, height)
    ensures p < |dst| && 0 <= NvFrom(p, width, height) < |src| && dst[p] == src[NvFrom(p, width, height)]
  {
    hide NvFrom;
  }

  /** The chroma of a block comes from the pair in its even row. */
  lemma ChromaOfBlock(x: nat, y: nat, width: nat, height: nat)
    requires x < width && y < height && width % 2 == 0
    ensures var c, pair := NvChroma(x, y, width, height), Index(x, y / 2 * 2, width) / 2;
            c >= 0 && NvFrom(c, width, height) == 4 * pair + 3 && NvFrom(c + 1, width, height) == 4 * pair + 1
  {
    NvInside(x, y, width, height);
    BlockOrigin(x, y, width, height);
    EvenChroma(width);
    hide NvFrom, NvChroma, Index, NvSize, ChromaWidth;
    ChromaFrom(y / 2 * 2, x / 2 * 4, width, height);
    BlockStart(x, y, width, height);
  }

  lemma EvenChroma(width: nat)
    requires width % 2 == 0
    ensures ChromaWidth(width) == width
  {}

  lemma BlockOrigin(x: nat, y: nat, width: nat, height: nat)
    requires x < width && y < height
    ensures y / 2 * 2 % 2 == 0 && y / 2 * 2 < height && x / 2 * 4 % 4 == 0 && x / 2 * 4 < width * 2
  {}

  lemma LumaFrom(n: nat, width: nat, height: nat)
    requires width > 0 && n < width * height
    ensures NvFrom(n, width, height) == 2 * n
  {}

  lemma BlockStart(x: nat, y: nat, width: nat, height: nat)
    requires width % 2 == 0
    ensures NvChroma(x, y, width, height) == width * height + y / 2 * 2 / 2 * width + x / 2 * 4 / 2
    ensures y / 2 * 2 * (width * 2) + x / 2 * 4 == 4 * (Index(x, y / 2 * 2, width) / 2)
  {
    PairBase(x, y / 2 * 2, width);
    Twice(y / 2 * 2, width);
  }
}
