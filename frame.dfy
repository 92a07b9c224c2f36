/**
 * One frame's sampling (python/shiny_detector.py:67-75): the grabbed BGRA frame
 * is converted to BGR, the region-of-interest box is drawn INTO that frame, and
 * then the region of interest is sliced out of the same frame and averaged per
 * channel, truncating to an integer.
 *
 * Frames are indexed [row, column], i.e. [y, x]; `Length0` is the height.
 */
module Frame {

  /** One 8-bit channel value. */
  newtype uint8 = x: int | 0 <= x < 256

  /** A pixel as grabbed from the screen, in blue, green, red, alpha order. */
  datatype Bgra = Bgra(b: uint8, g: uint8, r: uint8, a: uint8)

  /** A pixel of the 3-channel frame. */
  datatype Bgr = Bgr(b: uint8, g: uint8, r: uint8)

  /** Unbounded per-channel integers: channel sums, averages and differences. */
  datatype Colour = Colour(b: int, g: int, r: int)

  /** The region of interest: half-open columns [XStart, XEnd) and rows [YStart, YEnd). */
  const XStart := 55
  const XEnd := 70
  const YStart := 145
  const YEnd := 155
  const RoiWidth := XEnd - XStart
  const RoiHeight := YEnd - YStart

  /** The colour of the region-of-interest box, (0, 255, 0) in BGR order. */
  const Green := Bgr(0, 255, 0)

  function DropAlpha(p: Bgra): Bgr {
    Bgr(p.b, p.g, p.r)
  }

  /** A pixel's three channels as integers. */
  function ColourOf(p: Bgr): Colour {
    Colour(p.b as int, p.g as int, p.r as int)
  }

  function Plus(c: Colour, d: Colour): Colour {
    Colour(c.b + d.b, c.g + d.g, c.r + d.r)
  }

  function Scale(n: int, c: Colour): Colour {
    Colour(n * c.b, n * c.g, n * c.r)
  }

  predicate InByteRange(c: Colour) {
    0 <= c.b < 256 && 0 <= c.g < 256 && 0 <= c.r < 256
  }

  /** Every row of `g` has `w` columns. */
  predicate Rectangular<T>(g: seq<seq<T>>, w: int) {
    forall y :: 0 <= y < |g| ==> |g[y]| == w
  }

  /** A frame large enough for the box to be drawn and the region to be sliced without clipping. */
  predicate FitsRoi<T>(g: seq<seq<T>>) {
    |g| > YEnd && |g[0]| > XEnd && Rectangular(g, |g[0]|)
  }

  /** The contents of a 2-D array, row by row. */
  function GridOf<T>(a: array2<T>): (g: seq<seq<T>>)
    reads a
    ensures |g| == a.Length0 && Rectangular(g, a.Length1)
    ensures forall y, x :: 0 <= y < a.Length0 && 0 <= x < a.Length1 ==> g[y][x] == a[y, x]
  {
    seq(a.Length0, y requires 0 <= y < a.Length0 reads a =>
      seq(a.Length1, x requires 0 <= x < a.Length1 reads a => a[y, x]))
  }

  /** The BGRA to BGR conversion, pixel by pixel. */
  function ToBgr(g: seq<seq<Bgra>>): (h: seq<seq<Bgr>>)
    ensures |h| == |g| && forall y :: 0 <= y < |g| ==> |h[y]| == |g[y]|
    ensures FitsRoi(g) ==> FitsRoi(h)
  {
    seq(|g|, y requires 0 <= y < |g| =>
      seq(|g[y]|, x requires 0 <= x < |g[y]| => DropAlpha(g[y][x])))
  }

  /**
   * Whether pixel (y, x) lies on the one-pixel-wide outline of the rectangle
   * with corners (x0, y0) and (x1, y1), both corners included.
   */
  predicate OnRectangle(y: int, x: int, x0: int, y0: int, x1: int, y1: int) {
    ((y == y0 || y == y1) && x0 <= x <= x1) || ((x == x0 || x == x1) && y0 <= y <= y1)
  }

  predicate OnRoiBox(y: int, x: int) {
    OnRectangle(y, x, XStart, YStart, XEnd, YEnd)
  }

  /** A frame after the region-of-interest box has been drawn into it. */
  function Boxed(g: seq<seq<Bgr>>): (h: seq<seq<Bgr>>)
    ensures |h| == |g| && forall y :: 0 <= y < |g| ==> |h[y]| == |g[y]|
    ensures FitsRoi(g) ==> FitsRoi(h)
  {
    seq(|g|, y requires 0 <= y < |g| =>
      seq(|g[y]|, x requires 0 <= x < |g[y]| => if OnRoiBox(y, x) then Green else g[y][x]))
  }

  /** The slice rows [YStart, YEnd), columns [XStart, XEnd) of a frame. */
  function Roi(g: seq<seq<Bgr>>): (roi: seq<seq<Bgr>>)
    requires FitsRoi(g)
    ensures |roi| == RoiHeight && Rectangular(roi, RoiWidth)
  {
    seq(RoiHeight, i requires 0 <= i < RoiHeight => g[YStart + i][XStart..XEnd])
  }

  /** The part of the region of interest that the box outline does not cover. */
  function Interior(g: seq<seq<Bgr>>): (inner: seq<seq<Bgr>>)
    requires FitsRoi(g)
    ensures |inner| == RoiHeight - 1 && Rectangular(inner, RoiWidth - 1)
  {
    seq(RoiHeight - 1, i requires 0 <= i < RoiHeight - 1 => g[YStart + 1 + i][XStart + 1..XEnd])
  }

  function PixelSum(s: seq<Bgr>): Colour {
    if s == [] then Colour(0, 0, 0) else Plus(ColourOf(s[0]), PixelSum(s[1..]))
  }

  function RegionSum(rows: seq<seq<Bgr>>): Colour {
    if rows == [] then Colour(0, 0, 0) else Plus(PixelSum(rows[0]), RegionSum(rows[1..]))
  }

  /**
   * The per-channel mean of a non-empty rectangular region, truncated to an
   * integer: each channel is the largest integer whose pixel-count multiple
   * does not exceed the channel sum, and lies in 0..255.
   */
  function Average(region: seq<seq<Bgr>>): (avg: Colour)
    requires |region| > 0 && |region[0]| > 0 && Rectangular(region, |region[0]|)
    ensures InByteRange(avg)
    ensures var n, s := |region| * |region[0]|, RegionSum(region);
      avg.b * n <= s.b < (avg.b + 1) * n &&
      avg.g * n <= s.g < (avg.g + 1) * n &&
      avg.r * n <= s.r < (avg.r + 1) * n
  {
    var n := |region| * |region[0]|;
    var s := RegionSum(region);
    RegionSumBounds(region, |region[0]|);
    DivisionBounds(s.b, n);
    DivisionBounds(s.g, n);
    DivisionBounds(s.r, n);
    Colour(s.b / n, s.g / n, s.r / n)
  }

  lemma DivisionBounds(s: int, n: int)
    requires 0 < n && 0 <= s <= 255 * n
    ensures 0 <= s / n < 256
    ensures (s / n) * n <= s < (s / n + 1) * n
  {
  }

  /** The average colour a grabbed frame yields, as the main loop computes it. */
  function SampleColour(grabbed: seq<seq<Bgra>>): Colour
    requires FitsRoi(grabbed)
  {
    Average(Roi(Boxed(ToBgr(grabbed))))
  }

  lemma {:induction false} PixelSumBounds(s: seq<Bgr>)
    ensures var t := PixelSum(s);
      0 <= t.b <= 255 * |s| && 0 <= t.g <= 255 * |s| && 0 <= t.r <= 255 * |s|
  {
    if s != [] {
      PixelSumBounds(s[1..]);
    }
  }

  lemma {:induction false} RegionSumBounds(rows: seq<seq<Bgr>>, w: nat)
    requires Rectangular(rows, w)
    ensures var t := RegionSum(rows);
      0 <= t.b <= 255 * (|rows| * w) && 0 <= t.g <= 255 * (|rows| * w) && 0 <= t.r <= 255 * (|rows| * w)
  {
    if rows != [] {
      PixelSumBounds(rows[0]);
      RegionSumBounds(rows[1..], w);
      assert |rows| * w == w + (|rows| - 1) * w;
    }
  }

  /**
   * Draws the one-pixel outline of the rectangle with corners (x0, y0) and
   * (x1, y1) into `img` (the drawing call at python/shiny_detector.py:71):
   * outline pixels take `colour`, every other pixel keeps its value.
   */
  method DrawRectangle(img: array2<Bgr>, x0: int, y0: int, x1: int, y1: int, colour: Bgr)
    requires 0 <= x0 <= x1 < img.Length1 && 0 <= y0 <= y1 < img.Length0
    modifies img
    ensures forall y, x :: 0 <= y < img.Length0 && 0 <= x < img.Length1 ==>
      img[y, x] == if OnRectangle(y, x, x0, y0, x1, y1) then colour else old(img[y, x])
  {
    var x := x0;
    while x <= x1
      invariant x0 <= x <= x1 + 1
      invariant forall yy, xx :: 0 <= yy < img.Length0 && 0 <= xx < img.Length1 ==>
        img[yy, xx] == if (yy == y0 || yy == y1) && x0 <= xx < x then colour else old(img[yy, xx])
    {
      img[y0, x] := colour;
      img[y1, x] := colour;
      x := x + 1;
    }
    var y := y0;
    while y <= y1
      invariant y0 <= y <= y1 + 1
      invariant forall yy, xx :: 0 <= yy < img.Length0 && 0 <= xx < img.Length1 ==>
        img[yy, xx] ==
          if ((yy == y0 || yy == y1) && x0 <= xx <= x1) || ((xx == x0 || xx == x1) && y0 <= yy < y)
          then colour else old(img[yy, xx])
    {
      img[y, x0] := colour;
      img[y, x1] := colour;
      y := y + 1;
    }
  }

  /**
   * One frame's sampling: convert the grabbed frame to BGR, draw the box into it,
   * then average the region of interest of that same (drawn-on) frame. The
   * returned frame is the one shown in the preview.
   */
  method SampleFrame(grabbed: array2<Bgra>) returns (frame: array2<Bgr>, avg: Colour)
    requires grabbed.Length0 > YEnd && grabbed.Length1 > XEnd
    ensures fresh(frame)
    ensures GridOf(frame) == Boxed(ToBgr(GridOf(grabbed)))
    ensures avg == SampleColour(GridOf(grabbed))
  {
    frame := new Bgr[grabbed.Length0, grabbed.Length1]((y, x)
      requires 0 <= y < grabbed.Length0 && 0 <= x < grabbed.Length1 reads grabbed =>
      DropAlpha(grabbed[y, x]));
    DrawRectangle(frame, XStart, YStart, XEnd, YEnd, Green);
    GridsEqual(GridOf(frame), Boxed(ToBgr(GridOf(grabbed))));
    avg := Average(Roi(GridOf(frame)));
  }

  lemma GridsEqual<T>(g: seq<seq<T>>, h: seq<seq<T>>)
    requires |g| == |h|
    requires forall y :: 0 <= y < |g| ==> |g[y]| == |h[y]|
    requires forall y, x :: 0 <= y < |g| && 0 <= x < |g[y]| ==> g[y][x] == h[y][x]
    ensures g == h
  {
    forall y | 0 <= y < |g|
      ensures g[y] == h[y]
    {
    }
  }

  /**
   * Inside the averaged slice, the first row and the first column are box
   * pixels, while every other pixel is the frame's own pixel; the box's other
   * two sides (row YEnd, column XEnd) fall outside the half-open slice.
   */
  lemma RoiOfBoxedFrame(g: seq<seq<Bgr>>)
    requires FitsRoi(g)
    ensures FitsRoi(Boxed(g))
    ensures forall j :: 0 <= j < RoiWidth ==> Roi(Boxed(g))[0][j] == Green
    ensures forall i :: 0 <= i < RoiHeight ==> Roi(Boxed(g))[i][0] == Green
    ensures forall i, j :: 1 <= i < RoiHeight && 1 <= j < RoiWidth ==>
      Roi(Boxed(g))[i][j] == g[YStart + i][XStart + j]
  {
    RoiFirstRow(g);
    forall i | 1 <= i < RoiHeight
      ensures Roi(Boxed(g))[i][0] == Green
      ensures forall j :: 1 <= j < RoiWidth ==> Roi(Boxed(g))[i][j] == g[YStart + i][XStart + j]
    {
      RoiLaterRow(g, i);
      assert forall j :: 1 <= j < RoiWidth ==> Roi(Boxed(g))[i][j] == Roi(Boxed(g))[i][1..][j - 1];
    }
  }

  lemma {:induction false} ConstantRowSum(s: seq<Bgr>, p: Bgr)
    requires forall j :: 0 <= j < |s| ==> s[j] == p
    ensures PixelSum(s) == Scale(|s|, ColourOf(p))
  {
    if s != [] {
      ConstantRowSum(s[1..], p);
    }
  }

  lemma ScaleStep(n: int, c: Colour)
    ensures Scale(n, c) == Plus(c, Scale(n - 1, c))
  {
    assert n * c.b == c.b + (n - 1) * c.b;
    assert n * c.g == c.g + (n - 1) * c.g;
    assert n * c.r == c.r + (n - 1) * c.r;
  }

  lemma {:induction false} UniformRegionSum(rows: seq<seq<Bgr>>, w: nat, p: Bgr)
    requires Rectangular(rows, w)
    requires forall i, j :: 0 <= i < |rows| && 0 <= j < w ==> rows[i][j] == p
    ensures RegionSum(rows) == Scale(|rows|, Scale(w, ColourOf(p)))
  {
    if rows != [] {
      ConstantRowSum(rows[0], p);
      UniformRegionSum(rows[1..], w, p);
      ScaleStep(|rows|, Scale(w, ColourOf(p)));
    }
  }

  /** Rows that each start with pixel `p` sum to |rows| copies of `p` plus the rest of the rows. */
  lemma {:induction false} LeadingColumnSum(rows: seq<seq<Bgr>>, rest: seq<seq<Bgr>>, p: Bgr)
    requires |rows| == |rest|
    requires forall i :: 0 <= i < |rows| ==> |rows[i]| > 0 && rows[i][0] == p && rows[i][1..] == rest[i]
    ensures RegionSum(rows) == Plus(Scale(|rows|, ColourOf(p)), RegionSum(rest))
  {
    if rows != [] {
      var n, q := |rows|, ColourOf(p);
      assert PixelSum(rows[0]) == Plus(q, PixelSum(rest[0]));
      LeadingColumnSum(rows[1..], rest[1..], p);
      ScaleStep(n, q);
      PlusSwap(q, PixelSum(rest[0]), Scale(n - 1, q), RegionSum(rest[1..]));
    }
  }

  lemma PlusSwap(a: Colour, b: Colour, c: Colour, d: Colour)
    ensures Plus(Plus(a, b), Plus(c, d)) == Plus(Plus(a, c), Plus(b, d))
  {
  }

  /**
   * The channel sums of the averaged slice: 24 box pixels (15 on the first row,
   * 10 on the first column, the corner shared) plus the 9 x 14 frame pixels
   * inside the box.
   */
  lemma RoiSumSplit(g: seq<seq<Bgr>>)
    requires FitsRoi(g)
    ensures FitsRoi(Boxed(g))
    ensures RegionSum(Roi(Boxed(g))) == Plus(Scale(24, ColourOf(Green)), RegionSum(Interior(g)))
  {
    RoiFirstRow(g);
    forall i | 1 <= i < RoiHeight
      ensures Roi(Boxed(g))[i][0] == Green && Roi(Boxed(g))[i][1..] == Interior(g)[i - 1]
    {
      RoiLaterRow(g, i);
    }
    OutlinedRegionSum(Roi(Boxed(g)), Interior(g));
  }

  /**
   * A region whose first row and first column are green and whose remaining
   * pixels are `inner` sums to the 24 green pixels plus the sum of `inner`.
   */
  lemma OutlinedRegionSum(roi: seq<seq<Bgr>>, inner: seq<seq<Bgr>>)
    requires |roi| == RoiHeight && |inner| == RoiHeight - 1 && Rectangular(roi, RoiWidth)
    requires forall j :: 0 <= j < RoiWidth ==> roi[0][j] == Green
    requires forall i :: 1 <= i < RoiHeight ==> roi[i][0] == Green && roi[i][1..] == inner[i - 1]
    ensures RegionSum(roi) == Plus(Scale(24, ColourOf(Green)), RegionSum(inner))
  {
    var below := roi[1..];
    ConstantRowSum(roi[0], Green);
    forall i | 0 <= i < RoiHeight - 1
      ensures |below[i]| > 0 && below[i][0] == Green && below[i][1..] == inner[i]
    {
      assert below[i] == roi[i + 1];
    }
    LeadingColumnSum(below, inner, Green);
  }

  lemma RoiFirstRow(g: seq<seq<Bgr>>)
    requires FitsRoi(g)
    ensures FitsRoi(Boxed(g))
    ensures forall j :: 0 <= j < RoiWidth ==> Roi(Boxed(g))[0][j] == Green
  {
    var row := Roi(Boxed(g))[0];
    forall j | 0 <= j < RoiWidth
      ensures row[j] == Green
    {
      assert row[j] == Boxed(g)[YStart][XStart + j];
    }
  }

  lemma RoiLaterRow(g: seq<seq<Bgr>>, i: int)
    requires FitsRoi(g) && 1 <= i < RoiHeight
    ensures FitsRoi(Boxed(g))
    ensures Roi(Boxed(g))[i][0] == Green && Roi(Boxed(g))[i][1..] == Interior(g)[i - 1]
  {
    var row := Roi(Boxed(g))[i];
    var inner := Interior(g)[i - 1];
    assert row[0] == Boxed(g)[YStart + i][XStart];
    forall j | 1 <= j < RoiWidth
      ensures row[j] == inner[j - 1]
    {
      assert row[j] == Boxed(g)[YStart + i][XStart + j];
      assert inner[j - 1] == g[YStart + i][XStart + j];
    }
    assert row[1..] == inner;
  }

  /**
   * A screen of one uniform colour p is sampled as ((126 b) / 150,
   * (126 g + 24 * 255) / 150, (126 r) / 150): the box pixels pull the blue and
   * red channels down and the green channel up.
   */
  lemma UniformSample(grabbed: seq<seq<Bgra>>, p: Bgra)
    requires FitsRoi(grabbed)
    requires forall y, x :: 0 <= y < |grabbed| && 0 <= x < |grabbed[y]| ==> grabbed[y][x] == p
    ensures SampleColour(grabbed) ==
      Colour((126 * p.b as int) / 150, (126 * p.g as int + 24 * 255) / 150, (126 * p.r as int) / 150)
  {
    var frame := ToBgr(grabbed);
    var q := DropAlpha(p);
    var inner := Interior(frame);
    RoiSumSplit(frame);
    UniformRegionSum(inner, RoiWidth - 1, q);
    var region := Roi(Boxed(frame));
    var s := RegionSum(region);
    assert s == Colour(126 * p.b as int, 126 * p.g as int + 24 * 255, 126 * p.r as int);
    assert |region| * |region[0]| == 150;
  }

  /**
   * The sample depends only on the blue, green and red channels of the 9 x 14
   * pixels inside the box: alpha, the box lines and everything outside the
   * region of interest never contribute.
   */
  lemma SampleDependsOnlyOnInterior(f1: seq<seq<Bgra>>, f2: seq<seq<Bgra>>)
    requires FitsRoi(f1) && FitsRoi(f2)
    requires forall y, x :: YStart < y < YEnd && XStart < x < XEnd ==>
      DropAlpha(f1[y][x]) == DropAlpha(f2[y][x])
    ensures SampleColour(f1) == SampleColour(f2)
  {
    var g1, g2 := ToBgr(f1), ToBgr(f2);
    RoiSumSplit(g1);
    RoiSumSplit(g2);
    var inner1, inner2 := Interior(g1), Interior(g2);
    forall i | 0 <= i < RoiHeight - 1
      ensures inner1[i] == inner2[i]
    {
      assert forall j :: 0 <= j < RoiWidth - 1 ==> inner1[i][j] == inner2[i][j];
    }
    assert inner1 == inner2;
    var region1, region2 := Roi(Boxed(g1)), Roi(Boxed(g2));
    assert RegionSum(region1) == RegionSum(region2);
    assert |region1| * |region1[0]| == |region2| * |region2[0]|;
  }
}
