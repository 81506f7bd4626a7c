/** The discrete parts of the perception pipeline (perception.py): terrain
    classification of the warped camera image, rover-centric pixel
    coordinates, the clip stage of the world-frame transform, the saturating
    world-map cell update, and the choice of the navigation signal. */
module Perception {
  import opened Modes
  import opened Numeric

  /** One pixel of the warped RGB image; each channel is a uint8. */
  datatype Pixel = Pixel(r: int, g: int, b: int)

  predicate IsByte(v: int) { 0 <= v < 256 }

  predicate IsBytePixel(p: Pixel) { IsByte(p.r) && IsByte(p.g) && IsByte(p.b) }

  /** Every pixel of a uint8 camera image has byte channels. */
  predicate IsByteImage(img: seq<seq<Pixel>>)
  {
    forall i, j :: 0 <= i < |img| && 0 <= j < |img[i]| ==> IsBytePixel(img[i][j])
  }

  /** Rows of pixels, origin top-left. */
  type Image = seq<seq<Pixel>>

  /** A single-channel image; the classifier's masks hold 0 or 1. */
  type Mask = seq<seq<int>>

  /** The keyword arguments of color_thresh. */
  datatype Thresholds = Thresholds(navR: int, navG: int, navB: int, rock: int, obs: int)

  /** The defaults perception_step uses. */
  const DefaultThresholds := Thresholds(160, 160, 160, 100, 100)

  // ---------------------------------------------------------------------
  // Terrain classification (color_thresh)

  predicate NavFilter(p: Pixel, th: Thresholds)
  {
    p.r > th.navR && p.g > th.navG && p.b > th.navB
  }

  /** `channel + 1` on a uint8 image: 255 wraps round to 0. */
  function AddOneU8(v: int): (r: int)
    requires IsByte(v)
    ensures IsByte(r)
    ensures v < 255 ==> r == v + 1
    ensures v == 255 ==> r == 0
  {
    (v + 1) % 256
  }

  /** num / den > k in float64 for k > 0: a zero denominator gives +inf when
      num > 0 (the test holds) and NaN when num == 0 (it fails). */
  predicate QuotientAbove(num: int, den: int, k: real)
  {
    if den == 0 then num > 0 else (num as real) / (den as real) > k
  }

  /** num / den < k in float64 for k > 0: +inf and NaN both fail the test. */
  predicate QuotientBelow(num: int, den: int, k: real)
  {
    den != 0 && (num as real) / (den as real) < k
  }

  /** The rock test as the code computes it, with the uint8 wrap of the
      denominators. */
  predicate RockFilterAsWritten(p: Pixel, th: Thresholds)
    requires IsBytePixel(p)
  {
    !NavFilter(p, th) && p.r > th.rock
    && QuotientAbove(p.g, AddOneU8(p.r), 0.8) && QuotientBelow(p.g, AddOneU8(p.r), 1.2)
    && QuotientAbove(p.r, AddOneU8(p.b), 2.0)
  }

  /** The rock test as its comment describes it: G/(R+1) within (0.8, 1.2) and
      R/(B+1) above 2, with denominators that are never zero. */
  predicate RockFilter(p: Pixel, th: Thresholds)
  {
    !NavFilter(p, th) && p.r > th.rock
    && QuotientAbove(p.g, p.r + 1, 0.8) && QuotientBelow(p.g, p.r + 1, 1.2)
    && QuotientAbove(p.r, p.b + 1, 2.0)
  }

  /** Multiplied out, the corrected rock test is an integer comparison. */
  lemma RockFilterMultipliedOut(p: Pixel, th: Thresholds)
    requires IsBytePixel(p)
    ensures RockFilter(p, th) <==>
      !NavFilter(p, th) && p.r > th.rock
      && 5 * p.g > 4 * (p.r + 1) && 5 * p.g < 6 * (p.r + 1) && p.r > 2 * (p.b + 1)
  {
    var dg, db := (p.r + 1) as real, (p.b + 1) as real;
    QuotientVsProduct(p.g as real, dg, 0.8);
    QuotientVsProductBelow(p.g as real, dg, 1.2);
    QuotientVsProduct(p.r as real, db, 2.0);
  }

  lemma QuotientVsProduct(n: real, d: real, k: real)
    requires d > 0.0
    ensures n / d > k <==> n > k * d
  {
    assert n == (n / d) * d;
  }

  lemma QuotientVsProductBelow(n: real, d: real, k: real)
    requires d > 0.0
    ensures n / d < k <==> n < k * d
  {
    assert n == (n / d) * d;
  }

  /** Multiplied out, the code's rock test: a saturated red channel fails the
      G/(R+1) band outright, and a saturated blue channel passes R/(B+1) > 2
      whenever red is non-zero. */
  lemma RockFilterAsWrittenMultipliedOut(p: Pixel, th: Thresholds)
    requires IsBytePixel(p)
    ensures RockFilterAsWritten(p, th) <==>
      !NavFilter(p, th) && p.r > th.rock && p.r < 255
      && 5 * p.g > 4 * (p.r + 1) && 5 * p.g < 6 * (p.r + 1)
      && (if p.b == 255 then p.r > 0 else p.r > 2 * (p.b + 1))
  {
    GreenBandAsWritten(p);
    BlueRatioAsWritten(p);
  }

  /** The G/(R+1) band of the code's rock test, multiplied out. */
  lemma GreenBandAsWritten(p: Pixel)
    requires IsBytePixel(p)
    ensures QuotientAbove(p.g, AddOneU8(p.r), 0.8) && QuotientBelow(p.g, AddOneU8(p.r), 1.2) <==>
      p.r < 255 && 5 * p.g > 4 * (p.r + 1) && 5 * p.g < 6 * (p.r + 1)
  {
    if p.r < 255 {
      QuotientVsProduct(p.g as real, (p.r + 1) as real, 0.8);
      QuotientVsProductBelow(p.g as real, (p.r + 1) as real, 1.2);
    }
  }

  /** The R/(B+1) test of the code's rock test, multiplied out. */
  lemma BlueRatioAsWritten(p: Pixel)
    requires IsBytePixel(p)
    ensures QuotientAbove(p.r, AddOneU8(p.b), 2.0) <==>
      (if p.b == 255 then p.r > 0 else p.r > 2 * (p.b + 1))
  {
    if p.b < 255 {
      QuotientVsProduct(p.r as real, (p.b + 1) as real, 2.0);
    }
  }

  /** Where neither the red nor the blue channel is saturated, the code's
      test and the corrected one agree. */
  lemma RockFiltersAgreeBelow255(p: Pixel, th: Thresholds)
    requires IsBytePixel(p) && p.r < 255 && p.b < 255
    ensures RockFilterAsWritten(p, th) == RockFilter(p, th)
  {
  }

  /** Pure yellow at full red, (255, 255, 0), is a rock by the described test,
      but the wrapped denominator makes G/(R+1) infinite, so the code misses it. */
  lemma SaturatedRedRockMissed()
    ensures RockFilter(Pixel(255, 255, 0), DefaultThresholds)
    ensures !RockFilterAsWritten(Pixel(255, 255, 0), DefaultThresholds)
  {
    RockFilterMultipliedOut(Pixel(255, 255, 0), DefaultThresholds);
  }

  /** A pixel with a saturated blue channel, (150, 140, 255), is no rock by
      the described test (R/(B+1) is about 0.59), but the wrapped denominator
      makes the code's R/(B+1) infinite and it classifies the pixel as rock. */
  lemma SaturatedBlueFalseRock()
    ensures !RockFilter(Pixel(150, 140, 255), DefaultThresholds)
    ensures RockFilterAsWritten(Pixel(150, 140, 255), DefaultThresholds)
  {
    RockFilterMultipliedOut(Pixel(150, 140, 255), DefaultThresholds);
    QuotientVsProduct(140.0, 151.0, 0.8);
    QuotientVsProductBelow(140.0, 151.0, 1.2);
  }

  /** The obstacle test, excluding the rock pixels of the code's test. */
  predicate ObsFilter(p: Pixel, th: Thresholds)
    requires IsBytePixel(p)
  {
    !NavFilter(p, th) && !RockFilterAsWritten(p, th) && p.r + p.g + p.b > 0
    && p.r < th.obs && p.g < th.obs && p.b < th.obs
  }

  datatype Masks = Masks(nav: Mask, rock: Mask, obs: Mask)

  predicate SameShape(m: Mask, img: Image)
  {
    |m| == |img| && forall i :: 0 <= i < |img| ==> |m[i]| == |img[i]|
  }

  predicate IsBinary(m: Mask)
  {
    forall i, j :: 0 <= i < |m| && 0 <= j < |m[i]| ==> m[i][j] == 0 || m[i][j] == 1
  }

  /** A 0/1 mask of the pixels satisfying f. */
  function Select(img: Image, f: Pixel -> bool): (m: Mask)
    ensures SameShape(m, img)
    ensures forall i, j :: 0 <= i < |img| && 0 <= j < |img[i]| ==> (m[i][j] == 1 <==> f(img[i][j]))
    ensures IsBinary(m)
  {
    seq(|img|, i requires 0 <= i < |img| =>
      seq(|img[i]|, j requires 0 <= j < |img[i]| => if f(img[i][j]) then 1 else 0))
  }

  /** color_thresh on a uint8 image: the navigable, rock and obstacle masks,
      with the rock test as the code computes it. */
  function ColorThresh(img: Image, th: Thresholds): (m: Masks)
    requires IsByteImage(img)
    ensures SameShape(m.nav, img) && SameShape(m.rock, img) && SameShape(m.obs, img)
    ensures IsBinary(m.nav) && IsBinary(m.rock) && IsBinary(m.obs)
    // the three classes are pairwise exclusive
    ensures forall i, j :: 0 <= i < |img| && 0 <= j < |img[i]| ==>
      m.nav[i][j] + m.rock[i][j] + m.obs[i][j] <= 1
    ensures forall i, j :: 0 <= i < |img| && 0 <= j < |img[i]| ==>
      (m.nav[i][j] == 1 <==> img[i][j].r > th.navR && img[i][j].g > th.navG && img[i][j].b > th.navB)
    // pure black (out of the camera's view after warping) is never an obstacle
    ensures forall i, j :: 0 <= i < |img| && 0 <= j < |img[i]| && img[i][j] == Pixel(0, 0, 0) ==>
      m.obs[i][j] == 0
    ensures forall i, j :: 0 <= i < |img| && 0 <= j < |img[i]| && m.obs[i][j] == 1 ==>
      img[i][j].r < th.obs && img[i][j].g < th.obs && img[i][j].b < th.obs
    ensures forall i, j :: 0 <= i < |img| && 0 <= j < |img[i]| && m.rock[i][j] == 1 ==>
      img[i][j].r > th.rock
    // rocks are exactly the pixels the code's wrapped test accepts
    ensures forall i, j :: 0 <= i < |img| && 0 <= j < |img[i]| ==>
      (m.rock[i][j] == 1 <==> RockFilterAsWritten(img[i][j], th))
    // obstacles are exactly the dark, non-black pixels of neither other class
    ensures forall i, j :: 0 <= i < |img| && 0 <= j < |img[i]| ==>
      (m.obs[i][j] == 1 <==>
        m.nav[i][j] == 0 && m.rock[i][j] == 0 && img[i][j].r + img[i][j].g + img[i][j].b > 0
        && img[i][j].r < th.obs && img[i][j].g < th.obs && img[i][j].b < th.obs)
  {
    Masks(Select(img, p => NavFilter(p, th)),
          Select(img, p => IsBytePixel(p) && RockFilterAsWritten(p, th)),
          Select(img, p => IsBytePixel(p) && ObsFilter(p, th)))
  }

  /** On an image with no saturated red or blue channel, the rock mask is
      exactly the corrected rock test. */
  lemma ColorThreshMatchesCorrectedBelow255(img: Image, th: Thresholds)
    requires IsByteImage(img)
    requires forall i, j :: 0 <= i < |img| && 0 <= j < |img[i]| ==> img[i][j].r < 255 && img[i][j].b < 255
    ensures forall i, j :: 0 <= i < |img| && 0 <= j < |img[i]| ==>
      (ColorThresh(img, th).rock[i][j] == 1 <==> RockFilter(img[i][j], th))
  {
    forall i, j | 0 <= i < |img| && 0 <= j < |img[i]|
      ensures ColorThresh(img, th).rock[i][j] == 1 <==> RockFilter(img[i][j], th)
    {
      RockFiltersAgreeBelow255(img[i][j], th);
    }
  }

  // ---------------------------------------------------------------------
  // Counting set pixels and rover-centric coordinates (rover_coords)

  /** Number of non-zero entries of a row. */
  function CountRow(row: seq<int>): nat
  {
    if |row| == 0 then 0
    else CountRow(row[..|row| - 1]) + (if row[|row| - 1] != 0 then 1 else 0)
  }

  /** Number of non-zero entries of a mask. */
  function Count(m: Mask): nat
  {
    if |m| == 0 then 0 else Count(m[..|m| - 1]) + CountRow(m[|m| - 1])
  }

  function SumRow(row: seq<int>): int
  {
    if |row| == 0 then 0 else SumRow(row[..|row| - 1]) + row[|row| - 1]
  }

  /** np.sum of a mask. */
  function MaskSum(m: Mask): int
  {
    if |m| == 0 then 0 else MaskSum(m[..|m| - 1]) + SumRow(m[|m| - 1])
  }

  lemma {:induction false} SumRowOfBinary(row: seq<int>)
    requires forall j :: 0 <= j < |row| ==> row[j] == 0 || row[j] == 1
    ensures SumRow(row) == CountRow(row)
  {
    if |row| > 0 {
      SumRowOfBinary(row[..|row| - 1]);
    }
  }

  /** On a 0/1 mask, np.sum counts the set pixels. */
  lemma {:induction false} SumOfBinaryMask(m: Mask)
    requires IsBinary(m)
    ensures MaskSum(m) == Count(m)
  {
    if |m| > 0 {
      var last := m[|m| - 1];
      assert forall j :: 0 <= j < |last| ==> last[j] == 0 || last[j] == 1;
      SumRowOfBinary(last);
      SumOfBinaryMask(m[..|m| - 1]);
    }
  }

  /** The (row, column) cells of row i whose entry is non-zero, left to right. */
  function RowCells(row: seq<int>, i: int): (r: seq<(int, int)>)
    ensures |r| == CountRow(row)
    ensures forall p :: p in r <==> p.0 == i && 0 <= p.1 < |row| && row[p.1] != 0
  {
    if |row| == 0 then []
    else
      var init := row[..|row| - 1];
      var rest := RowCells(init, i);
      assert forall j :: 0 <= j < |init| ==> init[j] == row[j];
      rest + (if row[|row| - 1] != 0 then [(i, |row| - 1)] else [])
  }

  /** ndarray.nonzero(): the non-zero cells in row-major order. */
  function Nonzero(m: Mask): (r: seq<(int, int)>)
    ensures |r| == Count(m)
    ensures forall p :: p in r <==> 0 <= p.0 < |m| && 0 <= p.1 < |m[p.0]| && m[p.0][p.1] != 0
    ensures forall k :: 0 <= k < |r| ==> 0 <= r[k].0 < |m| && 0 <= r[k].1 < |m[r[k].0]|
  {
    if |m| == 0 then []
    else
      var init := m[..|m| - 1];
      var rest := Nonzero(init);
      assert forall i :: 0 <= i < |init| ==> init[i] == m[i];
      rest + RowCells(m[|m| - 1], |m| - 1)
  }

  function AbsInt(x: int): int { if x < 0 then -x else x }

  /** rover_coords: for each set pixel at (row, col), x = |row - rows| and
      y = -(col - rows), as floats. The reference column is the row count
      (shape[0]), as in the code. */
  function RoverCoords(m: Mask): (r: (seq<real>, seq<real>))
    ensures |r.0| == |r.1| == Count(m)
    ensures forall k :: 0 <= k < |r.0| ==>
      r.0[k] == (|m| - Nonzero(m)[k].0) as real && r.1[k] == (|m| - Nonzero(m)[k].1) as real
    ensures forall k :: 0 <= k < |r.0| ==> 1.0 <= r.0[k] <= |m| as real
    ensures forall k :: 0 <= k < |r.1| ==> (|m| - Width(m)) as real < r.1[k] <= |m| as real
  {
    var cells := Nonzero(m);
    (PixelXs(|m|, cells), PixelYs(|m|, Width(m), cells))
  }

  /** The widest row of a mask (shape[1] of a rectangular one). */
  function Width(m: Mask): (w: nat)
    ensures forall i :: 0 <= i < |m| ==> |m[i]| <= w
  {
    if |m| == 0 then 0
    else
      var w := Width(m[..|m| - 1]);
      assert forall i :: 0 <= i < |m| - 1 ==> m[..|m| - 1][i] == m[i];
      if |m[|m| - 1]| > w then |m[|m| - 1]| else w
  }

  /** x = |row - rows| for every set pixel, rows above it. */
  function PixelXs(rows: int, cells: seq<(int, int)>): (r: seq<real>)
    requires forall k :: 0 <= k < |cells| ==> 0 <= cells[k].0 < rows
    ensures |r| == |cells|
    ensures forall k :: 0 <= k < |r| ==> r[k] == (rows - cells[k].0) as real && 1.0 <= r[k] <= rows as real
  {
    seq(|cells|, k requires 0 <= k < |cells| => AbsInt(cells[k].0 - rows) as real)
  }

  /** y = -(col - rows) for every set pixel: with the reference column at
      rows, y lies in (rows - cols, rows] for columns in [0, cols). */
  function PixelYs(rows: int, cols: int, cells: seq<(int, int)>): (r: seq<real>)
    requires forall k :: 0 <= k < |cells| ==> 0 <= cells[k].1 < cols
    ensures |r| == |cells|
    ensures forall k :: 0 <= k < |r| ==> r[k] == (rows - cells[k].1) as real
    ensures forall k :: 0 <= k < |r| ==> (rows - cols) as real < r[k] <= rows as real
  {
    seq(|cells|, k requires 0 <= k < |cells| => (-(cells[k].1 - rows)) as real)
  }

  // ---------------------------------------------------------------------
  // Polar coordinates and the world-frame transform

  /** to_polar_coords with the library's sqrt and atan2. */
  function ToPolar(xs: seq<real>, ys: seq<real>, trig: Trig): (r: (seq<real>, seq<real>))
    requires |xs| == |ys|
    ensures |r.0| == |r.1| == |xs|
  {
    (seq(|xs|, k requires 0 <= k < |xs| => trig.sqrt(xs[k] * xs[k] + ys[k] * ys[k])),
     seq(|xs|, k requires 0 <= k < |xs| => trig.atan2(ys[k], xs[k])))
  }

  /** Rover pose in the world frame: position and yaw in degrees. */
  datatype Pose = Pose(xpos: real, ypos: real, yaw: real)

  /** The grid coordinate of one translated value: truncated toward zero
      (np.int_) and clipped into [0, worldSize - 1]. */
  function WorldIndex(v: real, worldSize: int): (r: int)
    requires worldSize >= 1
    ensures 0 <= r <= worldSize - 1
    // after clipping at 0, truncation and floor agree
    ensures r == ClipInt(v.Floor, 0, worldSize - 1)
    ensures v < 0.0 ==> r == 0
    ensures v >= (worldSize - 1) as real ==> r == worldSize - 1
  {
    ClipInt(TruncToInt(v), 0, worldSize - 1)
  }

  /** rotate_pix: rotation by yaw degrees, with the library's cos and sin. */
  function RotatePix(xs: seq<real>, ys: seq<real>, yaw: real, trig: Trig): (r: (seq<real>, seq<real>))
    requires |xs| == |ys|
    ensures |r.0| == |r.1| == |xs|
  {
    var rad := yaw * Pi / 180.0;
    var c, s := trig.cos(rad), trig.sin(rad);
    (seq(|xs|, k requires 0 <= k < |xs| => xs[k] * c - ys[k] * s),
     seq(|xs|, k requires 0 <= k < |xs| => xs[k] * s + ys[k] * c))
  }

  /** translate_pix on one axis: pos + v / scale. */
  function TranslatePix(vs: seq<real>, pos: real, scale: real): (r: seq<real>)
    requires scale != 0.0
    ensures |r| == |vs|
    ensures forall k :: 0 <= k < |vs| ==> (r[k] - pos) * scale == vs[k]
  {
    seq(|vs|, k requires 0 <= k < |vs| => pos + vs[k] / scale)
  }

  /** The clip stage of pix_to_world on one axis: every value is kept. */
  function ClipToMap(vs: seq<real>, worldSize: int): (r: seq<int>)
    requires worldSize >= 1
    ensures |r| == |vs|
    ensures forall k :: 0 <= k < |vs| ==> 0 <= r[k] < worldSize
    ensures forall k :: 0 <= k < |vs| ==> r[k] == ClipInt(vs[k].Floor, 0, worldSize - 1)
  {
    seq(|vs|, k requires 0 <= k < |vs| => WorldIndex(vs[k], worldSize))
  }

  /** pix_to_world: rotate, scale and translate, then clip onto the map. */
  function PixToWorld(xs: seq<real>, ys: seq<real>, pose: Pose, worldSize: int, scale: real, trig: Trig)
    : (r: (seq<int>, seq<int>))
    requires |xs| == |ys|
    requires worldSize >= 1 && scale != 0.0
    // out-of-range points are clamped, never dropped
    ensures |r.0| == |r.1| == |xs|
    ensures forall k :: 0 <= k < |r.0| ==> 0 <= r.0[k] < worldSize && 0 <= r.1[k] < worldSize
  {
    var (xr, yr) := RotatePix(xs, ys, pose.yaw, trig);
    (ClipToMap(TranslatePix(xr, pose.xpos, scale), worldSize),
     ClipToMap(TranslatePix(yr, pose.ypos, scale), worldSize))
  }

  /** The map scale perception_step passes to pix_to_world. */
  const MapScale: real := 10.0

  /** worldcoord: the (x, y) map cells a mask's set pixels land on. */
  function WorldCells(m: Mask, pose: Pose, worldSize: int, trig: Trig): (r: seq<(int, int)>)
    requires worldSize >= 1
    ensures |r| == Count(m)
    ensures forall p :: p in r ==> 0 <= p.0 < worldSize && 0 <= p.1 < worldSize
  {
    var (xs, ys) := RoverCoords(m);
    var (xw, yw) := PixToWorld(xs, ys, pose, worldSize, MapScale, trig);
    seq(|xw|, k requires 0 <= k < |xw| => (xw[k], yw[k]))
  }

  // ---------------------------------------------------------------------
  // World-map update

  /** The attitude gate: pitch % 360 < 1 and roll % 360 < 1.5. */
  predicate Level(pitch: real, roll: real)
  {
    Mod360(pitch) < 1.0 && Mod360(roll) < 1.5
  }

  /** A pitch of 5 degrees closes the gate. */
  lemma TiltedFrameNotLevel(roll: real)
    ensures !Level(5.0, roll)
  {
    assert (5.0 / 360.0).Floor == 0;
  }

  /** The map cells of the three masks on one tick. */
  datatype Cells = Cells(nav: seq<(int, int)>, rock: seq<(int, int)>, obs: seq<(int, int)>)

  function MapCells(m: Masks, pose: Pose, worldSize: int, trig: Trig): Cells
    requires worldSize >= 1
  {
    Cells(WorldCells(m.nav, pose, worldSize, trig),
          WorldCells(m.rock, pose, worldSize, trig),
          WorldCells(m.obs, pose, worldSize, trig))
  }

  /** What fancy-index `+=` adds to channel ch of map cell (x, y): navigable
      terrain +1 in channel 2, rock +5 in channel 1, obstacle +1 in channel 0,
      once per distinct cell however often the cell is listed. */
  function CellGain(cells: Cells, ch: int, x: int, y: int): int
  {
    match ch
    case 2 => if (x, y) in cells.nav then 1 else 0
    case 1 => if (x, y) in cells.rock then 5 else 0
    case 0 => if (x, y) in cells.obs then 1 else 0
    case _ => 0
  }

  /** One map cell after adding its gain and clipping to [0, 255]. */
  function UpdatedCell(v: int, gain: int): (r: int)
    ensures 0 <= r <= 255
    // evidence never decreases a cell that was in range
    ensures 0 <= v <= 255 && 0 <= gain ==> v <= r
    ensures 0 <= v + gain <= 255 ==> r == v + gain
    ensures 255 < v + gain ==> r == 255
  {
    ClipInt(v + gain, 0, 255)
  }

  /** A map cell that no pixel of the channel's mask lands on keeps its
      value, as long as that value was already within [0, 255]. */
  lemma UnhitCellKept(cells: Cells, ch: int, x: int, y: int, v: int)
    requires 0 <= v <= 255
    requires ch == 2 ==> (x, y) !in cells.nav
    requires ch == 1 ==> (x, y) !in cells.rock
    requires ch == 0 ==> (x, y) !in cells.obs
    ensures UpdatedCell(v, CellGain(cells, ch, x, y)) == v
  {
  }

  /** A hit map cell gains its channel's evidence once, however many pixels
      land on it, saturating at 255. */
  lemma HitCellGainsOnce(cells: Cells, x: int, y: int, v: int)
    requires 0 <= v <= 255
    ensures (x, y) in cells.nav ==> UpdatedCell(v, CellGain(cells, 2, x, y)) == ClipInt(v + 1, 0, 255)
    ensures (x, y) in cells.rock ==> UpdatedCell(v, CellGain(cells, 1, x, y)) == ClipInt(v + 5, 0, 255)
    ensures (x, y) in cells.obs ==> UpdatedCell(v, CellGain(cells, 0, x, y)) == ClipInt(v + 1, 0, 255)
    ensures (x, y) in cells.rock && v <= 250 ==> UpdatedCell(v, CellGain(cells, 1, x, y)) == v + 5
  {
  }

  // ---------------------------------------------------------------------
  // Navigation signal selection

  /** Rock preemption: the mode after perception and the mask that feeds the
      navigation angles. */
  function SelectSignal(m: Masks, mode: Mode): (r: (Mode, Mask))
    ensures r.0 == Rock <==> MaskSum(m.rock) > 10
    ensures MaskSum(m.rock) <= 10 && mode != Rock ==> r.0 == mode
    ensures MaskSum(m.rock) <= 10 && mode == Rock ==> r.0 == Forward
    ensures r.1 == if r.0 == Rock then m.rock else m.nav
  {
    if MaskSum(m.rock) > 10 then (Rock, m.rock)
    else if mode == Rock then (Forward, m.nav)
    else (mode, m.nav)
  }

  /** What perception hands to the decision step. */
  datatype Signal = Signal(mode: Mode, dists: seq<real>, angles: seq<real>)

  /** The mode update and the fresh distance/angle arrays of one tick. */
  function NavSignal(m: Masks, mode: Mode, trig: Trig): (r: Signal)
    requires IsBinary(m.rock)
    ensures r.mode == SelectSignal(m, mode).0
    ensures |r.dists| == |r.angles| == Count(SelectSignal(m, mode).1)
    ensures r.mode == Rock <==> Count(m.rock) > 10
    // rock mode always comes with more than ten angles to steer by
    ensures r.mode == Rock ==> |r.angles| > 10
  {
    SumOfBinaryMask(m.rock);
    var (newMode, selected) := SelectSignal(m, mode);
    var (xs, ys) := RoverCoords(selected);
    var (dists, angles) := ToPolar(xs, ys, trig);
    Signal(newMode, dists, angles)
  }
}
