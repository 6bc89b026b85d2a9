/**
 * The visible-content search of the composition engine (composition_engine.js
 * `computeContentBounds` and the bounds part of `fillCanvasGutters`): a coarse
 * scan of every `step`-th pixel for an alpha above 8, then four `while` loops
 * that move the top, bottom, left and right edges inward to the first line
 * holding a visible pixel.
 */
module ContentBounds {
  import opened Numeric
  import opened Wrappers

  /** An alpha byte above this is content. */
  const AlphaThreshold: int := 8

  /** A rectangle of whole pixels. */
  datatype Bounds = Bounds(x: int, y: int, width: int, height: int)

  /** The running `minX`, `maxX`, `minY`, `maxY` of the coarse scan. */
  datatype Box = Box(minX: int, maxX: int, minY: int, maxY: int)

  /** The alpha byte of pixel (x, y) of a width x height RGBA buffer is above the threshold. */
  predicate Visible(data: seq<int>, width: nat, height: nat, x: int, y: int)
    requires |data| == 4 * (width * height) && 0 <= x < width && 0 <= y < height
  {
    RowIndex(y, x, width, height);
    data[(y * width + x) * 4 + 3] > AlphaThreshold
  }

  // ---- the coarse scan ----

  /** The box before any content was seen: `maxX < minX` and `maxY < minY`. */
  function EmptyBox(width: nat, height: nat): Box {
    Box(width, -1, height, -1)
  }

  /** The source's `null` test after the coarse scan. */
  predicate IsEmpty(b: Box) {
    b.maxX < b.minX || b.maxY < b.minY
  }

  /** The four `if`s that widen the box to take in (x, y). */
  function Include(b: Box, x: int, y: int): Box {
    Box(if x < b.minX then x else b.minX, if x > b.maxX then x else b.maxX,
        if y < b.minY then y else b.minY, if y > b.maxY then y else b.maxY)
  }

  /** The rest of one row of the coarse scan: columns x, x + step, ... below width. */
  function RowFrom(data: seq<int>, width: nat, height: nat, step: int, y: int, x: int, b: Box): Box
    requires |data| == 4 * (width * height) && step >= 1 && 0 <= y < height && 0 <= x
    decreases width - x
  {
    if x >= width then b
    else RowFrom(data, width, height, step, y, x + step, if Visible(data, width, height, x, y) then Include(b, x, y) else b)
  }

  /** The rest of the coarse scan: rows y, y + step, ... below height. */
  function ScanFrom(data: seq<int>, width: nat, height: nat, step: int, y: int, b: Box): Box
    requires |data| == 4 * (width * height) && step >= 1 && 0 <= y
    decreases height - y
  {
    if y >= height then b
    else ScanFrom(data, width, height, step, y + step, RowFrom(data, width, height, step, y, 0, b))
  }

  /** The box the coarse scan ends with. */
  function Coarse(data: seq<int>, width: nat, height: nat, step: int): Box
    requires |data| == 4 * (width * height) && step >= 1
  {
    ScanFrom(data, width, height, step, 0, EmptyBox(width, height))
  }

  /** The coarse scan visits (x, y). */
  predicate Sampled(width: nat, height: nat, step: int, x: int, y: int)
    requires step >= 1
  {
    0 <= x < width && 0 <= y < height && x % step == 0 && y % step == 0
  }

  /** Some visited pixel is visible. */
  ghost predicate AnySample(data: seq<int>, width: nat, height: nat, step: int)
    requires |data| == 4 * (width * height) && step >= 1
  {
    exists x, y :: Sampled(width, height, step, x, y) && Visible(data, width, height, x, y)
  }

  /** Either the empty box or a box of pixels of the canvas. */
  ghost predicate Sane(b: Box, width: nat, height: nat) {
    b == EmptyBox(width, height) || (0 <= b.minX <= b.maxX < width && 0 <= b.minY <= b.maxY < height)
  }

  /** Pixel (x, y) lies in the box. */
  ghost predicate Holds(b: Box, x: int, y: int) {
    b.minX <= x <= b.maxX && b.minY <= y <= b.maxY
  }

  /** Everything a non-empty b holds, r holds too. */
  ghost predicate Grows(b: Box, r: Box) {
    !IsEmpty(b) ==> r.minX <= b.minX && b.maxX <= r.maxX && r.minY <= b.minY && b.maxY <= r.maxY
  }

  /** Taking in a pixel of the canvas keeps the box sane, makes it non-empty and only widens it. */
  lemma IncludeFacts(b: Box, width: nat, height: nat, x: int, y: int)
    requires Sane(b, width, height) && 0 <= x < width && 0 <= y < height
    ensures var r := Include(b, x, y);
      Sane(r, width, height) && !IsEmpty(r) && Holds(r, x, y) && Grows(b, r)
  {
  }

  /** The rest of a row keeps the box sane and only widens it. */
  lemma {:induction false} RowFromGrows(data: seq<int>, width: nat, height: nat, step: int, y: int, x: int, b: Box)
    requires |data| == 4 * (width * height) && step >= 1 && 0 <= y < height && 0 <= x
    requires Sane(b, width, height)
    ensures var r := RowFrom(data, width, height, step, y, x, b);
      Sane(r, width, height) && Grows(b, r)
    decreases width - x
  {
    if x < width {
      var b' := if Visible(data, width, height, x, y) then Include(b, x, y) else b;
      IncludeFacts(b, width, height, x, y);
      RowFromGrows(data, width, height, step, y, x + step, b');
    }
  }

  /** The rest of a row takes in every visible pixel it visits. */
  lemma {:induction false} RowFromHolds(data: seq<int>, width: nat, height: nat, step: int, y: int, x: int, b: Box)
    requires |data| == 4 * (width * height) && step >= 1 && 0 <= y < height && 0 <= x && x % step == 0
    requires Sane(b, width, height)
    ensures var r := RowFrom(data, width, height, step, y, x, b);
      forall x' :: x <= x' < width && x' % step == 0 && Visible(data, width, height, x', y) ==> Holds(r, x', y)
    decreases width - x
  {
    if x < width {
      var b' := if Visible(data, width, height, x, y) then Include(b, x, y) else b;
      IncludeFacts(b, width, height, x, y);
      NextMultiple(x, step);
      RowFromHolds(data, width, height, step, y, x + step, b');
      RowFromGrows(data, width, height, step, y, x + step, b');
      var r := RowFrom(data, width, height, step, y, x + step, b');
      forall x' | x <= x' < width && x' % step == 0 && Visible(data, width, height, x', y)
        ensures Holds(r, x', y)
      {
        if x < x' {
          MultiplesGap(x, x', step);
        }
      }
    }
  }

  /** The rest of a row leaves the box empty exactly when it was empty and no visited pixel is visible. */
  lemma {:induction false} RowFromEmpty(data: seq<int>, width: nat, height: nat, step: int, y: int, x: int, b: Box)
    requires |data| == 4 * (width * height) && step >= 1 && 0 <= y < height && 0 <= x && x % step == 0
    requires Sane(b, width, height)
    ensures IsEmpty(RowFrom(data, width, height, step, y, x, b))
        <==> IsEmpty(b) && forall x' :: x <= x' < width && x' % step == 0 ==> !Visible(data, width, height, x', y)
    decreases width - x
  {
    if x < width {
      var b' := if Visible(data, width, height, x, y) then Include(b, x, y) else b;
      IncludeFacts(b, width, height, x, y);
      NextMultiple(x, step);
      RowFromEmpty(data, width, height, step, y, x + step, b');
      forall x' | x < x' < width && x' % step == 0
        ensures x + step <= x'
      {
        MultiplesGap(x, x', step);
      }
    }
  }

  /** The rest of the scan keeps the box sane and only widens it. */
  lemma {:induction false} ScanFromGrows(data: seq<int>, width: nat, height: nat, step: int, y: int, b: Box)
    requires |data| == 4 * (width * height) && step >= 1 && 0 <= y
    requires Sane(b, width, height)
    ensures var r := ScanFrom(data, width, height, step, y, b);
      Sane(r, width, height) && Grows(b, r)
    decreases height - y
  {
    if y < height {
      RowFromGrows(data, width, height, step, y, 0, b);
      ScanFromGrows(data, width, height, step, y + step, RowFrom(data, width, height, step, y, 0, b));
    }
  }

  /** The rest of the scan takes in every visible pixel it visits. */
  lemma {:induction false} ScanFromHolds(data: seq<int>, width: nat, height: nat, step: int, y: int, b: Box)
    requires |data| == 4 * (width * height) && step >= 1 && 0 <= y && y % step == 0
    requires Sane(b, width, height)
    ensures var r := ScanFrom(data, width, height, step, y, b);
      forall x', y' :: Sampled(width, height, step, x', y') && y <= y' && Visible(data, width, height, x', y') ==> Holds(r, x', y')
    decreases height - y
  {
    if y < height {
      var row := RowFrom(data, width, height, step, y, 0, b);
      RowFromGrows(data, width, height, step, y, 0, b);
      RowFromHolds(data, width, height, step, y, 0, b);
      NextMultiple(y, step);
      ScanFromHolds(data, width, height, step, y + step, row);
      ScanFromGrows(data, width, height, step, y + step, row);
      var r := ScanFrom(data, width, height, step, y + step, row);
      forall x', y' | Sampled(width, height, step, x', y') && y <= y' && Visible(data, width, height, x', y')
        ensures Holds(r, x', y')
      {
        if y < y' {
          MultiplesGap(y, y', step);
        }
      }
    }
  }

  /** The rest of the scan leaves the box empty exactly when it was empty and no visited pixel is visible. */
  lemma {:induction false} ScanFromEmpty(data: seq<int>, width: nat, height: nat, step: int, y: int, b: Box)
    requires |data| == 4 * (width * height) && step >= 1 && 0 <= y && y % step == 0
    requires Sane(b, width, height)
    ensures IsEmpty(ScanFrom(data, width, height, step, y, b))
        <==> IsEmpty(b) && forall x', y' :: Sampled(width, height, step, x', y') && y <= y' ==> !Visible(data, width, height, x', y')
    decreases height - y
  {
    if y < height {
      var row := RowFrom(data, width, height, step, y, 0, b);
      RowFromGrows(data, width, height, step, y, 0, b);
      RowFromEmpty(data, width, height, step, y, 0, b);
      NextMultiple(y, step);
      ScanFromEmpty(data, width, height, step, y + step, row);
      forall y' | y < y' < height && y' % step == 0
        ensures y + step <= y'
      {
        MultiplesGap(y, y', step);
      }
    }
  }

  /**
   * The coarse scan's box is empty exactly when no visited pixel is visible;
   * otherwise it lies inside the canvas and holds every visible visited pixel.
   */
  lemma CoarseFacts(data: seq<int>, width: nat, height: nat, step: int)
    requires |data| == 4 * (width * height) && step >= 1
    ensures var b := Coarse(data, width, height, step);
      && (IsEmpty(b) <==> !AnySample(data, width, height, step))
      && (!IsEmpty(b) ==> 0 <= b.minX <= b.maxX < width && 0 <= b.minY <= b.maxY < height)
      && (forall x, y :: Sampled(width, height, step, x, y) && Visible(data, width, height, x, y) ==> Holds(b, x, y))
  {
    var b0 := EmptyBox(width, height);
    ScanFromGrows(data, width, height, step, 0, b0);
    ScanFromHolds(data, width, height, step, 0, b0);
    ScanFromEmpty(data, width, height, step, 0, b0);
  }

  /** The coarse loops of `computeContentBounds`: every `step`-th pixel of every `step`-th row. */
  method CoarseScan(data: seq<int>, width: nat, height: nat, step: int) returns (b: Box)
    requires |data| == 4 * (width * height) && step >= 1
    ensures b == Coarse(data, width, height, step)
  {
    var minX, maxX, minY, maxY := width, -1, height, -1;
    var y := 0;
    while y < height
      invariant 0 <= y
      invariant ScanFrom(data, width, height, step, y, Box(minX, maxX, minY, maxY)) == Coarse(data, width, height, step)
    {
      var rowOffset := y * width * 4;
      ghost var atRowStart := Box(minX, maxX, minY, maxY);
      var x := 0;
      while x < width
        invariant 0 <= x
        invariant RowFrom(data, width, height, step, y, x, Box(minX, maxX, minY, maxY))
               == RowFrom(data, width, height, step, y, 0, atRowStart)
      {
        RowIndex(y, x, width, height);
        if data[rowOffset + x * 4 + 3] > AlphaThreshold {
          if x < minX { minX := x; }
          if x > maxX { maxX := x; }
          if y < minY { minY := y; }
          if y > maxY { maxY := y; }
        }
        x := x + step;
      }
      y := y + step;
    }
    b := Box(minX, maxX, minY, maxY);
  }

  // ---- the refinement ----

  /** Some pixel of row y between columns x0 and x1 (inclusive) is visible. */
  ghost predicate RowHasContent(data: seq<int>, width: nat, height: nat, y: int, x0: int, x1: int)
    requires |data| == 4 * (width * height) && 0 <= y < height && 0 <= x0 && x1 < width
  {
    exists x :: x0 <= x <= x1 && Visible(data, width, height, x, y)
  }

  /** Some pixel of column x between rows y0 and y1 (inclusive) is visible. */
  ghost predicate ColumnHasContent(data: seq<int>, width: nat, height: nat, x: int, y0: int, y1: int)
    requires |data| == 4 * (width * height) && 0 <= x < width && 0 <= y0 && y1 < height
  {
    exists y :: y0 <= y <= y1 && Visible(data, width, height, x, y)
  }

  /** The inner `for` over x with its `break`: does row y hold content between x0 and x1? */
  method RowScan(data: seq<int>, width: nat, height: nat, y: int, x0: int, x1: int) returns (hasPixel: bool)
    requires |data| == 4 * (width * height) && 0 <= y < height && 0 <= x0 && x1 < width
    ensures hasPixel <==> RowHasContent(data, width, height, y, x0, x1)
  {
    hasPixel := false;
    var x := x0;
    while x <= x1
      invariant x0 <= x && (x <= x1 + 1 || x == x0)
      invariant forall x' :: x0 <= x' < x ==> !Visible(data, width, height, x', y)
    {
      RowIndex(y, x, width, height);
      if data[(y * width + x) * 4 + 3] > AlphaThreshold {
        assert Visible(data, width, height, x, y);
        hasPixel := true;
        return;
      }
      x := x + 1;
    }
  }

  /** The inner `for` over y with its `break`: does column x hold content between y0 and y1? */
  method ColumnScan(data: seq<int>, width: nat, height: nat, x: int, y0: int, y1: int) returns (hasPixel: bool)
    requires |data| == 4 * (width * height) && 0 <= x < width && 0 <= y0 && y1 < height
    ensures hasPixel <==> ColumnHasContent(data, width, height, x, y0, y1)
  {
    hasPixel := false;
    var y := y0;
    while y <= y1
      invariant y0 <= y && (y <= y1 + 1 || y == y0)
      invariant forall y' :: y0 <= y' < y ==> !Visible(data, width, height, x, y')
    {
      RowIndex(y, x, width, height);
      if data[(y * width + x) * 4 + 3] > AlphaThreshold {
        assert Visible(data, width, height, x, y);
        hasPixel := true;
        return;
      }
      y := y + 1;
    }
  }

  /** The `top` loop: the first row from startY holding content in [startX, endX], or endY. */
  method FindTop(data: seq<int>, width: nat, height: nat, startX: int, endX: int, startY: int, endY: int)
    returns (top: int)
    requires |data| == 4 * (width * height) && 0 <= startX && endX < width && 0 <= startY <= endY < height
    ensures startY <= top <= endY
    ensures forall y :: startY <= y < top ==> !RowHasContent(data, width, height, y, startX, endX)
    ensures top < endY ==> RowHasContent(data, width, height, top, startX, endX)
  {
    top := startY;
    while top < endY
      invariant startY <= top <= endY
      invariant forall y :: startY <= y < top ==> !RowHasContent(data, width, height, y, startX, endX)
    {
      var hasPixel := RowScan(data, width, height, top, startX, endX);
      if hasPixel {
        break;
      }
      top := top + 1;
    }
  }

  /** The `bottom` loop: the last row up to endY, above top, holding content in [startX, endX], or top. */
  method FindBottom(data: seq<int>, width: nat, height: nat, startX: int, endX: int, top: int, endY: int)
    returns (bottom: int)
    requires |data| == 4 * (width * height) && 0 <= startX && endX < width && 0 <= top <= endY < height
    ensures top <= bottom <= endY
    ensures forall y :: bottom < y <= endY ==> !RowHasContent(data, width, height, y, startX, endX)
    ensures bottom > top ==> RowHasContent(data, width, height, bottom, startX, endX)
  {
    bottom := endY;
    while bottom > top
      invariant top <= bottom <= endY
      invariant forall y :: bottom < y <= endY ==> !RowHasContent(data, width, height, y, startX, endX)
    {
      var hasPixel := RowScan(data, width, height, bottom, startX, endX);
      if hasPixel {
        break;
      }
      bottom := bottom - 1;
    }
  }

  /** The `left` loop: the first column from startX holding content in [top, bottom], or endX. */
  method FindLeft(data: seq<int>, width: nat, height: nat, startX: int, endX: int, top: int, bottom: int)
    returns (left: int)
    requires |data| == 4 * (width * height) && 0 <= startX <= endX < width && 0 <= top && bottom < height
    ensures startX <= left <= endX
    ensures forall x :: startX <= x < left ==> !ColumnHasContent(data, width, height, x, top, bottom)
    ensures left < endX ==> ColumnHasContent(data, width, height, left, top, bottom)
  {
    left := startX;
    while left < endX
      invariant startX <= left <= endX
      invariant forall x :: startX <= x < left ==> !ColumnHasContent(data, width, height, x, top, bottom)
    {
      var hasPixel := ColumnScan(data, width, height, left, top, bottom);
      if hasPixel {
        break;
      }
      left := left + 1;
    }
  }

  /** The `right` loop: the last column up to endX, right of left, holding content in [top, bottom], or left. */
  method FindRight(data: seq<int>, width: nat, height: nat, left: int, endX: int, top: int, bottom: int)
    returns (right: int)
    requires |data| == 4 * (width * height) && 0 <= left <= endX < width && 0 <= top && bottom < height
    ensures left <= right <= endX
    ensures forall x :: right < x <= endX ==> !ColumnHasContent(data, width, height, x, top, bottom)
    ensures right > left ==> ColumnHasContent(data, width, height, right, top, bottom)
  {
    right := endX;
    while right > left
      invariant left <= right <= endX
      invariant forall x :: right < x <= endX ==> !ColumnHasContent(data, width, height, x, top, bottom)
    {
      var hasPixel := ColumnScan(data, width, height, right, top, bottom);
      if hasPixel {
        break;
      }
      right := right - 1;
    }
  }

  /** `refine`: the search window is the coarse box grown by `step` on every side, cut to the canvas. */
  method Refine(data: seq<int>, width: nat, height: nat, step: int, coarse: Bounds) returns (r: Bounds)
    requires |data| == 4 * (width * height) && step >= 1
    requires 0 <= coarse.x < width && 0 <= coarse.y < height && coarse.width >= 1 && coarse.height >= 1
    ensures 0 <= r.x && 1 <= r.width && r.x + r.width <= width
    ensures 0 <= r.y && 1 <= r.height && r.y + r.height <= height
  {
    var startX := MaxInt(0, coarse.x - step);
    var endX := MinInt(width - 1, coarse.x + coarse.width + step);
    var startY := MaxInt(0, coarse.y - step);
    var endY := MinInt(height - 1, coarse.y + coarse.height + step);
    var top := FindTop(data, width, height, startX, endX, startY, endY);
    var bottom := FindBottom(data, width, height, startX, endX, top, endY);
    var left := FindLeft(data, width, height, startX, endX, top, bottom);
    var right := FindRight(data, width, height, left, endX, top, bottom);
    r := Bounds(left, top, MaxInt(1, right - left + 1), MaxInt(1, bottom - top + 1));
  }

  /**
   * `computeContentBounds`: `null` for an empty canvas or when no visited pixel
   * is visible; otherwise a rectangle of at least one pixel inside the canvas.
   */
  method ComputeContentBounds(data: seq<int>, width: nat, height: nat, step: int) returns (r: Option<Bounds>)
    requires |data| == 4 * (width * height) && step >= 1
    ensures r.None? <==> width == 0 || height == 0 || !AnySample(data, width, height, step)
    ensures r.Some? ==> 0 <= r.value.x && 1 <= r.value.width && r.value.x + r.value.width <= width
    ensures r.Some? ==> 0 <= r.value.y && 1 <= r.value.height && r.value.y + r.value.height <= height
  {
    if width == 0 || height == 0 {
      return None;
    }
    var b := CoarseScan(data, width, height, step);
    CoarseFacts(data, width, height, step);
    if b.maxX < b.minX || b.maxY < b.minY {
      return None;
    }
    var coarse := Bounds(b.minX, b.minY, MaxInt(1, b.maxX - b.minX + 1), MaxInt(1, b.maxY - b.minY + 1));
    var refined := Refine(data, width, height, step, coarse);
    r := Some(refined);
  }

  /**
   * The bounds part of `fillCanvasGutters`: the content bounds with step 2; the
   * padded canvas takes their size, and without content the canvas is kept.
   */
  method FillCanvasGutters(data: seq<int>, width: nat, height: nat) returns (outWidth: int, outHeight: int)
    requires |data| == 4 * (width * height)
    ensures width > 0 && height > 0 ==> 1 <= outWidth <= width && 1 <= outHeight <= height
    ensures !AnySample(data, width, height, 2) ==> outWidth == width && outHeight == height
  {
    var bounds := ComputeContentBounds(data, width, height, 2);
    if bounds.None? {
      return width, height;
    }
    outWidth, outHeight := bounds.value.width, bounds.value.height;
  }
}
