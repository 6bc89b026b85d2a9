/**
 * The summed-area table of the saliency search (saliency_fallback.js
 * `computeIntegralMap` and `sumArea`): a (W+1) x (H+1) row-major table whose
 * entry (x, y) is the sum of the map over the rectangle [0, x) x [0, y), and the
 * four-read rectangle sum over it.
 */
module IntegralImage {
  import opened Numeric
  import opened Wrappers

  /** Sum of row r of a w x h map over the columns [a, b). */
  function RowSeg(m: seq<real>, w: nat, h: nat, r: nat, a: nat, b: nat): real
    requires |m| == w * h && r < h && b <= w
    decreases b
  {
    if b <= a then 0.0
    else
      RowIndex(r, b - 1, w, h);
      RowSeg(m, w, h, r, a, b - 1) + m[r * w + b - 1]
  }

  /** Sum of the rows [y0, y1) over the columns [a, b). */
  function Rows(m: seq<real>, w: nat, h: nat, a: nat, b: nat, y0: nat, y1: nat): real
    requires |m| == w * h && y1 <= h && b <= w
    decreases y1
  {
    if y1 <= y0 then 0.0 else Rows(m, w, h, a, b, y0, y1 - 1) + RowSeg(m, w, h, y1 - 1, a, b)
  }

  /** The reference sum of the map over the rw x rh rectangle whose top-left pixel is (x, y). */
  function RectSum(m: seq<real>, w: nat, h: nat, x: nat, y: nat, rw: nat, rh: nat): real
    requires |m| == w * h && x + rw <= w && y + rh <= h
  {
    Rows(m, w, h, x, x + rw, y, y + rh)
  }

  /** The sum over [0, x) x [0, y). */
  function Prefix(m: seq<real>, w: nat, h: nat, x: nat, y: nat): real
    requires |m| == w * h && x <= w && y <= h
  {
    RectSum(m, w, h, 0, 0, x, y)
  }

  /** What the table holds at flat index q (stride w + 1). */
  function IntegralAt(m: seq<real>, w: nat, h: nat, q: int): real
    requires |m| == w * h && 0 <= q < (w + 1) * (h + 1)
  {
    RowOfIndex(q, w + 1, h + 1);
    Prefix(m, w, h, q % (w + 1), q / (w + 1))
  }

  /** Entry (x, y) of the table sits at y * (w + 1) + x. */
  lemma IntegralEntry(m: seq<real>, w: nat, h: nat, x: nat, y: nat)
    requires |m| == w * h && x <= w && y <= h
    ensures 0 <= y * (w + 1) + x < (w + 1) * (h + 1)
    ensures IntegralAt(m, w, h, y * (w + 1) + x) == Prefix(m, w, h, x, y)
  {
    RowIndex(y, x, w + 1, h + 1);
    DivModOf(y, x, w + 1);
  }

  /** Splitting a row segment at column a. */
  lemma {:induction false} RowSegSplit(m: seq<real>, w: nat, h: nat, r: nat, a: nat, b: nat)
    requires |m| == w * h && r < h && a <= b <= w
    ensures RowSeg(m, w, h, r, 0, b) == RowSeg(m, w, h, r, 0, a) + RowSeg(m, w, h, r, a, b)
  {
    if b > a {
      RowSegSplit(m, w, h, r, a, b - 1);
    }
  }

  /** Splitting a band of rows at column a. */
  lemma {:induction false} RowsSplitColumns(m: seq<real>, w: nat, h: nat, a: nat, b: nat, y0: nat, y1: nat)
    requires |m| == w * h && a <= b <= w && y1 <= h
    ensures Rows(m, w, h, 0, b, y0, y1) == Rows(m, w, h, 0, a, y0, y1) + Rows(m, w, h, a, b, y0, y1)
  {
    if y1 > y0 {
      RowsSplitColumns(m, w, h, a, b, y0, y1 - 1);
      RowSegSplit(m, w, h, y1 - 1, a, b);
    }
  }

  /** Splitting a band of rows at row y0. */
  lemma {:induction false} RowsSplitRows(m: seq<real>, w: nat, h: nat, a: nat, b: nat, y0: nat, y1: nat)
    requires |m| == w * h && b <= w && y0 <= y1 <= h
    ensures Rows(m, w, h, a, b, 0, y1) == Rows(m, w, h, a, b, 0, y0) + Rows(m, w, h, a, b, y0, y1)
  {
    if y1 > y0 {
      RowsSplitRows(m, w, h, a, b, y0, y1 - 1);
    }
  }

  /** Row 0 and column 0 of the table are zero. */
  lemma {:induction false} PrefixEdges(m: seq<real>, w: nat, h: nat, x: nat, y: nat)
    requires |m| == w * h && x <= w && y <= h
    ensures Prefix(m, w, h, x, 0) == 0.0 && Prefix(m, w, h, 0, y) == 0.0
  {
    if y > 0 {
      PrefixEdges(m, w, h, x, y - 1);
      assert Rows(m, w, h, 0, 0, 0, y - 1) == 0.0;
    }
  }

  /** A map of non-negative values has non-negative rectangle sums. */
  lemma {:induction false} RowsNonNegative(m: seq<real>, w: nat, h: nat, a: nat, b: nat, y0: nat, y1: nat)
    requires |m| == w * h && b <= w && y1 <= h
    requires forall i :: 0 <= i < |m| ==> 0.0 <= m[i]
    ensures 0.0 <= Rows(m, w, h, a, b, y0, y1)
  {
    if y1 > y0 {
      RowsNonNegative(m, w, h, a, b, y0, y1 - 1);
      RowSegNonNegative(m, w, h, y1 - 1, a, b);
    }
  }

  lemma {:induction false} RowSegNonNegative(m: seq<real>, w: nat, h: nat, r: nat, a: nat, b: nat)
    requires |m| == w * h && r < h && b <= w
    requires forall i :: 0 <= i < |m| ==> 0.0 <= m[i]
    ensures 0.0 <= RowSeg(m, w, h, r, a, b)
  {
    if b > a {
      RowSegNonNegative(m, w, h, r, a, b - 1);
      RowIndex(r, b - 1, w, h);
    }
  }

  /** The table while the loops run: entries at or after (x, y) in row-major order are still zero. */
  function IntegralPart(m: seq<real>, w: nat, h: nat, q: int, x: int, y: int): real
    requires |m| == w * h && 0 <= q < (w + 1) * (h + 1)
  {
    RowOfIndex(q, w + 1, h + 1);
    var cx, cy := q % (w + 1), q / (w + 1);
    if cy < y || (cy == y && cx < x) then Prefix(m, w, h, cx, cy) else 0.0
  }

  lemma IntegralPartStep(m: seq<real>, w: nat, h: nat, q: int, x: nat, y: nat)
    requires |m| == w * h && 0 <= q < (w + 1) * (h + 1) && x <= w && y <= h
    ensures q == y * (w + 1) + x ==> IntegralPart(m, w, h, q, x + 1, y) == Prefix(m, w, h, x, y)
    ensures q != y * (w + 1) + x ==> IntegralPart(m, w, h, q, x + 1, y) == IntegralPart(m, w, h, q, x, y)
  {
    RowOfIndex(q, w + 1, h + 1);
    DivModOf(y, x, w + 1);
  }

  lemma IntegralPartDone(m: seq<real>, w: nat, h: nat, cx: nat, cy: nat, x: int, y: int)
    requires |m| == w * h && cx <= w && cy <= h && (cy < y || (cy == y && cx < x))
    ensures 0 <= cy * (w + 1) + cx < (w + 1) * (h + 1)
    ensures IntegralPart(m, w, h, cy * (w + 1) + cx, x, y) == Prefix(m, w, h, cx, cy)
  {
    RowIndex(cy, cx, w + 1, h + 1);
    DivModOf(cy, cx, w + 1);
  }

  lemma IntegralPartRows(m: seq<real>, w: nat, h: nat, q: int, y: nat)
    requires |m| == w * h && 0 <= q < (w + 1) * (h + 1)
    ensures IntegralPart(m, w, h, q, w + 1, y) == IntegralPart(m, w, h, q, 1, y + 1)
    ensures IntegralPart(m, w, h, q, 1, 1) == 0.0
    ensures y == h + 1 ==> IntegralPart(m, w, h, q, 1, y) == IntegralAt(m, w, h, q)
  {
    RowOfIndex(q, w + 1, h + 1);
    PrefixEdges(m, w, h, q % (w + 1), q / (w + 1));
  }

  /**
   * `computeIntegralMap`: entry (x, y) of the (W+1) x (H+1) table is the sum of
   * `magnitude` over [0, x) x [0, y); row 0 and column 0 stay zero.
   */
  method ComputeIntegralMap(magnitude: seq<real>, width: nat, height: nat) returns (integral: seq<real>)
    requires |magnitude| == width * height
    ensures |integral| == (width + 1) * (height + 1)
    ensures forall q :: 0 <= q < |integral| ==> integral[q] == IntegralAt(magnitude, width, height, q)
  {
    var stride := width + 1;
    var n := stride * (height + 1);
    var a := new real[n](_ => 0.0);
    forall q | 0 <= q < n
      ensures a[q] == IntegralPart(magnitude, width, height, q, 1, 1)
    {
      IntegralPartRows(magnitude, width, height, q, 0);
    }
    var y := 1;
    while y <= height
      invariant 1 <= y <= height + 1
      invariant forall q :: 0 <= q < n ==> a[q] == IntegralPart(magnitude, width, height, q, 1, y)
    {
      var rowSum := 0.0;
      var x := 1;
      while x <= width
        invariant 1 <= x <= width + 1
        invariant rowSum == RowSeg(magnitude, width, height, y - 1, 0, x - 1)
        invariant forall q :: 0 <= q < n ==> a[q] == IntegralPart(magnitude, width, height, q, x, y)
      {
        RowIndex(y - 1, x - 1, width, height);
        var value := magnitude[(y - 1) * width + (x - 1)];
        rowSum := rowSum + value;
        var idx := y * stride + x;
        IntegralEntry(magnitude, width, height, x, y);
        IntegralPartDone(magnitude, width, height, x, y - 1, x, y);
        assert (y - 1) * stride + x == idx - stride;
        a[idx] := a[idx - stride] + rowSum;
        forall q | 0 <= q < n
          ensures a[q] == IntegralPart(magnitude, width, height, q, x + 1, y)
        {
          IntegralPartStep(magnitude, width, height, q, x, y);
        }
        x := x + 1;
      }
      forall q | 0 <= q < n
        ensures a[q] == IntegralPart(magnitude, width, height, q, 1, y + 1)
      {
        IntegralPartRows(magnitude, width, height, q, y);
      }
      y := y + 1;
    }
    forall q | 0 <= q < n
      ensures a[q] == IntegralAt(magnitude, width, height, q)
    {
      IntegralPartRows(magnitude, width, height, q, y);
    }
    integral := a[..];
  }

  /** Reading a typed array: an index outside it yields `undefined`, which turns any sum into NaN. */
  function Read(table: seq<real>, i: int): (r: Option<real>)
    ensures r.Some? <==> 0 <= i < |table|
    ensures r.Some? ==> r.value == table[i]
  {
    if 0 <= i < |table| then Some(table[i]) else None
  }

  /**
   * `sumArea`: four reads at flat indices with stride `width + 1`, exactly as the
   * source computes them; None stands for NaN (some read fell outside the table).
   */
  function SumArea(table: seq<real>, width: nat, x: int, y: int, w: int, h: int): (r: Option<real>)
  {
    var stride := width + 1;
    var x2, y2 := x + w, y + h;
    match (Read(table, y2 * stride + x2), Read(table, y2 * stride + x), Read(table, y * stride + x2), Read(table, y * stride + x))
    case (Some(a), Some(b), Some(c), Some(d)) => Some(a - b - c + d)
    case _ => None
  }

  /** `sumArea` is a number exactly when all four corner reads fall inside the table. */
  lemma SumAreaDefined(table: seq<real>, width: nat, x: int, y: int, w: int, h: int)
    ensures SumArea(table, width, x, y, w, h).Some? <==>
      && 0 <= (y + h) * (width + 1) + (x + w) < |table| && 0 <= (y + h) * (width + 1) + x < |table|
      && 0 <= y * (width + 1) + (x + w) < |table| && 0 <= y * (width + 1) + x < |table|
  {
  }

  /** `sumArea` over the table of a map is that map's sum over any rectangle inside the image. */
  lemma SumAreaCorrect(table: seq<real>, m: seq<real>, width: nat, height: nat, x: nat, y: nat, w: nat, h: nat)
    requires |m| == width * height && |table| == (width + 1) * (height + 1)
    requires forall q :: 0 <= q < |table| ==> table[q] == IntegralAt(m, width, height, q)
    requires x + w <= width && y + h <= height
    ensures SumArea(table, width, x, y, w, h) == Some(RectSum(m, width, height, x, y, w, h))
  {
    TableCorner(table, m, width, height, x + w, y + h);
    TableCorner(table, m, width, height, x, y + h);
    TableCorner(table, m, width, height, x + w, y);
    TableCorner(table, m, width, height, x, y);
    RectFromPrefixes(m, width, height, x, y, w, h);
  }

  /** Reading the table at entry (cx, cy) yields the prefix sum up to that corner. */
  lemma TableCorner(table: seq<real>, m: seq<real>, width: nat, height: nat, cx: nat, cy: nat)
    requires |m| == width * height && |table| == (width + 1) * (height + 1)
    requires forall q :: 0 <= q < |table| ==> table[q] == IntegralAt(m, width, height, q)
    requires cx <= width && cy <= height
    ensures Read(table, cy * (width + 1) + cx) == Some(Prefix(m, width, height, cx, cy))
  {
    IntegralEntry(m, width, height, cx, cy);
  }

  /** Inclusion-exclusion: a rectangle's sum from the four prefix sums at its corners. */
  lemma RectFromPrefixes(m: seq<real>, width: nat, height: nat, x: nat, y: nat, w: nat, h: nat)
    requires |m| == width * height && x + w <= width && y + h <= height
    ensures RectSum(m, width, height, x, y, w, h) ==
      Prefix(m, width, height, x + w, y + h) - Prefix(m, width, height, x, y + h)
      - Prefix(m, width, height, x + w, y) + Prefix(m, width, height, x, y)
  {
    RowsSplitColumns(m, width, height, x, x + w, 0, y + h);
    RowsSplitColumns(m, width, height, x, x + w, 0, y);
    RowsSplitRows(m, width, height, x, x + w, y, y + h);
  }

  /** A query whose bottom edge lies below the table's last row reads past its end: the sum is NaN. */
  lemma BelowTableIsNaN(table: seq<real>, width: nat, height: nat, x: int, y: int, w: int, h: int)
    requires |table| == (width + 1) * (height + 1)
    requires y + h > height && x + w >= 0
    ensures SumArea(table, width, x, y, w, h) == None
  {
    MulMono(height + 1, y + h, width + 1);
  }
}
