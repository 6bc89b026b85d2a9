/**
 * The horizon estimator (horizon_detector.js): gradient directions in the middle
 * band of the image, folded to line angles in (-90, 90], weighted by magnitude and
 * by closeness to horizontal, averaged; a confidence and a line through the centre.
 */
module Horizon {
  import opened Numeric
  import opened Gradient

  /** Truncation toward zero, as the JavaScript `%` operator uses. */
  function Trunc(x: real): (t: int)
    ensures x >= 0.0 ==> t == x.Floor
    ensures x < 0.0 ==> t == -((-x).Floor)
  {
    if x >= 0.0 then x.Floor else -((-x).Floor)
  }

  /** `k * m` for a whole number `k`. */
  function Times(k: int, m: real): real { k as real * m }

  /** From f <= q < f + 1 and q * m == a, with m > 0: f * m <= a < f * m + m. */
  lemma BetweenTimes(q: real, m: real, f: real, a: real)
    requires m > 0.0 && f <= q < f + 1.0 && q * m == a
    ensures f * m <= a < f * m + m
  {
    var below, above := q - f, f + 1.0 - q;
    assert below * m >= 0.0;
    assert below * m == q * m - f * m;
    assert above * m > 0.0;
    assert above * m == f * m + m - q * m;
  }

  /** JavaScript `a % m`: the remainder takes the sign of `a`. */
  function JsRem(a: real, m: real): (r: real)
    requires m > 0.0
    ensures a >= 0.0 ==> 0.0 <= r < m
  {
    var k := Trunc(a / m);
    if a >= 0.0 then
      assert a / m >= 0.0;
      BetweenTimes(a / m, m, k as real, a);
      a - Times(k, m)
    else
      a - Times(k, m)
  }

  /** The remainder differs from `a` by a whole number of `m`. */
  lemma JsRemShift(a: real, m: real)
    requires m > 0.0
    ensures exists k: int :: a == Times(k, m) + JsRem(a, m)
  {
    var k := Trunc(a / m);
    assert a == Times(k, m) + JsRem(a, m);
  }

  /**
   * The source's `(degrees + 180) % 180`, then moved down by 180 above 90: the
   * direction of the gradient as a line angle. For any atan2 output it lies in
   * (-90, 90] (and `FoldAngleShift`: it differs from the input by whole half turns).
   */
  function FoldAngle(deg: real): (h: real)
    ensures deg >= -180.0 ==> -90.0 < h <= 90.0
  {
    var normalised := JsRem(deg + 180.0, 180.0);
    if normalised > 90.0 then normalised - 180.0 else normalised
  }

  /** A folded angle is the input turned by a whole number of half turns. */
  lemma FoldAngleShift(deg: real)
    ensures exists k: int :: FoldAngle(deg) == deg + Times(k, 180.0)
  {
    JsRemShift(deg + 180.0, 180.0);
    var normalised := JsRem(deg + 180.0, 180.0);
    var k: int :| deg + 180.0 == Times(k, 180.0) + normalised;
    if normalised > 90.0 {
      assert FoldAngle(deg) == deg + Times(-k, 180.0);
    } else {
      assert FoldAngle(deg) == deg + Times(1 - k, 180.0);
    }
  }

  /** `1 - |angle| / 90`: 1 for a level edge, 0 for a vertical one. */
  function Alignment(h: real): (a: real)
    requires -90.0 <= h <= 90.0
    ensures 0.0 <= a <= 1.0
    ensures a == 1.0 <==> h == 0.0
  {
    1.0 - Abs(h) / 90.0
  }

  lemma AtanRange(y: real, x: real, ops: Ops)
    ensures -180.0 <= ops.atan2Deg(y, x) <= 180.0
  {
  }

  /** `magnitude * alignment`: strong edges close to level weigh most. */
  function Weight(magnitude: real, h: real): (w: real)
    requires -90.0 <= h <= 90.0
    ensures 0.0 <= magnitude ==> 0.0 <= w <= magnitude
    ensures h == 0.0 ==> w == magnitude
    ensures 0.0 < magnitude && h != 0.0 ==> w < magnitude
  {
    var a := Alignment(h);
    ScaledByFraction(magnitude, a);
    magnitude * a
  }

  /** One pushed pair: the pixel it came from, its folded angle and its weight. */
  datatype Sample = Sample(p: int, angle: real, weight: real)

  /** `Math.floor(height * 0.2)` and `Math.floor(height * 0.8)`. */
  function MaskTop(height: nat): (t: int)
    ensures 0 <= t <= height
  {
    (height as real * 0.2).Floor
  }

  function MaskBottom(height: nat): (b: int)
    ensures MaskTop(height) <= b <= height
  {
    (height as real * 0.8).Floor
  }

  /** What the pixel at `idx` pushes: nothing when its magnitude is under 48 or its weight is zero. */
  function SampleAt(gx: seq<real>, gy: seq<real>, mag: seq<real>, idx: int, ops: Ops): (s: seq<Sample>)
    requires |gx| == |gy| == |mag| && 0 <= idx < |mag|
    ensures |s| <= 1
    ensures |s| == 1 ==> s[0].p == idx
  {
    if mag[idx] < 48.0 then []
    else
      AtanRange(gy[idx], gx[idx], ops);
      var angle := FoldAngle(ops.atan2Deg(gy[idx], gx[idx]));
      var weight := Weight(mag[idx], angle);
      if weight == 0.0 then [] else [Sample(idx, angle, weight)]
  }

  /** Columns [1, xe) of the row whose first pixel sits at flat index `base`. */
  function RowSamplesFrom(gx: seq<real>, gy: seq<real>, mag: seq<real>, base: int, xe: int, ops: Ops): seq<Sample>
    requires |gx| == |gy| == |mag| && 0 <= base && (xe <= 1 || base + xe <= |mag|)
    decreases xe
  {
    if xe <= 1 then []
    else RowSamplesFrom(gx, gy, mag, base, xe - 1, ops) + SampleAt(gx, gy, mag, base + xe - 1, ops)
  }

  /** Row y starts at flat index y * w and ends inside the image. */
  lemma RowStart(y: int, w: nat, h: nat)
    requires 0 <= y < h
    ensures 0 <= y * w && y * w + w <= w * h
  {
    MulMono(0, y, w);
    MulMono(y + 1, h, w);
    assert (y + 1) * w == y * w + w;
  }

  /** Columns [1, xe) of row y. */
  function RowSamples(gx: seq<real>, gy: seq<real>, mag: seq<real>, w: nat, h: nat, y: int, xe: int, ops: Ops): seq<Sample>
    requires |gx| == |gy| == |mag| == w * h && 0 <= y < h && xe <= MaxInt(w, 1)
  {
    RowStart(y, w, h);
    RowSamplesFrom(gx, gy, mag, y * w, xe, ops)
  }

  /** Rows [MaskTop, ye) of the band, each over columns [1, w - 1). */
  function BandSamples(gx: seq<real>, gy: seq<real>, mag: seq<real>, w: nat, h: nat, ye: int, ops: Ops): seq<Sample>
    requires |gx| == |gy| == |mag| == w * h && ye <= h
    decreases ye
  {
    if ye <= MaskTop(h) then []
    else BandSamples(gx, gy, mag, w, h, ye - 1, ops) + RowSamples(gx, gy, mag, w, h, ye - 1, w - 1, ops)
  }

  /** The pixel a sample comes from qualifies, and the sample carries its angle and weight. */
  predicate FromBand(gx: seq<real>, gy: seq<real>, mag: seq<real>, w: nat, h: nat, s: Sample, ops: Ops)
    requires |gx| == |gy| == |mag| == w * h
  {
    && 0 <= s.p < w * h
    && MaskTop(h) <= s.p / w < MaskBottom(h) && 1 <= s.p % w < w - 1
    && mag[s.p] >= 48.0
    && s.angle == FoldAngle(ops.atan2Deg(gy[s.p], gx[s.p]))
    && -90.0 < s.angle <= 90.0
    && s.weight == Weight(mag[s.p], s.angle)
    && s.weight > 0.0
  }

  lemma {:induction false} RowSamplesFromBand(gx: seq<real>, gy: seq<real>, mag: seq<real>, w: nat, h: nat, y: int, xe: int, ops: Ops)
    requires |gx| == |gy| == |mag| == w * h && MaskTop(h) <= y < MaskBottom(h) && xe <= w - 1
    ensures forall s :: s in RowSamples(gx, gy, mag, w, h, y, xe, ops) ==> FromBand(gx, gy, mag, w, h, s, ops)
  {
    RowStart(y, w, h);
    RowFromBand(gx, gy, mag, w, h, y, xe, ops);
  }

  lemma {:induction false} RowFromBand(gx: seq<real>, gy: seq<real>, mag: seq<real>, w: nat, h: nat, y: int, xe: int, ops: Ops)
    requires |gx| == |gy| == |mag| == w * h && MaskTop(h) <= y < MaskBottom(h) && xe <= w - 1
    requires 0 <= y * w && y * w + w <= w * h
    ensures forall s :: s in RowSamplesFrom(gx, gy, mag, y * w, xe, ops) ==> FromBand(gx, gy, mag, w, h, s, ops)
    decreases xe
  {
    if xe > 1 {
      RowFromBand(gx, gy, mag, w, h, y, xe - 1, ops);
      var one := SampleAt(gx, gy, mag, y * w + xe - 1, ops);
      if |one| == 1 {
        DivModOf(y, xe - 1, w);
        assert FromBand(gx, gy, mag, w, h, one[0], ops);
      }
    }
  }

  /**
   * Only pixels in rows [floor(0.2H), floor(0.8H)) and columns [1, W-1) with
   * magnitude at least 48 contribute, each with its folded angle in (-90, 90] and a
   * positive weight `magnitude * alignment`.
   */
  lemma {:induction false} BandSamplesFromBand(gx: seq<real>, gy: seq<real>, mag: seq<real>, w: nat, h: nat, ye: int, ops: Ops)
    requires |gx| == |gy| == |mag| == w * h && ye <= MaskBottom(h)
    ensures forall s :: s in BandSamples(gx, gy, mag, w, h, ye, ops) ==> FromBand(gx, gy, mag, w, h, s, ops)
    decreases ye
  {
    if ye > MaskTop(h) {
      BandSamplesFromBand(gx, gy, mag, w, h, ye - 1, ops);
      RowSamplesFromBand(gx, gy, mag, w, h, ye - 1, w - 1, ops);
    }
  }

  function AnglesOf(s: seq<Sample>): (r: seq<real>)
    ensures |r| == |s|
  {
    seq(|s|, i requires 0 <= i < |s| => s[i].angle)
  }

  function WeightsOf(s: seq<Sample>): (r: seq<real>)
    ensures |r| == |s|
  {
    seq(|s|, i requires 0 <= i < |s| => s[i].weight)
  }

  lemma OfConcat(a: seq<Sample>, b: seq<Sample>)
    ensures AnglesOf(a + b) == AnglesOf(a) + AnglesOf(b)
    ensures WeightsOf(a + b) == WeightsOf(a) + WeightsOf(b)
  {
  }

  /** One more column of a row: the samples of column x follow those before it. */
  lemma RowSamplesStep(gx: seq<real>, gy: seq<real>, mag: seq<real>, base: int, x: int, ops: Ops)
    requires |gx| == |gy| == |mag| && 0 <= base && 1 <= x && base + x < |mag|
    ensures RowSamplesFrom(gx, gy, mag, base, x + 1, ops)
      == RowSamplesFrom(gx, gy, mag, base, x, ops) + SampleAt(gx, gy, mag, base + x, ops)
  {
  }

  /** The angles and weights of one more column follow those before it. */
  lemma ColumnStep(gx: seq<real>, gy: seq<real>, mag: seq<real>, base: int, x: int, ops: Ops)
    requires |gx| == |gy| == |mag| && 0 <= base && 1 <= x && base + x < |mag|
    ensures AnglesOf(RowSamplesFrom(gx, gy, mag, base, x + 1, ops))
      == AnglesOf(RowSamplesFrom(gx, gy, mag, base, x, ops)) + AnglesOf(SampleAt(gx, gy, mag, base + x, ops))
    ensures WeightsOf(RowSamplesFrom(gx, gy, mag, base, x + 1, ops))
      == WeightsOf(RowSamplesFrom(gx, gy, mag, base, x, ops)) + WeightsOf(SampleAt(gx, gy, mag, base + x, ops))
  {
    RowSamplesStep(gx, gy, mag, base, x, ops);
    OfConcat(RowSamplesFrom(gx, gy, mag, base, x, ops), SampleAt(gx, gy, mag, base + x, ops));
  }

  /** One pixel of the band scan: it pushes its angle and weight exactly when `SampleAt` keeps it. */
  method CollectPixel(gx: seq<real>, gy: seq<real>, mag: seq<real>, idx: int, ops: Ops, angles0: seq<real>, weights0: seq<real>)
    returns (angles: seq<real>, weights: seq<real>)
    requires |gx| == |gy| == |mag| && 0 <= idx < |mag|
    ensures angles == angles0 + AnglesOf(SampleAt(gx, gy, mag, idx, ops))
    ensures weights == weights0 + WeightsOf(SampleAt(gx, gy, mag, idx, ops))
  {
    angles, weights := angles0, weights0;
    if mag[idx] >= 48.0 {
      AtanRange(gy[idx], gx[idx], ops);
      var angle := FoldAngle(ops.atan2Deg(gy[idx], gx[idx]));
      var weight := Weight(mag[idx], angle);
      if weight != 0.0 {
        angles := angles + [angle];
        weights := weights + [weight];
      }
    }
  }

  /** `angles` and `weights` hold what rows [MaskTop, y) of the band push. */
  predicate BandCollected(gx: seq<real>, gy: seq<real>, mag: seq<real>, width: nat, height: nat, y: int, ops: Ops,
                          angles: seq<real>, weights: seq<real>)
  {
    && |gx| == |gy| == |mag| == width * height && MaskTop(height) <= y <= MaskBottom(height)
    && angles == AnglesOf(BandSamples(gx, gy, mag, width, height, y, ops))
    && weights == WeightsOf(BandSamples(gx, gy, mag, width, height, y, ops))
  }

  /**
   * The inner loop of the band scan, over columns [1, W-1) of row y: it appends the
   * row's samples to what the earlier rows pushed.
   */
  method CollectRow(gx: seq<real>, gy: seq<real>, mag: seq<real>, width: nat, height: nat, y: int, ops: Ops,
                    angles0: seq<real>, weights0: seq<real>)
    returns (angles: seq<real>, weights: seq<real>, next: int)
    requires y < MaskBottom(height) && BandCollected(gx, gy, mag, width, height, y, ops, angles0, weights0)
    ensures next == y + 1
    ensures BandCollected(gx, gy, mag, width, height, next, ops, angles, weights)
  {
    next := y + 1;
    var row := RowSamples(gx, gy, mag, width, height, y, width - 1, ops);
    OfConcat(BandSamples(gx, gy, mag, width, height, y, ops), row);
    RowStart(y, width, height);
    if width < 2 {
      assert RowSamplesFrom(gx, gy, mag, y * width, width - 1, ops) == [];
      return angles0, weights0, next;
    }
    var rowAngles, rowWeights := CollectColumns(gx, gy, mag, y * width, width - 1, ops);
    angles, weights := angles0 + rowAngles, weights0 + rowWeights;
  }

  /** `angles` and `weights` hold what columns [1, x) of the row at `rowStart` push. */
  predicate RowCollected(gx: seq<real>, gy: seq<real>, mag: seq<real>, rowStart: int, x: int, ops: Ops,
                         angles: seq<real>, weights: seq<real>)
  {
    && |gx| == |gy| == |mag| && 0 <= rowStart && 1 <= x && rowStart + x <= |mag|
    && angles == AnglesOf(RowSamplesFrom(gx, gy, mag, rowStart, x, ops))
    && weights == WeightsOf(RowSamplesFrom(gx, gy, mag, rowStart, x, ops))
  }

  /** Columns [1, xe) of the row starting at flat index `rowStart`, one pixel at a time. */
  method CollectColumns(gx: seq<real>, gy: seq<real>, mag: seq<real>, rowStart: int, xe: int, ops: Ops)
    returns (angles: seq<real>, weights: seq<real>)
    requires |gx| == |gy| == |mag| && 0 <= rowStart && 1 <= xe && rowStart + xe <= |mag|
    ensures RowCollected(gx, gy, mag, rowStart, xe, ops, angles, weights)
  {
    angles, weights := [], [];
    var x := 1;
    while x < xe
      invariant x <= xe && RowCollected(gx, gy, mag, rowStart, x, ops, angles, weights)
    {
      angles, weights := CollectColumn(gx, gy, mag, rowStart, x, ops, angles, weights);
      x := x + 1;
    }
  }

  /** Column x of a row, after the columns before it. */
  method CollectColumn(gx: seq<real>, gy: seq<real>, mag: seq<real>, rowStart: int, x: int, ops: Ops,
                       angles0: seq<real>, weights0: seq<real>)
    returns (angles: seq<real>, weights: seq<real>)
    requires rowStart + x < |mag| && RowCollected(gx, gy, mag, rowStart, x, ops, angles0, weights0)
    ensures RowCollected(gx, gy, mag, rowStart, x + 1, ops, angles, weights)
  {
    ColumnStep(gx, gy, mag, rowStart, x, ops);
    angles, weights := CollectPixel(gx, gy, mag, rowStart + x, ops, angles0, weights0);
  }

  /**
   * The band loops of `estimateHorizon`: the pushed `angles` and `weights` are those
   * of `BandSamples`, in loop order.
   */
  method CollectSamples(gx: seq<real>, gy: seq<real>, mag: seq<real>, width: nat, height: nat, ops: Ops)
    returns (angles: seq<real>, weights: seq<real>)
    requires |gx| == |gy| == |mag| == width * height
    ensures angles == AnglesOf(BandSamples(gx, gy, mag, width, height, MaskBottom(height), ops))
    ensures weights == WeightsOf(BandSamples(gx, gy, mag, width, height, MaskBottom(height), ops))
  {
    angles, weights := [], [];
    var maskTop, maskBottom := MaskTop(height), MaskBottom(height);
    var y := maskTop;
    BandStartsEmpty(gx, gy, mag, width, height, ops);
    while y < maskBottom
      invariant maskTop <= y <= maskBottom
      invariant BandCollected(gx, gy, mag, width, height, y, ops, angles, weights)
      decreases maskBottom - y
    {
      angles, weights, y := CollectRow(gx, gy, mag, width, height, y, ops, angles, weights);
    }
    assert y == maskBottom;
  }

  /** Before the first band row nothing has been pushed. */
  lemma BandStartsEmpty(gx: seq<real>, gy: seq<real>, mag: seq<real>, width: nat, height: nat, ops: Ops)
    requires |gx| == |gy| == |mag| == width * height
    ensures BandCollected(gx, gy, mag, width, height, MaskTop(height), ops, [], [])
  {
    assert BandSamples(gx, gy, mag, width, height, MaskTop(height), ops) == [];
  }

  // ---- weighted average ----

  /** Sum of values[i] * weights[i] over the first n entries. */
  function Dot(values: seq<real>, weights: seq<real>, n: nat): real
    requires n <= |values| && n <= |weights|
  {
    if n == 0 then 0.0 else Dot(values, weights, n - 1) + values[n - 1] * weights[n - 1]
  }

  /** `weightSum ? sum / weightSum : 0`. */
  function WeightedMean(values: seq<real>, weights: seq<real>): real
    requires |values| == |weights|
  {
    var weightSum := Sum(weights);
    if weightSum != 0.0 then Dot(values, weights, |values|) / weightSum else 0.0
  }

  lemma SumPrefix(s: seq<real>, n: nat)
    requires n < |s|
    ensures Sum(s[..n + 1]) == Sum(s[..n]) + s[n]
  {
    assert s[..n + 1][..n] == s[..n];
  }

  /** `weightedAverage`: the sum and weight-sum accumulator loop. */
  method WeightedAverage(values: seq<real>, weights: seq<real>) returns (r: real)
    requires |values| == |weights|
    ensures r == WeightedMean(values, weights)
  {
    var sum, weightSum := 0.0, 0.0;
    var i := 0;
    while i < |values|
      invariant 0 <= i <= |values|
      invariant sum == Dot(values, weights, i) && weightSum == Sum(weights[..i])
    {
      var w := weights[i];
      SumPrefix(weights, i);
      sum := sum + values[i] * w;
      weightSum := weightSum + w;
      i := i + 1;
    }
    assert weights[..i] == weights;
    r := if weightSum != 0.0 then sum / weightSum else 0.0;
  }

  lemma {:induction false} DotBounds(values: seq<real>, weights: seq<real>, n: nat, lo: real, hi: real)
    requires n <= |values| == |weights|
    requires forall i :: 0 <= i < |values| ==> lo <= values[i] <= hi && 0.0 <= weights[i]
    ensures lo * Sum(weights[..n]) <= Dot(values, weights, n) <= hi * Sum(weights[..n])
  {
    if n > 0 {
      DotBounds(values, weights, n - 1, lo, hi);
      SumPrefix(weights, n - 1);
      ProductBounds(values[n - 1], weights[n - 1], lo, hi);
    }
  }

  lemma ProductBounds(v: real, w: real, lo: real, hi: real)
    requires lo <= v <= hi && 0.0 <= w
    ensures lo * w <= v * w <= hi * w
  {
  }

  lemma QuotientBetween(d: real, s: real, lo: real, hi: real)
    requires s > 0.0 && lo * s <= d <= hi * s
    ensures lo <= d / s <= hi
  {
  }

  /**
   * With non-negative weights, the weighted mean lies between the least and the
   * greatest value (and is 0 when every weight is 0).
   */
  lemma WeightedMeanBounds(values: seq<real>, weights: seq<real>, lo: real, hi: real)
    requires |values| == |weights|
    requires forall i :: 0 <= i < |values| ==> lo <= values[i] <= hi && 0.0 <= weights[i]
    ensures Sum(weights) != 0.0 ==> lo <= WeightedMean(values, weights) <= hi
    ensures Sum(weights) == 0.0 ==> WeightedMean(values, weights) == 0.0
  {
    DotBounds(values, weights, |values|, lo, hi);
    assert weights[..|values|] == weights;
    if Sum(weights) != 0.0 {
      NonNegativeSum(weights);
      QuotientBetween(Dot(values, weights, |values|), Sum(weights), lo, hi);
    }
  }

  lemma {:induction false} NonNegativeSum(s: seq<real>)
    requires forall i :: 0 <= i < |s| ==> 0.0 <= s[i]
    ensures 0.0 <= Sum(s)
  {
    if |s| > 0 {
      NonNegativeSum(s[..|s| - 1]);
    }
  }

  // ---- confidence and line ----

  /** min(1, sum of weights / (W * H * 22)). */
  function HorizonConfidence(weights: seq<real>, width: nat, height: nat): (c: real)
    requires width > 0 && height > 0
    requires forall i :: 0 <= i < |weights| ==> 0.0 <= weights[i]
    ensures 0.0 <= c <= 1.0
  {
    NonNegativeSum(weights);
    var d := (width * height) as real * 22.0;
    assert d > 0.0 by {
      MulMono(1, width, height);
    }
    Min(1.0, Sum(weights) / d)
  }


  /** The segment of length `length` at `angle` degrees centred on `center`. */
  function LineThrough(center: Point, angle: real, length: real, ops: Ops): (line: (Point, Point))
  {
    var dx, dy := ops.cosDeg(angle) * length, ops.sinDeg(angle) * length;
    (Point(center.x - dx / 2.0, center.y - dy / 2.0), Point(center.x + dx / 2.0, center.y + dy / 2.0))
  }

  /** The line's endpoints are symmetric about the centre and `length` apart. */
  lemma LineThroughFacts(center: Point, angle: real, length: real, ops: Ops)
    ensures var line := LineThrough(center, angle, length, ops);
      && (line.0.x + line.1.x) / 2.0 == center.x && (line.0.y + line.1.y) / 2.0 == center.y
      && (line.1.x - line.0.x) * (line.1.x - line.0.x) + (line.1.y - line.0.y) * (line.1.y - line.0.y) == length * length
  {
    var c, s := ops.cosDeg(angle), ops.sinDeg(angle);
    assert c * c + s * s == 1.0;
    var line := LineThrough(center, angle, length, ops);
    assert line.1.x - line.0.x == c * length && line.1.y - line.0.y == s * length;
    assert (c * length) * (c * length) + (s * length) * (s * length) == (c * c + s * s) * (length * length);
  }

  datatype HorizonResult = HorizonResult(angle: real, confidence: real, line: (Point, Point))

  /** The samples `estimateHorizon` collects from an RGBA buffer. */
  function HorizonSamples(data: seq<int>, width: nat, height: nat, ops: Ops): seq<Sample>
    requires |data| == 4 * (width * height)
  {
    var gray := GraySeq(data, width, height, BT601);
    BandSamples(GxSeq(gray, width, height), GySeq(gray, width, height), MagSeq(gray, width, height, ops),
                width, height, MaskBottom(height), ops)
  }

  /**
   * `estimateHorizon`. A zero-sized image gives angle 0, confidence 0 and the line
   * (0, H/2)-(W, H/2). Otherwise the angle is the weighted mean of the sampled angles
   * (so it lies in [-90, 90]), the confidence is min(1, sum of weights / (W * H * 22)),
   * which lies in [0, 1], and the line of length
   * max(W, H) at that angle is centred on (W/2, H/2).
   */
  method EstimateHorizon(data: seq<int>, width: nat, height: nat, ops: Ops) returns (res: HorizonResult)
    requires |data| == 4 * (width * height)
    ensures width == 0 || height == 0 ==>
      res == HorizonResult(0.0, 0.0, (Point(0.0, height as real / 2.0), Point(width as real, height as real / 2.0)))
    ensures width > 0 && height > 0 ==>
      && res.angle == WeightedMean(AnglesOf(HorizonSamples(data, width, height, ops)), WeightsOf(HorizonSamples(data, width, height, ops)))
      && -90.0 <= res.angle <= 90.0
      && 0.0 <= res.confidence <= 1.0
      && res.confidence == Min(1.0, Sum(WeightsOf(HorizonSamples(data, width, height, ops))) / ((width * height) as real * 22.0))
      && res.line == LineThrough(Point(width as real / 2.0, height as real / 2.0), res.angle,
                                 MaxInt(width, height) as real, ops)
  {
    if width == 0 || height == 0 {
      return HorizonResult(0.0, 0.0, (Point(0.0, height as real / 2.0), Point(width as real, height as real / 2.0)));
    }
    var gray := ToGrayscale(data, width, height, BT601);
    var gradX, gradY, magnitude := ComputeGradient(gray, width, height, ops);
    assert gray == GraySeq(data, width, height, BT601);
    assert gradX == GxSeq(gray, width, height) && gradY == GySeq(gray, width, height);
    assert magnitude == MagSeq(gray, width, height, ops);
    var angles, weights := CollectSamples(gradX, gradY, magnitude, width, height, ops);
    ghost var samples := BandSamples(gradX, gradY, magnitude, width, height, MaskBottom(height), ops);
    BandSamplesFromBand(gradX, gradY, magnitude, width, height, MaskBottom(height), ops);
    assert forall i :: 0 <= i < |samples| ==> samples[i] in samples;
    var angle := WeightedAverage(angles, weights);
    WeightedMeanBounds(angles, weights, -90.0, 90.0);
    var confidence := HorizonConfidence(weights, width, height);
    var line := LineThrough(Point(width as real / 2.0, height as real / 2.0), angle, MaxInt(width, height) as real, ops);
    res := HorizonResult(angle, confidence, line);
  }
}
