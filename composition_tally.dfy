/**
 * The accumulator loops of `computeMetrics` (composition_engine.js): the luminance
 * tally, the strong-edge and horizon tally over the interior, the sharpness sum, the
 * saturation sum, and the top-half/bottom-half luminance sums.
 */
module CompositionTally {
  import opened Numeric
  import opened Wrappers
  import opened Horizon

  // ---- luminance and gradient tally ----

  predicate IsShadow(v: real) { v < 15.0 }
  predicate IsHighlight(v: real) { v > 240.0 }
  predicate IsMidtone(v: real) { v > 96.0 && v < 192.0 }

  datatype ToneTally = ToneTally(
    gradientSum: real, shadowClipped: nat, highlightClipped: nat, midtoneSum: real, midtoneCount: nat)

  /** What the first `n` pixels contribute to the luminance tally. */
  function ToneTallyOf(gray: seq<real>, gradient: seq<real>, n: nat): ToneTally
    requires n <= |gray| && n <= |gradient|
  {
    if n == 0 then ToneTally(0.0, 0, 0, 0.0, 0)
    else
      var t := ToneTallyOf(gray, gradient, n - 1);
      var v := gray[n - 1];
      ToneTally(
        t.gradientSum + gradient[n - 1],
        t.shadowClipped + (if IsShadow(v) then 1 else 0),
        t.highlightClipped + (if IsHighlight(v) then 1 else 0),
        t.midtoneSum + (if IsMidtone(v) then v else 0.0),
        t.midtoneCount + (if IsMidtone(v) then 1 else 0))
  }

  /** The pixel loop that counts clipped shadows and highlights and sums midtones and gradients. */
  method TallyTones(gray: seq<real>, gradient: seq<real>) returns (t: ToneTally)
    requires |gray| == |gradient|
    ensures t == ToneTallyOf(gray, gradient, |gray|)
  {
    var gradientSum, shadowClipped, highlightClipped, midtoneSum, midtoneCount := 0.0, 0, 0, 0.0, 0;
    var i := 0;
    while i < |gray|
      invariant 0 <= i <= |gray|
      invariant ToneTallyOf(gray, gradient, i) ==
        ToneTally(gradientSum, shadowClipped, highlightClipped, midtoneSum, midtoneCount)
    {
      var g := gradient[i];
      gradientSum := gradientSum + g;
      if gray[i] < 15.0 {
        shadowClipped := shadowClipped + 1;
      }
      if gray[i] > 240.0 {
        highlightClipped := highlightClipped + 1;
      }
      if gray[i] > 96.0 && gray[i] < 192.0 {
        midtoneSum := midtoneSum + gray[i];
        midtoneCount := midtoneCount + 1;
      }
      i := i + 1;
    }
    t := ToneTally(gradientSum, shadowClipped, highlightClipped, midtoneSum, midtoneCount);
  }

  /**
   * The three luminance classes are disjoint, so their counts add up to at most the
   * pixel count; the midtone sum lies between 96 and 192 times the midtone count; and a
   * gradient of non-negative magnitudes sums to a non-negative value.
   */
  lemma {:induction false} ToneTallyFacts(gray: seq<real>, gradient: seq<real>, n: nat)
    requires n <= |gray| && n <= |gradient|
    requires forall i :: 0 <= i < n ==> 0.0 <= gradient[i]
    ensures var t := ToneTallyOf(gray, gradient, n);
      && t.shadowClipped + t.highlightClipped + t.midtoneCount <= n
      && 96.0 * t.midtoneCount as real <= t.midtoneSum <= 192.0 * t.midtoneCount as real
      && 0.0 <= t.gradientSum
  {
    if n > 0 {
      ToneTallyFacts(gray, gradient, n - 1);
    }
  }

  // ---- strong-edge and horizon tally ----

  /** The gradient fields of an image and the two percentile thresholds of the edge loop. */
  datatype EdgeInput = EdgeInput(
    gradX: seq<real>, gradY: seq<real>, gradient: seq<real>, width: nat, height: nat,
    strongThreshold: Option<real>, horizonThreshold: Option<real>, ops: Ops)

  predicate WellFormed(inp: EdgeInput) {
    |inp.gradX| == |inp.gradY| == |inp.gradient| == inp.width * inp.height
    && forall i :: 0 <= i < |inp.gradient| ==> 0.0 <= inp.gradient[i]
  }

  datatype EdgeTally = EdgeTally(
    minX: int, minY: int, maxX: int, maxY: int, sumX: int, sumY: int, strongCount: nat,
    horizonAngle: real, horizonWeight: real,
    orientationSumX: real, orientationSumY: real, orientationCount: real)

  /** The accumulators before the loop: the bounding box starts inverted at (W, H)-(0, 0). */
  function InitialEdgeTally(width: nat, height: nat): EdgeTally {
    EdgeTally(width, height, 0, 0, 0, 0, 0, 0.0, 0.0, 0.0, 0.0, 0.0)
  }

  /** `magnitude > threshold`, where an undefined threshold is never exceeded. */
  predicate Exceeds(magnitude: real, threshold: Option<real>) {
    threshold.Some? && magnitude > threshold.value
  }

  /** `((atan2(gy, gx) in degrees + 90) + 180) % 180 - 90`. */
  function LineAngle(gx: real, gy: real, ops: Ops): (a: real)
    ensures -90.0 <= a < 90.0
  {
    AtanRange(gy, gx, ops);
    var angle := ops.atan2Deg(gy, gx) + 90.0;
    JsRem(angle + 180.0, 180.0) - 90.0
  }

  /** Whether row `y` lies strictly inside the band (H/4, 3H/4). */
  predicate InHorizonBand(y: int, height: nat) {
    y as real > height as real * 0.25 && (y as real) < height as real * 0.75
  }

  /** The strong-edge part of one pixel's contribution: grow the box, add the coordinates. */
  function StrongStep(t: EdgeTally, x: int, y: int, magnitude: real, threshold: Option<real>): EdgeTally {
    if Exceeds(magnitude, threshold) then
      t.(minX := MinInt(t.minX, x), maxX := MaxInt(t.maxX, x), minY := MinInt(t.minY, y), maxY := MaxInt(t.maxY, y),
         sumX := t.sumX + x, sumY := t.sumY + y, strongCount := t.strongCount + 1)
    else t
  }

  /** The horizon part: inside the band, add the magnitude-weighted line angle and orientation. */
  function HorizonStep(t: EdgeTally, y: int, height: nat, magnitude: real, threshold: Option<real>,
                       gx: real, gy: real, ops: Ops): EdgeTally
  {
    if Exceeds(magnitude, threshold) && InHorizonBand(y, height) then
      var orientation := ops.atan2Deg(gy, gx);
      t.(horizonAngle := t.horizonAngle + LineAngle(gx, gy, ops) * magnitude,
         horizonWeight := t.horizonWeight + magnitude,
         orientationSumX := t.orientationSumX + ops.cosDeg(2.0 * orientation) * magnitude,
         orientationSumY := t.orientationSumY + ops.sinDeg(2.0 * orientation) * magnitude,
         orientationCount := t.orientationCount + magnitude)
    else t
  }

  /** One interior pixel's contribution. */
  function EdgeStep(inp: EdgeInput, t: EdgeTally, x: int, y: int): EdgeTally
    requires WellFormed(inp) && 0 <= y < inp.height && 0 <= x < inp.width
  {
    RowIndex(y, x, inp.width, inp.height);
    var idx := y * inp.width + x;
    var magnitude := inp.gradient[idx];
    HorizonStep(StrongStep(t, x, y, magnitude, inp.strongThreshold), y, inp.height, magnitude,
                inp.horizonThreshold, inp.gradX[idx], inp.gradY[idx], inp.ops)
  }

  /** Columns [1, xe) of row y, on top of `t`. */
  function EdgeRow(inp: EdgeInput, y: int, xe: int, t: EdgeTally): EdgeTally
    requires WellFormed(inp) && 0 <= y < inp.height && xe <= MaxInt(inp.width - 1, 1)
    decreases xe
  {
    if xe <= 1 then t else EdgeStep(inp, EdgeRow(inp, y, xe - 1, t), xe - 1, y)
  }

  /** Rows [1, ye) of the interior. */
  function EdgeRows(inp: EdgeInput, ye: int): EdgeTally
    requires WellFormed(inp) && ye <= MaxInt(inp.height - 1, 1)
    decreases ye
  {
    if ye <= 1 then InitialEdgeTally(inp.width, inp.height)
    else EdgeRow(inp, ye - 1, inp.width - 1, EdgeRows(inp, ye - 1))
  }

  /** The tally of the whole interior. */
  function EdgeTallyOf(inp: EdgeInput): EdgeTally
    requires WellFormed(inp)
  {
    EdgeRows(inp, inp.height - 1)
  }

  /**
   * What the edge loop keeps true: without a strong edge the box is still the initial
   * one; with strong edges it lies in the interior and the coordinate sums lie between
   * count * min and count * max; the horizon weight is never negative and the weighted
   * angle sum stays within 90 times it.
   */
  predicate EdgeTallyOk(t: EdgeTally, width: nat, height: nat) {
    && (t.strongCount == 0 ==> t.minX == width && t.minY == height && t.maxX == 0 && t.maxY == 0
                               && t.sumX == 0 && t.sumY == 0)
    && (t.strongCount > 0 ==>
          && 1 <= t.minX <= t.maxX <= width - 2 && 1 <= t.minY <= t.maxY <= height - 2
          && t.strongCount * t.minX <= t.sumX <= t.strongCount * t.maxX
          && t.strongCount * t.minY <= t.sumY <= t.strongCount * t.maxY)
    && 0.0 <= t.horizonWeight && 0.0 <= t.orientationCount
    && -90.0 * t.horizonWeight <= t.horizonAngle <= 90.0 * t.horizonWeight
  }

  /** Adding one coordinate keeps count * min <= sum <= count * max. */
  lemma SumBetween(count: nat, lo: int, hi: int, sum: int, v: int)
    requires count > 0 && count * lo <= sum <= count * hi
    ensures (count + 1) * MinInt(lo, v) <= sum + v <= (count + 1) * MaxInt(hi, v)
  {
    MulMono(MinInt(lo, v), lo, count);
    MulMono(hi, MaxInt(hi, v), count);
  }

  lemma WeightedAngleStep(sum: real, weight: real, angle: real, magnitude: real)
    requires 0.0 <= weight && -90.0 * weight <= sum <= 90.0 * weight
    requires -90.0 <= angle <= 90.0 && 0.0 <= magnitude
    ensures -90.0 * (weight + magnitude) <= sum + angle * magnitude <= 90.0 * (weight + magnitude)
  {
    var above, below := angle + 90.0, 90.0 - angle;
    assert above * magnitude >= 0.0;
    assert below * magnitude >= 0.0;
    assert above * magnitude == angle * magnitude + 90.0 * magnitude;
    assert below * magnitude == 90.0 * magnitude - angle * magnitude;
  }

  lemma StrongStepOk(t: EdgeTally, x: int, y: int, magnitude: real, threshold: Option<real>, width: nat, height: nat)
    requires 1 <= y < height - 1 && 1 <= x < width - 1
    requires EdgeTallyOk(t, width, height)
    ensures EdgeTallyOk(StrongStep(t, x, y, magnitude, threshold), width, height)
  {
    if Exceeds(magnitude, threshold) && t.strongCount > 0 {
      SumBetween(t.strongCount, t.minX, t.maxX, t.sumX, x);
      SumBetween(t.strongCount, t.minY, t.maxY, t.sumY, y);
    }
  }

  lemma HorizonStepOk(t: EdgeTally, y: int, height: nat, magnitude: real, threshold: Option<real>,
                      gx: real, gy: real, ops: Ops, width: nat)
    requires EdgeTallyOk(t, width, height) && 0.0 <= magnitude
    ensures EdgeTallyOk(HorizonStep(t, y, height, magnitude, threshold, gx, gy, ops), width, height)
  {
    if Exceeds(magnitude, threshold) && InHorizonBand(y, height) {
      WeightedAngleStep(t.horizonAngle, t.horizonWeight, LineAngle(gx, gy, ops), magnitude);
    }
  }

  lemma EdgeStepOk(inp: EdgeInput, t: EdgeTally, x: int, y: int)
    requires WellFormed(inp) && 1 <= y < inp.height - 1 && 1 <= x < inp.width - 1
    requires EdgeTallyOk(t, inp.width, inp.height)
    ensures EdgeTallyOk(EdgeStep(inp, t, x, y), inp.width, inp.height)
  {
    RowIndex(y, x, inp.width, inp.height);
    var idx := y * inp.width + x;
    var magnitude := inp.gradient[idx];
    StrongStepOk(t, x, y, magnitude, inp.strongThreshold, inp.width, inp.height);
    HorizonStepOk(StrongStep(t, x, y, magnitude, inp.strongThreshold), y, inp.height, magnitude,
                  inp.horizonThreshold, inp.gradX[idx], inp.gradY[idx], inp.ops, inp.width);
  }

  lemma {:induction false} EdgeRowOk(inp: EdgeInput, y: int, xe: int, t: EdgeTally)
    requires WellFormed(inp) && 1 <= y < inp.height - 1 && xe <= inp.width - 1
    requires EdgeTallyOk(t, inp.width, inp.height)
    ensures EdgeTallyOk(EdgeRow(inp, y, xe, t), inp.width, inp.height)
    decreases xe
  {
    if xe > 1 {
      var prev := EdgeRow(inp, y, xe - 1, t);
      EdgeRowOk(inp, y, xe - 1, t);
      EdgeStepOk(inp, prev, xe - 1, y);
      assert EdgeRow(inp, y, xe, t) == EdgeStep(inp, prev, xe - 1, y);
    }
  }

  /** The edge loop's tally keeps `EdgeTallyOk` over the whole interior. */
  lemma {:induction false} EdgeRowsOk(inp: EdgeInput, ye: int)
    requires WellFormed(inp) && ye <= inp.height - 1
    ensures EdgeTallyOk(EdgeRows(inp, ye), inp.width, inp.height)
    decreases ye
  {
    if ye > 1 {
      EdgeRowsOk(inp, ye - 1);
      EdgeRowOk(inp, ye - 1, inp.width - 1, EdgeRows(inp, ye - 1));
    }
  }

  /** The edge loop's final tally satisfies `EdgeTallyOk`. */
  lemma EdgeTallyOfOk(inp: EdgeInput)
    requires WellFormed(inp)
    ensures EdgeTallyOk(EdgeTallyOf(inp), inp.width, inp.height)
  {
    EdgeRowsOk(inp, inp.height - 1);
  }

  /** The strong-edge branch of the inner edge loop. */
  method AccumulateStrong(t: EdgeTally, x: int, y: int, magnitude: real, gradientThreshold: Option<real>)
    returns (r: EdgeTally)
    ensures r == StrongStep(t, x, y, magnitude, gradientThreshold)
  {
    r := t;
    if gradientThreshold.Some? && magnitude > gradientThreshold.value {
      if x < r.minX { r := r.(minX := x); }
      if x > r.maxX { r := r.(maxX := x); }
      if y < r.minY { r := r.(minY := y); }
      if y > r.maxY { r := r.(maxY := y); }
      r := r.(sumX := r.sumX + x, sumY := r.sumY + y, strongCount := r.strongCount + 1);
    }
  }

  /** The horizon branch of the inner edge loop. */
  method AccumulateHorizon(t: EdgeTally, y: int, height: nat, magnitude: real, horizonThreshold: Option<real>,
                           gx: real, gy: real, ops: Ops)
    returns (r: EdgeTally)
    ensures r == HorizonStep(t, y, height, magnitude, horizonThreshold, gx, gy, ops)
  {
    r := t;
    if horizonThreshold.Some? && magnitude > horizonThreshold.value
       && y as real > height as real * 0.25 && (y as real) < height as real * 0.75 {
      AtanRange(gy, gx, ops);
      var angle := ops.atan2Deg(gy, gx) + 90.0;
      var normalized := JsRem(angle + 180.0, 180.0) - 90.0;
      assert normalized == LineAngle(gx, gy, ops);
      r := r.(horizonAngle := r.horizonAngle + normalized * magnitude, horizonWeight := r.horizonWeight + magnitude);
      var orientation := ops.atan2Deg(gy, gx);
      r := r.(orientationSumX := r.orientationSumX + ops.cosDeg(2.0 * orientation) * magnitude,
              orientationSumY := r.orientationSumY + ops.sinDeg(2.0 * orientation) * magnitude,
              orientationCount := r.orientationCount + magnitude);
      assert Exceeds(magnitude, horizonThreshold) && InHorizonBand(y, height);
    } else {
      assert !(Exceeds(magnitude, horizonThreshold) && InHorizonBand(y, height));
    }
  }

  /** The body of the inner edge loop for pixel (x, y). */
  method AccumulateEdge(inp: EdgeInput, t: EdgeTally, x: int, y: int) returns (r: EdgeTally)
    requires WellFormed(inp) && 0 <= y < inp.height && 0 <= x < inp.width
    ensures r == EdgeStep(inp, t, x, y)
  {
    RowIndex(y, x, inp.width, inp.height);
    var idx := y * inp.width + x;
    var magnitude := inp.gradient[idx];
    r := AccumulateStrong(t, x, y, magnitude, inp.strongThreshold);
    r := AccumulateHorizon(r, y, inp.height, magnitude, inp.horizonThreshold, inp.gradX[idx], inp.gradY[idx], inp.ops);
  }

  /** The inner edge loop over columns [1, W-1) of row y. */
  method TallyEdgeRow(inp: EdgeInput, y: int, t0: EdgeTally) returns (t: EdgeTally)
    requires WellFormed(inp) && 0 <= y < inp.height
    ensures t == EdgeRow(inp, y, inp.width - 1, t0)
  {
    t := t0;
    var x := 1;
    while x < inp.width - 1
      invariant 1 <= x <= MaxInt(inp.width - 1, 1)
      invariant t == EdgeRow(inp, y, x, t0)
    {
      t := AccumulateEdge(inp, t, x, y);
      x := x + 1;
    }
  }

  /** The edge loop over the interior rows [1, H-1). */
  method TallyEdges(inp: EdgeInput) returns (t: EdgeTally)
    requires WellFormed(inp)
    ensures t == EdgeTallyOf(inp)
  {
    t := InitialEdgeTally(inp.width, inp.height);
    var y := 1;
    while y < inp.height - 1
      invariant 1 <= y <= MaxInt(inp.height - 1, 1)
      invariant t == EdgeRows(inp, y)
    {
      t := TallyEdgeRow(inp, y, t);
      y := y + 1;
    }
  }

  // ---- sharpness and saturation ----

  function SumSquares(s: seq<real>): (r: real)
    ensures 0.0 <= r
  {
    if |s| == 0 then 0.0
    else
      var v := s[|s| - 1];
      assert 0.0 <= v * v;
      SumSquares(s[..|s| - 1]) + v * v
  }

  /** The sharpness loop: the sum of squared gradient magnitudes. */
  method SharpnessSum(gradient: seq<real>) returns (acc: real)
    ensures acc == SumSquares(gradient)
    ensures 0.0 <= acc
  {
    acc := 0.0;
    var i := 0;
    while i < |gradient|
      invariant 0 <= i <= |gradient| && acc == SumSquares(gradient[..i])
    {
      assert gradient[..i + 1][..i] == gradient[..i];
      acc := acc + gradient[i] * gradient[i];
      i := i + 1;
    }
    assert gradient[..i] == gradient;
  }

  function Max3(a: real, b: real, c: real): real { Max(Max(a, b), c) }
  function Min3(a: real, b: real, c: real): real { Min(Min(a, b), c) }

  /** `max(r, g, b) - min(r, g, b)` of pixel p, channels scaled to [0, 1]. */
  function Chroma(data: seq<int>, p: nat): real
    requires 4 * p + 2 < |data|
  {
    var r, g, b := data[4 * p] as real / 255.0, data[4 * p + 1] as real / 255.0, data[4 * p + 2] as real / 255.0;
    Max3(r, g, b) - Min3(r, g, b)
  }

  /** A pixel's chroma lies in [0, 1], and is 0 exactly for a grey pixel. */
  lemma ChromaRange(data: seq<int>, p: nat)
    requires 4 * p + 2 < |data|
    requires 0 <= data[4 * p] <= 255 && 0 <= data[4 * p + 1] <= 255 && 0 <= data[4 * p + 2] <= 255
    ensures 0.0 <= Chroma(data, p) <= 1.0
    ensures Chroma(data, p) == 0.0 <==> data[4 * p] == data[4 * p + 1] == data[4 * p + 2]
  {
  }

  function ChromaSum(data: seq<int>, n: nat): real
    requires 4 * n <= |data|
  {
    if n == 0 then 0.0 else ChromaSum(data, n - 1) + Chroma(data, n - 1)
  }

  lemma {:induction false} ChromaSumBounds(data: seq<int>, n: nat)
    requires 4 * n <= |data|
    requires forall i :: 0 <= i < |data| ==> 0 <= data[i] <= 255
    ensures 0.0 <= ChromaSum(data, n) <= n as real
  {
    if n > 0 {
      ChromaSumBounds(data, n - 1);
      ChromaRange(data, n - 1);
    }
  }

  /** The saturation loop over the pixels. */
  method SaturationSum(data: seq<int>, pixelCount: nat) returns (saturationSum: real)
    requires 4 * pixelCount <= |data|
    ensures saturationSum == ChromaSum(data, pixelCount)
  {
    saturationSum := 0.0;
    var i := 0;
    while i < pixelCount
      invariant 0 <= i <= pixelCount && saturationSum == ChromaSum(data, i)
    {
      var idx := i * 4;
      var r := data[idx] as real / 255.0;
      var g := data[idx + 1] as real / 255.0;
      var b := data[idx + 2] as real / 255.0;
      var max := Max3(r, g, b);
      var min := Min3(r, g, b);
      saturationSum := saturationSum + (max - min);
      i := i + 1;
    }
  }

  // ---- top and bottom halves ----

  /** `Math.floor(height / 2)`. */
  function Half(height: nat): (half: nat)
    ensures 2 * half <= height < 2 * half + 2
  {
    height / 2
  }

  lemma SumSlice(s: seq<real>, a: nat, k: nat)
    requires a <= k < |s|
    ensures Sum(s[a..k + 1]) == Sum(s[a..k]) + s[k]
  {
    assert s[a..k + 1][..k - a] == s[a..k];
  }

  /** The rows [y0, y1) of a row-major field, summed in loop order. */
  method SumRows(gray: seq<real>, width: nat, height: nat, y0: nat, y1: nat) returns (total: real)
    requires |gray| == width * height && y0 <= y1 <= height
    ensures total == Sum(gray[y0 * width..y1 * width])
  {
    MulMono(y0, y1, width);
    MulMono(y1, height, width);
    total := 0.0;
    var y := y0;
    while y < y1
      invariant y0 <= y <= y1 && y * width <= |gray|
      invariant total == Sum(gray[y0 * width..y * width])
    {
      MulMono(y + 1, height, width);
      MulMono(y0, y, width);
      var x := 0;
      while x < width
        invariant 0 <= x <= width && y0 * width <= y * width + x <= (y + 1) * width <= |gray|
        invariant total == Sum(gray[y0 * width..y * width + x])
      {
        SumSlice(gray, y0 * width, y * width + x);
        total := total + gray[y * width + x];
        x := x + 1;
      }
      y := y + 1;
    }
  }

  lemma {:induction false} SumSplit(s: seq<real>, k: nat)
    requires k <= |s|
    ensures Sum(s) == Sum(s[..k]) + Sum(s[k..])
    decreases |s| - k
  {
    if k < |s| {
      SumSplit(s, k + 1);
      SumSlice(s, k, |s| - 1);
      assert s[k..] == s[k..|s|];
      assert s[..k + 1][..k] == s[..k];
      SumSlice(s, 0, k);
      assert s[0..k + 1] == s[..k + 1] && s[0..k] == s[..k];
      if k + 1 < |s| {
        SumSplitTail(s, k);
      } else {
        assert s[k + 1..] == [];
        assert s[k..] == [s[k]];
        assert s[..k + 1] == s;
      }
    } else {
      assert s[..k] == s && s[k..] == [];
    }
  }

  lemma {:induction false} SumSplitTail(s: seq<real>, k: nat)
    requires k + 1 < |s|
    ensures Sum(s[k..]) == s[k] + Sum(s[k + 1..])
    decreases |s| - k
  {
    var t := s[k..];
    assert t[1..] == s[k + 1..];
    SumFront(t);
  }

  lemma {:induction false} SumFront(t: seq<real>)
    requires |t| > 0
    ensures Sum(t) == t[0] + Sum(t[1..])
    decreases |t|
  {
    if |t| > 1 {
      SumFront(t[..|t| - 1]);
      assert t[..|t| - 1][1..] == t[1..][..|t| - 2];
    } else {
      assert t[1..] == [];
    }
  }
}
