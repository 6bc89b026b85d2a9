/**
 * The gradient-based saliency fallback (saliency_fallback.js): Sobel magnitude of
 * the BT.709 luminance, normalised to [0, 1], summed into an integral table,
 * searched for the best-scoring window, and the confidence of that window.
 */
module Saliency {
  import opened Numeric
  import opened Wrappers
  import opened Gradient
  import opened IntegralImage
  import opened SaliencyScan

  /** `SOBEL_X` and `SOBEL_Y`, row-major 3x3. */
  const SOBEL_X: seq<real> := [-1.0, 0.0, 1.0, -2.0, 0.0, 2.0, -1.0, 0.0, 1.0]
  const SOBEL_Y: seq<real> := [-1.0, -2.0, -1.0, 0.0, 0.0, 0.0, 1.0, 2.0, 1.0]

  /** Tap (kx, ky) of a 3x3 kernel around interior pixel (x, y): its sample times its weight. */
  function Tap(g: seq<real>, w: nat, h: nat, x: int, y: int, kernel: seq<real>, ky: int, kx: int): real
    requires |g| == w * h && Interior(x, y, w, h) && |kernel| == 9 && -1 <= ky <= 1 && -1 <= kx <= 1
  {
    Px(g, w, h, x + kx, y + ky) * kernel[(ky + 1) * 3 + (kx + 1)]
  }

  /** The first `n` taps (0 to 3) of kernel row `ky`, in loop order. */
  function RowTaps(g: seq<real>, w: nat, h: nat, x: int, y: int, kernel: seq<real>, ky: int, n: nat): real
    requires |g| == w * h && Interior(x, y, w, h) && |kernel| == 9 && -1 <= ky <= 1 && n <= 3
  {
    (if n >= 1 then Tap(g, w, h, x, y, kernel, ky, -1) else 0.0)
    + (if n >= 2 then Tap(g, w, h, x, y, kernel, ky, 0) else 0.0)
    + (if n >= 3 then Tap(g, w, h, x, y, kernel, ky, 1) else 0.0)
  }

  /** The first `r` kernel rows (0 to 3), in loop order. */
  function KernelRows(g: seq<real>, w: nat, h: nat, x: int, y: int, kernel: seq<real>, r: nat): real
    requires |g| == w * h && Interior(x, y, w, h) && |kernel| == 9 && r <= 3
  {
    (if r >= 1 then RowTaps(g, w, h, x, y, kernel, -1, 3) else 0.0)
    + (if r >= 2 then RowTaps(g, w, h, x, y, kernel, 0, 3) else 0.0)
    + (if r >= 3 then RowTaps(g, w, h, x, y, kernel, 1, 3) else 0.0)
  }

  /** One tap of the `kx` loop: the flat index is in range and extends the row sum by one term. */
  lemma KernelTap(g: seq<real>, w: nat, h: nat, x: int, y: int, kernel: seq<real>, ky: int, kx: int)
    requires |g| == w * h && Interior(x, y, w, h) && |kernel| == 9
    requires -1 <= ky <= 1 && -1 <= kx <= 1
    ensures 0 <= (y + ky) * w + (x + kx) < |g|
    ensures RowTaps(g, w, h, x, y, kernel, ky, kx + 2)
      == RowTaps(g, w, h, x, y, kernel, ky, kx + 1) + g[(y + ky) * w + (x + kx)] * kernel[(ky + 1) * 3 + (kx + 1)]
  {
    RowIndex(y + ky, x + kx, w, h);
  }

  /** The kernel loop over `SOBEL_X` computes the closed-form horizontal Sobel response. */
  lemma KernelIsSobelX(g: seq<real>, w: nat, h: nat, x: int, y: int)
    requires |g| == w * h && Interior(x, y, w, h)
    ensures KernelRows(g, w, h, x, y, SOBEL_X, 3) == SobelX(g, w, h, x, y)
  {
  }

  /** The kernel loop over `SOBEL_Y` computes the closed-form vertical Sobel response. */
  lemma KernelIsSobelY(g: seq<real>, w: nat, h: nat, x: int, y: int)
    requires |g| == w * h && Interior(x, y, w, h)
    ensures KernelRows(g, w, h, x, y, SOBEL_Y, 3) == SobelY(g, w, h, x, y)
  {
  }

  /** The innermost `kx` loop of `convolveSobel`: the three taps of kernel row `ky`; `k` runs on by 3. */
  method ApplyKernelRow(gray: seq<real>, width: nat, height: nat, x: int, y: int, ky: int, k0: nat, gx0: real, gy0: real)
    returns (gx: real, gy: real, k: nat)
    requires |gray| == width * height && Interior(x, y, width, height) && -1 <= ky <= 1 && k0 == (ky + 1) * 3
    ensures gx == gx0 + RowTaps(gray, width, height, x, y, SOBEL_X, ky, 3)
    ensures gy == gy0 + RowTaps(gray, width, height, x, y, SOBEL_Y, ky, 3)
    ensures k == k0 + 3
  {
    gx, gy, k := gx0, gy0, k0;
    var kx := -1;
    while kx <= 1
      invariant -1 <= kx <= 2 && k == k0 + (kx + 1)
      invariant gx == gx0 + RowTaps(gray, width, height, x, y, SOBEL_X, ky, kx + 1)
      invariant gy == gy0 + RowTaps(gray, width, height, x, y, SOBEL_Y, ky, kx + 1)
    {
      KernelTap(gray, width, height, x, y, SOBEL_X, ky, kx);
      KernelTap(gray, width, height, x, y, SOBEL_Y, ky, kx);
      var sample := gray[(y + ky) * width + (x + kx)];
      gx := gx + sample * SOBEL_X[k];
      gy := gy + sample * SOBEL_Y[k];
      k := k + 1;
      kx := kx + 1;
    }
  }

  /** The two kernel loops of `convolveSobel` at one interior pixel. */
  method ApplyKernels(gray: seq<real>, width: nat, height: nat, x: int, y: int) returns (gx: real, gy: real)
    requires |gray| == width * height && Interior(x, y, width, height)
    ensures gx == SobelX(gray, width, height, x, y) && gy == SobelY(gray, width, height, x, y)
  {
    gx, gy := 0.0, 0.0;
    var k := 0;
    var ky := -1;
    while ky <= 1
      invariant -1 <= ky <= 2 && k == (ky + 1) * 3
      invariant gx == KernelRows(gray, width, height, x, y, SOBEL_X, ky + 1)
      invariant gy == KernelRows(gray, width, height, x, y, SOBEL_Y, ky + 1)
    {
      gx, gy, k := ApplyKernelRow(gray, width, height, x, y, ky, k, gx, gy);
      ky := ky + 1;
    }
    KernelIsSobelX(gray, width, height, x, y);
    KernelIsSobelY(gray, width, height, x, y);
  }

  /**
   * `convolveSobel`: the same gradient field as `Gradient.ComputeGradient`, computed
   * with a 3x3 kernel loop; zero on the one-pixel border.
   */
  method ConvolveSobel(gray: seq<real>, width: nat, height: nat, ops: Ops)
    returns (gradX: seq<real>, gradY: seq<real>, magnitude: seq<real>)
    requires |gray| == width * height
    ensures |gradX| == |gradY| == |magnitude| == width * height
    ensures forall p :: 0 <= p < width * height ==>
      gradX[p] == GxAt(gray, width, height, p) && gradY[p] == GyAt(gray, width, height, p)
      && magnitude[p] == MagAt(gray, width, height, p, ops)
    ensures gradX == GxSeq(gray, width, height) && gradY == GySeq(gray, width, height)
    ensures magnitude == MagSeq(gray, width, height, ops)
  {
    var n := width * height;
    var ax := new real[n](_ => 0.0);
    var ay := new real[n](_ => 0.0);
    var am := new real[n](_ => 0.0);
    forall p | 0 <= p < n
      ensures PartX(gray, width, height, p, 1, 1) == 0.0 && PartY(gray, width, height, p, 1, 1) == 0.0
      ensures PartMag(gray, width, height, p, 1, 1, ops) == 0.0
    {
      PartEnds(gray, width, height, p, ops);
    }
    var y := 1;
    while y < height - 1
      invariant 1 <= y && (height >= 2 ==> y <= height - 1)
      invariant forall p :: 0 <= p < n ==> ax[p] == PartX(gray, width, height, p, 1, y)
      invariant forall p :: 0 <= p < n ==> ay[p] == PartY(gray, width, height, p, 1, y)
      invariant forall p :: 0 <= p < n ==> am[p] == PartMag(gray, width, height, p, 1, y, ops)
    {
      var x := 1;
      while x < width - 1
        invariant 1 <= x && (width >= 2 ==> x <= width - 1)
        invariant forall p :: 0 <= p < n ==> ax[p] == PartX(gray, width, height, p, x, y)
        invariant forall p :: 0 <= p < n ==> ay[p] == PartY(gray, width, height, p, x, y)
        invariant forall p :: 0 <= p < n ==> am[p] == PartMag(gray, width, height, p, x, y, ops)
      {
        var gx, gy := ApplyKernels(gray, width, height, x, y);
        RowIndex(y, x, width, height);
        var idx := y * width + x;
        ax[idx] := gx;
        ay[idx] := gy;
        am[idx] := ops.hypot(gx, gy);
        forall p | 0 <= p < n
          ensures ax[p] == PartX(gray, width, height, p, x + 1, y)
          ensures ay[p] == PartY(gray, width, height, p, x + 1, y)
          ensures am[p] == PartMag(gray, width, height, p, x + 1, y, ops)
        {
          PartStep(gray, width, height, p, x, y, ops);
        }
        x := x + 1;
      }
      forall p | 0 <= p < n
        ensures ax[p] == PartX(gray, width, height, p, 1, y + 1)
        ensures ay[p] == PartY(gray, width, height, p, 1, y + 1)
        ensures am[p] == PartMag(gray, width, height, p, 1, y + 1, ops)
      {
        PartNextRow(gray, width, height, p, x, y, ops);
      }
      y := y + 1;
    }
    forall p | 0 <= p < n
      ensures ax[p] == GxAt(gray, width, height, p) && ay[p] == GyAt(gray, width, height, p)
      ensures am[p] == MagAt(gray, width, height, p, ops)
    {
      PartEnds(gray, width, height, p, ops);
    }
    gradX, gradY, magnitude := ax[..], ay[..], am[..];
    assert gradX == GxSeq(gray, width, height) && gradY == GySeq(gray, width, height);
  }

  // ---- normalize ----

  /** The loop `if (v < min) min = v` over the whole sequence. */
  function SeqMin(s: seq<real>): (m: real)
    requires |s| > 0
    ensures forall i :: 0 <= i < |s| ==> m <= s[i]
  {
    if |s| == 1 then s[0]
    else
      var m := SeqMin(s[..|s| - 1]);
      assert forall i :: 0 <= i < |s| - 1 ==> s[..|s| - 1][i] == s[i];
      Min(m, s[|s| - 1])
  }

  /** The loop `if (v > max) max = v` over the whole sequence. */
  function SeqMax(s: seq<real>): (m: real)
    requires |s| > 0
    ensures forall i :: 0 <= i < |s| ==> s[i] <= m
  {
    if |s| == 1 then s[0]
    else
      var m := SeqMax(s[..|s| - 1]);
      assert forall i :: 0 <= i < |s| - 1 ==> s[..|s| - 1][i] == s[i];
      Max(m, s[|s| - 1])
  }

  /** Both bounds are values of the sequence. */
  lemma {:induction false} BoundsAttained(s: seq<real>)
    requires |s| > 0
    ensures exists i :: 0 <= i < |s| && s[i] == SeqMin(s)
    ensures exists i :: 0 <= i < |s| && s[i] == SeqMax(s)
  {
    var last := |s| - 1;
    if |s| == 1 {
      assert s[last] == SeqMin(s) && s[last] == SeqMax(s);
    } else {
      var prefix := s[..last];
      BoundsAttained(prefix);
      var i :| 0 <= i < |prefix| && prefix[i] == SeqMin(prefix);
      var j :| 0 <= j < |prefix| && prefix[j] == SeqMax(prefix);
      assert s[i] == prefix[i] && s[j] == prefix[j];
      if SeqMin(s) == s[last] {
        assert s[last] == SeqMin(s);
      } else {
        assert s[i] == SeqMin(s);
      }
      if SeqMax(s) == s[last] {
        assert s[last] == SeqMax(s);
      } else {
        assert s[j] == SeqMax(s);
      }
    }
  }

  /** `max - min || 1`: the spread, or 1 when all values are equal. */
  function NormRange(s: seq<real>): (r: real)
    requires |s| > 0
    ensures r > 0.0
    ensures r == 1.0 || r == SeqMax(s) - SeqMin(s)
  {
    if SeqMax(s) - SeqMin(s) == 0.0 then 1.0 else SeqMax(s) - SeqMin(s)
  }

  /** The normalised map, as a value. */
  function Normalized(s: seq<real>): (r: seq<real>)
    ensures |r| == |s|
  {
    if |s| == 0 then [] else seq(|s|, i requires 0 <= i < |s| => (s[i] - SeqMin(s)) / NormRange(s))
  }

  lemma UnitQuotient(a: real, r: real)
    requires 0.0 <= a <= r && r > 0.0
    ensures 0.0 <= a / r <= 1.0
  {
  }

  lemma QuotientMono(a: real, b: real, r: real)
    requires a <= b && r > 0.0
    ensures a / r <= b / r
  {
  }

  /** Normalising puts every value in [0, 1] and keeps the order of values. */
  lemma NormalizedRange(s: seq<real>)
    ensures forall i :: 0 <= i < |s| ==> 0.0 <= Normalized(s)[i] <= 1.0
    ensures forall i, j :: 0 <= i < |s| && 0 <= j < |s| && s[i] <= s[j] ==> Normalized(s)[i] <= Normalized(s)[j]
  {
    if |s| > 0 {
      var n := Normalized(s);
      forall i | 0 <= i < |s|
        ensures 0.0 <= n[i] <= 1.0
      {
        UnitQuotient(s[i] - SeqMin(s), NormRange(s));
      }
      forall i, j | 0 <= i < |s| && 0 <= j < |s| && s[i] <= s[j]
        ensures n[i] <= n[j]
      {
        QuotientMono(s[i] - SeqMin(s), s[j] - SeqMin(s), NormRange(s));
      }
    }
  }

  /** The minimum goes to 0. */
  lemma NormalizedMinIsZero(s: seq<real>, i: int)
    requires 0 <= i < |s| && s[i] == SeqMin(s)
    ensures Normalized(s)[i] == 0.0
  {
    assert Normalized(s)[i] == 0.0 / NormRange(s);
  }

  /** When the values differ, the maximum goes to 1. */
  lemma NormalizedMaxIsOne(s: seq<real>, i: int)
    requires 0 <= i < |s| && s[i] == SeqMax(s) && SeqMin(s) < SeqMax(s)
    ensures Normalized(s)[i] == 1.0
  {
    var d := NormRange(s);
    assert d == s[i] - SeqMin(s);
    assert Normalized(s)[i] == d / d;
    SelfQuotient(d);
  }

  lemma SelfQuotient(d: real)
    requires d > 0.0
    ensures d / d == 1.0
  {
  }

  /** A constant map (the range falls back to 1) becomes all zeros. */
  lemma NormalizedConstant(s: seq<real>, c: real)
    requires forall i :: 0 <= i < |s| ==> s[i] == c
    ensures forall i :: 0 <= i < |s| ==> Normalized(s)[i] == 0.0
  {
    if |s| > 0 {
      BoundsAttained(s);
      forall i | 0 <= i < |s|
        ensures Normalized(s)[i] == 0.0
      {
        assert s[i] == SeqMin(s);
        NormalizedMinIsZero(s, i);
      }
    }
  }

  /** `normalize`: the min/max loop, then `(v - min) / range` for every value. */
  method Normalize(values: seq<real>) returns (normalised: seq<real>)
    ensures normalised == Normalized(values)
  {
    if |values| == 0 {
      return [];
    }
    var lo, hi := Bounds(values);
    var range := if hi - lo == 0.0 then 1.0 else hi - lo;
    assert range == NormRange(values);
    normalised := Rescale(values, lo, range);
  }

  /** The min/max loop; starting from +Infinity and -Infinity, the first element replaces both bounds. */
  method Bounds(values: seq<real>) returns (lo: real, hi: real)
    requires |values| > 0
    ensures lo == SeqMin(values) && hi == SeqMax(values)
  {
    lo, hi := values[0], values[0];
    var i := 1;
    while i < |values|
      invariant 1 <= i <= |values|
      invariant lo == SeqMin(values[..i]) && hi == SeqMax(values[..i])
    {
      assert values[..i + 1][..i] == values[..i];
      var v := values[i];
      if v < lo { lo := v; }
      if v > hi { hi := v; }
      i := i + 1;
    }
    assert values[..i] == values;
  }

  /** The output loop: every value moved by `lo` and scaled by `range`, into a new typed array. */
  method Rescale(values: seq<real>, lo: real, range: real) returns (out: seq<real>)
    requires range > 0.0
    ensures |out| == |values|
    ensures forall j :: 0 <= j < |out| ==> out[j] == (values[j] - lo) / range
  {
    var a := new real[|values|](_ => 0.0);
    var i := 0;
    while i < |values|
      invariant 0 <= i <= |values|
      invariant forall j :: 0 <= j < i ==> a[j] == (values[j] - lo) / range
    {
      a[i] := (values[i] - lo) / range;
      i := i + 1;
    }
    out := a[..];
  }

  // ---- the window search ----

  /**
   * The four nested loops of the search, keeping the running best score (None is
   * -Infinity) and rectangle: the result is the best over `ScanWindows`.
   */
  method ScanBest(score: Scorer, width: nat, height: nat) returns (best: Best)
    ensures best == BestOf(score, width, height, ScanWindows(width, height))
  {
    var step := StepOf(width, height);
    var stride := StrideOf(step);
    var start := Best(None, Rect(0, 0, width, height));
    best := start;
    var hs := step;
    while hs <= height
      invariant hs > 0
      invariant FoldH(score, width, height, step, stride, hs, best) == FoldH(score, width, height, step, stride, step, start)
      decreases height - hs
    {
      FoldHStep(score, width, height, step, stride, hs, best);
      best := ScanWidths(score, width, height, step, stride, hs, best);
      hs := hs + step;
    }
    FoldHStep(score, width, height, step, stride, hs, best);
    LoopsComputeBestOf(score, width, height);
  }

  /** One turn of the outer loop, and its exit. */
  lemma FoldHStep(score: Scorer, width: nat, height: nat, step: int, stride: int, hs: int, acc: Best)
    requires stride > 0 && step > 0 && hs > 0
    ensures hs <= height ==>
      FoldH(score, width, height, step, stride, hs, acc)
      == FoldH(score, width, height, step, stride, hs + step, FoldW(score, width, height, step, stride, hs, step, acc))
    ensures hs > height ==> FoldH(score, width, height, step, stride, hs, acc) == acc
  {
  }

  /** The second loop (window widths) for one window height. */
  method ScanWidths(score: Scorer, width: nat, height: nat, step: int, stride: int, hs: int, best0: Best)
    returns (best: Best)
    requires stride > 0 && step > 0 && hs > 0
    ensures best == FoldW(score, width, height, step, stride, hs, step, best0)
  {
    best := best0;
    var ws := step;
    while ws <= width
      invariant ws > 0
      invariant FoldW(score, width, height, step, stride, hs, ws, best) == FoldW(score, width, height, step, stride, hs, step, best0)
      decreases width - ws
    {
      best := ScanRows(score, width, height, stride, hs, ws, best);
      ws := ws + step;
    }
  }

  /** The third loop (window rows) for one window size. */
  method ScanRows(score: Scorer, width: nat, height: nat, stride: int, hs: int, ws: int, best0: Best)
    returns (best: Best)
    requires stride > 0 && ws > 0 && hs > 0
    ensures best == FoldY(score, width, height, stride, hs, ws, 0, best0)
  {
    best := best0;
    var y := 0;
    while y + hs < height
      invariant FoldY(score, width, height, stride, hs, ws, y, best) == FoldY(score, width, height, stride, hs, ws, 0, best0)
      decreases height - y
    {
      best := ScanRow(score, width, stride, hs, ws, y, best);
      y := y + stride;
    }
  }

  /** The innermost loop: windows along one row; a window replaces the best only on a strictly greater score. */
  method ScanRow(score: Scorer, width: nat, stride: int, hs: int, ws: int, y: int, best0: Best)
    returns (best: Best)
    requires stride > 0 && ws > 0
    ensures best == FoldX(score, width, stride, hs, ws, y, 0, best0)
  {
    best := best0;
    var x := 0;
    while x + ws < width
      invariant FoldX(score, width, stride, hs, ws, y, x, best) == FoldX(score, width, stride, hs, ws, y, 0, best0)
      decreases width - x
    {
      var s := score(Rect(x, y, ws, hs));
      if s.Some? && (best.score.None? || s.value > best.score.value) {
        best := Best(s, Rect(x, y, ws, hs));
      }
      x := x + stride;
    }
  }

  /** Sum of |gx| + |gy| per pixel (the `Math.max(0, ...)` never bites). */
  function L1(gradX: seq<real>, gradY: seq<real>): (r: seq<real>)
    requires |gradX| == |gradY|
    ensures |r| == |gradX|
    ensures forall i :: 0 <= i < |r| ==> 0.0 <= r[i]
  {
    seq(|gradX|, i requires 0 <= i < |gradX| => Max(0.0, Abs(gradX[i]) + Abs(gradY[i])))
  }

  /** The energy loop: the map's sum and the gradient L1 sum over the chosen rectangle. */
  method WindowEnergy(normMag: seq<real>, gradX: seq<real>, gradY: seq<real>, width: nat, height: nat, rect: Rect)
    returns (energy: real, energyTotal: real)
    requires |normMag| == |gradX| == |gradY| == width * height
    requires 0 <= rect.x && 0 <= rect.y && 0 <= rect.width && 0 <= rect.height
    requires rect.x + rect.width <= width && rect.y + rect.height <= height
    ensures energy == RectSum(normMag, width, height, rect.x, rect.y, rect.width, rect.height)
    ensures energyTotal == RectSum(L1(gradX, gradY), width, height, rect.x, rect.y, rect.width, rect.height)
    ensures (forall i :: 0 <= i < |normMag| ==> 0.0 <= normMag[i]) ==> 0.0 <= energy
  {
    var l1 := L1(gradX, gradY);
    energy, energyTotal := 0.0, 0.0;
    var y := rect.y;
    while y < rect.y + rect.height
      invariant rect.y <= y <= rect.y + rect.height
      invariant energy == Rows(normMag, width, height, rect.x, rect.x + rect.width, rect.y, y)
      invariant energyTotal == Rows(l1, width, height, rect.x, rect.x + rect.width, rect.y, y)
    {
      var x := rect.x;
      var rowEnergy, rowTotal := energy, energyTotal;
      while x < rect.x + rect.width
        invariant rect.x <= x <= rect.x + rect.width
        invariant energy == rowEnergy + RowSeg(normMag, width, height, y, rect.x, x)
        invariant energyTotal == rowTotal + RowSeg(l1, width, height, y, rect.x, x)
      {
        RowIndex(y, x, width, height);
        var idx := y * width + x;
        energy := energy + normMag[idx];
        energyTotal := energyTotal + Max(0.0, Abs(gradX[idx]) + Abs(gradY[idx]));
        x := x + 1;
      }
      y := y + 1;
    }
    if forall i :: 0 <= i < |normMag| ==> 0.0 <= normMag[i] {
      RowsNonNegative(normMag, width, height, rect.x, rect.x + rect.width, rect.y, rect.y + rect.height);
    }
  }

  /** confidence = min(1, energy / max(1, 0.6 * energyTotal)). */
  function Confidence(energy: real, energyTotal: real): (c: real)
    requires 0.0 <= energy
    ensures 0.0 <= c <= 1.0
  {
    var d := Max(1.0, energyTotal * 0.6);
    UnitQuotient(0.0, d);
    Min(1.0, energy / d)
  }


  /** The energy loop followed by `Confidence`, over the chosen rectangle. */
  method RectConfidence(normMag: seq<real>, gradX: seq<real>, gradY: seq<real>, width: nat, height: nat, rect: Rect)
    returns (c: real)
    requires |normMag| == |gradX| == |gradY| == width * height
    requires forall i :: 0 <= i < |normMag| ==> 0.0 <= normMag[i]
    requires 0 <= rect.x && 0 <= rect.y && 0 <= rect.width && 0 <= rect.height
    requires rect.x + rect.width <= width && rect.y + rect.height <= height
    ensures 0.0 <= c <= 1.0
    ensures c == Min(1.0, RectSum(normMag, width, height, rect.x, rect.y, rect.width, rect.height)
                   / Max(1.0, RectSum(L1(gradX, gradY), width, height, rect.x, rect.y, rect.width, rect.height) * 0.6))
  {
    var energy, energyTotal := WindowEnergy(normMag, gradX, gradY, width, height, rect);
    // Over unbounded reals the confidence is always finite, so `isFinite` keeps it.
    c := Confidence(energy, energyTotal);
  }

  datatype SaliencyResult = SaliencyResult(center: Point, rect: Rect, confidence: real, heat: Option<seq<real>>)

  /** The whole analysis as values: BT.709 luminance, Sobel magnitude, normalised. */
  function SaliencyMap(data: seq<int>, width: nat, height: nat, ops: Ops): (m: seq<real>)
    requires |data| == 4 * (width * height)
    ensures |m| == width * height
  {
    Normalized(MagSeq(GraySeq(data, width, height, BT709), width, height, ops))
  }

  function IntegralOf(m: seq<real>, width: nat, height: nat): (t: seq<real>)
    requires |m| == width * height
    ensures |t| == (width + 1) * (height + 1)
  {
    seq((width + 1) * (height + 1), q requires 0 <= q < (width + 1) * (height + 1) => IntegralAt(m, width, height, q))
  }

  /** The first half of `estimateSaliency`: BT.709 luminance, the Sobel field and the normalised magnitude. */
  method SaliencyFields(data: seq<int>, width: nat, height: nat, ops: Ops)
    returns (gradX: seq<real>, gradY: seq<real>, normMag: seq<real>)
    requires |data| == 4 * (width * height)
    ensures gradX == GxSeq(GraySeq(data, width, height, BT709), width, height)
    ensures gradY == GySeq(GraySeq(data, width, height, BT709), width, height)
    ensures normMag == SaliencyMap(data, width, height, ops)
    ensures forall i :: 0 <= i < |normMag| ==> 0.0 <= normMag[i] <= 1.0
  {
    var gray := ToGrayscale(data, width, height, BT709);
    assert gray == GraySeq(data, width, height, BT709);
    var magnitude;
    gradX, gradY, magnitude := ConvolveSobel(gray, width, height, ops);
    normMag := Normalize(magnitude);
    NormalizedRange(magnitude);
  }

  /**
   * `estimateSaliency`. A zero-sized image gives the full (empty) frame, confidence 0
   * and no map (`heat`). Otherwise the map is the normalised gradient magnitude, the rectangle
   * is the best window of the search over its integral table (see `ScanKeepsFullFrame`
   * and `ScanPicksFirstMaximum`), the centre is the rectangle's centre and the
   * confidence is min(1, e / max(1, 0.6 t)), with e the map's sum and t the Sobel
   * L1 sum over that rectangle; it lies in [0, 1].
   */
  method EstimateSaliency(data: seq<int>, width: nat, height: nat, ops: Ops) returns (res: SaliencyResult)
    requires |data| == 4 * (width * height)
    ensures width == 0 || height == 0 ==>
      res == SaliencyResult(Point(width as real / 2.0, height as real / 2.0), Rect(0, 0, width, height), 0.0, None)
    ensures width > 0 && height > 0 ==>
      && res.heat == Some(SaliencyMap(data, width, height, ops))
      && res.rect == BestOf(ScoreOf(IntegralOf(res.heat.value, width, height), width), width, height, ScanWindows(width, height)).rect
      && res.center == Point(res.rect.x as real + res.rect.width as real / 2.0, res.rect.y as real + res.rect.height as real / 2.0)
      && 0.0 <= res.confidence <= 1.0
    ensures width > 0 && height > 0 ==>
      var gray := GraySeq(data, width, height, BT709);
      var r := res.rect;
      && 0 <= r.x && 0 <= r.y && 0 <= r.width && 0 <= r.height && r.x + r.width <= width && r.y + r.height <= height
      && res.confidence == Min(1.0, RectSum(SaliencyMap(data, width, height, ops), width, height, r.x, r.y, r.width, r.height)
           / Max(1.0, RectSum(L1(GxSeq(gray, width, height), GySeq(gray, width, height)), width, height, r.x, r.y, r.width, r.height) * 0.6))
  {
    if width == 0 || height == 0 {
      return SaliencyResult(Point(width as real / 2.0, height as real / 2.0), Rect(0, 0, width, height), 0.0, None);
    }
    var gradX, gradY, normMag := SaliencyFields(data, width, height, ops);
    var integral := ComputeIntegralMap(normMag, width, height);
    assert integral == IntegralOf(normMag, width, height);
    var best := ScanBest(ScoreOf(integral, width), width, height);
    var rect := best.rect;
    BestRectFits(ScoreOf(integral, width), width, height);
    var center := Point(rect.x as real + rect.width as real / 2.0, rect.y as real + rect.height as real / 2.0);
    var confidence := RectConfidence(normMag, gradX, gradY, width, height, rect);
    res := SaliencyResult(center, rect, confidence, Some(normMag));
  }
}
