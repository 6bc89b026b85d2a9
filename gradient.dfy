/**
 * Luminance and the 3x3 Sobel gradient field shared by the analysers
 * (composition_engine.js `toGrayscale`/`sobel`, horizon_detector.js
 * `toGrayscale`/`computeGradient`; saliency_fallback.js computes the same field
 * with an explicit kernel loop, see module Saliency).
 */
module Gradient {
  import opened Numeric

  datatype LumaWeights = LumaWeights(r: real, g: real, b: real)

  /** BT.709 weights: composition engine and saliency search. */
  const BT709 := LumaWeights(0.2126, 0.7152, 0.0722)
  /** BT.601 weights: horizon estimator. */
  const BT601 := LumaWeights(0.299, 0.587, 0.114)

  /** A row-major RGBA8 buffer of `w` x `h` pixels. */
  predicate IsRgba(data: seq<int>, w: nat, h: nat) {
    |data| == 4 * (w * h) && forall i :: 0 <= i < |data| ==> 0 <= data[i] <= 255
  }

  /** The weighted luminance of pixel `p` (alpha ignored). */
  function Luma(data: seq<int>, p: nat, wts: LumaWeights): real
    requires 4 * p + 2 < |data|
  {
    wts.r * data[4 * p] as real + wts.g * data[4 * p + 1] as real + wts.b * data[4 * p + 2] as real
  }

  /** Both weight sets are convex, so the luminance of bytes is a byte-range value. */
  lemma LumaRange(data: seq<int>, p: nat, wts: LumaWeights)
    requires wts == BT709 || wts == BT601
    requires 4 * p + 2 < |data|
    requires 0 <= data[4 * p] <= 255 && 0 <= data[4 * p + 1] <= 255 && 0 <= data[4 * p + 2] <= 255
    ensures 0.0 <= Luma(data, p, wts) <= 255.0
  {
  }

  /** `toGrayscale`: one luminance value per pixel, in a zero-filled Float32Array. */
  method ToGrayscale(data: seq<int>, width: nat, height: nat, wts: LumaWeights) returns (gray: seq<real>)
    requires |data| == 4 * (width * height)
    ensures |gray| == width * height
    ensures forall p :: 0 <= p < |gray| ==> gray[p] == Luma(data, p, wts)
  {
    var n := width * height;
    var a := new real[n](_ => 0.0);
    var y, idx := 0, 0;
    while y < height
      invariant 0 <= y <= height && idx == y * width && idx <= n
      invariant forall p :: 0 <= p < idx ==> a[p] == Luma(data, p, wts)
    {
      var x := 0;
      MulMono(y + 1, height, width);
      while x < width
        invariant 0 <= x <= width && idx == y * width + x && idx <= (y + 1) * width <= n
        invariant forall p :: 0 <= p < idx ==> a[p] == Luma(data, p, wts)
      {
        a[idx] := Luma(data, idx, wts);
        x, idx := x + 1, idx + 1;
      }
      y := y + 1;
    }
    MulMono(height, y, width);
    gray := a[..];
  }

  /** Pixel (x, y) is inside the one-pixel border that the Sobel loops leave at zero. */
  predicate Interior(x: int, y: int, w: int, h: int) {
    1 <= x < w - 1 && 1 <= y < h - 1
  }

  /** The loops reach (px, py) before they reach (x, y) (row-major order). */
  predicate Before(px: int, py: int, x: int, y: int) {
    py < y || (py == y && px < x)
  }

  function Px(g: seq<real>, w: nat, h: nat, x: int, y: int): real
    requires |g| == w * h && 0 <= x < w && 0 <= y < h
  {
    RowIndex(y, x, w, h);
    g[y * w + x]
  }

  /** Horizontal Sobel response at an interior pixel (kernel -1 0 1 / -2 0 2 / -1 0 1). */
  function SobelX(g: seq<real>, w: nat, h: nat, x: int, y: int): real
    requires |g| == w * h && Interior(x, y, w, h)
  {
    - Px(g, w, h, x - 1, y - 1) - 2.0 * Px(g, w, h, x - 1, y) - Px(g, w, h, x - 1, y + 1)
    + Px(g, w, h, x + 1, y - 1) + 2.0 * Px(g, w, h, x + 1, y) + Px(g, w, h, x + 1, y + 1)
  }

  /** Vertical Sobel response at an interior pixel (kernel -1 -2 -1 / 0 0 0 / 1 2 1). */
  function SobelY(g: seq<real>, w: nat, h: nat, x: int, y: int): real
    requires |g| == w * h && Interior(x, y, w, h)
  {
    - Px(g, w, h, x - 1, y - 1) - 2.0 * Px(g, w, h, x, y - 1) - Px(g, w, h, x + 1, y - 1)
    + Px(g, w, h, x - 1, y + 1) + 2.0 * Px(g, w, h, x, y + 1) + Px(g, w, h, x + 1, y + 1)
  }

  /** The gradient field at flat index p: the Sobel response inside, zero on the border. */
  function GxAt(g: seq<real>, w: nat, h: nat, p: int): real
    requires |g| == w * h && 0 <= p < w * h
  {
    RowOfIndex(p, w, h);
    if Interior(p % w, p / w, w, h) then SobelX(g, w, h, p % w, p / w) else 0.0
  }

  function GyAt(g: seq<real>, w: nat, h: nat, p: int): real
    requires |g| == w * h && 0 <= p < w * h
  {
    RowOfIndex(p, w, h);
    if Interior(p % w, p / w, w, h) then SobelY(g, w, h, p % w, p / w) else 0.0
  }

  function MagAt(g: seq<real>, w: nat, h: nat, p: int, ops: Ops): real
    requires |g| == w * h && 0 <= p < w * h
  {
    RowOfIndex(p, w, h);
    if Interior(p % w, p / w, w, h) then ops.hypot(SobelX(g, w, h, p % w, p / w), SobelY(g, w, h, p % w, p / w))
    else 0.0
  }

  /** The magnitude is never negative and is zero on the border. */
  lemma MagnitudeFacts(g: seq<real>, w: nat, h: nat, p: int, ops: Ops)
    requires |g| == w * h && 0 <= p < w * h
    ensures MagAt(g, w, h, p, ops) >= 0.0
    ensures MagAt(g, w, h, p, ops) >= Abs(GxAt(g, w, h, p)) && MagAt(g, w, h, p, ops) >= Abs(GyAt(g, w, h, p))
    ensures !Interior(p % w, p / w, w, h) ==> MagAt(g, w, h, p, ops) == 0.0
  {
  }

  lemma PxConstant(g: seq<real>, w: nat, h: nat, c: real, x: int, y: int)
    requires |g| == w * h && 0 <= x < w && 0 <= y < h
    requires forall i :: 0 <= i < |g| ==> g[i] == c
    ensures Px(g, w, h, x, y) == c
  {
    RowIndex(y, x, w, h);
  }

  /** On a constant image (an all-black one, say) the whole gradient field is zero. */
  lemma FlatImageHasNoGradient(g: seq<real>, w: nat, h: nat, c: real, p: int, ops: Ops)
    requires |g| == w * h && 0 <= p < w * h
    requires forall i :: 0 <= i < |g| ==> g[i] == c
    ensures GxAt(g, w, h, p) == 0.0 && GyAt(g, w, h, p) == 0.0 && MagAt(g, w, h, p, ops) == 0.0
  {
    RowOfIndex(p, w, h);
    var x, y := p % w, p / w;
    if Interior(x, y, w, h) {
      PxConstant(g, w, h, c, x - 1, y - 1);
      PxConstant(g, w, h, c, x - 1, y);
      PxConstant(g, w, h, c, x - 1, y + 1);
      PxConstant(g, w, h, c, x, y - 1);
      PxConstant(g, w, h, c, x, y + 1);
      PxConstant(g, w, h, c, x + 1, y - 1);
      PxConstant(g, w, h, c, x + 1, y);
      PxConstant(g, w, h, c, x + 1, y + 1);
      assert SobelX(g, w, h, x, y) == 0.0 && SobelY(g, w, h, x, y) == 0.0;
      assert ops.hypot(0.0, 0.0) <= Abs(0.0) + Abs(0.0);
    }
  }

  /** The arrays after the loops have written every interior pixel before (x, y). */
  function PartX(g: seq<real>, w: nat, h: nat, p: int, x: int, y: int): real
    requires |g| == w * h && 0 <= p < w * h
  {
    RowOfIndex(p, w, h);
    if Interior(p % w, p / w, w, h) && Before(p % w, p / w, x, y) then SobelX(g, w, h, p % w, p / w) else 0.0
  }

  function PartY(g: seq<real>, w: nat, h: nat, p: int, x: int, y: int): real
    requires |g| == w * h && 0 <= p < w * h
  {
    RowOfIndex(p, w, h);
    if Interior(p % w, p / w, w, h) && Before(p % w, p / w, x, y) then SobelY(g, w, h, p % w, p / w) else 0.0
  }

  function PartMag(g: seq<real>, w: nat, h: nat, p: int, x: int, y: int, ops: Ops): real
    requires |g| == w * h && 0 <= p < w * h
  {
    RowOfIndex(p, w, h);
    if Interior(p % w, p / w, w, h) && Before(p % w, p / w, x, y)
    then ops.hypot(SobelX(g, w, h, p % w, p / w), SobelY(g, w, h, p % w, p / w))
    else 0.0
  }

  /** Writing pixel (x, y) extends the written prefix by exactly that pixel. */
  lemma PartStep(g: seq<real>, w: nat, h: nat, p: int, x: int, y: int, ops: Ops)
    requires |g| == w * h && 0 <= p < w * h && Interior(x, y, w, h)
    ensures p == y * w + x ==>
      PartX(g, w, h, p, x + 1, y) == SobelX(g, w, h, x, y)
      && PartY(g, w, h, p, x + 1, y) == SobelY(g, w, h, x, y)
      && PartMag(g, w, h, p, x + 1, y, ops) == ops.hypot(SobelX(g, w, h, x, y), SobelY(g, w, h, x, y))
    ensures p != y * w + x ==>
      PartX(g, w, h, p, x + 1, y) == PartX(g, w, h, p, x, y)
      && PartY(g, w, h, p, x + 1, y) == PartY(g, w, h, p, x, y)
      && PartMag(g, w, h, p, x + 1, y, ops) == PartMag(g, w, h, p, x, y, ops)
  {
    RowOfIndex(p, w, h);
    DivModOf(y, x, w);
  }

  /** Finishing a row is the same as starting the next one at its first interior column. */
  lemma PartNextRow(g: seq<real>, w: nat, h: nat, p: int, x: int, y: int, ops: Ops)
    requires |g| == w * h && 0 <= p < w * h && 1 <= x && w - 1 <= x
    ensures PartX(g, w, h, p, x, y) == PartX(g, w, h, p, 1, y + 1)
    ensures PartY(g, w, h, p, x, y) == PartY(g, w, h, p, 1, y + 1)
    ensures PartMag(g, w, h, p, x, y, ops) == PartMag(g, w, h, p, 1, y + 1, ops)
  {
    RowOfIndex(p, w, h);
  }

  /** Before the first row nothing is written; after the last interior row everything is. */
  lemma PartEnds(g: seq<real>, w: nat, h: nat, p: int, ops: Ops)
    requires |g| == w * h && 0 <= p < w * h
    ensures PartX(g, w, h, p, 1, 1) == 0.0 && PartY(g, w, h, p, 1, 1) == 0.0 && PartMag(g, w, h, p, 1, 1, ops) == 0.0
    ensures h >= 2 ==>
      PartX(g, w, h, p, 1, h - 1) == GxAt(g, w, h, p) && PartY(g, w, h, p, 1, h - 1) == GyAt(g, w, h, p)
      && PartMag(g, w, h, p, 1, h - 1, ops) == MagAt(g, w, h, p, ops)
    ensures h < 3 ==> GxAt(g, w, h, p) == 0.0 && GyAt(g, w, h, p) == 0.0 && MagAt(g, w, h, p, ops) == 0.0
  {
    RowOfIndex(p, w, h);
  }

  /** The two Sobel sums of `sobel` at interior pixel (x, y), read at flat offsets around `y * width + x`. */
  method SobelAt(gray: seq<real>, width: nat, height: nat, x: int, y: int) returns (gx: real, gy: real)
    requires |gray| == width * height && Interior(x, y, width, height)
    ensures gx == SobelX(gray, width, height, x, y) && gy == SobelY(gray, width, height, x, y)
  {
    var idx := y * width + x;
    RowIndex(y, x, width, height);
    RowIndex(y - 1, x - 1, width, height);
    RowIndex(y + 1, x + 1, width, height);
    assert (y - 1) * width == idx - x - width && (y + 1) * width == idx - x + width;
    gx :=
      -gray[idx - width - 1] - 2.0 * gray[idx - 1] - gray[idx + width - 1] +
      gray[idx - width + 1] + 2.0 * gray[idx + 1] + gray[idx + width + 1];
    gy :=
      -gray[idx - width - 1] - 2.0 * gray[idx - width] - gray[idx - width + 1] +
      gray[idx + width - 1] + 2.0 * gray[idx + width] + gray[idx + width + 1];
  }

  /**
   * `sobel` / `computeGradient`: the closed-form 3x3 Sobel operator over the interior,
   * written into zero-filled arrays, with magnitude `Math.hypot(gx, gy)`.
   */
  method ComputeGradient(gray: seq<real>, width: nat, height: nat, ops: Ops)
    returns (gradX: seq<real>, gradY: seq<real>, magnitude: seq<real>)
    requires |gray| == width * height
    ensures |gradX| == |gradY| == |magnitude| == width * height
    ensures forall p :: 0 <= p < width * height ==>
      gradX[p] == GxAt(gray, width, height, p) && gradY[p] == GyAt(gray, width, height, p)
      && magnitude[p] == MagAt(gray, width, height, p, ops)
  {
    var n := width * height;
    var ax := new real[n](_ => 0.0);
    var ay := new real[n](_ => 0.0);
    var am := new real[n](_ => 0.0);
    forall p | 0 <= p < n
      ensures PartX(gray, width, height, p, 1, 1) == 0.0 && PartY(gray, width, height, p, 1, 1) == 0.0
      ensures PartMag(gray, width, height, p, 1, 1, ops) == 0.0
    {
      PartEnds(gray, width, height, p, ops);
    }
    var y := 1;
    while y < height - 1
      invariant 1 <= y && (height >= 2 ==> y <= height - 1)
      invariant forall p :: 0 <= p < n ==> ax[p] == PartX(gray, width, height, p, 1, y)
      invariant forall p :: 0 <= p < n ==> ay[p] == PartY(gray, width, height, p, 1, y)
      invariant forall p :: 0 <= p < n ==> am[p] == PartMag(gray, width, height, p, 1, y, ops)
    {
      var x := 1;
      while x < width - 1
        invariant 1 <= x && (width >= 2 ==> x <= width - 1)
        invariant forall p :: 0 <= p < n ==> ax[p] == PartX(gray, width, height, p, x, y)
        invariant forall p :: 0 <= p < n ==> ay[p] == PartY(gray, width, height, p, x, y)
        invariant forall p :: 0 <= p < n ==> am[p] == PartMag(gray, width, height, p, x, y, ops)
      {
        var idx := y * width + x;
        RowIndex(y, x, width, height);
        var gx, gy := SobelAt(gray, width, height, x, y);
        ax[idx] := gx;
        ay[idx] := gy;
        am[idx] := ops.hypot(gx, gy);
        forall p | 0 <= p < n
          ensures ax[p] == PartX(gray, width, height, p, x + 1, y)
          ensures ay[p] == PartY(gray, width, height, p, x + 1, y)
          ensures am[p] == PartMag(gray, width, height, p, x + 1, y, ops)
        {
          PartStep(gray, width, height, p, x, y, ops);
        }
        x := x + 1;
      }
      forall p | 0 <= p < n
        ensures ax[p] == PartX(gray, width, height, p, 1, y + 1)
        ensures ay[p] == PartY(gray, width, height, p, 1, y + 1)
        ensures am[p] == PartMag(gray, width, height, p, 1, y + 1, ops)
      {
        PartNextRow(gray, width, height, p, x, y, ops);
      }
      y := y + 1;
    }
    forall p | 0 <= p < n
      ensures ax[p] == GxAt(gray, width, height, p) && ay[p] == GyAt(gray, width, height, p)
      ensures am[p] == MagAt(gray, width, height, p, ops)
    {
      PartEnds(gray, width, height, p, ops);
    }
    gradX, gradY, magnitude := ax[..], ay[..], am[..];
  }

  // ---- the fields as values ----

  function GraySeq(data: seq<int>, width: nat, height: nat, wts: LumaWeights): (g: seq<real>)
    requires |data| == 4 * (width * height)
    ensures |g| == width * height
  {
    seq(width * height, p requires 0 <= p < width * height => Luma(data, p, wts))
  }

  function GxSeq(g: seq<real>, width: nat, height: nat): (r: seq<real>)
    requires |g| == width * height
    ensures |r| == width * height
  {
    seq(width * height, p requires 0 <= p < width * height => GxAt(g, width, height, p))
  }

  function GySeq(g: seq<real>, width: nat, height: nat): (r: seq<real>)
    requires |g| == width * height
    ensures |r| == width * height
  {
    seq(width * height, p requires 0 <= p < width * height => GyAt(g, width, height, p))
  }

  function MagSeq(g: seq<real>, width: nat, height: nat, ops: Ops): (r: seq<real>)
    requires |g| == width * height
    ensures |r| == width * height
    ensures forall p :: 0 <= p < width * height ==> 0.0 <= r[p]
  {
    seq(width * height, p requires 0 <= p < width * height => MagAt(g, width, height, p, ops))
  }
}
