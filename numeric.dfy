/**
 * Number helpers shared by every analyser: the `clamp` each source file defines,
 * `Math.round`, `Math.min`/`Math.max` on non-NaN values, the transcendental
 * functions the code calls (kept uninterpreted, with only the range facts the code
 * relies on), running sums, and the index arithmetic of row-major buffers.
 */
module Numeric {

  function Min(a: real, b: real): real { if a <= b then a else b }
  function Max(a: real, b: real): real { if a >= b then a else b }
  function Abs(a: real): real { if a < 0.0 then -a else a }
  function MinInt(a: int, b: int): int { if a <= b then a else b }
  function MaxInt(a: int, b: int): int { if a >= b then a else b }

  /** A position in image coordinates. */
  datatype Point = Point(x: real, y: real)

  /** `clamp(value, min, max)` = `Math.min(max, Math.max(min, value))`. */
  function Clamp(value: real, lo: real, hi: real): (r: real)
    ensures r <= hi
    ensures lo <= hi ==> lo <= r
    ensures lo <= value <= hi ==> r == value
    ensures value < lo <= hi ==> r == lo
    ensures lo <= hi < value ==> r == hi
  {
    Min(hi, Max(lo, value))
  }

  /** `clamp(value)` with its default bounds, the byte range 0..255. */
  function ClampByte(value: real): (r: real)
    ensures 0.0 <= r <= 255.0
    ensures 0.0 <= value <= 255.0 ==> r == value
  {
    Clamp(value, 0.0, 255.0)
  }

  /** `Math.round`: the nearest integer, halves rounded up. */
  function Round(x: real): (r: int)
    ensures r as real - 0.5 <= x < r as real + 0.5
  {
    (x + 0.5).Floor
  }

  lemma RoundWithin(t: real, lo: int, hi: int)
    requires lo as real <= t <= hi as real
    ensures lo <= Round(t) <= hi
  {
  }

  /**
   * The transcendental functions of the source, uninterpreted. Angles are in degrees
   * (the source converts radians with the constant PI, which is left to these functions).
   */
  datatype MathOps = MathOps(
    hypot: (real, real) -> real,
    atan2Deg: (real, real) -> real,
    cosDeg: real -> real,
    sinDeg: real -> real,
    pow: (real, real) -> real,
    sqrt: real -> real)

  /** The facts about those functions that the analysers rely on. */
  ghost predicate Lawful(m: MathOps) {
    && (forall a, b :: Abs(a) <= m.hypot(a, b) && Abs(b) <= m.hypot(a, b) && m.hypot(a, b) <= Abs(a) + Abs(b))
    && (forall y, x :: -180.0 <= m.atan2Deg(y, x) <= 180.0)
    && (forall t :: m.cosDeg(t) * m.cosDeg(t) + m.sinDeg(t) * m.sinDeg(t) == 1.0)
    && (forall x, e :: 0.0 <= x <= 1.0 && e > 0.0 ==> 0.0 <= m.pow(x, e) <= 1.0)
    && (forall x :: 0.0 <= x ==> 0.0 <= m.sqrt(x))
    && m.sqrt(0.0) == 0.0
  }

  type Ops = m: MathOps | Lawful(m)
    witness MathOps(TaxicabNorm, Level, One, Zero, Base, Ramp)

  // Crude stand-ins that meet those facts; they show the laws can be met together.
  function TaxicabNorm(a: real, b: real): real { Abs(a) + Abs(b) }
  function Level(y: real, x: real): real { 0.0 }
  function One(t: real): real { 1.0 }
  function Zero(t: real): real { 0.0 }
  function Base(x: real, e: real): real { x }
  function Ramp(x: real): real { if x <= 0.0 then 0.0 else x }

  /** The running sum of a loop `for (i = 0; i < n; i++) sum += s[i]`. */
  function Sum(s: seq<real>): real {
    if |s| == 0 then 0.0 else Sum(s[..|s| - 1]) + s[|s| - 1]
  }

  lemma {:induction false} SumBounds(s: seq<real>, lo: real, hi: real)
    requires forall i :: 0 <= i < |s| ==> lo <= s[i] <= hi
    ensures |s| as real * lo <= Sum(s) <= |s| as real * hi
  {
    if |s| > 0 {
      SumBounds(s[..|s| - 1], lo, hi);
    }
  }

  /** Fractions over one positive denominator add up. */
  lemma DivAdd(a: real, b: real, d: real)
    requires d > 0.0
    ensures a / d + b / d == (a + b) / d
  {
    var qa, qb := a / d, b / d;
    assert qa * d == a && qb * d == b;
    assert (qa + qb) * d == a + b;
  }

  /** Scaling a non-negative value by a fraction in [0, 1] keeps it between 0 and itself. */
  lemma ScaledByFraction(m: real, a: real)
    requires 0.0 <= a <= 1.0
    ensures 0.0 <= m ==> 0.0 <= m * a <= m
    ensures 0.0 < m && a < 1.0 ==> m * a < m
  {
    if 0.0 < m && a < 1.0 {
      assert m - m * a == m * (1.0 - a);
    }
  }

  // ---- row-major index arithmetic ----

  lemma MulMono(a: int, b: int, w: int)
    requires a <= b && 0 <= w
    ensures a * w <= b * w
  {
    assert b * w - a * w == (b - a) * w;
  }

  /** Pixel (x, y) of a width-w, height-h buffer sits at y*w + x, inside the buffer. */
  lemma RowIndex(y: int, x: int, w: int, h: int)
    requires 0 <= y < h && 0 <= x < w
    ensures 0 <= y * w + x < w * h
  {
    MulMono(y + 1, h, w);
    MulMono(0, y, w);
    assert (y + 1) * w == y * w + w;
    assert h * w == w * h;
  }

  /** Row and column are recovered from a row-major index. */
  lemma DivModOf(y: int, x: int, w: int)
    requires 0 <= y && 0 <= x < w
    ensures (y * w + x) / w == y && (y * w + x) % w == x
  {
    var p := y * w + x;
    var q, r := p / w, p % w;
    assert q * w + r == p;
    if q < y {
      MulMono(q + 1, y, w);
    } else if q > y {
      MulMono(y + 1, q, w);
    }
  }

  /** An index inside a w*h buffer lies on one of its h rows. */
  lemma RowOfIndex(p: int, w: int, h: int)
    requires 0 <= h && 0 <= p < w * h
    ensures w > 0 && 0 <= p / w < h && 0 <= p % w < w && p == (p / w) * w + p % w
  {
    if w <= 0 {
      MulMono(w, 0, h);
    }
    if p / w >= h {
      MulMono(h, p / w, w);
    }
  }

  /** Two multiples of `s` cannot lie strictly less than `s` apart. */
  lemma MultiplesGap(a: int, b: int, s: int)
    requires s > 0 && a % s == 0 && b % s == 0 && a < b
    ensures a + s <= b
  {
    var qa, qb := a / s, b / s;
    assert a == qa * s && b == qb * s;
    MulMono(qa + 1, qb, s);
    assert (qa + 1) * s == qa * s + s;
  }

  /** The next multiple of `s` after a multiple of `s`. */
  lemma NextMultiple(a: int, s: int)
    requires 0 <= a && s > 0 && a % s == 0
    ensures (a + s) % s == 0
  {
    var q := a / s;
    assert a == q * s;
    DivModOf(q + 1, 0, s);
    assert (q + 1) * s == q * s + s;
  }
}
