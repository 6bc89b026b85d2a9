/**
 * The per-pixel passes of the composition engine (composition_engine.js
 * `toneCurve`, `applyToneAndColorAdjustments`, `applyLocalContrast`,
 * `applyVignette`): each rewrites the R, G and B entries of an RGBA buffer in
 * place, pixel by pixel, and never writes an alpha entry.
 */
module Adjustments {
  import opened Numeric
  import opened Wrappers
  import opened CompositionTypes

  // ---- the tone curve ----

  /** The options object of `toneCurve`; an absent option is 0. */
  datatype ToneOptions = ToneOptions(
    shadowBoost: real, highlightPull: real, midtoneBias: real, blackLift: real, brightnessLift: real)

  /** The shadow boost: a tone below 0.6 is lifted in proportion to its distance from 0.6. */
  function ShadowLift(v: real, boost: real): (r: real)
    ensures boost <= 0.0 || v >= 0.6 ==> r == v
    ensures boost >= 0.0 && v <= 0.6 ==> v <= r
  {
    if boost > 0.0 && v < 0.6 then
      var influence := (0.6 - v) / 0.6;
      Scaled(influence, boost);
      v + influence * boost * 0.35
    else v
  }

  /** The black lift: a tone below 0.4 is lifted in proportion to its distance from 0.4. */
  function BlackLift(v: real, lift: real): (r: real)
    ensures lift <= 0.0 || v >= 0.4 ==> r == v
    ensures lift >= 0.0 ==> v <= r
  {
    if lift > 0.0 && v < 0.4 then
      var influence := (0.4 - v) / 0.4;
      Scaled(influence, lift);
      v + influence * lift * 0.55
    else v
  }

  /** The highlight pull: a tone above 0.6 is pulled down; a pull of at most 0.8 keeps it at or above 0.6. */
  function HighlightPull(v: real, pull: real): (r: real)
    ensures pull <= 0.0 || v <= 0.6 ==> r == v
    ensures pull >= 0.0 ==> r <= v
    ensures pull <= 0.8 ==> r >= Min(v, 0.6)
  {
    if pull > 0.0 && v > 0.6 then
      var influence := (v - 0.6) / 0.4;
      PullBounded(v, pull);
      Scaled(influence, pull);
      v - influence * pull * 0.5
    else v
  }

  lemma Scaled(a: real, b: real)
    ensures a >= 0.0 && b >= 0.0 ==> a * b >= 0.0
  {
  }

  lemma PullBounded(v: real, p: real)
    requires v > 0.6
    ensures p <= 0.8 ==> v - (v - 0.6) / 0.4 * p * 0.5 >= 0.6
  {
    if p <= 0.8 {
      var e := (v - 0.6) / 0.4;
      assert e * 0.4 == v - 0.6;
      var q := e * p;
      assert q <= e * 0.8;
      assert v - q * 0.5 >= 0.6;
    }
  }

  /**
   * `toneCurve`: the shadow boost, the black lift and the highlight pull in that
   * order, then the midtone bias and the brightness lift, clamped to [0, 1].
   */
  function ToneCurve(value: real, o: ToneOptions): (r: real)
    ensures 0.0 <= r <= 1.0
  {
    var v := HighlightPull(BlackLift(ShadowLift(value, o.shadowBoost), o.blackLift), o.highlightPull);
    Min(1.0, Max(0.0, v + o.midtoneBias + o.brightnessLift))
  }

  /** With every option absent the curve is the identity on [0, 1]. */
  lemma ToneCurveNeutral(value: real)
    requires 0.0 <= value <= 1.0
    ensures ToneCurve(value, ToneOptions(0.0, 0.0, 0.0, 0.0, 0.0)) == value
  {
  }

  /**
   * Non-negative lifts and a highlight pull of at most 0.8 never darken a shadow
   * tone (one in [0, 0.6]): the pull cannot bring a lifted value back below 0.6.
   */
  lemma ToneCurveKeepsShadowsUp(value: real, o: ToneOptions)
    requires 0.0 <= value <= 0.6
    requires o.shadowBoost >= 0.0 && o.blackLift >= 0.0 && 0.0 <= o.highlightPull <= 0.8
    requires o.midtoneBias + o.brightnessLift >= 0.0
    ensures ToneCurve(value, o) >= value
  {
  }

  // ---- pixels and the buffer they live in ----

  /** The R, G and B entries of one pixel. */
  datatype Rgb = Rgb(r: real, g: real, b: real)

  /** Every channel is in the byte range. */
  predicate InBytes(c: Rgb) {
    0.0 <= c.r <= 255.0 && 0.0 <= c.g <= 255.0 && 0.0 <= c.b <= 255.0
  }

  /** `clamp` applied to each channel. */
  function ClampRgb(r: real, g: real, b: real): (c: Rgb)
    ensures InBytes(c)
    ensures InBytes(Rgb(r, g, b)) ==> c == Rgb(r, g, b)
  {
    Rgb(ClampByte(r), ClampByte(g), ClampByte(b))
  }

  /** Channel k (0 red, 1 green, 2 blue) of a pixel. */
  function Channel(c: Rgb, k: int): real {
    if k == 0 then c.r else if k == 1 then c.g else c.b
  }

  /** The colour of pixel p of an RGBA buffer. */
  function PixelAt(d: seq<real>, p: int): Rgb
    requires 0 <= p && 4 * p + 3 < |d|
  {
    Rgb(d[4 * p], d[4 * p + 1], d[4 * p + 2])
  }

  /** What a pass does to one pixel, given its index in the buffer and its colour. */
  type PixelMap = (int, Rgb) -> Rgb

  /**
   * The buffer after a pass has rewritten its first n pixels with f: entries
   * 4p, 4p+1, 4p+2 of every pixel p < n hold f's colour, all others are unchanged.
   */
  function Rewritten(d: seq<real>, f: PixelMap, n: int): (r: seq<real>)
    requires |d| % 4 == 0
    ensures |r| == |d|
  {
    seq(|d|, i requires 0 <= i < |d| =>
      if i / 4 < n && i % 4 != 3 then Channel(f(i / 4, PixelAt(d, i / 4)), i % 4) else d[i])
  }

  /** No pixel rewritten: the buffer as it was. */
  lemma RewrittenNone(d: seq<real>, f: PixelMap)
    requires |d| % 4 == 0
    ensures Rewritten(d, f, 0) == d
  {
  }

  /** Rewriting pixel p stores f's colour in its three colour entries, read from the untouched pixel. */
  lemma RewriteStep(d: seq<real>, f: PixelMap, p: int)
    requires |d| % 4 == 0 && 0 <= p && 4 * p + 3 < |d|
    ensures PixelAt(Rewritten(d, f, p), p) == PixelAt(d, p)
    ensures Rewritten(d, f, p + 1) ==
      var c := f(p, PixelAt(d, p));
      Rewritten(d, f, p)[4 * p := c.r][4 * p + 1 := c.g][4 * p + 2 := c.b]
  {
  }

  /**
   * A rewritten buffer keeps every alpha entry, and its colour entries are
   * bytes when the map always yields bytes.
   */
  lemma RewrittenEntries(d: seq<real>, f: PixelMap, n: int)
    requires |d| % 4 == 0
    ensures forall i :: 0 <= i < |d| && i % 4 == 3 ==> Rewritten(d, f, n)[i] == d[i]
    ensures (forall p, c :: InBytes(f(p, c))) ==>
      forall i :: 0 <= i < |d| && i / 4 < n && i % 4 != 3 ==> 0.0 <= Rewritten(d, f, n)[i] <= 255.0
  {
    if forall p, c :: InBytes(f(p, c)) {
      forall i | 0 <= i < |d| && i / 4 < n && i % 4 != 3
        ensures 0.0 <= Rewritten(d, f, n)[i] <= 255.0
      {
        assert InBytes(f(i / 4, PixelAt(d, i / 4)));
      }
    }
  }

  /**
   * `data[idx] = r; data[idx + 1] = g; data[idx + 2] = b` for idx = 4p, with the
   * colour the pass computes from the pixel's current entries: one more pixel is rewritten.
   */
  method RewritePixel(data: array<real>, p: int, f: PixelMap, ghost d0: seq<real>)
    requires |d0| == data.Length && |d0| % 4 == 0 && 0 <= p && 4 * p + 3 < |d0|
    requires data[..] == Rewritten(d0, f, p)
    modifies data
    ensures data[..] == Rewritten(d0, f, p + 1)
  {
    RewriteStep(d0, f, p);
    var c := f(p, Rgb(data[4 * p], data[4 * p + 1], data[4 * p + 2]));
    data[4 * p] := c.r;
    data[4 * p + 1] := c.g;
    data[4 * p + 2] := c.b;
  }

  /** Every colour entry of a byte-range buffer is a byte. */
  predicate ColoursInBytes(d: seq<real>) {
    forall i :: 0 <= i < |d| && i % 4 != 3 ==> 0.0 <= d[i] <= 255.0
  }

  /** The map never brightens a byte-range pixel and never makes a channel negative. */
  ghost predicate Darkening(f: PixelMap) {
    forall p, c :: InBytes(c) ==> 0.0 <= f(p, c).r <= c.r && 0.0 <= f(p, c).g <= c.g && 0.0 <= f(p, c).b <= c.b
  }

  /** A darkening pass leaves every colour entry between 0 and its old value. */
  lemma RewrittenDarkens(d: seq<real>, f: PixelMap, n: int)
    requires |d| % 4 == 0 && ColoursInBytes(d) && Darkening(f)
    ensures forall i :: 0 <= i < |d| && i % 4 != 3 ==> 0.0 <= Rewritten(d, f, n)[i] <= d[i]
  {
    forall i | 0 <= i < |d| && i % 4 != 3
      ensures 0.0 <= Rewritten(d, f, n)[i] <= d[i]
    {
      var p := i / 4;
      if p < n {
        assert InBytes(PixelAt(d, p)) by {
          assert (4 * p) % 4 != 3 && (4 * p + 1) % 4 != 3 && (4 * p + 2) % 4 != 3;
        }
        assert i == 4 * p + i % 4;
      }
    }
  }

  // ---- applyLocalContrast ----

  /** One pixel of `applyLocalContrast`: each channel moves away from the blurred one by `amount`, clamped. */
  function ContrastColour(c: Rgb, blurred: Rgb, amount: real): (o: Rgb)
    ensures InBytes(o)
    ensures InBytes(c) && blurred == c ==> o == c
  {
    ClampRgb(c.r + (c.r - blurred.r) * amount, c.g + (c.g - blurred.g) * amount, c.b + (c.b - blurred.b) * amount)
  }

  /** The pass as a pixel map over a blurred copy of the buffer. */
  function ContrastMap(blur: seq<real>, amount: real): PixelMap {
    (p, c) => if 0 <= p && 4 * p + 3 < |blur| then ContrastColour(c, PixelAt(blur, p), amount) else c
  }

  /**
   * `applyLocalContrast`: nothing for a non-positive amount or an empty canvas;
   * otherwise the loop `i += 4` over the buffer rewrites every pixel. The
   * `blur(2px)` copy is given.
   */
  method ApplyLocalContrast(data: array<real>, blur: seq<real>, width: nat, height: nat, amount: real)
    requires data.Length == 4 * (width * height) && |blur| == data.Length
    modifies data
    ensures amount <= 0.0 || width == 0 || height == 0 ==> data[..] == old(data[..])
    ensures amount > 0.0 && width > 0 && height > 0 ==>
      data[..] == Rewritten(old(data[..]), ContrastMap(blur, amount), width * height)
  {
    if amount <= 0.0 || width == 0 || height == 0 {
      return;
    }
    ghost var d0 := data[..];
    var f := ContrastMap(blur, amount);
    RewrittenNone(d0, f);
    var i := 0;
    while i < data.Length
      invariant 0 <= i <= data.Length && i % 4 == 0
      invariant data[..] == Rewritten(d0, f, i / 4)
    {
      RewritePixel(data, i / 4, f, d0);
      i := i + 4;
    }
  }

  /** Where the blurred copy equals the image, the pass changes nothing (given byte-range colours). */
  lemma ContrastOfFlatImage(d: seq<real>, amount: real, n: int)
    requires |d| % 4 == 0
    requires ColoursInBytes(d)
    ensures Rewritten(d, ContrastMap(d, amount), n) == d
  {
    forall i | 0 <= i < |d|
      ensures Rewritten(d, ContrastMap(d, amount), n)[i] == d[i]
    {
      var p := i / 4;
      if p < n && i % 4 != 3 {
        var c := PixelAt(d, p);
        assert InBytes(c) by {
          assert (4 * p) % 4 != 3 && (4 * p + 1) % 4 != 3 && (4 * p + 2) % 4 != 3;
        }
        assert ContrastMap(d, amount)(p, c) == c;
        assert i == 4 * p + i % 4;
      }
    }
  }

  // ---- applyVignette ----

  /** The per-call constants of `applyVignette`. */
  datatype VignetteSettings = VignetteSettings(strength: real, center: Point, maxDistance: real)

  /**
   * The centre (the focus point, else the canvas centre) and the distance from it
   * to the farthest corner, which is positive on any canvas with a pixel.
   */
  function VignetteFor(width: nat, height: nat, strength: real, focusPoint: Option<Point>, ops: Ops): (s: VignetteSettings)
    ensures s.strength == strength
    ensures s.center == focusPoint.GetOr(Point(width as real / 2.0, height as real / 2.0))
    ensures width > 0 ==> s.maxDistance > 0.0
  {
    var center := focusPoint.GetOr(Point(width as real / 2.0, height as real / 2.0));
    var reachX := Max(center.x, width as real - center.x);
    var reachY := Max(center.y, height as real - center.y);
    VignetteSettings(strength, center, ops.hypot(reachX, reachY))
  }

  /**
   * The darkening factor of `applyVignette` at (x, y): `1 - strength * influence^1.4`,
   * with the influence the distance to the centre relative to `maxDistance`, capped at 1.
   */
  function VignetteFactor(s: VignetteSettings, ops: Ops, x: real, y: real): (factor: real)
    ensures 0.0 < s.strength <= 1.0 ==> 0.0 <= factor <= 1.0
  {
    var dist := ops.hypot(x - s.center.x, y - s.center.y);
    var influence := if s.maxDistance > 0.0 then Min(1.0, dist / s.maxDistance) else 1.0;
    var pull := ops.pow(influence, 1.4);
    assert 0.0 <= pull <= 1.0;
    assert 0.0 < s.strength <= 1.0 ==> 0.0 <= s.strength * pull <= 1.0 by {
      ScaledByFraction(s.strength, pull);
    }
    1.0 - s.strength * pull
  }

  /** One pixel of `applyVignette`: each channel scaled by the pixel's factor, clamped. */
  function VignetteColour(c: Rgb, factor: real): (o: Rgb)
    ensures InBytes(o)
    ensures 0.0 <= factor <= 1.0 && InBytes(c) ==>
      0.0 <= o.r <= c.r && 0.0 <= o.g <= c.g && 0.0 <= o.b <= c.b
  {
    if 0.0 <= factor <= 1.0 then
      ScaledRgb(c, factor);
      ClampRgb(c.r * factor, c.g * factor, c.b * factor)
    else
      ClampRgb(c.r * factor, c.g * factor, c.b * factor)
  }

  /** Scaling a byte-range colour by a fraction keeps each channel between 0 and its old value. */
  lemma ScaledRgb(c: Rgb, factor: real)
    requires 0.0 <= factor <= 1.0
    ensures InBytes(c) ==> InBytes(Rgb(c.r * factor, c.g * factor, c.b * factor))
    ensures InBytes(c) ==> c.r * factor <= c.r && c.g * factor <= c.g && c.b * factor <= c.b
  {
    ScaledByFraction(c.r, factor);
    ScaledByFraction(c.g, factor);
    ScaledByFraction(c.b, factor);
  }

  /** The pass as a pixel map: pixel p sits at column p % width of row p / width. */
  function VignetteMap(s: VignetteSettings, width: nat, ops: Ops): PixelMap {
    (p, c) => if width == 0 then c else VignetteColour(c, VignetteFactor(s, ops, (p % width) as real, (p / width) as real))
  }

  /** `applyVignette`: nothing for a non-positive strength, otherwise the row-by-row rewrite of every pixel. */
  method ApplyVignette(data: array<real>, width: nat, height: nat, strength: real, focusPoint: Option<Point>, ops: Ops)
    requires data.Length == 4 * (width * height)
    modifies data
    ensures strength <= 0.0 ==> data[..] == old(data[..])
    ensures strength > 0.0 ==>
      data[..] == Rewritten(old(data[..]), VignetteMap(VignetteFor(width, height, strength, focusPoint, ops), width, ops), width * height)
  {
    if strength <= 0.0 {
      return;
    }
    var f := VignetteMap(VignetteFor(width, height, strength, focusPoint, ops), width, ops);
    RewriteRows(data, width, height, f);
  }

  /**
   * The nested `y`/`x` loops of the row-by-row passes: pixel (x, y), at idx =
   * (y * width + x) * 4, is rewritten with f.
   */
  method RewriteRows(data: array<real>, width: nat, height: nat, f: PixelMap)
    requires data.Length == 4 * (width * height)
    modifies data
    ensures data[..] == Rewritten(old(data[..]), f, width * height)
  {
    ghost var d0 := data[..];
    RewrittenNone(d0, f);
    var y := 0;
    while y < height
      invariant 0 <= y <= height
      invariant data[..] == Rewritten(d0, f, y * width)
    {
      var x := 0;
      while x < width
        invariant 0 <= x <= width
        invariant data[..] == Rewritten(d0, f, y * width + x)
      {
        RowIndex(y, x, width, height);
        RewritePixel(data, y * width + x, f, d0);
        x := x + 1;
      }
      assert y * width + width == (y + 1) * width;
      y := y + 1;
    }
    assert height * width == width * height;
  }

  /** A vignette of strength in (0, 1] only darkens: every colour entry ends between 0 and its old value. */
  lemma VignetteDarkens(d: seq<real>, s: VignetteSettings, width: nat, ops: Ops, n: int)
    requires |d| % 4 == 0 && 0.0 < s.strength <= 1.0 && ColoursInBytes(d)
    ensures forall i :: 0 <= i < |d| && i % 4 != 3 ==> 0.0 <= Rewritten(d, VignetteMap(s, width, ops), n)[i] <= d[i]
  {
    var f := VignetteMap(s, width, ops);
    forall p, c | InBytes(c)
      ensures 0.0 <= f(p, c).r <= c.r && 0.0 <= f(p, c).g <= c.g && 0.0 <= f(p, c).b <= c.b
    {
      if width > 0 {
        var o := VignetteColour(c, VignetteFactor(s, ops, (p % width) as real, (p / width) as real));
      }
    }
    RewrittenDarkens(d, f, n);
  }

  // ---- applyToneAndColorAdjustments ----

  /** The per-call constants of `applyToneAndColorAdjustments`, chosen from the metrics. */
  datatype ToneSettings = ToneSettings(
    focus: Point, focusRadius: real, focusLift: real, vibrance: real, gamma: real,
    curve: ToneOptions, warmShift: real, coolShift: real, naturalWarmth: real)

  /**
   * The constants of the pass: every lift is positive, the gamma is 0.95 for a dark
   * image, 1.05 for a bright one and 1 otherwise, and a warm cast (positive bias)
   * gets the warm correction while a cool cast gets the cool one and the natural warmth.
   */
  function ToneSettingsFor(m: Metrics, width: nat, height: nat, focusPoint: Option<Point>): (s: ToneSettings)
    ensures s.focus == focusPoint.GetOr(Point(width as real / 2.0, height as real / 2.0))
    ensures s.focusRadius >= 0.0 && (s.focusRadius > 0.0 <==> width > 0 && height > 0)
    ensures s.vibrance > 0.0 && s.focusLift > 0.0
    ensures s.curve.shadowBoost > 0.0 && s.curve.blackLift > 0.0 && s.curve.brightnessLift > 0.0
    ensures 0.0 < s.curve.highlightPull <= 0.28
    ensures s.gamma == (if m.exposure < 110.0 then 0.95 else if m.exposure > 170.0 then 1.05 else 1.0)
    ensures 0.0 <= s.warmShift <= 0.16 && (s.warmShift > 0.0 <==> m.colorCast.bias > 0.0)
    ensures 0.0 <= s.coolShift <= 0.14 && (s.coolShift > 0.0 <==> m.colorCast.bias < 0.0)
    ensures 0.0 <= s.naturalWarmth && (s.naturalWarmth > 0.0 <==> m.colorCast.bias < 0.0)
  {
    var bias := m.colorCast.bias;
    ToneSettings(
      focus := focusPoint.GetOr(Point(width as real / 2.0, height as real / 2.0)),
      focusRadius := MinInt(width, height) as real * 0.35,
      focusLift := if m.subjectSize < 0.18 then 0.35 else 0.18,
      vibrance := if m.saturation < 55.0 then 0.18 else 0.08,
      gamma := if m.exposure < 110.0 then 0.95 else if m.exposure > 170.0 then 1.05 else 1.0,
      curve := ToneOptions(
        shadowBoost := if m.shadowClipping > 0.035 then 0.32 else 0.18,
        highlightPull := if m.highlightClipping > 0.035 then 0.28 else 0.12,
        midtoneBias := if m.exposure < 115.0 then 0.04 else if m.exposure > 170.0 then -0.03 else 0.0,
        blackLift := if m.shadowClipping > 0.045 then 0.14 else 0.06,
        brightnessLift := if m.exposure < 110.0 then 0.06 else 0.02),
      warmShift := if bias > 0.0 then Min(0.16, bias / 255.0) else 0.0,
      coolShift := if bias < 0.0 then Min(0.14, Abs(bias) / 255.0) else 0.0,
      naturalWarmth := if bias < 0.0 then Abs(bias) * 0.0007 else 0.0)
  }

  /** The Rec. 709 luminance of a pixel on the 0..1 scale (`tone`). */
  function Tone(c: Rgb): (t: real)
    ensures InBytes(c) ==> 0.0 <= t <= 1.0
  {
    (0.2126 * c.r + 0.7152 * c.g + 0.0722 * c.b) / 255.0
  }

  /** The tone-curve stage: the pixel is scaled by `toneCurve(tone) / tone` when that is positive. */
  function CurveStage(c: Rgb, tone: real, curve: ToneOptions): (o: Rgb)
    ensures InBytes(c) ==> InBytes(o)
  {
    var mapped := ToneCurve(tone, curve);
    var scale := if tone > 0.0 then mapped / tone else mapped;
    if scale > 0.0 then ClampRgb(c.r * scale, c.g * scale, c.b * scale) else c
  }

  /** The brightness stage: each channel moves `lift * 0.45` of the way to 255. */
  function BrightenStage(c: Rgb, brightnessLift: real): (o: Rgb)
    ensures InBytes(c) ==> InBytes(o)
    ensures brightnessLift <= 0.0 ==> o == c
  {
    if brightnessLift > 0.0 then
      var lift := brightnessLift * 0.45;
      ClampRgb(c.r + (255.0 - c.r) * lift, c.g + (255.0 - c.g) * lift, c.b + (255.0 - c.b) * lift)
    else c
  }

  /** The black-lift stage: a pixel whose tone is under 0.45 gains up to `blackLift * 14` on each channel. */
  function BlackStage(c: Rgb, tone: real, blackLift: real): (o: Rgb)
    ensures InBytes(c) ==> InBytes(o)
    ensures blackLift <= 0.0 || tone >= 0.45 ==> o == c
  {
    if blackLift > 0.0 && tone < 0.45 then
      var gain := blackLift * ((0.45 - tone) / 0.45) * 14.0;
      ClampRgb(c.r + gain, c.g + gain, c.b + gain)
    else c
  }

  /** The focus stage: within `focusRadius` of the focus point the pixel is brightened by up to `focusLift`. */
  function FocusStage(c: Rgb, s: ToneSettings, ops: Ops, x: real, y: real): (o: Rgb)
    ensures InBytes(c) ==> InBytes(o)
    ensures s.focusRadius == 0.0 ==> o == c
  {
    var distance := ops.hypot(x - s.focus.x, y - s.focus.y);
    var influence := if s.focusRadius != 0.0 then Max(0.0, 1.0 - distance / s.focusRadius) else 0.0;
    if influence > 0.0 then
      var lift := 1.0 + influence * s.focusLift;
      ClampRgb(c.r * lift, c.g * lift, c.b * lift)
    else c
  }

  /** The gamma stage: each channel becomes `pow(v / 255, gamma) * 255` unless the gamma is 1. */
  function GammaStage(c: Rgb, gamma: real, ops: Ops): (o: Rgb)
    ensures InBytes(c) ==> InBytes(o)
    ensures gamma == 1.0 ==> o == c
  {
    if gamma != 1.0 then
      ClampRgb(ops.pow(c.r / 255.0, gamma) * 255.0, ops.pow(c.g / 255.0, gamma) * 255.0, ops.pow(c.b / 255.0, gamma) * 255.0)
    else c
  }

  /**
   * The cast stages: a warm shift takes red down and blue up, a cool shift the
   * reverse, and the natural warmth left after the warm shift adds red and green
   * and takes blue down. Green is untouched by the two shifts.
   */
  function CastStage(c: Rgb, s: ToneSettings): (o: Rgb)
    ensures InBytes(c) ==> InBytes(o)
    ensures s.warmShift == 0.0 && s.coolShift <= 0.0 && s.naturalWarmth <= 0.0 ==> o == c
  {
    var warm := if s.warmShift > 0.0 then Rgb(ClampByte(c.r - s.warmShift * 9.0), c.g, ClampByte(c.b + s.warmShift * 6.0)) else c;
    var cool := if s.coolShift > 0.0 then Rgb(ClampByte(warm.r + s.coolShift * 6.0), warm.g, ClampByte(warm.b - s.coolShift * 9.0)) else warm;
    var warmth := Max(0.0, s.naturalWarmth - s.warmShift * 0.3);
    if warmth > 0.0 then ClampRgb(cool.r + warmth * 7.0, cool.g + warmth * 3.0, cool.b - warmth * 8.0) else cool
  }

  /** The vibrance stage: each channel is pushed away from the mean by a weight of the pixel's own spread. */
  function VibranceStage(c: Rgb, vibrance: real): (o: Rgb)
    ensures InBytes(c) || vibrance != 0.0 ==> InBytes(o)
  {
    if vibrance != 0.0 then
      var avg := (c.r + c.g + c.b) / 3.0;
      var weight := Min(1.0, (Abs(c.r - avg) + Abs(c.g - avg) + Abs(c.b - avg)) / 255.0);
      var primary := 1.0 + vibrance * weight;
      var secondary := 1.0 + vibrance * weight * 0.6;
      ClampRgb(avg + (c.r - avg) * primary, avg + (c.g - avg) * secondary, avg + (c.b - avg) * primary)
    else c
  }

  /**
   * One pixel of `applyToneAndColorAdjustments`: the stages in the source's order,
   * the tone read once from the incoming pixel. A non-zero vibrance clamps every
   * channel at the end, so the result is a byte colour whatever came in.
   */
  function ToneColour(s: ToneSettings, ops: Ops, x: real, y: real, c: Rgb): (o: Rgb)
    ensures InBytes(c) || s.vibrance != 0.0 ==> InBytes(o)
  {
    var tone := Tone(c);
    var c1 := CurveStage(c, tone, s.curve);
    var c2 := BrightenStage(c1, s.curve.brightnessLift);
    var c3 := BlackStage(c2, tone, s.curve.blackLift);
    var c4 := FocusStage(c3, s, ops, x, y);
    var c5 := GammaStage(c4, s.gamma, ops);
    var c6 := CastStage(c5, s);
    VibranceStage(c6, s.vibrance)
  }

  /** The pass as a pixel map: pixel p sits at column p % width of row p / width. */
  function ToneMap(s: ToneSettings, width: nat, ops: Ops): PixelMap {
    (p, c) => if width == 0 then c else ToneColour(s, ops, (p % width) as real, (p / width) as real, c)
  }

  /** `applyToneAndColorAdjustments`: the row-by-row rewrite of every pixel with the settings of the metrics. */
  method ApplyToneAndColorAdjustments(data: array<real>, width: nat, height: nat, m: Metrics,
                                      focusPoint: Option<Point>, ops: Ops)
    requires data.Length == 4 * (width * height)
    modifies data
    ensures data[..] == Rewritten(old(data[..]), ToneMap(ToneSettingsFor(m, width, height, focusPoint), width, ops), width * height)
  {
    RewriteRows(data, width, height, ToneMap(ToneSettingsFor(m, width, height, focusPoint), width, ops));
  }

  /** After the pass every colour entry is a byte and every alpha entry is as it was. */
  lemma ToneAndColorInBytes(d: seq<real>, m: Metrics, width: nat, height: nat, focusPoint: Option<Point>, ops: Ops)
    requires |d| == 4 * (width * height)
    ensures var r := Rewritten(d, ToneMap(ToneSettingsFor(m, width, height, focusPoint), width, ops), width * height);
      && (forall i :: 0 <= i < |d| && i % 4 != 3 ==> 0.0 <= r[i] <= 255.0)
      && (forall i :: 0 <= i < |d| && i % 4 == 3 ==> r[i] == d[i])
  {
    var s := ToneSettingsFor(m, width, height, focusPoint);
    var f := ToneMap(s, width, ops);
    RewrittenEntries(d, f, width * height);
    if width > 0 {
      forall p, c ensures InBytes(f(p, c)) {
        var o := ToneColour(s, ops, (p % width) as real, (p / width) as real, c);
      }
    }
  }
}
