/**
 * `computeMetrics` (composition_engine.js): the metrics record assembled from the
 * accumulator loops, the feedback tags built from it, and the detector results that
 * then override the subject and horizon fields.
 */
module CompositionMetrics {
  import opened Numeric
  import opened Wrappers
  import opened Gradient
  import opened Horizon
  import opened Saliency
  import opened SaliencyScan
  import opened CompositionTypes
  import opened CompositionStats
  import opened CompositionTally
  import opened Feedback

  // ---- colour cast and harmony ----

  /** `metrics.colorCast`: red and blue against the mean of the three channel means. */
  function ColorCastOf(b: ColorBalance): (c: ColorCast)
    ensures 0.0 <= c.strength
    ensures c.bias == b.r - b.b
    ensures b.r == b.g == b.b ==> c == ColorCast(0.0, 0.0, 0.0, 0.0)
  {
    var avgColor := (b.r + b.g + b.b) / 3.0;
    var warmBias := b.r - avgColor;
    var coolBias := b.b - avgColor;
    ColorCast(warmBias - coolBias, warmBias, coolBias, Max(Abs(warmBias), Abs(coolBias)) / 255.0)
  }

  /** `1 - Math.min(1, strength * 1.4)`: 1 without a cast, falling to 0 for a strong one. */
  function ColorHarmony(cast: ColorCast): (h: real)
    ensures 0.0 <= h
    ensures 0.0 <= cast.strength ==> h <= 1.0 && (h == 1.0 <==> cast.strength == 0.0)
  {
    1.0 - Min(1.0, cast.strength * 1.4)
  }

  // ---- leading lines ----

  /**
   * `metrics.leadingLines`: the doubled-angle orientation average. Without horizon-band
   * weight it stays at angle 0, strength 0; otherwise the angle is half an atan2, in
   * [-90, 90], and the strength is not negative.
   */
  function LeadingLinesOf(t: EdgeTally, ops: Ops): (l: LeadingLines)
    ensures t.orientationCount <= 0.0 ==> l == LeadingLines(0.0, 0.0)
    ensures t.orientationCount > 0.0 ==> -90.0 <= l.angle <= 90.0 && 0.0 <= l.strength
  {
    if t.orientationCount > 0.0 then
      var strength := ops.hypot(t.orientationSumX, t.orientationSumY) / t.orientationCount;
      var angle := ops.atan2Deg(t.orientationSumY, t.orientationSumX) / 2.0;
      LeadingLines(angle, strength)
    else LeadingLines(0.0, 0.0)
  }

  // ---- subject ----

  datatype Subject = Subject(rect: Option<Box>, center: Point, offset: Point, size: real)

  lemma QuotientBetweenInts(count: nat, lo: int, hi: int, sum: int)
    requires count > 0 && count * lo <= sum <= count * hi
    ensures lo as real <= sum as real / count as real <= hi as real
  {
    var c := count as real;
    assert (count * lo) as real == lo as real * c;
    assert (count * hi) as real == hi as real * c;
    QuotientBetween(sum as real, c, lo as real, hi as real);
  }

  lemma AreaBelow(a: int, b: int, w: int, h: int)
    requires 0 <= a <= w - 3 && 0 <= b <= h - 3
    ensures 0 <= a * b < w * h
  {
    MulMono(a, w - 3, b);
    MulMono(b, h, w - 3);
    MulMono(w - 3, w, h);
    assert (w - 3) * h < w * h;
  }

  /**
   * The subject fields: with more than 50 strong-edge pixels, their bounding box grown
   * by 4 on each side (clipped at 0 and at the image size), their centroid, its offset
   * from the image centre and the box's area fraction; otherwise no box, the image
   * centre, no offset and size 0.
   */
  function SubjectOf(t: EdgeTally, width: nat, height: nat): (s: Subject)
    requires width > 0 && height > 0
    ensures t.strongCount <= 50 ==>
      s == Subject(None, Point(width as real / 2.0, height as real / 2.0), Point(0.0, 0.0), 0.0)
    ensures t.strongCount > 50 && EdgeTallyOk(t, width, height) ==>
      && s.rect.Some?
      && 0.0 <= s.rect.value.x <= t.minX as real && 0.0 <= s.rect.value.y <= t.minY as real
      && 0.0 < s.rect.value.width <= width as real && 0.0 < s.rect.value.height <= height as real
      && t.minX as real <= s.center.x <= t.maxX as real && t.minY as real <= s.center.y <= t.maxY as real
      && -0.5 <= s.offset.x <= 0.5 && -0.5 <= s.offset.y <= 0.5
      && 0.0 <= s.size < 1.0
  {
    if t.strongCount > 50 then
      var widthRect := t.maxX - t.minX;
      var heightRect := t.maxY - t.minY;
      var rect := Box(Max(0.0, (t.minX - 4) as real), Max(0.0, (t.minY - 4) as real),
                      Min(width as real, (widthRect + 8) as real), Min(height as real, (heightRect + 8) as real));
      var center := Point(t.sumX as real / t.strongCount as real, t.sumY as real / t.strongCount as real);
      var offset := Point(center.x / width as real - 0.5, center.y / height as real - 0.5);
      var size := (widthRect * heightRect) as real / (width * height) as real;
      if EdgeTallyOk(t, width, height) then
        QuotientBetweenInts(t.strongCount, t.minX, t.maxX, t.sumX);
        QuotientBetweenInts(t.strongCount, t.minY, t.maxY, t.sumY);
        UnitOffset(center.x, width as real);
        UnitOffset(center.y, height as real);
        AreaBelow(widthRect, heightRect, width, height);
        UnitQuotient((widthRect * heightRect) as real, (width * height) as real);
        Subject(Some(rect), center, offset, size)
      else
        Subject(Some(rect), center, offset, size)
    else
      Subject(None, Point(width as real / 2.0, height as real / 2.0), Point(0.0, 0.0), 0.0)
  }

  lemma UnitOffset(c: real, d: real)
    requires d > 0.0 && 0.0 <= c <= d
    ensures -0.5 <= c / d - 0.5 <= 0.5
  {
    QuotientAtMost(c, d, 1.0);
  }

  lemma UnitQuotient(a: real, d: real)
    requires 0.0 <= a < d
    ensures 0.0 <= a / d < 1.0
  {
    var q := a / d;
    assert q * d == a;
  }

  /**
   * The subject box keeps its left and top edges at 0 or more and its size within the
   * image, but its far edges are not clipped: a strong-edge box hugging the right border
   * sticks out of the image by up to 2 pixels on that side.
   */
  lemma SubjectBoxCanOverhang()
    ensures var t := EdgeTally(7, 1, 8, 1, 8 * 51, 51, 51, 0.0, 0.0, 0.0, 0.0, 0.0);
      && EdgeTallyOk(t, 10, 3)
      && SubjectOf(t, 10, 3).rect.value.x + SubjectOf(t, 10, 3).rect.value.width == 12.0
  {
    var t := EdgeTally(7, 1, 8, 1, 8 * 51, 51, 51, 0.0, 0.0, 0.0, 0.0, 0.0);
    assert 51 * 7 <= 8 * 51;
  }

  // ---- rule of thirds ----

  /** The distance from `v` to the nearer of the two thirds lines of an axis of length `d`. */
  function ThirdDistance(v: real, d: real): (n: real)
    ensures 0.0 <= n
    ensures 0.0 <= v <= d ==> n <= d / 3.0
    ensures v == d / 3.0 || v == 2.0 * d / 3.0 ==> n == 0.0
  {
    Min(Abs(v - d / 3.0), Abs(v - 2.0 * d / 3.0))
  }

  /**
   * `ruleOfThirdsScore`, `1 - (nearestX / width + nearestY / height)`: at most 1, exactly
   * 1 on a thirds intersection, and at least 1/3 for a centre inside the image.
   */
  function ThirdsScore(c: Point, width: nat, height: nat): (score: real)
    requires width > 0 && height > 0
    ensures score <= 1.0
    ensures (0.0 <= c.x <= width as real && 0.0 <= c.y <= height as real) ==> 1.0 / 3.0 <= score
    ensures ((c.x == width as real / 3.0 || c.x == 2.0 * width as real / 3.0)
          && (c.y == height as real / 3.0 || c.y == 2.0 * height as real / 3.0)) ==> score == 1.0
  {
    var w, h := width as real, height as real;
    var fx, fy := ThirdDistance(c.x, w) / w, ThirdDistance(c.y, h) / h;
    ThirdFraction(c.x, w);
    ThirdFraction(c.y, h);
    1.0 - (fx + fy)
  }

  lemma ThirdFraction(v: real, d: real)
    requires d > 0.0
    ensures 0.0 <= ThirdDistance(v, d) / d
    ensures 0.0 <= v <= d ==> ThirdDistance(v, d) / d <= 1.0 / 3.0
  {
    QuotientAtMost(ThirdDistance(v, d), d, if 0.0 <= v <= d then 1.0 / 3.0 else ThirdDistance(v, d) / d);
  }

  // ---- top and bottom halves ----

  lemma AreaPositive(a: int, b: int)
    requires a > 0 && b > 0
    ensures a * b > 0
  {
    MulMono(1, a, b);
  }

  /** The rows [0, floor(H/2)) of a row-major luminance buffer. */
  function TopRows(gray: seq<real>, width: nat, height: nat): (top: seq<real>)
    requires |gray| == width * height
    ensures |top| == Half(height) * width
  {
    MulMono(Half(height), height, width);
    gray[..Half(height) * width]
  }

  /** The rows [floor(H/2), H). */
  function BottomRows(gray: seq<real>, width: nat, height: nat): (bottom: seq<real>)
    requires |gray| == width * height
    ensures |bottom| == (height - Half(height)) * width
  {
    MulMono(Half(height), height, width);
    gray[Half(height) * width..]
  }

  /**
   * `bottomMean / Math.max(1, topMean)`. Requires at least two rows: with one row the
   * top half is empty and the source divides zero by zero.
   */
  function ForegroundBackground(topSum: real, bottomSum: real, width: nat, height: nat): (fb: real)
    requires width > 0 && height >= 2
    ensures 0.0 <= topSum && 0.0 <= bottomSum ==> 0.0 <= fb
  {
    var half := Half(height);
    AreaPositive(half, width);
    AreaPositive(height - half, width);
    var topMean := topSum / (half * width) as real;
    var bottomMean := bottomSum / ((height - half) * width) as real;
    bottomMean / Max(1.0, topMean)
  }

  lemma ConstantMean(s: seq<real>, c: real)
    requires |s| > 0 && forall i :: 0 <= i < |s| ==> s[i] == c
    ensures Sum(s) / |s| as real == c
  {
    SumConstant(s, c);
  }

  /** An evenly lit image of luminance at least 1 is balanced: the ratio is exactly 1. */
  lemma UniformImageBalanced(gray: seq<real>, width: nat, height: nat, c: real)
    requires width > 0 && height >= 2 && |gray| == width * height && c >= 1.0
    requires forall i :: 0 <= i < |gray| ==> gray[i] == c
    ensures ForegroundBackground(Sum(TopRows(gray, width, height)), Sum(BottomRows(gray, width, height)), width, height) == 1.0
  {
    var top, bottom := TopRows(gray, width, height), BottomRows(gray, width, height);
    AreaPositive(Half(height), width);
    AreaPositive(height - Half(height), width);
    ConstantMean(top, c);
    ConstantMean(bottom, c);
  }

  // ---- per-pixel fields ----

  /** A count as a share of the pixel count, as the clipping fields are. */
  function Share(count: nat, pixelCount: nat): (r: real)
    requires pixelCount > 0
    ensures 0.0 <= r
    ensures count <= pixelCount ==> r <= 1.0
    ensures count == 0 <==> r == 0.0
  {
    QuotientAtMost(count as real, pixelCount as real, if count <= pixelCount then 1.0 else count as real);
    count as real / pixelCount as real
  }

  /** Two shares of disjoint counts add up to at most 1. */
  lemma SharesBounded(a: nat, b: nat, n: nat)
    requires n > 0 && a + b <= n
    ensures Share(a, n) + Share(b, n) <= 1.0
  {
    var d := n as real;
    DivAdd(a as real, b as real, d);
    QuotientAtMost((a + b) as real, d, 1.0);
  }

  /**
   * `midtoneBalance`: the midtone mean on a 0..1 scale, or the overall mean on that scale
   * when no pixel is a midtone; in [96/255, 192/255] in the first case and in [0, 1] in both.
   */
  function MidtoneBalance(tone: ToneTally, mean: real): (r: real)
    ensures tone.midtoneCount != 0 && 96.0 * tone.midtoneCount as real <= tone.midtoneSum <= 192.0 * tone.midtoneCount as real
      ==> 96.0 / 255.0 <= r <= 192.0 / 255.0
    ensures tone.midtoneCount == 0 && 0.0 <= mean <= 255.0 ==> 0.0 <= r <= 1.0
  {
    if tone.midtoneCount != 0 then
      var c := tone.midtoneCount as real;
      if 96.0 * c <= tone.midtoneSum <= 192.0 * c then
        QuotientBetween(tone.midtoneSum, c * 255.0, 96.0 / 255.0, 192.0 / 255.0);
        tone.midtoneSum / (c * 255.0)
      else tone.midtoneSum / (c * 255.0)
    else if 0.0 <= mean <= 255.0 then
      QuotientAtMost(mean, 255.0, 1.0);
      mean / 255.0
    else mean / 255.0
  }

  /** `saturation`: the mean chroma of the pixels on a 0..255 scale. */
  function SaturationOf(saturationSum: real, pixelCount: nat): (r: real)
    requires pixelCount > 0
    ensures 0.0 <= saturationSum <= pixelCount as real ==> 0.0 <= r <= 255.0
  {
    if 0.0 <= saturationSum <= pixelCount as real then
      QuotientAtMost(saturationSum, pixelCount as real, 1.0);
      (saturationSum / pixelCount as real) * 255.0
    else (saturationSum / pixelCount as real) * 255.0
  }

  /** `sharpnessVariance` and `textureStrength`: non-negative sums per pixel. */
  function PerPixel(sum: real, divisor: real): (r: real)
    requires divisor > 0.0
    ensures 0.0 <= sum ==> 0.0 <= r
    ensures sum <= 0.0 ==> r <= 0.0
  {
    QuotientAtMost(Abs(sum), divisor, Abs(sum) / divisor);
    sum / divisor
  }

  /** `horizonAngle`: the magnitude-weighted mean of the band angles, 0 without weight; in [-90, 90]. */
  function HorizonAngleOf(e: EdgeTally): (a: real)
    ensures e.horizonWeight == 0.0 ==> a == 0.0
    ensures 0.0 <= e.horizonWeight && -90.0 * e.horizonWeight <= e.horizonAngle <= 90.0 * e.horizonWeight
      ==> -90.0 <= a <= 90.0
  {
    if e.horizonWeight != 0.0 then
      if 0.0 < e.horizonWeight && -90.0 * e.horizonWeight <= e.horizonAngle <= 90.0 * e.horizonWeight then
        QuotientBetween(e.horizonAngle, e.horizonWeight, -90.0, 90.0);
        e.horizonAngle / e.horizonWeight
      else e.horizonAngle / e.horizonWeight
    else 0.0
  }

  /** `horizonConfidence`: the band weight against 6 per pixel, clamped to [0, 1]; 0 without weight. */
  function HorizonConfidenceOf(e: EdgeTally, pixelCount: nat): (c: real)
    requires pixelCount > 0
    ensures 0.0 <= c <= 1.0
    ensures e.horizonWeight == 0.0 ==> c == 0.0
  {
    if e.horizonWeight != 0.0 then Clamp(e.horizonWeight / (pixelCount as real * 6.0), 0.0, 1.0) else 0.0
  }

  // ---- the metrics record ----

  /** The per-image values the loops of `computeMetrics` produce. */
  datatype Tallies = Tallies(
    stats: Stats, colorBalance: ColorBalance, histogram: seq<int>, tone: ToneTally, edges: EdgeTally,
    sharpnessSum: real, saturationSum: real, topSum: real, bottomSum: real)

  /**
   * The `metrics` object of `computeMetrics` before `buildFeedback` and the detector
   * overrides: every field derived from the tallies.
   */
  function BaseMetrics(width: nat, height: nat, t: Tallies, ops: Ops): Metrics
    requires width > 0 && height >= 2
  {
    AreaPositive(width, height);
    var pixelCount := width * height;
    var horizonAngle := HorizonAngleOf(t.edges);
    var cast := ColorCastOf(t.colorBalance);
    var subject := SubjectOf(t.edges, width, height);
    Metrics(
      width := width, height := height,
      subjectRect := subject.rect, subjectCenter := subject.center, subjectOffset := subject.offset,
      subjectSize := subject.size, saliencyConfidence := 0.0,
      horizonAngle := horizonAngle, horizonConfidence := HorizonConfidenceOf(t.edges, pixelCount),
      horizonLine := LineThrough(Point(width as real / 2.0, height as real / 2.0), horizonAngle,
                                 MaxInt(width, height) as real, ops),
      ruleOfThirdsScore := ThirdsScore(subject.center, width, height),
      sharpnessVariance := PerPixel(t.sharpnessSum, pixelCount as real),
      exposure := t.stats.mean, contrast := t.stats.std,
      saturation := SaturationOf(t.saturationSum, pixelCount),
      colorBalance := t.colorBalance, colorHarmony := ColorHarmony(cast),
      foregroundBackground := ForegroundBackground(t.topSum, t.bottomSum, width, height),
      shadowClipping := Share(t.tone.shadowClipped, pixelCount),
      highlightClipping := Share(t.tone.highlightClipped, pixelCount),
      midtoneBalance := MidtoneBalance(t.tone, t.stats.mean),
      colorCast := cast, leadingLines := LeadingLinesOf(t.edges, ops),
      textureStrength := PerPixel(t.tone.gradientSum, Max(1.0, pixelCount as real * 255.0)),
      feedback := [], histogram := t.histogram)
  }

  /** The input of the edge loop: the Sobel field of the luminance and the two percentile thresholds. */
  function EdgeInputOf(gray: seq<real>, width: nat, height: nat, ops: Ops): (inp: EdgeInput)
    requires |gray| == width * height
    ensures WellFormed(inp) && inp.width == width && inp.height == height
    ensures |inp.gradient| == width * height
  {
    var gradient := MagSeq(gray, width, height, ops);
    EdgeInput(GxSeq(gray, width, height), GySeq(gray, width, height), gradient, width, height,
              SamplePercentile(gradient, 0.82), SamplePercentile(gradient, 0.75), ops)
  }

  lemma Quarter(len: nat, n: nat)
    requires len == 4 * n
    ensures len % 4 == 0 && len / 4 == n
  {
  }

  /** The mean and population standard deviation of a non-empty luminance buffer. */
  function StatsOf(gray: seq<real>, ops: Ops): Stats
    requires |gray| > 0
  {
    Stats(Mean(gray), ops.sqrt(Variance(gray)))
  }

  /** The channel means of a non-empty RGBA buffer. */
  function BalanceOf(data: seq<int>): ColorBalance
    requires |data| % 4 == 0 && |data| > 0
  {
    ColorBalance(ChannelMean(data, 0), ChannelMean(data, 1), ChannelMean(data, 2))
  }

  /** The tallies of a luminance buffer `gray` of the RGBA image `data`, as values. */
  function TalliesOf(data: seq<int>, gray: seq<real>, width: nat, height: nat, ops: Ops): Tallies
    requires |data| == 4 * (width * height) && |gray| == width * height && width > 0 && height > 0
  {
    AreaPositive(width, height);
    Quarter(|data|, width * height);
    var inp := EdgeInputOf(gray, width, height, ops);
    Tallies(
      StatsOf(gray, ops), BalanceOf(data),
      Histogram(gray, 32), ToneTallyOf(gray, inp.gradient, |gray|), EdgeTallyOf(inp),
      SumSquares(inp.gradient), ChromaSum(data, |gray|),
      Sum(TopRows(gray, width, height)), Sum(BottomRows(gray, width, height)))
  }

  /** The analyser's own metrics, before the feedback is built. */
  function BaseOf(data: seq<int>, width: nat, height: nat, ops: Ops): Metrics
    requires IsRgba(data, width, height) && width > 0 && height >= 2
  {
    BaseMetrics(width, height, TalliesOf(data, GraySeq(data, width, height, BT709), width, height, ops), ops)
  }

  /** The analyser's own metrics with the feedback built from them. */
  function AnalysisOf(data: seq<int>, width: nat, height: nat, ops: Ops): (m: Metrics)
    requires IsRgba(data, width, height) && width > 0 && height >= 2
    ensures IsFeedback(BaseOf(data, width, height, ops), m.feedback)
  {
    var base := BaseOf(data, width, height, ops);
    base.(feedback := Expected(base))
  }

  // ---- ranges of the metrics ----

  /** What the loops guarantee about their tallies for a `width` x `height` RGBA image. */
  predicate TalliesOk(t: Tallies, width: nat, height: nat) {
    && 0.0 <= t.stats.mean <= 255.0
    && EdgeTallyOk(t.edges, width, height)
    && t.tone.shadowClipped + t.tone.highlightClipped + t.tone.midtoneCount <= width * height
    && 96.0 * t.tone.midtoneCount as real <= t.tone.midtoneSum <= 192.0 * t.tone.midtoneCount as real
    && 0.0 <= t.tone.gradientSum && 0.0 <= t.sharpnessSum
    && 0.0 <= t.saturationSum <= (width * height) as real
    && 0.0 <= t.topSum && 0.0 <= t.bottomSum
  }

  lemma GrayRange(data: seq<int>, width: nat, height: nat)
    requires IsRgba(data, width, height)
    ensures forall i :: 0 <= i < width * height ==> 0.0 <= GraySeq(data, width, height, BT709)[i] <= 255.0
  {
    forall i | 0 <= i < width * height
      ensures 0.0 <= GraySeq(data, width, height, BT709)[i] <= 255.0
    {
      LumaRange(data, i, BT709);
    }
  }

  lemma SliceRange(s: seq<real>, a: nat, b: nat)
    requires a <= b <= |s| && forall i :: 0 <= i < |s| ==> 0.0 <= s[i] <= 255.0
    ensures 0.0 <= Sum(s[a..b])
  {
    var t := s[a..b];
    assert forall i :: 0 <= i < |t| ==> 0.0 <= t[i] <= 255.0;
    SumBounds(t, 0.0, 255.0);
  }

  /** The half sums of a luminance buffer in [0, 255] are not negative. */
  lemma HalvesNonNegative(gray: seq<real>, width: nat, height: nat)
    requires |gray| == width * height && forall i :: 0 <= i < |gray| ==> 0.0 <= gray[i] <= 255.0
    ensures 0.0 <= Sum(TopRows(gray, width, height)) && 0.0 <= Sum(BottomRows(gray, width, height))
  {
    MulMono(Half(height), height, width);
    SliceRange(gray, 0, Half(height) * width);
    SliceRange(gray, Half(height) * width, |gray|);
    assert TopRows(gray, width, height) == gray[0..Half(height) * width];
    assert BottomRows(gray, width, height) == gray[Half(height) * width..|gray|];
  }

  /** The tallies of any RGBA image satisfy `TalliesOk`. */
  lemma TalliesOfOk(data: seq<int>, width: nat, height: nat, ops: Ops)
    requires IsRgba(data, width, height) && width > 0 && height >= 2
    ensures TalliesOk(TalliesOf(data, GraySeq(data, width, height, BT709), width, height, ops), width, height)
  {
    var gray := GraySeq(data, width, height, BT709);
    AreaPositive(width, height);
    GrayRange(data, width, height);
    StatisticsFacts(gray, 0.0, 255.0);
    var inp := EdgeInputOf(gray, width, height, ops);
    EdgeTallyOfOk(inp);
    ToneTallyFacts(gray, inp.gradient, |gray|);
    ChromaSumBounds(data, |gray|);
    HalvesNonNegative(gray, width, height);
    assert TalliesOf(data, gray, width, height, ops).edges == EdgeTallyOf(inp);
  }

  /**
   * The ranges of the fields computed from tallies that satisfy `TalliesOk`: clipping
   * shares, harmony and horizon confidence in [0, 1], horizon angle in [-90, 90], a thirds
   * score in [1/3, 1], a subject smaller than the frame.
   */
  lemma BaseMetricsRanges(width: nat, height: nat, t: Tallies, ops: Ops)
    requires width > 0 && height >= 2 && TalliesOk(t, width, height)
    ensures var m := BaseMetrics(width, height, t, ops);
      && 0.0 <= m.exposure <= 255.0
      && 0.0 <= m.shadowClipping && 0.0 <= m.highlightClipping && m.shadowClipping + m.highlightClipping <= 1.0
      && 0.0 <= m.midtoneBalance <= 1.0 && 0.0 <= m.saturation <= 255.0
      && 0.0 <= m.textureStrength && 0.0 <= m.sharpnessVariance && 0.0 <= m.foregroundBackground
      && -90.0 <= m.horizonAngle <= 90.0 && 0.0 <= m.horizonConfidence <= 1.0
      && 0.0 <= m.subjectSize < 1.0 && 1.0 / 3.0 <= m.ruleOfThirdsScore <= 1.0
      && 0.0 <= m.colorHarmony <= 1.0
  {
    AreaPositive(width, height);
    SharesBounded(t.tone.shadowClipped, t.tone.highlightClipped, width * height);
    var s := SubjectOf(t.edges, width, height);
    assert 0.0 <= s.center.x <= width as real && 0.0 <= s.center.y <= height as real;
  }

  /** `BaseMetricsRanges` for every analysed RGBA image. */
  lemma MetricsRanges(data: seq<int>, width: nat, height: nat, ops: Ops)
    requires IsRgba(data, width, height) && width > 0 && height >= 2
    ensures var m := AnalysisOf(data, width, height, ops);
      && 0.0 <= m.exposure <= 255.0
      && 0.0 <= m.shadowClipping && 0.0 <= m.highlightClipping && m.shadowClipping + m.highlightClipping <= 1.0
      && 0.0 <= m.midtoneBalance <= 1.0 && 0.0 <= m.saturation <= 255.0
      && 0.0 <= m.textureStrength && 0.0 <= m.sharpnessVariance && 0.0 <= m.foregroundBackground
      && -90.0 <= m.horizonAngle <= 90.0 && 0.0 <= m.horizonConfidence <= 1.0
      && 0.0 <= m.subjectSize < 1.0 && 1.0 / 3.0 <= m.ruleOfThirdsScore <= 1.0
      && 0.0 <= m.colorHarmony <= 1.0
  {
    TalliesOfOk(data, width, height, ops);
    BaseMetricsRanges(width, height, TalliesOf(data, GraySeq(data, width, height, BT709), width, height, ops), ops);
  }

  // ---- detector overrides ----

  datatype SaliencyDetection = SaliencyDetection(confidence: real, rect: Box, center: Point)
  datatype HorizonDetection = HorizonDetection(angle: real, confidence: real, line: (Point, Point))
  /** The optional `detectors` argument; an absent detector is `None`. */
  datatype Detectors = Detectors(saliency: Option<SaliencyDetection>, horizon: Option<HorizonDetection>)

  /** A saliency result as `computeMetrics` reads it: its integer rectangle as a box. */
  function FromSaliency(res: SaliencyResult): (d: SaliencyDetection)
    ensures d.center == res.center && d.confidence == res.confidence
    ensures d.rect.x == res.rect.x as real && d.rect.y == res.rect.y as real
    ensures d.rect.width == res.rect.width as real && d.rect.height == res.rect.height as real
  {
    SaliencyDetection(res.confidence,
                      Box(res.rect.x as real, res.rect.y as real, res.rect.width as real, res.rect.height as real),
                      res.center)
  }

  function FromHorizon(res: HorizonResult): (d: HorizonDetection)
    ensures d.angle == res.angle && d.confidence == res.confidence && d.line == res.line
  {
    HorizonDetection(res.angle, res.confidence, res.line)
  }

  /** The saliency override fires when the analyser found no subject or the detector is more confident. */
  predicate SaliencyOverrides(m: Metrics, d: Detectors) {
    d.saliency.Some? && (m.subjectRect.None? || d.saliency.value.confidence > m.saliencyConfidence)
  }

  /**
   * The overrides at the end of `computeMetrics`: a saliency result replaces the subject
   * fields when `SaliencyOverrides` holds, a horizon result always replaces the horizon
   * fields, and nothing else changes (the feedback in particular stays as built).
   */
  function ApplyDetectors(m: Metrics, d: Detectors): (r: Metrics)
    requires m.width > 0 && m.height > 0
    ensures r.feedback == m.feedback && r.width == m.width && r.height == m.height
    ensures r.exposure == m.exposure && r.contrast == m.contrast && r.colorCast == m.colorCast
      && r.histogram == m.histogram && r.ruleOfThirdsScore == m.ruleOfThirdsScore
    ensures SaliencyOverrides(m, d) ==>
      && r.subjectRect == Some(d.saliency.value.rect) && r.subjectCenter == d.saliency.value.center
      && r.saliencyConfidence == d.saliency.value.confidence
      && r.subjectOffset == Point(d.saliency.value.center.x / m.width as real - 0.5,
                                  d.saliency.value.center.y / m.height as real - 0.5)
      && r.subjectSize == (d.saliency.value.rect.width * d.saliency.value.rect.height) / (m.width as real * m.height as real)
    ensures r.(subjectRect := m.subjectRect, subjectCenter := m.subjectCenter, subjectOffset := m.subjectOffset,
               subjectSize := m.subjectSize, saliencyConfidence := m.saliencyConfidence, horizonAngle := m.horizonAngle,
               horizonConfidence := m.horizonConfidence, horizonLine := m.horizonLine) == m
    ensures !SaliencyOverrides(m, d) ==>
      && r.subjectRect == m.subjectRect && r.subjectCenter == m.subjectCenter && r.subjectOffset == m.subjectOffset
      && r.subjectSize == m.subjectSize && r.saliencyConfidence == m.saliencyConfidence
    ensures d.horizon.Some? ==>
      && r.horizonAngle == d.horizon.value.angle && r.horizonConfidence == d.horizon.value.confidence
      && r.horizonLine == d.horizon.value.line
    ensures d.horizon.None? ==>
      r.horizonAngle == m.horizonAngle && r.horizonConfidence == m.horizonConfidence && r.horizonLine == m.horizonLine
  {
    var w, h := m.width as real, m.height as real;
    var m1 :=
      if SaliencyOverrides(m, d) then
        var s := d.saliency.value;
        m.(saliencyConfidence := s.confidence, subjectRect := Some(s.rect), subjectCenter := s.center,
           subjectOffset := Point(s.center.x / w - 0.5, s.center.y / h - 0.5),
           subjectSize := (s.rect.width * s.rect.height) / (w * h))
      else m;
    if d.horizon.Some? then
      m1.(horizonAngle := d.horizon.value.angle, horizonConfidence := d.horizon.value.confidence,
          horizonLine := d.horizon.value.line)
    else m1
  }

  /**
   * The analyser's own saliency confidence is still 0 when the overrides run, so a
   * saliency result replaces the subject exactly when the analyser found no subject box
   * or the result's confidence is positive.
   */
  lemma SaliencyOverrideCondition(data: seq<int>, width: nat, height: nat, ops: Ops, d: Detectors)
    requires IsRgba(data, width, height) && width > 0 && height >= 2
    ensures var m := AnalysisOf(data, width, height, ops);
      SaliencyOverrides(m, d) <==> d.saliency.Some? && (m.subjectRect.None? || d.saliency.value.confidence > 0.0)
  {
    var t := TalliesOf(data, GraySeq(data, width, height, BT709), width, height, ops);
    assert BaseMetrics(width, height, t, ops).saliencyConfidence == 0.0;
  }

  // ---- computeMetrics ----

  /** `sobel` and the two gradient percentiles of `computeMetrics`. */
  method ComputeEdgeInput(grayscale: seq<real>, width: nat, height: nat, ops: Ops) returns (inp: EdgeInput)
    requires |grayscale| == width * height
    ensures inp == EdgeInputOf(grayscale, width, height, ops)
  {
    var gradX, gradY, gradient := ComputeGradient(grayscale, width, height, ops);
    assert gradX == GxSeq(grayscale, width, height);
    assert gradY == GySeq(grayscale, width, height);
    assert gradient == MagSeq(grayscale, width, height, ops);
    var gradientThreshold := SamplePercentile(gradient, 0.82);
    var horizonThreshold := SamplePercentile(gradient, 0.75);
    inp := EdgeInput(gradX, gradY, gradient, width, height, gradientThreshold, horizonThreshold, ops);
  }

  /** The two row loops of `computeMetrics` that sum the top and the bottom half. */
  method SumHalves(grayscale: seq<real>, width: nat, height: nat) returns (topSum: real, bottomSum: real)
    requires |grayscale| == width * height
    ensures topSum == Sum(TopRows(grayscale, width, height))
    ensures bottomSum == Sum(BottomRows(grayscale, width, height))
  {
    var half := Half(height);
    topSum := SumRows(grayscale, width, height, 0, half);
    bottomSum := SumRows(grayscale, width, height, half, height);
    assert 0 * width == 0 && height * width == |grayscale|;
    assert grayscale[0..half * width] == TopRows(grayscale, width, height);
    assert grayscale[half * width..|grayscale|] == BottomRows(grayscale, width, height);
  }

  /** The loops of `computeMetrics` over a luminance buffer of `data`. */
  method ComputeTallies(data: seq<int>, grayscale: seq<real>, width: nat, height: nat, ops: Ops) returns (t: Tallies)
    requires |data| == 4 * (width * height) && |grayscale| == width * height && width > 0 && height > 0
    ensures t == TalliesOf(data, grayscale, width, height, ops)
  {
    AreaPositive(width, height);
    Quarter(|data|, width * height);
    var histogram := ComputeHistogram(grayscale, 32);
    var stats := ComputeStatistics(grayscale, ops);
    var colorBalance := AnalyseColorBalance(data);
    var inp := ComputeEdgeInput(grayscale, width, height, ops);
    var tone := TallyTones(grayscale, inp.gradient);
    var edges := TallyEdges(inp);
    var sharpnessAccumulator := SharpnessSum(inp.gradient);
    var saturationSum := SaturationSum(data, |grayscale|);
    var topSum, bottomSum := SumHalves(grayscale, width, height);
    t := Tallies(stats.value, colorBalance.value, histogram, tone, edges,
                 sharpnessAccumulator, saturationSum, topSum, bottomSum);
  }

  /**
   * `computeMetrics` for an image of at least 1 x 2 pixels: the analyser's metrics and
   * feedback (`AnalysisOf`), then the detector overrides; the feedback stays that of
   * the analyser's own values whatever the detectors report.
   */
  method ComputeMetrics(data: seq<int>, width: nat, height: nat, detectors: Detectors, ops: Ops) returns (metrics: Metrics)
    requires IsRgba(data, width, height) && width > 0 && height >= 2
    ensures metrics == ApplyDetectors(AnalysisOf(data, width, height, ops), detectors)
    ensures IsFeedback(BaseOf(data, width, height, ops), metrics.feedback)
  {
    var grayscale := ToGrayscale(data, width, height, BT709);
    assert grayscale == GraySeq(data, width, height, BT709);
    var tallies := ComputeTallies(data, grayscale, width, height, ops);
    metrics := BaseMetrics(width, height, tallies, ops);
    var feedback := BuildFeedback(metrics);
    metrics := metrics.(feedback := feedback);
    metrics := ApplyDetectors(metrics, detectors);
  }
}
