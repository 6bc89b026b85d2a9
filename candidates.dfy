/**
 * Candidate crops of the composition engine (composition_engine.js
 * `candidateFeatures`, `variationList` and the `CompositionEngine` class): one
 * crop per variation, its feature record, the scores attached to it, and the
 * selection of the best.
 */
module Candidates {
  import opened Numeric
  import opened Wrappers
  import opened CompositionTypes
  import opened CompositionMetrics
  import opened CropBox
  import opened ScoreTypes

  /** A named set of crop options. */
  datatype Variation = Variation(id: string, options: CropOptions)

  /** A candidate before scoring. */
  datatype Candidate = Candidate(id: string, crop: CropRect, rotation: real, features: Features, variation: Variation)

  /** A candidate with its scores attached. */
  datatype ScoredCandidate = ScoredCandidate(candidate: Candidate, compositionScore: real, aestheticScore: real, mode: Mode)

  // ---- variations ----

  /** Each variation sets exactly one crop option. */
  predicate SetsOneOption(v: Variation) {
    var o := v.options;
    (if o.marginOffset.Some? then 1 else 0) + (if o.horizontalBias.Some? then 1 else 0)
      + (if o.verticalBias.Some? then 1 else 0) == 1
  }

  /**
   * `variationList`: the base crop, a tighter and a wider margin, and the subject
   * pushed toward each of the four thirds lines.
   */
  function VariationList(): (r: seq<Variation>)
    ensures |r| == 7
    ensures r[0].id == "base" && r[0].options == CropOptions(Some(0.0), None, None)
    ensures forall i :: 0 <= i < |r| ==> SetsOneOption(r[i])
    ensures forall i :: 0 <= i < |r| && r[i].options.marginOffset.Some? ==> -0.06 <= r[i].options.marginOffset.value <= 0.08
    ensures forall i :: 0 <= i < |r| && r[i].options.horizontalBias.Some? ==> 0.32 <= r[i].options.horizontalBias.value <= 0.68
    ensures forall i :: 0 <= i < |r| && r[i].options.verticalBias.Some? ==> 0.38 <= r[i].options.verticalBias.value <= 0.62
  {
    [ Variation("base", CropOptions(Some(0.0), None, None)),
      Variation("tight", CropOptions(Some(-0.06), None, None)),
      Variation("wide", CropOptions(Some(0.08), None, None)),
      Variation("leftThird", CropOptions(None, Some(0.32), None)),
      Variation("rightThird", CropOptions(None, Some(0.68), None)),
      Variation("topThird", CropOptions(None, None, Some(0.38))),
      Variation("bottomThird", CropOptions(None, None, Some(0.62))) ]
  }

  /** The variations are told apart by their ids. */
  lemma VariationIdsDistinct()
    ensures forall i, j :: 0 <= i < j < |VariationList()| ==> VariationList()[i].id != VariationList()[j].id
  {
    var r := VariationList();
    assert r[0].id[0] == 'b' && r[6].id[0] == 'b' && r[0].id[1] == 'a' && r[6].id[1] == 'o';
    assert r[1].id[0] == 't' && r[5].id[0] == 't' && r[1].id[1] == 'i' && r[5].id[1] == 'o';
    assert r[3].id[0] == 'l' && r[4].id[0] == 'r' && r[2].id[0] == 'w';
  }

  // ---- features ----

  /**
   * The subject box `candidateFeatures` measures: the detected rectangle, or else
   * a box a fifth of the crop's size whose corner is the crop's centre.
   */
  function FeatureSubject(m: Metrics, crop: CropRect): (b: Box)
    ensures m.subjectRect.Some? ==> b == m.subjectRect.value
    ensures m.subjectRect.None? ==> b.width == crop.width as real * 0.2 && b.height == crop.height as real * 0.2
  {
    m.subjectRect.GetOr(Box(crop.x as real + crop.width as real / 2.0, crop.y as real + crop.height as real / 2.0,
                            crop.width as real * 0.2, crop.height as real * 0.2))
  }

  /** The centre of a box. */
  function BoxCenter(b: Box): (c: Point)
    ensures c.x - b.x == b.width / 2.0 && c.y - b.y == b.height / 2.0
  {
    Point(b.x + b.width / 2.0, b.y + b.height / 2.0)
  }

  /**
   * Without a detected subject, the point whose thirds distance is scored lies a
   * tenth of the crop's size right of and below the crop's centre, not at it.
   */
  lemma SyntheticSubjectOffCentre(m: Metrics, crop: CropRect)
    requires m.subjectRect.None?
    ensures BoxCenter(FeatureSubject(m, crop))
         == Point(crop.x as real + crop.width as real * 0.6, crop.y as real + crop.height as real * 0.6)
  {
  }

  /** `detectors.saliency?.confidence ?? metrics.saliencyConfidence`. */
  function SaliencyConfidenceOf(m: Metrics, d: Detectors): real {
    if d.saliency.Some? then d.saliency.value.confidence else m.saliencyConfidence
  }

  /** `detectors.horizon?.confidence ?? metrics.horizonConfidence`. */
  function HorizonConfidenceOf(m: Metrics, d: Detectors): real {
    if d.horizon.Some? then d.horizon.value.confidence else m.horizonConfidence
  }

  /** The vector entries are the named features, in the fixed order the models expect. */
  ghost predicate VectorMatches(f: Features) {
    && f.vector.Some? && |f.vector.value| == 10
    && f.ruleOfThirdsScore == Some(f.vector.value[0])
    && f.saliencyConfidence == Some(f.vector.value[1])
    && f.horizonAngle.Some? && f.vector.value[2] == f.horizonAngle.value / 90.0
    && f.textureStrength == Some(f.vector.value[3])
    && f.balanceRatio == Some(f.vector.value[4])
    && f.cropArea == Some(f.vector.value[5])
    && f.colorHarmony == Some(f.vector.value[6])
    && f.horizonConfidence == Some(f.vector.value[7])
    && f.subjectSize == Some(f.vector.value[8])
    && f.leadingLineStrength == Some(f.vector.value[9])
  }

  /** The subject's area over the crop's. */
  function SubjectRatio(b: Box, crop: CropRect): real
    requires crop.width > 0 && crop.height > 0
  {
    AreaPositive(crop.width, crop.height);
    (b.width * b.height) / (crop.width * crop.height) as real
  }

  /** The crop's share of the image area. */
  function CropArea(m: Metrics, crop: CropRect): real
    requires m.width > 0 && m.height > 0
  {
    AreaPositive(m.width, m.height);
    (crop.width * crop.height) as real / (m.width * m.height) as real
  }

  /**
   * `candidateFeatures`: every field present, the thirds score of the subject's
   * centre (see `FeatureSubject`) clamped to [0, 1], the crop's share of the image,
   * the subject's share of the crop, the confidences taken from the detectors when given, and a ten-entry vector
   * whose entries are the named features.
   */
  function CandidateFeatures(m: Metrics, crop: CropRect, d: Detectors): (f: Features)
    requires m.width > 0 && m.height > 0 && crop.width > 0 && crop.height > 0
    ensures VectorMatches(f)
    ensures 0.0 <= f.ruleOfThirdsScore.value <= 1.0
    ensures f.saliencyConfidence == Some(SaliencyConfidenceOf(m, d))
    ensures f.horizonConfidence == Some(HorizonConfidenceOf(m, d))
    ensures f.horizonAngle == Some(m.horizonAngle) && f.textureStrength == Some(m.textureStrength)
    ensures f.balanceRatio == Some(m.foregroundBackground) && f.colorHarmony == Some(m.colorHarmony)
    ensures f.leadingLineStrength == Some(m.leadingLines.strength)
    ensures f.cropArea.value > 0.0
    ensures f.ruleOfThirdsScore == Some(Clamp(ThirdsScore(BoxCenter(FeatureSubject(m, crop)), m.width, m.height), 0.0, 1.0))
    ensures f.cropArea == Some(CropArea(m, crop))
    ensures f.subjectSize == Some(SubjectRatio(FeatureSubject(m, crop), crop))
  {
    var subject := FeatureSubject(m, crop);
    var ruleScore := Clamp(ThirdsScore(BoxCenter(subject), m.width, m.height), 0.0, 1.0);
    AreaPositive(crop.width, crop.height);
    AreaPositive(m.width, m.height);
    var cropArea := CropArea(m, crop);
    var subjectRatio := SubjectRatio(subject, crop);
    var saliency := SaliencyConfidenceOf(m, d);
    var horizon := HorizonConfidenceOf(m, d);
    Features(Some(ruleScore), Some(saliency), Some(m.horizonAngle), Some(horizon), Some(m.textureStrength),
      Some(m.foregroundBackground), Some(cropArea), Some(m.colorHarmony), Some(subjectRatio),
      Some(m.leadingLines.strength),
      Some([ruleScore, saliency, m.horizonAngle / 90.0, m.textureStrength, m.foregroundBackground,
            cropArea, m.colorHarmony, horizon, subjectRatio, m.leadingLines.strength]))
  }

  /**
   * Without a detected subject the features score the point at 0.6 of the crop
   * (not its centre), and the subject covers exactly 4% of the crop.
   */
  lemma {:induction false} SyntheticSubjectFeatures(m: Metrics, crop: CropRect, d: Detectors)
    requires m.width > 0 && m.height > 0 && crop.width > 0 && crop.height > 0
    requires m.subjectRect.None?
    ensures var f := CandidateFeatures(m, crop, d);
      && f.ruleOfThirdsScore == Some(Clamp(ThirdsScore(Point(crop.x as real + crop.width as real * 0.6,
                                                            crop.y as real + crop.height as real * 0.6), m.width, m.height), 0.0, 1.0))
      && f.subjectSize == Some(0.04)
  {
    SyntheticSubjectOffCentre(m, crop);
    FifthOfCropRatio(FeatureSubject(m, crop), crop);
  }

  /** A box a fifth of the crop's size each way covers 4% of it. */
  lemma FifthOfCropRatio(b: Box, crop: CropRect)
    requires crop.width > 0 && crop.height > 0
    requires b.width == crop.width as real * 0.2 && b.height == crop.height as real * 0.2
    ensures SubjectRatio(b, crop) == 0.04
  {
    var cw, ch := crop.width as real, crop.height as real;
    AreaPositive(crop.width, crop.height);
    var area := (crop.width * crop.height) as real;
    assert area == cw * ch && area > 0.0;
    assert b.width * b.height == 0.04 * area;
    assert SubjectRatio(b, crop) == (0.04 * area) / area;
    assert (0.04 * area) / area == 0.04;
  }

  /** A crop computed for the analysed image covers a share of it in (0, 1]. */
  lemma CropBoxArea(m: Metrics, o: CropOptions)
    requires m.width > 0 && m.height > 0
    ensures var crop := ComputeCropBox(m.width, m.height, m, o);
      0.0 < CropArea(m, crop) <= 1.0
  {
    var crop := ComputeCropBox(m.width, m.height, m, o);
    ShareAtMostOne(crop.width, crop.height, m.width, m.height);
  }

  /** A w x h rectangle inside a W x H one covers a share of it in (0, 1]. */
  lemma ShareAtMostOne(w: int, h: int, bigW: int, bigH: int)
    requires 0 < w <= bigW && 0 < h <= bigH
    ensures 0.0 < (w * h) as real / (bigW * bigH) as real <= 1.0
  {
    AreaPositive(w, h);
    MulMono(w, bigW, h);
    MulMono(h, bigH, bigW);
    assert h * bigW == bigW * h;
    var num, den := (w * h) as real, (bigW * bigH) as real;
    assert 0.0 < num <= den;
    assert num / den <= 1.0 by {
      assert num / den * den == num;
    }
  }

  // ---- the engine ----

  /** The length of `list.slice(0, end)` for a list of `len` elements. */
  function SliceLength(len: nat, end: int): (n: nat)
    ensures n <= len
    ensures 0 <= end ==> n == MinInt(len, end)
    ensures end < 0 ==> n == MaxInt(0, len + end)
  {
    if end >= 0 then MinInt(len, end) else MaxInt(0, len + end)
  }

  class CompositionEngine {
    var maxCandidates: int

    /** `options.maxCandidates || 6`: an absent or zero limit becomes 6. */
    constructor(requested: Option<int>)
      ensures requested.None? || requested.value == 0 ==> maxCandidates == 6
      ensures requested.Some? && requested.value != 0 ==> maxCandidates == requested.value
    {
      maxCandidates := if requested.None? || requested.value == 0 then 6 else requested.value;
    }

    /**
     * `generateCandidates`: one candidate per variation in list order, cut to the
     * limit as `slice(0, maxCandidates)` cuts (a negative limit drops that many
     * from the end), each rotated by the horizon angle and carrying its features.
     */
    function GenerateCandidates(width: nat, height: nat, m: Metrics, d: Detectors): (r: seq<Candidate>)
      reads this
      requires width > 0 && height > 0 && m.width > 0 && m.height > 0
      ensures |r| == SliceLength(7, maxCandidates)
      ensures 1 <= maxCandidates ==> |r| == MinInt(7, maxCandidates)
      ensures forall i :: 0 <= i < |r| ==>
        && r[i].variation == VariationList()[i] && r[i].id == VariationList()[i].id
        && r[i].rotation == m.horizonAngle
        && r[i].crop == ComputeCropBox(width, height, m, VariationList()[i].options)
        && VectorMatches(r[i].features)
        && r[i].features == CandidateFeatures(m, r[i].crop, d)
    {
      var variations := VariationList()[..SliceLength(7, maxCandidates)];
      seq(|variations|, i requires 0 <= i < |variations| =>
        var crop := ComputeCropBox(width, height, m, variations[i].options);
        Candidate(variations[i].id, crop, m.horizonAngle, CandidateFeatures(m, crop, d), variations[i]))
    }

    /**
     * `evaluateCandidates`: the candidates in order, each with the score at its
     * index; a missing composition or aesthetic score is 0.5 and a missing mode
     * is the rules.
     */
    function EvaluateCandidates(candidates: seq<Candidate>, scores: seq<Score>): (r: seq<ScoredCandidate>)
      ensures |r| == |candidates|
      ensures forall i :: 0 <= i < |r| ==> r[i].candidate == candidates[i]
      ensures forall i :: 0 <= i < |r| && i < |scores| && scores[i].composition.Some? ==> r[i].compositionScore == scores[i].composition.value
      ensures forall i :: 0 <= i < |r| && (|scores| <= i || scores[i].composition.None?) ==> r[i].compositionScore == 0.5
      ensures forall i :: 0 <= i < |r| && i < |scores| && scores[i].aesthetic.Some? ==> r[i].aestheticScore == scores[i].aesthetic.value
      ensures forall i :: 0 <= i < |r| && (|scores| <= i || scores[i].aesthetic.None?) ==> r[i].aestheticScore == 0.5
      ensures forall i :: 0 <= i < |r| && i < |scores| && scores[i].mode.Some? ==> r[i].mode == scores[i].mode.value
      ensures forall i :: 0 <= i < |r| && (|scores| <= i || scores[i].mode.None?) ==> r[i].mode == Rules
    {
      seq(|candidates|, i requires 0 <= i < |candidates| =>
        var s := if i < |scores| then scores[i] else Score(None, None, None);
        ScoredCandidate(candidates[i], s.composition.GetOr(0.5), s.aesthetic.GetOr(0.5), s.mode.GetOr(Rules)))
    }

    /** `selectBestCandidate`: `null` for no candidates, else the `reduce` below. */
    function SelectBestCandidate(scored: seq<ScoredCandidate>): (r: Option<ScoredCandidate>)
      ensures r.None? <==> |scored| == 0
    {
      if |scored| == 0 then None else Some(ReduceBest(scored, 1, scored[0]))
    }
  }

  // ---- selection ----

  /** `a` replaces `b` as the best: a higher composition score, or an equal one and a higher aesthetic score. */
  predicate Better(a: ScoredCandidate, b: ScoredCandidate) {
    a.compositionScore > b.compositionScore
      || (a.compositionScore == b.compositionScore && a.aestheticScore > b.aestheticScore)
  }

  /** The rest of the `reduce` from index i with the best so far. */
  function ReduceBest(s: seq<ScoredCandidate>, i: nat, best: ScoredCandidate): ScoredCandidate
    requires i <= |s|
    decreases |s| - i
  {
    if i == |s| then best else ReduceBest(s, i + 1, if Better(s[i], best) then s[i] else best)
  }

  /** Among the first n, s[k] beats every earlier entry and no later entry beats it. */
  ghost predicate FirstBestUpTo(s: seq<ScoredCandidate>, k: int, n: int) {
    && 0 <= k < n <= |s|
    && (forall j :: 0 <= j < k ==> Better(s[k], s[j]))
    && (forall j :: k < j < n ==> !Better(s[j], s[k]))
  }

  /** The index the `reduce` from index i ends on, started from entry k. */
  ghost function BestIndex(s: seq<ScoredCandidate>, i: nat, k: nat): nat
    requires i <= |s| && k < |s|
    decreases |s| - i
  {
    if i == |s| then k else BestIndex(s, i + 1, if Better(s[i], s[k]) then i else k)
  }

  /** Started from the first best of the first i entries, the `reduce` ends on the first best of all. */
  lemma {:induction false} ReduceBestFirst(s: seq<ScoredCandidate>, i: nat, k: nat)
    requires i <= |s| && FirstBestUpTo(s, k, i)
    ensures FirstBestUpTo(s, BestIndex(s, i, k), |s|)
    ensures ReduceBest(s, i, s[k]) == s[BestIndex(s, i, k)]
    decreases |s| - i
  {
    if i < |s| {
      if Better(s[i], s[k]) {
        assert FirstBestUpTo(s, i, i + 1);
        ReduceBestFirst(s, i + 1, i);
      } else {
        assert FirstBestUpTo(s, k, i + 1);
        ReduceBestFirst(s, i + 1, k);
      }
    }
  }

  /**
   * The selected candidate is the first one that is greatest on (composition,
   * aesthetic): it beats every earlier candidate, and no later one beats it.
   */
  lemma SelectBestIsFirstMaximum(e: CompositionEngine, scored: seq<ScoredCandidate>)
    requires |scored| > 0
    ensures exists k :: FirstBestUpTo(scored, k, |scored|) && e.SelectBestCandidate(scored) == Some(scored[k])
  {
    assert FirstBestUpTo(scored, 0, 1);
    ReduceBestFirst(scored, 1, 0);
    var k := BestIndex(scored, 1, 0);
    assert FirstBestUpTo(scored, k, |scored|) && e.SelectBestCandidate(scored) == Some(scored[k]);
  }
}
