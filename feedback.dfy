/**
 * `buildFeedback` (composition_engine.js): the feedback identifiers a metrics record
 * earns, collected in a `Set` in rule order, with `feedback_good` when no rule fires.
 */
module Feedback {
  import opened Numeric
  import opened Wrappers
  import opened CompositionTypes

  /** The position of each tag in the order the rules add them. */
  function Rank(t: FeedbackTag): (k: nat)
    ensures k < 16
  {
    match t
    case Rotation => 0 case Crop => 1 case Exposure => 2 case Highlights => 3
    case Shadows => 4 case Contrast => 5 case LocalContrast => 6 case Saturation => 7
    case Vibrance => 8 case Sharpness => 9 case Balance => 10 case ColorWarm => 11
    case ColorCool => 12 case LeadingLinesTag => 13 case Vignette => 14 case Good => 15
  }

  /** The tag at each position; the inverse of `Rank`. */
  function TagAt(k: nat): (t: FeedbackTag)
    requires k < 16
    ensures Rank(t) == k
  {
    if k == 0 then Rotation else if k == 1 then Crop else if k == 2 then Exposure
    else if k == 3 then Highlights else if k == 4 then Shadows else if k == 5 then Contrast
    else if k == 6 then LocalContrast else if k == 7 then Saturation else if k == 8 then Vibrance
    else if k == 9 then Sharpness else if k == 10 then Balance else if k == 11 then ColorWarm
    else if k == 12 then ColorCool else if k == 13 then LeadingLinesTag else if k == 14 then Vignette
    else Good
  }

  lemma RankInjective(t: FeedbackTag, u: FeedbackTag)
    ensures Rank(t) == Rank(u) ==> t == u
  {
  }

  predicate NoDuplicates<T(==)>(s: seq<T>) {
    forall i, j :: 0 <= i < j < |s| ==> s[i] != s[j]
  }

  /** Whether the rule that adds tag `t` fires for `m` (`feedback_good` has no rule of its own). */
  predicate RuleFires(m: Metrics, t: FeedbackTag) {
    match t
    case Rotation => Abs(m.horizonAngle) > 1.5
    case Crop => m.subjectRect.Some? && m.ruleOfThirdsScore < 0.6
    case Exposure => m.exposure < 110.0 && m.shadowClipping < 0.03
    case Highlights => m.highlightClipping > 0.035 || m.exposure > 165.0
    case Shadows => m.shadowClipping > 0.035
    case Contrast => m.contrast < 45.0 || m.textureStrength < 0.08
    case LocalContrast => m.contrast < 45.0 || m.textureStrength < 0.08
    case Saturation => m.saturation < 50.0
    case Vibrance => m.saturation < 50.0
    case Sharpness => m.sharpnessVariance < 120.0
    case Balance => m.foregroundBackground < 0.8 || m.foregroundBackground > 1.2
    case ColorWarm => m.colorCast.strength > 0.08 && m.colorCast.bias >= 0.0
    case ColorCool => m.colorCast.strength > 0.08 && m.colorCast.bias < 0.0
    case LeadingLinesTag => m.leadingLines.strength < 0.18 && m.subjectRect.Some?
    case Vignette => m.subjectSize < 0.14
    case Good => false
  }

  predicate AnyRuleFires(m: Metrics) {
    exists t :: RuleFires(m, t)
  }

  /** Membership in the final set: the fired tags, or `feedback_good` alone when none fired. */
  predicate InFeedback(m: Metrics, t: FeedbackTag) {
    if t == Good then !AnyRuleFires(m) else RuleFires(m, t)
  }

  /** Strictly increasing in rule order, hence free of duplicates. */
  predicate RankSorted(s: seq<FeedbackTag>) {
    forall i, j :: 0 <= i < j < |s| ==> Rank(s[i]) < Rank(s[j])
  }

  lemma SortedNoDuplicates(s: seq<FeedbackTag>)
    requires RankSorted(s)
    ensures NoDuplicates(s)
  {
  }

  /** The state after the rules of the first `k` positions have run. */
  predicate Partial(m: Metrics, s: seq<FeedbackTag>, k: nat) {
    RankSorted(s) && forall t :: t in s <==> Rank(t) < k && InFeedback(m, t)
  }

  /** A correct result of `buildFeedback`: every feedback tag of `m`, nothing else, in rule order. */
  predicate IsFeedback(m: Metrics, s: seq<FeedbackTag>) {
    RankSorted(s) && forall t :: t in s <==> InFeedback(m, t)
  }

  /** `Set.add`: an element already present is not added twice. */
  function Add(s: seq<FeedbackTag>, t: FeedbackTag): seq<FeedbackTag> {
    if t in s then s else s + [t]
  }

  /** After all fifteen positions, the list is empty exactly when no rule fired. */
  lemma NothingFiredYet(m: Metrics, s: seq<FeedbackTag>)
    requires Partial(m, s, 15)
    ensures |s| == 0 <==> !AnyRuleFires(m)
  {
    if AnyRuleFires(m) {
      var t :| RuleFires(m, t);
      assert t in s;
    }
    if |s| > 0 {
      assert s[0] in s;
    }
  }

  /**
   * The list after the rules of the first `k` positions have run: each position
   * appends its tag when its rule fires.
   */
  function Fired(m: Metrics, k: nat): (s: seq<FeedbackTag>)
    requires k <= 15
    ensures |s| <= k
  {
    if k == 0 then []
    else
      var s := Fired(m, k - 1);
      if RuleFires(m, TagAt(k - 1)) then s + [TagAt(k - 1)] else s
  }

  /** `Fired` holds exactly the fired tags of the first `k` positions, in rule order. */
  lemma {:induction false} FiredPartial(m: Metrics, k: nat)
    requires k <= 15
    ensures Partial(m, Fired(m, k), k)
  {
    if k > 0 {
      FiredPartial(m, k - 1);
      RankBelow(m, Fired(m, k - 1), k - 1, TagAt(k - 1));
    }
  }

  /** The tag at position `k` is not yet in a partial result for the first `k` positions. */
  lemma RankBelow(m: Metrics, s: seq<FeedbackTag>, k: nat, t: FeedbackTag)
    requires k < 16 && Partial(m, s, k) && Rank(t) == k
    ensures t !in s
    ensures forall u :: Rank(u) == k ==> u == t
    ensures forall i :: 0 <= i < |s| ==> Rank(s[i]) < k
  {
    forall u ensures Rank(u) == k ==> u == t {
      RankInjective(u, t);
    }
    forall i | 0 <= i < |s| ensures Rank(s[i]) < k {
      assert s[i] in s;
    }
  }

  /** The final list: the fired tags, or `feedback_good` alone when none fired. */
  function Expected(m: Metrics): (r: seq<FeedbackTag>)
    ensures IsFeedback(m, r)
  {
    var s := Fired(m, 15);
    FiredPartial(m, 15);
    NothingFiredYet(m, s);
    if |s| == 0 then [Good] else s
  }

  /** One step of `Fired`, as `Set.add` performs it. */
  lemma StepOk(m: Metrics, k: nat)
    requires k < 15
    ensures Fired(m, k + 1) == if RuleFires(m, TagAt(k)) then Add(Fired(m, k), TagAt(k)) else Fired(m, k)
  {
    FiredPartial(m, k);
    RankBelow(m, Fired(m, k), k, TagAt(k));
  }

  /**
   * One guarded `feedback.add(tag)` of `buildFeedback`: the rule at position `k`,
   * whose condition is `fires`, run on the list of the positions before it.
   */
  method AddWhen(s: seq<FeedbackTag>, fires: bool, t: FeedbackTag, ghost m: Metrics, ghost k: nat)
    returns (r: seq<FeedbackTag>)
    requires k < 15 && t == TagAt(k) && fires == RuleFires(m, t) && s == Fired(m, k)
    ensures r == Fired(m, k + 1)
  {
    StepOk(m, k);
    r := s;
    if fires {
      r := Add(r, t);
    }
  }

  /** The colour-cast rule: a strong cast adds the warm or the cool tag by the sign of its bias. */
  method AddColorCast(s: seq<FeedbackTag>, cast: ColorCast, ghost m: Metrics) returns (r: seq<FeedbackTag>)
    requires cast == m.colorCast && s == Fired(m, 11)
    ensures r == Fired(m, 13)
  {
    StepOk(m, 11);
    StepOk(m, 12);
    r := s;
    if cast.strength > 0.08 {
      if cast.bias >= 0.0 {
        r := Add(r, ColorWarm);
      } else {
        r := Add(r, ColorCool);
      }
    }
  }

  /** The framing and exposure rules of `buildFeedback` (positions 0 to 4). */
  method FramingAndExposureRules(m: Metrics) returns (feedback: seq<FeedbackTag>)
    ensures feedback == Fired(m, 5)
  {
    feedback := [];
    feedback := AddWhen(feedback, Abs(m.horizonAngle) > 1.5, Rotation, m, 0);
    feedback := AddWhen(feedback, m.subjectRect.Some? && m.ruleOfThirdsScore < 0.6, Crop, m, 1);
    feedback := AddWhen(feedback, m.exposure < 110.0 && m.shadowClipping < 0.03, Exposure, m, 2);
    feedback := AddWhen(feedback, m.highlightClipping > 0.035 || m.exposure > 165.0, Highlights, m, 3);
    feedback := AddWhen(feedback, m.shadowClipping > 0.035, Shadows, m, 4);
  }

  /** The tone rules of `buildFeedback` (positions 5 to 8): flat contrast and dull colour add pairs. */
  method ToneRules(m: Metrics, s: seq<FeedbackTag>) returns (feedback: seq<FeedbackTag>)
    requires s == Fired(m, 5)
    ensures feedback == Fired(m, 9)
  {
    var flat := m.contrast < 45.0 || m.textureStrength < 0.08;
    feedback := AddWhen(s, flat, Contrast, m, 5);
    feedback := AddWhen(feedback, flat, LocalContrast, m, 6);
    var dull := m.saturation < 50.0;
    feedback := AddWhen(feedback, dull, Saturation, m, 7);
    feedback := AddWhen(feedback, dull, Vibrance, m, 8);
  }

  /** The sharpness, balance and colour-cast rules of `buildFeedback` (positions 9 to 12). */
  method DetailAndColorRules(m: Metrics, s: seq<FeedbackTag>) returns (feedback: seq<FeedbackTag>)
    requires s == Fired(m, 9)
    ensures feedback == Fired(m, 13)
  {
    feedback := AddWhen(s, m.sharpnessVariance < 120.0, Sharpness, m, 9);
    feedback := AddWhen(feedback, m.foregroundBackground < 0.8 || m.foregroundBackground > 1.2, Balance, m, 10);
    feedback := AddColorCast(feedback, m.colorCast, m);
  }

  /**
   * `buildFeedback`: the rules in order, each adding its tags to a `Set` when its
   * condition holds, then `feedback_good` if the set is still empty. The result
   * holds exactly the feedback's tags, in rule order.
   */
  method BuildFeedback(m: Metrics) returns (feedback: seq<FeedbackTag>)
    ensures feedback == Expected(m)
    ensures IsFeedback(m, feedback)
  {
    feedback := FramingAndExposureRules(m);
    feedback := ToneRules(m, feedback);
    feedback := DetailAndColorRules(m, feedback);
    feedback := AddWhen(feedback, m.leadingLines.strength < 0.18 && m.subjectRect.Some?, LeadingLinesTag, m, 13);
    feedback := AddWhen(feedback, m.subjectSize < 0.14, Vignette, m, 14);
    if |feedback| == 0 {
      feedback := Add(feedback, Good);
    }
  }

  /** Every element after the head of a list in rule order ranks above the head. */
  lemma TailAboveHead(a: seq<FeedbackTag>, t: FeedbackTag)
    requires RankSorted(a) && |a| > 0
    ensures t in a[1..] <==> t in a && t != a[0]
  {
    if t in a[1..] {
      var i :| 0 <= i < |a| - 1 && a[1..][i] == t;
      assert a[i + 1] == t;
    }
    if t in a && t != a[0] {
      var i :| 0 <= i < |a| && a[i] == t;
      assert a[1..][i - 1] == t;
    }
  }

  lemma HeadIn(s: seq<FeedbackTag>)
    ensures |s| > 0 ==> s[0] in s
  {
  }

  /** Two lists in rule order with the same members are equal. */
  lemma {:induction false} SortedSameMembers(a: seq<FeedbackTag>, b: seq<FeedbackTag>)
    requires RankSorted(a) && RankSorted(b)
    requires forall t :: t in a <==> t in b
    ensures a == b
    decreases |a|
  {
    if |a| == 0 {
      HeadIn(b);
    } else {
      assert a[0] in a;
      assert b != [];
      assert b[0] in b;
      var i :| 0 <= i < |b| && b[i] == a[0];
      var j :| 0 <= j < |a| && a[j] == b[0];
      assert i == 0 && j == 0;
      forall t ensures t in a[1..] <==> t in b[1..] {
        TailAboveHead(a, t);
        TailAboveHead(b, t);
      }
      SortedSameMembers(a[1..], b[1..]);
      assert a == [a[0]] + a[1..] && b == [b[0]] + b[1..];
    }
  }

  /** The result of `buildFeedback` is determined by the metrics. */
  lemma FeedbackUnique(m: Metrics, a: seq<FeedbackTag>, b: seq<FeedbackTag>)
    requires IsFeedback(m, a) && IsFeedback(m, b)
    ensures a == b
  {
    SortedSameMembers(a, b);
  }

  /**
   * The list has no duplicates, is never empty, and holds `feedback_good` exactly
   * when no rule fired, and then nothing else.
   */
  lemma FeedbackShape(m: Metrics, r: seq<FeedbackTag>)
    requires IsFeedback(m, r)
    ensures NoDuplicates(r)
    ensures |r| > 0
    ensures Good in r <==> !AnyRuleFires(m)
    ensures Good in r ==> r == [Good]
  {
    SortedNoDuplicates(r);
    if AnyRuleFires(m) {
      var t :| RuleFires(m, t);
      assert t in r;
    } else {
      assert Good in r;
      SortedSameMembers(r, [Good]);
    }
  }

  /**
   * The paired tags always come together, the warm and cool casts exclude each
   * other, and every listed tag other than `feedback_good` is there because its rule fired.
   */
  lemma FeedbackGroups(m: Metrics, r: seq<FeedbackTag>)
    requires IsFeedback(m, r)
    ensures Contrast in r <==> LocalContrast in r
    ensures Saturation in r <==> Vibrance in r
    ensures !(ColorWarm in r && ColorCool in r)
    ensures forall t :: t != Good ==> (t in r <==> RuleFires(m, t))
  {
  }
}
