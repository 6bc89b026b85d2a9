/**
 * The values the composition engine (composition_engine.js) passes around: the
 * metrics record of `computeMetrics`, its sub-records, and the closed set of
 * feedback identifiers.
 */
module CompositionTypes {
  import opened Numeric
  import opened Wrappers

  /** A rectangle in image coordinates (`{ x, y, width, height }`). */
  datatype Box = Box(x: real, y: real, width: real, height: real)

  datatype ColorBalance = ColorBalance(r: real, g: real, b: real)

  datatype ColorCast = ColorCast(bias: real, warmBias: real, coolBias: real, strength: real)

  datatype LeadingLines = LeadingLines(angle: real, strength: real)

  /** The feedback identifiers, in the order `buildFeedback` tests them. */
  datatype FeedbackTag =
    | Rotation | Crop | Exposure | Highlights | Shadows | Contrast | LocalContrast
    | Saturation | Vibrance | Sharpness | Balance | ColorWarm | ColorCool
    | LeadingLinesTag | Vignette | Good

  /** The string each tag stands for. */
  function TagId(t: FeedbackTag): (id: string)
    ensures |id| > 9 && id[..9] == "feedback_"
  {
    match t
    case Rotation => "feedback_rotation"
    case Crop => "feedback_crop"
    case Exposure => "feedback_exposure"
    case Highlights => "feedback_highlights"
    case Shadows => "feedback_shadows"
    case Contrast => "feedback_contrast"
    case LocalContrast => "feedback_local_contrast"
    case Saturation => "feedback_saturation"
    case Vibrance => "feedback_vibrance"
    case Sharpness => "feedback_sharpness"
    case Balance => "feedback_balance"
    case ColorWarm => "feedback_color_warm"
    case ColorCool => "feedback_color_cool"
    case LeadingLinesTag => "feedback_leading_lines"
    case Vignette => "feedback_vignette"
    case Good => "feedback_good"
  }

  /** Distinct tags have distinct identifiers, so a set of tags is a set of strings. */
  lemma TagIdInjective(a: FeedbackTag, b: FeedbackTag)
    ensures TagId(a) == TagId(b) ==> a == b
  {
  }

  /** The metrics record of `computeMetrics`. */
  datatype Metrics = Metrics(
    width: nat,
    height: nat,
    subjectRect: Option<Box>,
    subjectCenter: Point,
    subjectOffset: Point,
    subjectSize: real,
    saliencyConfidence: real,
    horizonAngle: real,
    horizonConfidence: real,
    horizonLine: (Point, Point),
    ruleOfThirdsScore: real,
    sharpnessVariance: real,
    exposure: real,
    contrast: real,
    saturation: real,
    colorBalance: ColorBalance,
    colorHarmony: real,
    foregroundBackground: real,
    shadowClipping: real,
    highlightClipping: real,
    midtoneBalance: real,
    colorCast: ColorCast,
    leadingLines: LeadingLines,
    textureStrength: real,
    feedback: seq<FeedbackTag>,
    histogram: seq<int>)
}
