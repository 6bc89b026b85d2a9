/**
 * The records that pass between the composition engine and the two scorers: a
 * candidate's feature record (every field may be absent when a scorer reads it)
 * and the score a scorer returns.
 */
module ScoreTypes {
  import opened Wrappers

  /** The feature record of a candidate, as the scorers read it: an absent field is `None`. */
  datatype Features = Features(
    ruleOfThirdsScore: Option<real>,
    saliencyConfidence: Option<real>,
    horizonAngle: Option<real>,
    horizonConfidence: Option<real>,
    textureStrength: Option<real>,
    balanceRatio: Option<real>,
    cropArea: Option<real>,
    colorHarmony: Option<real>,
    subjectSize: Option<real>,
    leadingLineStrength: Option<real>,
    vector: Option<seq<real>>)

  /** The feature record with no field present. */
  function NoFeatures(): Features {
    Features(None, None, None, None, None, None, None, None, None, None, None)
  }

  /** Where a score came from: the closed-form rules, a model in the browser, or the backend. */
  datatype Mode = Rules | Local | Cloud

  /** The two scores of a heuristic. */
  datatype Heuristic = Heuristic(composition: real, aesthetic: real)

  /** A score as a scorer hands it back; any field may be missing. */
  datatype Score = Score(composition: Option<real>, aesthetic: Option<real>, mode: Option<Mode>)

  /** The worker's `loadModelResult` message. */
  datatype LoadReply = LoadReply(success: bool, backendMode: Mode, version: Option<string>)

  /** The worker's `inferenceResult` message. */
  datatype InferReply = InferReply(id: string, results: seq<Score>, backendMode: Mode, version: Option<string>)
}
