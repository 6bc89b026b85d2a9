/**
 * The scoring front end of the page (ai_inference_controller.js): a closed-form
 * heuristic, the feature vector sent to a model, and the `AIInferenceController`
 * whose status and mode move as the worker, the backend and the model answer or
 * fail. Every outcome of the worker, of `fetch` and of the model is a parameter.
 */
module InferenceController {
  import opened Numeric
  import opened Wrappers
  import opened ScoreTypes

  // ---- the heuristic ----

  /** `max(0, 1 - |angle ?? 0| / 45)`: 1 for a level (or unknown) horizon, falling to 0 at 45 degrees. */
  function HorizonTerm(angle: Option<real>): (t: real)
    ensures 0.0 <= t <= 1.0
    ensures angle.None? || angle == Some(0.0) ==> t == 1.0
    ensures angle.Some? && Abs(angle.value) >= 45.0 ==> t == 0.0
  {
    Max(0.0, 1.0 - Abs(angle.GetOr(0.0)) / 45.0)
  }

  /** `min(1, (texture ?? 0.18) * 3)`. */
  function TextureTerm(texture: Option<real>): (t: real)
    ensures t <= 1.0
    ensures texture.None? ==> t == 0.54
    ensures texture.Some? && texture.value >= 0.0 ==> 0.0 <= t
  {
    Min(1.0, texture.GetOr(0.18) * 3.0)
  }

  /** `1 - min(1, |(ratio ?? 1) - 1| * 0.5)`: 1 for an even (or unknown) balance, falling to 0. */
  function BalanceTerm(ratio: Option<real>): (t: real)
    ensures 0.0 <= t <= 1.0
    ensures ratio.None? || ratio == Some(1.0) ==> t == 1.0
  {
    1.0 - Min(1.0, Abs(ratio.GetOr(1.0) - 1.0) * 0.5)
  }

  /**
   * `heuristicScore`: the weighted composition score, capped at 0.99, and the
   * aesthetic score built on it, capped at 0.98.
   */
  function HeuristicScore(f: Features): (h: Heuristic)
    ensures h.composition <= 0.99 && h.aesthetic <= 0.98
  {
    var thirds := f.ruleOfThirdsScore.GetOr(0.5);
    var saliency := f.saliencyConfidence.GetOr(0.5);
    var horizon := HorizonTerm(f.horizonAngle);
    var texture := TextureTerm(f.textureStrength);
    var balance := BalanceTerm(f.balanceRatio);
    var composition := Min(0.99, 0.24 + thirds * 0.4 + saliency * 0.2 + horizon * 0.1 + texture * 0.08 + balance * 0.05);
    Heuristic(composition, Min(0.98, composition * 0.65 + texture * 0.15 + f.colorHarmony.GetOr(0.5) * 0.2))
  }

  /** With every feature absent, the stated defaults give 0.7332 and 0.65758. */
  lemma HeuristicDefaults()
    ensures HeuristicScore(NoFeatures()) == Heuristic(0.7332, 0.65758)
  {
    var f := NoFeatures();
    assert TextureTerm(f.textureStrength) == 0.54 && HorizonTerm(f.horizonAngle) == 1.0 && BalanceTerm(f.balanceRatio) == 1.0;
  }

  /** A better thirds score never lowers the composition score. */
  lemma HeuristicMonotoneInThirds(f: Features, better: real)
    requires f.ruleOfThirdsScore.Some? && f.ruleOfThirdsScore.value <= better
    ensures HeuristicScore(f).composition <= HeuristicScore(f.(ruleOfThirdsScore := Some(better))).composition
  {
  }

  /** Features with every present value in [0, 1] (and a horizon of any angle) score at least 0.24. */
  lemma HeuristicFloor(f: Features)
    requires forall v :: v in [f.ruleOfThirdsScore, f.saliencyConfidence, f.textureStrength] && v.Some? ==> 0.0 <= v.value
    ensures 0.24 <= HeuristicScore(f).composition
  {
    assert f.ruleOfThirdsScore in [f.ruleOfThirdsScore, f.saliencyConfidence, f.textureStrength];
    assert f.saliencyConfidence in [f.ruleOfThirdsScore, f.saliencyConfidence, f.textureStrength];
    assert f.textureStrength in [f.ruleOfThirdsScore, f.saliencyConfidence, f.textureStrength];
  }

  /**
   * `_featureVector`: the ten features in the models' order (thirds, saliency,
   * horizon angle, texture, balance, crop area, harmony, horizon confidence,
   * subject size, leading lines), each present value at its place and each absent
   * one replaced by its default.
   */
  function FeatureVector(f: Features): (v: seq<real>)
    ensures |v| == 10
    ensures (f.ruleOfThirdsScore.Some? ==> v[0] == f.ruleOfThirdsScore.value) && (f.ruleOfThirdsScore.None? ==> v[0] == 0.5)
    ensures (f.saliencyConfidence.Some? ==> v[1] == f.saliencyConfidence.value) && (f.saliencyConfidence.None? ==> v[1] == 0.5)
    ensures (f.horizonAngle.Some? ==> v[2] == f.horizonAngle.value) && (f.horizonAngle.None? ==> v[2] == 0.0)
    ensures (f.textureStrength.Some? ==> v[3] == f.textureStrength.value) && (f.textureStrength.None? ==> v[3] == 0.1)
    ensures (f.balanceRatio.Some? ==> v[4] == f.balanceRatio.value) && (f.balanceRatio.None? ==> v[4] == 1.0)
    ensures (f.cropArea.Some? ==> v[5] == f.cropArea.value) && (f.cropArea.None? ==> v[5] == 1.0)
    ensures (f.colorHarmony.Some? ==> v[6] == f.colorHarmony.value) && (f.colorHarmony.None? ==> v[6] == 0.5)
    ensures (f.horizonConfidence.Some? ==> v[7] == f.horizonConfidence.value) && (f.horizonConfidence.None? ==> v[7] == 0.5)
    ensures (f.subjectSize.Some? ==> v[8] == f.subjectSize.value) && (f.subjectSize.None? ==> v[8] == 0.2)
    ensures (f.leadingLineStrength.Some? ==> v[9] == f.leadingLineStrength.value) && (f.leadingLineStrength.None? ==> v[9] == 0.2)
  {
    [ f.ruleOfThirdsScore.GetOr(0.5), f.saliencyConfidence.GetOr(0.5), f.horizonAngle.GetOr(0.0),
      f.textureStrength.GetOr(0.1), f.balanceRatio.GetOr(1.0), f.cropArea.GetOr(1.0),
      f.colorHarmony.GetOr(0.5), f.horizonConfidence.GetOr(0.5), f.subjectSize.GetOr(0.2),
      f.leadingLineStrength.GetOr(0.2) ]
  }

  /** With every feature absent the vector is the list of defaults. */
  lemma FeatureVectorDefaults()
    ensures FeatureVector(NoFeatures()) == [0.5, 0.5, 0.0, 0.1, 1.0, 1.0, 0.5, 0.5, 0.2, 0.2]
  {
  }

  /** The features sent to the worker: each keeps its vector, or gets `_featureVector`'s. */
  function WorkerPayload(features: seq<Features>): (p: seq<Features>)
    ensures |p| == |features|
    ensures forall i :: 0 <= i < |p| ==> p[i].vector.Some?
    ensures forall i :: 0 <= i < |p| && features[i].vector.Some? ==> p[i] == features[i]
    ensures forall i :: 0 <= i < |p| && features[i].vector.None? ==> |p[i].vector.value| == 10
  {
    seq(|features|, i requires 0 <= i < |features| =>
      if features[i].vector.Some? then features[i] else features[i].(vector := Some(FeatureVector(features[i]))))
  }

  // ---- result lists ----

  /** The rules' score of one feature record. */
  function RulesScore(f: Features): (s: Score)
    ensures s.mode == Some(Rules) && s.composition.Some? && s.aesthetic.Some?
    ensures s.composition.value == HeuristicScore(f).composition && s.aesthetic.value == HeuristicScore(f).aesthetic
  {
    var h := HeuristicScore(f);
    Score(Some(h.composition), Some(h.aesthetic), Some(Rules))
  }

  /** The fallback list: one rules score per feature record, index-aligned, each within the caps. */
  function FallbackResults(features: seq<Features>): (r: seq<Score>)
    ensures |r| == |features|
    ensures forall i :: 0 <= i < |r| ==> r[i] == RulesScore(features[i])
    ensures forall i :: 0 <= i < |r| ==>
      r[i].composition.Some? && r[i].aesthetic.Some? && r[i].composition.value <= 0.99 && r[i].aesthetic.value <= 0.98
  {
    seq(|features|, i requires 0 <= i < |features| => RulesScore(features[i]))
  }

  /** A backend result needs the heuristic of its feature exactly when it has no composition. */
  predicate NeedsHeuristic(result: Score) {
    result.composition.None?
  }

  /**
   * The backend's results, one per entry of `payload.results`: a missing
   * composition is the heuristic's, a missing aesthetic the composition. A result
   * past the last feature that needs the heuristic reads a missing feature and
   * throws (`None`).
   */
  function CloudResults(features: seq<Features>, payload: seq<Score>): (r: Option<seq<Score>>)
    ensures r.None? <==> exists i :: |features| <= i < |payload| && NeedsHeuristic(payload[i])
    ensures r.Some? ==> |r.value| == |payload|
    ensures r.Some? ==> forall i :: 0 <= i < |payload| ==> r.value[i].mode == Some(Cloud) && r.value[i].composition.Some?
    ensures r.Some? ==> forall i :: 0 <= i < |payload| && payload[i].composition.Some? ==>
      r.value[i].composition == payload[i].composition
      && r.value[i].aesthetic == Some(payload[i].aesthetic.GetOr(payload[i].composition.value))
    ensures r.Some? ==> forall i :: 0 <= i < |payload| && payload[i].composition.None? ==>
      i < |features| && r.value[i].composition == Some(HeuristicScore(features[i]).composition)
      && r.value[i].aesthetic == Some(payload[i].aesthetic.GetOr(HeuristicScore(features[i]).composition))
  {
    if exists i :: |features| <= i < |payload| && NeedsHeuristic(payload[i]) then None
    else Some(seq(|payload|, i requires 0 <= i < |payload| =>
      var fallback := if i < |features| then HeuristicScore(features[i]).composition else 0.0;
      var composition := payload[i].composition.GetOr(fallback);
      Score(Some(composition), Some(payload[i].aesthetic.GetOr(composition)), Some(Cloud))))
  }

  /** The worker's results as the controller reports them, tagged with the worker's mode. */
  function WorkerResults(reply: InferReply): (r: seq<Score>)
    ensures |r| == |reply.results|
    ensures forall i :: 0 <= i < |r| ==> r[i] == reply.results[i].(mode := Some(reply.backendMode))
  {
    seq(|reply.results|, i requires 0 <= i < |reply.results| => reply.results[i].(mode := Some(reply.backendMode)))
  }

  // ---- the controller ----

  datatype Status = Idle | Loading | Ready | Error

  /**
   * What the world does during one call: whether `Worker` exists and starts,
   * the worker's `loadModelResult` (`None` when posting fails), the backend's
   * answer (`None` when `fetch` fails or the reply is not ok; otherwise
   * `payload.results`, itself `None` when absent), and the worker's
   * `inferenceResult` (`None` when it fails).
   */
  datatype Environment = Environment(
    workerDefined: bool,
    workerStarts: bool,
    loadReply: Option<LoadReply>,
    cloudReply: Option<Option<seq<Score>>>,
    inferReply: Option<InferReply>)

  class AIInferenceController {
    var status: Status
    var mode: Mode
    var initialized: bool
    var hasWorker: bool
    var failed: bool
    var lastInference: Option<seq<Score>>
    /** The features of the last `infer` message posted to the worker. */
    var lastPosted: Option<seq<Features>>
    const useWorker: bool
    const backendEndpoint: Option<string>

    /** A fresh controller is idle, on the rules, uninitialised and without a worker. */
    constructor(useWorker: bool, backendEndpoint: Option<string>)
      ensures status == Idle && mode == Rules && !initialized && !hasWorker && !failed && lastInference.None?
      ensures lastPosted.None?
      ensures this.useWorker == useWorker && this.backendEndpoint == backendEndpoint
    {
      status, mode, initialized, hasWorker, failed, lastInference := Idle, Rules, false, false, false, None;
      lastPosted := None;
      this.useWorker, this.backendEndpoint := useWorker, backendEndpoint;
    }

    /** `this.backendEndpoint` is truthy. */
    predicate HasEndpoint()
      reads this
    {
      backendEndpoint.Some? && backendEndpoint.value != ""
    }

    /** The mode the controller is in once `initialize` has run in this environment. */
    function ModeOnceInitialized(env: Environment): Mode
      reads this
    {
      if initialized then mode
      else if useWorker && env.workerDefined && env.workerStarts && env.loadReply.Some? then env.loadReply.value.backendMode
      else Rules
    }

    /** Whether the controller holds a worker once `initialize` has run in this environment. */
    function WorkerOnceInitialized(env: Environment): bool
      reads this
    {
      hasWorker || (!initialized && useWorker && env.workerDefined && env.workerStarts)
    }

    /**
     * `initialize`: a no-op once initialised. Otherwise it always ends initialised:
     * ready in the worker's mode when the worker answered the load request, ready
     * on the rules without a worker or an answer, and in error on the rules when
     * the worker could not be started.
     */
    method Initialize(env: Environment) returns (st: Status, md: Mode)
      modifies this
      ensures old(initialized) ==> unchanged(this)
      ensures st == status && md == mode && initialized
      ensures !old(initialized) && useWorker && env.workerDefined && !env.workerStarts ==>
        status == Error && mode == Rules && failed && hasWorker == old(hasWorker)
      ensures !old(initialized) && useWorker && env.workerDefined && env.workerStarts ==>
        status == Ready && hasWorker && failed == old(failed)
        && mode == (if env.loadReply.Some? then env.loadReply.value.backendMode else Rules)
      ensures !old(initialized) && !(useWorker && env.workerDefined) ==>
        status == Ready && mode == Rules && hasWorker == old(hasWorker) && failed == old(failed)
      ensures lastInference == old(lastInference) && lastPosted == old(lastPosted)
    {
      if initialized {
        return status, mode;
      }
      status := Loading;
      if useWorker && env.workerDefined {
        if !env.workerStarts {
          status, mode, failed, initialized := Error, Rules, true, true;
          return status, mode;
        }
        hasWorker := true;
        var reply := LoadModelWithWorker(env.loadReply);
        if reply.Some? {
          status, mode, initialized := Ready, reply.value.backendMode, true;
          return status, mode;
        }
      }
      status, mode, initialized := Ready, Rules, true;
      st, md := status, mode;
    }

    /**
     * `_loadModelWithWorker`: the mode follows the worker's answer (the rules when it
     * reports failure), or is the rules when the request fails; the answer is returned.
     */
    method LoadModelWithWorker(answer: Option<LoadReply>) returns (reply: Option<LoadReply>)
      requires hasWorker
      modifies this`mode
      ensures reply == answer
      ensures answer.Some? && answer.value.success ==> mode == answer.value.backendMode
      ensures answer.None? || !answer.value.success ==> mode == Rules
    {
      if answer.Some? && answer.value.success {
        mode := answer.value.backendMode;
      } else {
        mode := Rules;
      }
      reply := answer;
    }

    /** `terminate`: back to an idle controller on the rules, without a worker. */
    method Terminate()
      modifies this
      ensures !hasWorker && !initialized && status == Idle && mode == Rules
      ensures failed == old(failed) && lastInference == old(lastInference) && lastPosted == old(lastPosted)
    {
      hasWorker := false;
      initialized := false;
      status := Idle;
      mode := Rules;
    }

    /**
     * `scoreCandidates`: nothing for no features; otherwise the backend's results
     * when the mode is the backend and it answers, else the worker's when there is
     * a worker off the rules and it answers, else the rules' scores, one per
     * feature. A failed backend or worker puts the controller on the rules, and a
     * failed backend skips the worker. The worker is sent `WorkerPayload(features)`.
     */
    method ScoreCandidates(features: seq<Features>, env: Environment) returns (results: seq<Score>)
      modifies this
      ensures |features| == 0 ==> results == [] && unchanged(this)
      ensures |features| > 0 ==> initialized && lastInference == Some(results)
      ensures |features| > 0 ==>
        (|| results == FallbackResults(features)
         || (env.inferReply.Some? && results == WorkerResults(env.inferReply.value))
         || (env.cloudReply.Some? && Some(results) == CloudResults(features, env.cloudReply.value.GetOr([]))))
      ensures |features| > 0 && env.inferReply.None? && env.cloudReply.None? ==>
        results == FallbackResults(features) && (hasWorker ==> mode == Rules)
      ensures |features| > 0 && old(initialized) && old(mode) == Rules ==> results == FallbackResults(features) && mode == Rules
      ensures |features| > 0 ==>
        var m, w := old(ModeOnceInitialized(env)), old(WorkerOnceInitialized(env));
        var cloud := if env.cloudReply.Some? then CloudResults(features, env.cloudReply.value.GetOr([])) else None;
        var cloudTried := m == Cloud && HasEndpoint();
        var workerTried := !cloudTried && w && m != Rules;
        && (cloudTried && cloud.Some? ==> results == cloud.value && mode == Cloud && lastPosted == old(lastPosted))
        && (cloudTried && cloud.None? ==> results == FallbackResults(features) && mode == Rules && lastPosted == old(lastPosted))
        && (workerTried ==> lastPosted == Some(WorkerPayload(features)))
        && (workerTried && env.inferReply.Some? ==>
              results == WorkerResults(env.inferReply.value) && mode == env.inferReply.value.backendMode)
        && (workerTried && env.inferReply.None? ==> results == FallbackResults(features) && mode == Rules)
        && (!cloudTried && !workerTried ==> results == FallbackResults(features) && mode == m && lastPosted == old(lastPosted))
    {
      if |features| == 0 {
        return [];
      }
      if !initialized {
        var st, md := Initialize(env);
      }
      if mode == Cloud && HasEndpoint() {
        var cloud := if env.cloudReply.Some? then CloudResults(features, env.cloudReply.value.GetOr([])) else None;
        if cloud.Some? {
          results := cloud.value;
          lastInference := Some(results);
          return;
        }
        mode := Rules;
      }
      if hasWorker && mode != Rules {
        lastPosted := Some(WorkerPayload(features));
        if env.inferReply.Some? {
          var reply := env.inferReply.value;
          mode := reply.backendMode;
          results := WorkerResults(reply);
          lastInference := Some(results);
          return;
        }
        mode := Rules;
      }
      results := FallbackResults(features);
      lastInference := Some(results);
    }
  }
}
