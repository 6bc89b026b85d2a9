/**
 * The inference worker (worker_infer.js): its own closed-form heuristic, the
 * model run with its fall-back to that heuristic, and the `loadModel` and
 * `infer` messages, over the worker's module state (`modelSession`,
 * `backendMode`, `modelVersion`). The model's and the network's outcomes are
 * parameters.
 */
module WorkerInfer {
  import opened Numeric
  import opened Wrappers
  import opened ScoreTypes
  import InferenceController

  // ---- the heuristic ----

  /** `min(1, (texture ?? 0.2) * 3)`. */
  function TextureTerm(texture: Option<real>): (t: real)
    ensures t <= 1.0
    ensures texture.None? ==> t == 0.6
    ensures texture.Some? && texture.value >= 0.0 ==> 0.0 <= t
  {
    Min(1.0, texture.GetOr(0.2) * 3.0)
  }

  /**
   * `1 - min(1, |balanceRatio ?? 1 - 1| * 0.5)`. The `??` binds looser than `-`,
   * so the default is `1 - 1`, that is 0: an absent ratio gives 1, and a present
   * one is measured from 0, not from 1.
   */
  function BalanceTerm(ratio: Option<real>): (t: real)
    ensures 0.0 <= t <= 1.0
    ensures ratio.None? || ratio == Some(0.0) ==> t == 1.0
    ensures ratio == Some(1.0) ==> t == 0.5
  {
    1.0 - Min(1.0, Abs(ratio.GetOr(1.0 - 1.0)) * 0.5)
  }

  /**
   * The worker's balance term of a ratio r is the controller's balance term of
   * r + 1; both give 1 for an absent ratio.
   */
  lemma BalanceShiftedByOne(ratio: Option<real>)
    ensures ratio.Some? ==> BalanceTerm(ratio) == InferenceController.BalanceTerm(Some(ratio.value + 1.0))
    ensures ratio.None? ==> BalanceTerm(ratio) == InferenceController.BalanceTerm(None)
  {
  }

  /**
   * The worker's `heuristicScore`: other weights than the controller's, the
   * composition capped at 0.99 and the aesthetic score at 0.98.
   */
  function HeuristicScore(f: Features): (h: Heuristic)
    ensures h.composition <= 0.99 && h.aesthetic <= 0.98
  {
    var thirds := f.ruleOfThirdsScore.GetOr(0.5);
    var saliency := f.saliencyConfidence.GetOr(0.5);
    var horizonPenalty := InferenceController.HorizonTerm(f.horizonAngle);
    var texture := TextureTerm(f.textureStrength);
    var balance := BalanceTerm(f.balanceRatio);
    var composition := Min(0.99, 0.22 + thirds * 0.35 + saliency * 0.18 + horizonPenalty * 0.12 + texture * 0.08 + balance * 0.05);
    Heuristic(composition, Min(0.98, composition * 0.6 + texture * 0.18 + f.colorHarmony.GetOr(0.5) * 0.22))
  }

  /** With every feature absent, the worker's defaults give 0.703 and 0.6398. */
  lemma HeuristicDefaults()
    ensures HeuristicScore(NoFeatures()) == Heuristic(0.703, 0.6398)
  {
    var f := NoFeatures();
    assert TextureTerm(f.textureStrength) == 0.6 && InferenceController.HorizonTerm(f.horizonAngle) == 1.0;
    assert BalanceTerm(f.balanceRatio) == 1.0;
  }

  /** The worker and the controller score the same empty record differently. */
  lemma ScorersDiffer()
    ensures HeuristicScore(NoFeatures()) != InferenceController.HeuristicScore(NoFeatures())
  {
    HeuristicDefaults();
    InferenceController.HeuristicDefaults();
  }

  // ---- the model run ----

  /** `modelSession`: none, an ONNX session (`run`) or a TF.js graph model (`executeAsync`). */
  datatype Session = NoSession | OnnxSession | TfSession

  /** The model's output tensors: composition scores and, if the model has them, aesthetic scores. */
  datatype ModelOutput = ModelOutput(composition: seq<real>, aesthetic: Option<seq<real>>)

  /** The `format` of a `loadModel` message. */
  datatype ModelFormat = Onnx | Tfjs | OtherFormat

  /** `featureBatch.map(heuristicScore)`. */
  function HeuristicResults(batch: seq<Features>): (r: seq<Score>)
    ensures |r| == |batch|
    ensures forall i :: 0 <= i < |r| ==>
      r[i].mode.None? && r[i].composition == Some(HeuristicScore(batch[i]).composition)
      && r[i].aesthetic == Some(HeuristicScore(batch[i]).aesthetic)
  {
    seq(|batch|, i requires 0 <= i < |batch| =>
      var h := HeuristicScore(batch[i]);
      Score(Some(h.composition), Some(h.aesthetic), None))
  }

  /** Entry i of a tensor's data, `undefined` past its end. */
  function Entry(data: seq<real>, i: nat): Option<real> {
    if i < |data| then Some(data[i]) else None
  }

  /**
   * The model's scores, one per feature: entry i of the composition tensor, and
   * entry i of the aesthetic tensor or else of the composition tensor.
   */
  function ModelResults(batch: seq<Features>, out: ModelOutput): (r: seq<Score>)
    ensures |r| == |batch|
    ensures forall i :: 0 <= i < |r| ==> r[i].mode.None? && r[i].composition == Entry(out.composition, i)
    ensures forall i :: 0 <= i < |r| && out.aesthetic.None? ==> r[i].aesthetic == Entry(out.composition, i)
    ensures forall i :: 0 <= i < |r| && out.aesthetic.Some? && i < |out.aesthetic.value| ==> r[i].aesthetic == Some(out.aesthetic.value[i])
  {
    var aesthetic := out.aesthetic.GetOr(out.composition);
    seq(|batch|, i requires 0 <= i < |batch| =>
      var fallback := Entry(out.composition, i);
      Score(fallback, if Entry(aesthetic, i).Some? then Entry(aesthetic, i) else fallback, None))
  }

  /** Building the ONNX input reads `featureBatch[0].vector.length`, which throws for an empty batch or a missing vector. */
  predicate OnnxInputThrows(batch: seq<Features>) {
    |batch| == 0 || batch[0].vector.None?
  }

  class WorkerState {
    var modelSession: Session
    var backendMode: Mode
    var modelVersion: Option<string>

    /** The worker starts without a session, on the rules. */
    constructor()
      ensures modelSession == NoSession && backendMode == Rules && modelVersion.None?
    {
      modelSession, backendMode, modelVersion := NoSession, Rules, None;
    }

    /**
     * `runModel`: one score per feature, in order. Without a session, or off the
     * local backend, the heuristic's; with a local session the model's, and when
     * the model throws the heuristic's after dropping the session and returning
     * to the rules. `output` is the model's answer, `None` when it throws.
     */
    method RunModel(batch: seq<Features>, output: Option<ModelOutput>) returns (results: seq<Score>)
      modifies this
      ensures |results| == |batch|
      ensures old(modelSession) == NoSession || old(backendMode) != Local ==>
        results == HeuristicResults(batch) && unchanged(this)
      ensures old(modelSession) != NoSession && old(backendMode) == Local ==>
        var fails := output.None? || (old(modelSession) == OnnxSession && OnnxInputThrows(batch));
        && (fails ==> results == HeuristicResults(batch) && modelSession == NoSession && backendMode == Rules)
        && (!fails ==> results == ModelResults(batch, output.value) && unchanged(this))
      ensures modelVersion == old(modelVersion)
    {
      if modelSession == NoSession {
        return HeuristicResults(batch);
      }
      if backendMode == Local {
        var fails := output.None? || (modelSession == OnnxSession && OnnxInputThrows(batch));
        if fails {
          backendMode := Rules;
          modelSession := NoSession;
          return HeuristicResults(batch);
        }
        return ModelResults(batch, output.value);
      }
      results := HeuristicResults(batch);
    }

    /**
     * The `loadModel` message: back to the rules without a session, then an ONNX
     * model from a fetched buffer or a TF.js model. The reply reports success
     * exactly when a session was obtained, and the worker is then local.
     * `fetched` is whether the model file was fetched, `created` whether the
     * runtime built a session from it.
     */
    method LoadModel(format: ModelFormat, version: Option<string>, fetched: bool, created: bool) returns (reply: LoadReply)
      modifies this
      ensures modelSession != NoSession <==> (format == Onnx && fetched && created) || (format == Tfjs && created)
      ensures modelSession != NoSession ==> modelSession == (if format == Onnx then OnnxSession else TfSession)
      ensures backendMode == (if modelSession != NoSession then Local else Rules)
      ensures modelVersion == (if version == Some("") then None else version)
      ensures reply == LoadReply(modelSession != NoSession, backendMode, modelVersion)
    {
      backendMode := Rules;
      modelSession := NoSession;
      modelVersion := if version == Some("") then None else version;
      if format == Onnx {
        if !fetched {
          backendMode := Rules;
          modelSession := NoSession;
          return LoadReply(false, backendMode, modelVersion);
        }
        if created {
          modelSession := OnnxSession;
          backendMode := Local;
        }
      } else if format == Tfjs {
        if created {
          modelSession := TfSession;
          backendMode := Local;
        }
      }
      if modelSession == NoSession {
        backendMode := Rules;
      }
      reply := LoadReply(modelSession != NoSession, backendMode, modelVersion);
    }

    /**
     * The `infer` message: the model run over the features (none when the
     * message has no array), answered under the request's id with the mode and
     * version after the run. The results and the worker's new state follow `RunModel`:
     * the heuristic's without a local session, else the model's, or the heuristic's
     * after a failed run that drops the session and returns to the rules.
     */
    method Infer(id: string, features: Option<seq<Features>>, output: Option<ModelOutput>) returns (reply: InferReply)
      modifies this
      ensures reply.id == id
      ensures |reply.results| == |features.GetOr([])|
      ensures reply.backendMode == backendMode && reply.version == modelVersion
      ensures modelVersion == old(modelVersion)
      ensures old(modelSession) == NoSession || old(backendMode) != Local ==>
        reply.results == HeuristicResults(features.GetOr([])) && unchanged(this)
      ensures old(modelSession) != NoSession && old(backendMode) == Local ==>
        var batch := features.GetOr([]);
        var fails := output.None? || (old(modelSession) == OnnxSession && OnnxInputThrows(batch));
        && (fails ==> reply.results == HeuristicResults(batch) && modelSession == NoSession && backendMode == Rules)
        && (!fails ==> reply.results == ModelResults(batch, output.value) && unchanged(this))
    {
      var batch := features.GetOr([]);
      var results := RunModel(batch, output);
      reply := InferReply(id, results, backendMode, modelVersion);
    }
  }
}
