/**
 * The fraud-detection HTTP service: `/predict` turns one request record into a
 * one-row frame, preprocesses it for stage 1 and runs the two-stage predictor;
 * `/predict_batch` does the same for every record of a list and answers all
 * or nothing. The preprocessor and the predictor are the service's two
 * components, taken here as the functions they compute (the `Preprocessing`
 * and `Prediction` modules model them). The clock is outside the model: each
 * handler receives the rounded elapsed time and the ISO timestamp it reports.
 */
module FraudApi {
  import opened Wrappers
  import opened Frames
  import opened Json
  import Prediction

  /** The body of one request: the record's named values, already decoded to cells. */
  datatype PredictionRequest = PredictionRequest(data: seq<(string, Cell)>)

  datatype PredictionResponse = PredictionResponse(
    prediction: int,
    stage1Probability: real,
    stage2Probability: Option<real>,
    stageUsed: string,
    processingTimeMs: real,
    timestamp: string)

  datatype BatchResponse = BatchResponse(
    predictions: seq<Prediction.PredictionResult>,
    totalProcessingTimeMs: real,
    recordsProcessed: nat,
    timestamp: string)

  /** An `HTTPException`: status code and detail text. */
  datatype HttpError = HttpError(status: nat, detail: string)

  /**
   * The two loaded components as seen by the handlers: `preprocess(df)` with
   * the default stage, and `predict` on the resulting matrix.
   */
  datatype Service = Service(
    preprocess: Frame -> Result<Matrix, string>,
    predict: Matrix -> Result<Prediction.PredictionResult, string>)

  /** What preprocessing and predicting one request yields, or the error raised on the way. */
  function Outcome(svc: Service, req: PredictionRequest): (r: Result<Prediction.PredictionResult, string>) {
    match svc.preprocess(OneRowFrame(req.data))
    case Err(e) => Err(e)
    case Ok(m) => svc.predict(m)
  }

  /** What `/predict` answers. */
  function PredictAnswer(outcome: Result<Prediction.PredictionResult, string>, elapsedMs: real, now: string)
    : (r: Result<PredictionResponse, HttpError>)
    ensures outcome.Err? <==> r.Err?
    ensures r.Err? ==> r.error == HttpError(500, "Prediction failed: " + outcome.error)
    ensures r.Ok? ==>
      && r.value.prediction == outcome.value.prediction
      && r.value.stage1Probability == outcome.value.stage1Probability
      && r.value.stage2Probability == outcome.value.stage2Probability
      && r.value.stageUsed == outcome.value.stageUsed.Name()
  {
    match outcome
    case Err(e) => Err(HttpError(500, "Prediction failed: " + e))
    case Ok(res) =>
      Ok(PredictionResponse(res.prediction, res.stage1Probability, res.stage2Probability,
                            res.stageUsed.Name(), elapsedMs, now))
  }

  /** The `/predict` handler. */
  method Predict(svc: Service, req: PredictionRequest, elapsedMs: real, now: string)
    returns (r: Result<PredictionResponse, HttpError>)
    ensures r == PredictAnswer(Outcome(svc, req), elapsedMs, now)
  {
    var df := OneRowFrame(req.data);
    var processed := svc.preprocess(df);
    if processed.Err? {
      return Err(HttpError(500, "Prediction failed: " + processed.error));
    }
    var result := svc.predict(processed.value);
    if result.Err? {
      return Err(HttpError(500, "Prediction failed: " + result.error));
    }
    r := Ok(PredictionResponse(result.value.prediction, result.value.stage1Probability,
                               result.value.stage2Probability, result.value.stageUsed.Name(), elapsedMs, now));
  }

  /** The outcomes in order, or the first error among them. */
  function Collect<T>(outs: seq<Result<T, string>>): (r: Result<seq<T>, string>) {
    if outs == [] then Ok([])
    else
      match Collect(outs[..|outs| - 1])
      case Err(e) => Err(e)
      case Ok(rs) =>
        match outs[|outs| - 1]
        case Err(e) => Err(e)
        case Ok(res) => Ok(rs + [res])
  }

  lemma {:induction false} CollectErrorPersists<T>(outs: seq<Result<T, string>>, k: nat)
    requires k <= |outs|
    requires Collect(outs[..k]).Err?
    ensures Collect(outs) == Collect(outs[..k])
  {
    if k < |outs| {
      var init := outs[..|outs| - 1];
      assert init[..k] == outs[..k];
      CollectErrorPersists(init, k);
    } else {
      assert outs[..k] == outs;
    }
  }

  /**
   * Collecting succeeds exactly when every outcome does, and then keeps them
   * all in order; otherwise it reports the first error.
   */
  lemma {:induction false} CollectMeaning<T>(outs: seq<Result<T, string>>)
    ensures Collect(outs).Ok? <==> forall i :: 0 <= i < |outs| ==> outs[i].Ok?
    ensures Collect(outs).Ok? ==>
      |Collect(outs).value| == |outs| && forall i :: 0 <= i < |outs| ==> Collect(outs).value[i] == outs[i].value
    ensures Collect(outs).Err? ==> exists i :: (0 <= i < |outs|
      && (forall j :: 0 <= j < i ==> outs[j].Ok?) && outs[i].Err? && Collect(outs).error == outs[i].error)
  {
    if outs != [] {
      var init := outs[..|outs| - 1];
      CollectMeaning(init);
      assert forall i :: 0 <= i < |init| ==> init[i] == outs[i];
      if Collect(init).Err? {
        var i :| 0 <= i < |init| && (forall j :: 0 <= j < i ==> init[j].Ok?) && init[i].Err? && Collect(init).error == init[i].error;
        assert outs[i] == init[i];
      }
    }
  }

  /** Each request processed on its own, in request order. */
  function Outcomes(svc: Service, reqs: seq<PredictionRequest>): (outs: seq<Result<Prediction.PredictionResult, string>>)
    ensures |outs| == |reqs|
  {
    seq(|reqs|, i requires 0 <= i < |reqs| => Outcome(svc, reqs[i]))
  }

  /** What `/predict_batch` answers. */
  function BatchAnswer(outcome: Result<seq<Prediction.PredictionResult>, string>, count: nat, elapsedMs: real, now: string)
    : (r: Result<BatchResponse, HttpError>)
  {
    match outcome
    case Err(e) => Err(HttpError(500, "Batch prediction failed: " + e))
    case Ok(rs) => Ok(BatchResponse(rs, elapsedMs, count, now))
  }

  /** The `/predict_batch` handler: the loop over requests. */
  method PredictBatch(svc: Service, reqs: seq<PredictionRequest>, elapsedMs: real, now: string)
    returns (r: Result<BatchResponse, HttpError>)
    ensures r == BatchAnswer(Collect(Outcomes(svc, reqs)), |reqs|, elapsedMs, now)
  {
    ghost var outs := Outcomes(svc, reqs);
    var results: seq<Prediction.PredictionResult> := [];
    var i := 0;
    while i < |reqs|
      invariant 0 <= i <= |reqs|
      invariant Collect(outs[..i]) == Ok(results)
    {
      assert outs[..i + 1][..i] == outs[..i];
      var df := OneRowFrame(reqs[i].data);
      var processed := svc.preprocess(df);
      if processed.Err? {
        CollectErrorPersists(outs, i + 1);
        return Err(HttpError(500, "Batch prediction failed: " + processed.error));
      }
      var result := svc.predict(processed.value);
      if result.Err? {
        CollectErrorPersists(outs, i + 1);
        return Err(HttpError(500, "Batch prediction failed: " + result.error));
      }
      results := results + [result.value];
      i := i + 1;
    }
    assert outs[..i] == outs;
    r := Ok(BatchResponse(results, elapsedMs, |reqs|, now));
  }

  /**
   * The batch answer holds one prediction per request, in request order, each
   * the one that request gets on its own, and counts the requests; if any
   * request fails, the answer is a 500 carrying the first failure and no
   * predictions at all.
   */
  lemma BatchMeaning(svc: Service, reqs: seq<PredictionRequest>, elapsedMs: real, now: string)
    ensures var outs := Outcomes(svc, reqs);
      var r := BatchAnswer(Collect(outs), |reqs|, elapsedMs, now);
      && (r.Ok? <==> forall i :: 0 <= i < |reqs| ==> outs[i].Ok?)
      && (r.Ok? ==>
            && r.value.recordsProcessed == |reqs|
            && |r.value.predictions| == |reqs|
            && forall i :: 0 <= i < |reqs| ==> r.value.predictions[i] == outs[i].value)
      && (r.Err? ==> exists i :: (0 <= i < |reqs|
            && (forall j :: 0 <= j < i ==> outs[j].Ok?)
            && outs[i].Err?
            && r.error == HttpError(500, "Batch prediction failed: " + outs[i].error)))
  {
    CollectMeaning(Outcomes(svc, reqs));
  }

  // ---------------------------------------------------------------------
  // The JSON the batch endpoint sends back
  // ---------------------------------------------------------------------

  /** A predictor result as a JSON object, keys in the order the result dictionary is built. */
  function ResultJson(res: Prediction.PredictionResult): (j: Json) {
    JObject([
      ("stage1_probability", JNum(res.stage1Probability)),
      ("stage1_prediction", JNum(res.stage1Prediction as real)),
      ("prediction", JNum(res.prediction as real)),
      ("stage_used", JStr(res.stageUsed.Name())),
      ("stage2_probability", match res.stage2Probability case Some(p) => JNum(p) case None => JNull)])
  }

  function BatchResponseJson(b: BatchResponse): (j: Json) {
    JObject([
      ("predictions", JArray(seq(|b.predictions|, i requires 0 <= i < |b.predictions| => ResultJson(b.predictions[i])))),
      ("total_processing_time_ms", JNum(b.totalProcessingTimeMs)),
      ("records_processed", JNum(b.recordsProcessed as real)),
      ("timestamp", JStr(b.timestamp))])
  }
}
