/**
 * The prediction handler: its fixed order of checks, the outcome each check
 * produces, and the counters each outcome moves.
 */
module Api {
  import opened Wrappers
  import opened Json
  import opened Inference
  import Metrics
  import FeatureFrame
  import FeatureLayout

  const NOT_LOADED := "Model or encoder not loaded"
  const INVALID_JSON := "Invalid JSON input"
  const EXPECTED_COUNT := "Expected 63 landmark features"
  /** The body the framework sends for an exception nobody caught. */
  const SERVER_ERROR := "Internal Server Error"

  const LANDMARKS_KEY := "landmarks"

  datatype Outcome =
    | Ok(prediction: Prediction)
    | ServiceUnavailable
    | BadRequest(detail: string)
    | InternalError(detail: string)
    | Unhandled                       // an exception raised outside every handler
  {
    function Status(): int {
      match this
      case Ok(_) => 200
      case BadRequest(_) => 400
      case _ => 500
    }

    function Detail(): Option<string> {
      match this
      case Ok(_) => None
      case ServiceUnavailable => Some(NOT_LOADED)
      case BadRequest(d) => Some(d)
      case InternalError(d) => Some(d)
      case Unhandled => Some(SERVER_ERROR)
    }
  }

  /** Start-up loading: either both artifacts load, or both are set to None. */
  function Load(modelFile: Option<Classifier>, encoderFile: Option<LabelEncoder>): (r: (Option<Classifier>, Option<LabelEncoder>))
    ensures r.0.Some? <==> r.1.Some?
    ensures r.0.Some? <==> modelFile.Some? && encoderFile.Some?
    ensures r.0.Some? ==> r.0 == modelFile && r.1 == encoderFile
  {
    if modelFile.Some? && encoderFile.Some? then (modelFile, encoderFile) else (None, None)
  }

  datatype Validation = Accepted(landmarks: Json) | Rejected(outcome: Outcome)

  /**
   * The checks made before the guarded block. `body` is None when the request
   * body is not JSON at all.
   */
  function Validate(body: Option<Json>): (v: Validation)
    ensures v.Accepted? <==> body.Some? && body.value.JObject? && Len(Get(body.value.fields, LANDMARKS_KEY)) == Some(63)
    ensures v.Accepted? ==> v.landmarks == Get(body.value.fields, LANDMARKS_KEY)
    ensures body.None? || !body.value.JObject? ==> v == Rejected(BadRequest(INVALID_JSON))
    ensures v.Rejected? ==> v.outcome in {BadRequest(INVALID_JSON), BadRequest(EXPECTED_COUNT), Unhandled}
    ensures body.Some? && body.value.JObject? && v.Rejected? && v.outcome != Unhandled ==> v.outcome == BadRequest(EXPECTED_COUNT)
    ensures v == Rejected(Unhandled) <==>
      body.Some? && body.value.JObject? && Truthy(Get(body.value.fields, LANDMARKS_KEY)) &&
      Len(Get(body.value.fields, LANDMARKS_KEY)).None?
  {
    if body.None? || !body.value.JObject? then Rejected(BadRequest(INVALID_JSON))
    else
      var landmarks := Get(body.value.fields, LANDMARKS_KEY);
      if !Truthy(landmarks) then Rejected(BadRequest(EXPECTED_COUNT))
      else match Len(landmarks)
        case None => Rejected(Unhandled)
        case Some(n) => if n != 63 then Rejected(BadRequest(EXPECTED_COUNT)) else Accepted(landmarks)
  }

  /** A list of 50 numbers (or any list whose length is not 63) is a bad request naming the expected count. */
  lemma WrongLengthRejected(items: seq<Json>)
    requires |items| != 63
    ensures Validate(Some(JObject(map[LANDMARKS_KEY := JArray(items)]))) == Rejected(BadRequest(EXPECTED_COUNT))
  {
    assert Get(map[LANDMARKS_KEY := JArray(items)], LANDMARKS_KEY) == JArray(items);
  }

  /**
   * A 63-character string or a 63-key object passes the checks, and the
   * guarded block then always fails with pandas' one-cell shape error: a
   * counted 500.
   */
  lemma TextOrObjectLandmarksFail(classifier: Classifier, encoder: LabelEncoder, numerics: Numerics, fields: map<string, Json>)
    requires Get(fields, LANDMARKS_KEY).JString? || Get(fields, LANDMARKS_KEY).JObject?
    requires Len(Get(fields, LANDMARKS_KEY)) == Some(63)
    ensures Validate(Some(JObject(fields))) == Accepted(Get(fields, LANDMARKS_KEY))
    ensures Respond(Some(classifier), Some(encoder), numerics, Some(JObject(fields))) ==
      InternalError(FeatureFrame.ShapeError(1))
  {
  }

  /** The response to one request. */
  function Respond(model: Option<Classifier>, encoder: Option<LabelEncoder>, numerics: Numerics, body: Option<Json>): (o: Outcome)
    ensures model.None? || encoder.None? ==> o == ServiceUnavailable
    ensures model.Some? && encoder.Some? && Validate(body).Rejected? ==> o == Validate(body).outcome
    ensures o.Ok? <==>
      model.Some? && encoder.Some? && Validate(body).Accepted? &&
      Infer(model.value, encoder.value, numerics, Validate(body).landmarks).Success?
    ensures o.Ok? ==> o.prediction == Infer(model.value, encoder.value, numerics, Validate(body).landmarks).value
    ensures o.InternalError? <==>
      model.Some? && encoder.Some? && Validate(body).Accepted? &&
      Infer(model.value, encoder.value, numerics, Validate(body).landmarks).Failure?
    ensures o.InternalError? ==> o.detail == Infer(model.value, encoder.value, numerics, Validate(body).landmarks).error
    ensures o.Status() == 400 ==> o.Detail() in {Some(INVALID_JSON), Some(EXPECTED_COUNT)}
  {
    if model.None? || encoder.None? then ServiceUnavailable
    else match Validate(body)
      case Rejected(outcome) => outcome
      case Accepted(landmarks) =>
        match Infer(model.value, encoder.value, numerics, landmarks)
        case Success(prediction) => Ok(prediction)
        case Failure(message) => InternalError(message)
  }

  /** Which counters a response moves: only a served prediction and a failure inside the guarded block count. */
  function EventOf(o: Outcome, latency: real): (e: Metrics.Event)
    ensures e.Served? <==> o.Ok?
    ensures e.Served? ==> e.latency == latency
    ensures e.Faulted? <==> o.InternalError?
  {
    match o
    case Ok(_) => Metrics.Served(latency)
    case InternalError(_) => Metrics.Faulted
    case _ => Metrics.Untouched
  }

  /** The counter events of a run of requests, each paired with its measured latency. */
  function Events(model: Option<Classifier>, encoder: Option<LabelEncoder>, numerics: Numerics,
                  requests: seq<(Option<Json>, real)>): (es: seq<Metrics.Event>)
    ensures |es| == |requests|
  {
    seq(|requests|, i requires 0 <= i < |requests| => EventOf(Respond(model, encoder, numerics, requests[i].0), requests[i].1))
  }

  /** Without the artifacts no run of requests moves any counter. */
  lemma {:induction false} NotLoadedNeverCounts(numerics: Numerics, requests: seq<(Option<Json>, real)>, c: Metrics.Counters)
    ensures Metrics.Replay(c, Events(None, None, numerics, requests)) == c
    decreases |requests|
  {
    if requests != [] {
      var es := Events(None, None, numerics, requests);
      assert es[1..] == Events(None, None, numerics, requests[1..]);
      NotLoadedNeverCounts(numerics, requests[1..], c);
    }
  }

  /**
   * A JSON object whose `landmarks` holds 63 numbers, whatever other fields it
   * has, passes every check and reaches the classifier as the normalised
   * 63-column frame.
   */
  lemma WellFormedRequestReachesClassifier(numerics: Numerics, fields: map<string, Json>, items: seq<Json>)
    requires |items| == 63 && AllNumbers(items)
    requires LANDMARKS_KEY in fields && fields[LANDMARKS_KEY] == JArray(items)
    ensures Validate(Some(JObject(fields))) == Accepted(JArray(items))
    ensures Features(numerics, JArray(items)) ==
      Success(numerics.normalize(FeatureFrame.Frame(FeatureLayout.FeatureNames(), Numbers(items))))
  {
  }

  /** The service: the artifacts loaded at start-up and the three counters. */
  class GestureService {
    const model: Option<Classifier>
    const encoder: Option<LabelEncoder>
    const numerics: Numerics
    var predictionCount: nat
    var errorCount: nat
    var latencySum: real

    function Counters(): Metrics.Counters
      reads this
    {
      Metrics.Counters(predictionCount, errorCount, latencySum)
    }

    constructor (modelFile: Option<Classifier>, encoderFile: Option<LabelEncoder>, numerics: Numerics)
      ensures (model, encoder) == Load(modelFile, encoderFile)
      ensures this.numerics == numerics
      ensures Counters() == Metrics.INITIAL
    {
      var loaded := Load(modelFile, encoderFile);
      model := loaded.0;
      encoder := loaded.1;
      this.numerics := numerics;
      predictionCount := 0;
      errorCount := 0;
      latencySum := 0.0;
    }

    /**
     * Handles one request. `latency` is the time measured from the start of
     * the handler to the end of the guarded block.
     */
    method Predict(body: Option<Json>, latency: real) returns (outcome: Outcome)
      modifies this
      ensures outcome == Respond(model, encoder, numerics, body)
      ensures Counters() == Metrics.Apply(old(Counters()), EventOf(outcome, latency))
    {
      if model.None? || encoder.None? {
        return ServiceUnavailable;
      }
      if body.None? || !body.value.JObject? {
        return BadRequest(INVALID_JSON);
      }
      var landmarks := Get(body.value.fields, LANDMARKS_KEY);
      if !Truthy(landmarks) {
        return BadRequest(EXPECTED_COUNT);
      }
      var n := Len(landmarks);
      if n.None? {
        return Unhandled;
      }
      if n.value != 63 {
        return BadRequest(EXPECTED_COUNT);
      }
      var result := Infer(model.value, encoder.value, numerics, landmarks);
      if result.Success? {
        latencySum := latencySum + latency;
        predictionCount := predictionCount + 1;
        outcome := Ok(result.value);
      } else {
        errorCount := errorCount + 1;
        outcome := InternalError(result.error);
      }
    }

    /** The counts of the metrics report. */
    method GetMetrics() returns (report: Metrics.Report)
      ensures report == Metrics.Snapshot(Counters())
    {
      report := Metrics.Snapshot(Counters());
    }
  }
}
