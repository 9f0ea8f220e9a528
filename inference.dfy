/**
 * The guarded block of the prediction handler: reshape the landmarks into a
 * row, label it with the feature names, normalise, classify and decode.
 * The pickled classifier and label encoder, and numpy's conversion of
 * anything other than a flat list of numbers, are opaque, possibly-failing
 * functions; a failure carries the text of the exception it raises.
 */
module Inference {
  import opened Wrappers
  import opened Json
  import opened FeatureLayout
  import opened FeatureFrame
  import Gestures

  /** The classifier: `predict` gives a class id, `predict_proba` the per-class probabilities. */
  datatype Classifier = Classifier(predict: Frame -> Result<int>, predictProba: Frame -> Result<seq<real>>)

  /** The label encoder's `inverse_transform` on one class id. */
  datatype LabelEncoder = LabelEncoder(inverseTransform: int -> Result<string>)

  /**
   * Library behaviour outside the artifacts: numpy's `np.array(v).reshape(1, -1)`
   * for a list that is not a flat list of numbers (nested or mixed lists),
   * and the landmark normaliser, which raises nothing on a frame of floats
   * (a zero scale gives non-finite values, which the classifier then rejects
   * or not).
   */
  datatype Numerics = Numerics(coerceOther: seq<Json> -> Result<seq<real>>, normalize: Frame -> Frame)

  datatype Prediction = Prediction(gesture: string, direction: Option<string>, confidence: real)

  /** The text numpy raises for the maximum of an empty array. */
  const EMPTY_MAX_ERROR := "zero-size array to reduction operation maximum which has no identity"

  predicate AllNumbers(items: seq<Json>) {
    forall i :: 0 <= i < |items| ==> items[i].JNumber?
  }

  /** The numbers of a list of JSON numbers, in order. */
  function Numbers(items: seq<Json>): (row: seq<real>)
    requires AllNumbers(items)
    ensures |row| == |items| && forall i :: 0 <= i < |row| ==> JNumber(row[i]) == items[i]
  {
    seq(|items|, i requires 0 <= i < |items| => items[i].n)
  }

  /** `np.array(items).reshape(1, -1)` for a list, as the single row it produces. */
  function Row(numerics: Numerics, items: seq<Json>): (r: Result<seq<real>>)
    ensures AllNumbers(items) ==> r == Success(Numbers(items))
  {
    if AllNumbers(items) then Success(Numbers(items)) else numerics.coerceOther(items)
  }

  /**
   * The normalised frame the classifier is given. numpy turns anything but a
   * list (a string, an object, a scalar) into a 0-d array, which the reshape
   * makes one cell wide, so the DataFrame refuses it as it refuses any row of
   * width 1.
   */
  function Features(numerics: Numerics, landmarks: Json): (r: Result<Frame>)
    ensures landmarks.JArray? && |landmarks.items| == FEATURE_COUNT && AllNumbers(landmarks.items) ==>
      r == Success(numerics.normalize(Frame(FeatureNames(), Numbers(landmarks.items))))
    ensures !landmarks.JArray? ==> r == Failure(ShapeError(1)) && forall x: real :: Build([x]) == r
  {
    if !landmarks.JArray? then Failure(ShapeError(1))
    else
      var row :- Row(numerics, landmarks.items);
      var frame :- Build(row);
      Success(numerics.normalize(frame))
  }

  /** `np.max` of the probability row. */
  function MaxProbability(probs: seq<real>): (r: Result<real>)
    ensures r.Success? <==> |probs| > 0
    ensures r.Failure? ==> r.error == EMPTY_MAX_ERROR
    ensures r.Success? ==> r.value in probs && forall i :: 0 <= i < |probs| ==> probs[i] <= r.value
    ensures r.Success? && (forall i :: 0 <= i < |probs| ==> 0.0 <= probs[i] <= 1.0) ==> 0.0 <= r.value <= 1.0
  {
    if |probs| == 0 then Failure(EMPTY_MAX_ERROR) else Success(Max(probs))
  }

  function Max(s: seq<real>): (m: real)
    requires |s| > 0
    ensures m in s && forall i :: 0 <= i < |s| ==> s[i] <= m
  {
    if |s| == 1 then s[0]
    else
      var rest := Max(s[1..]);
      if s[0] >= rest then s[0] else rest
  }

  /**
   * The guarded block from the reshape to the direction lookup. The label
   * comes from `predict` and the confidence from a separate `predict_proba`
   * call, so the two need not agree.
   */
  function Infer(classifier: Classifier, encoder: LabelEncoder, numerics: Numerics, landmarks: Json): (r: Result<Prediction>)
    ensures Features(numerics, landmarks).Failure? ==> r == Failure(Features(numerics, landmarks).error)
    ensures r.Success? ==> Features(numerics, landmarks).Success?
    ensures r.Success? ==>
      var f := Features(numerics, landmarks).value;
      && classifier.predict(f).Success?
      && encoder.inverseTransform(classifier.predict(f).value) == Success(r.value.gesture)
      && classifier.predictProba(f).Success?
      && MaxProbability(classifier.predictProba(f).value) == Success(r.value.confidence)
      && r.value.direction == Gestures.Direction(r.value.gesture)
    ensures Features(numerics, landmarks).Success? ==>
      var f := Features(numerics, landmarks).value;
      && (classifier.predict(f).Failure? ==> r == Failure(classifier.predict(f).error))
      && (classifier.predict(f).Success? && classifier.predictProba(f).Failure? ==>
            r == Failure(classifier.predictProba(f).error))
      && (classifier.predict(f).Success? && classifier.predictProba(f).Success? && classifier.predictProba(f).value == [] ==>
            r == Failure(EMPTY_MAX_ERROR))
    ensures Features(numerics, landmarks).Success? ==>
      var f := Features(numerics, landmarks).value;
      (classifier.predict(f).Success? && classifier.predictProba(f).Success? && classifier.predictProba(f).value != [] ==>
        var decoded := encoder.inverseTransform(classifier.predict(f).value);
        && (decoded.Failure? ==> r == Failure(decoded.error))
        && (decoded.Success? ==> r.Success?))
  {
    var features :- Features(numerics, landmarks);
    var prediction :- classifier.predict(features);
    var probabilities :- classifier.predictProba(features);
    var confidence :- MaxProbability(probabilities);
    var gesture :- encoder.inverseTransform(prediction);
    Success(Prediction(gesture, Gestures.Direction(gesture), confidence))
  }
}
