# Hand gesture recognition API — verified model of the prediction handler

This project models the request handling of a small HTTP service that takes
63 hand-landmark coordinates (21 landmarks × x, y, z), runs them through a
pretrained classifier, and answers with a gesture label, an optional
direction and a confidence. It also models the counters behind the service's
metrics report. The modelled code is `app/main.py`:

- **Feature-key layout** (`FeatureLayout`, `Decimal`, `FeatureFrame`). The
  column names `f'{axis}{i}'` for `i` in 1..21 and, inside, `axis` in x, y, z.
  Input position `p` gets key `KeyAt(p)` = (`"xyz"[p % 3]`, `p / 3 + 1`).
  The comprehension is proved to produce exactly `KeyAt(0) … KeyAt(62)` in
  order. `KeyAt` and `PositionOf` are inverse bijections, and no two column
  names are equal (the decimal rendering is read back). Column `f'{axis}{i}'`
  of the one-row DataFrame holds the input value at that position.
- **Gesture → direction table** (`Gestures`). `GESTURE_MAPPING.get`: four
  labels map to up, down, right and left. Every other label maps to "absent"
  and is never an error. The table is a bijection onto the four directions.
- **Request validation and outcomes** (`Json`, `Inference`, `Api`). The
  request body is a decoded JSON value, or `None` when it does not parse. The
  handler checks, in order:
  1. the artifacts are loaded (500 "Model or encoder not loaded");
  2. the body is an object (400 "Invalid JSON input");
  3. `landmarks` is truthy and has length 63 (400 "Expected 63 landmark features").

  Then the guarded block runs: reshape, build the frame, normalise,
  `predict`, `predict_proba`, `np.max`, and `inverse_transform`. Its first
  failure becomes a 500 carrying the exception text. The classifier, the label
  encoder and numpy's conversion of nested or mixed lists are opaque,
  possibly-failing functions; the normaliser is an opaque total function.
- **Metrics** (`Metrics`, `Api.GestureService`). The three module globals are
  fields of a class. `Predict` updates them in place: a served prediction adds
  1 to the prediction count and its latency to the sum. A failure inside the
  guarded block adds 1 to the error count. Nothing else moves a counter. The
  report derives `error_rate = errors / max(predictions, 1)` and the average
  latency (0 when nothing was served). Its "input validation errors" figure is
  the inference error count.

Behaviour of the code worth knowing:
- The 400 for a wrong landmark count does not state the count it observed.
- A zero wrist-to-fingertip scale is not detected by the handler. numpy yields
  non-finite values, and the request fails only if the classifier raises on
  them. In the model this is the opaque `predict` failing or not.
- The label comes from `predict` and the confidence from a separate
  `predict_proba` call. They are not one arg-max, and the model does not
  claim that they agree.
- A truthy `landmarks` without a length (`true`, a non-zero number) makes
  `len()` raise outside every handler. The response is then the framework's
  generic 500, and no counter moves (`Outcome.Unhandled`).
- A 63-character string or a 63-key object passes validation. numpy turns it
  into a one-cell row, so the DataFrame always refuses it with the shape error
  "Shape of passed values is (1, 1), indices imply (1, 63)": a counted 500.

## Model

| member | source | states |
|---|---|---|
| Decimal.Render | app/main.py:135 | `str(i)` is a non-empty string of digits with no leading zero |
| Decimal.ParseRender | app/main.py:135 | reading a rendered number back gives the number |
| Decimal.RenderInjective | app/main.py:135 | distinct landmark indices render to distinct strings |
| FeatureLayout.KeyAt | app/main.py:134-135 | every input position below 63 gets a key with landmark index in 1..21 |
| FeatureLayout.PositionOf | app/main.py:134-135 | every valid key names a position below 63 |
| FeatureLayout.PositionOfKeyAt | app/main.py:134-135 | position → key → position is the identity |
| FeatureLayout.KeyAtPositionOf | app/main.py:134-135 | key → position → key is the identity on valid keys |
| FeatureLayout.KeyAtInjective | app/main.py:134-135 | the 63 positions carry 63 distinct keys |
| FeatureLayout.KeyAtOrdered | app/main.py:135 | position order is landmark-major order x1, y1, z1, x2, …, z21 (both directions) |
| FeatureLayout.KeysFromLayout | app/main.py:135 | the comprehension from landmark `i` on has 3·(22−i) keys, the k-th being KeyAt(3·(i−1)+k) |
| FeatureLayout.FeatureKeysLayout | app/main.py:135 | the comprehension yields exactly KeyAt(0), …, KeyAt(62) in order |
| FeatureLayout.KeyName | app/main.py:135 | a column name is an axis letter followed by at least one digit |
| FeatureLayout.ParseKeyNameOfKeyName | app/main.py:135 | a column name parses back to its key |
| FeatureLayout.KeyNameInjective | app/main.py:135 | distinct keys have distinct column names |
| FeatureLayout.FeatureNamesLayout | app/main.py:135 | `feature_names` has 63 entries, entry p names KeyAt(p), and no name repeats |
| FeatureFrame.ColumnIndex | app/main.py:18-21 | `df[name]` on the frame's columns: the index of the first column with that name, or none if absent; on the distinct feature names (FeatureNamesLayout) that is the only such column |
| FeatureFrame.Column | app/main.py:18-21 | `df[name]` on the one-row frame: a value only for a present column, and it is that column's value; every present column has one |
| FeatureFrame.Build | app/main.py:134-136 | the DataFrame is built iff the row has 63 values, with `feature_names` as columns; otherwise pandas' shape error |
| FeatureFrame.BuildColumns | app/main.py:134-136 | column `f'{axis}{i}'` of the built frame holds input value 3·(i−1)+axis |
| FeatureFrame.NormaliserAnchors | app/main.py:18-23 | the normaliser's anchors x1, y1, x13, y13 are input positions 0, 1, 36, 37 |
| Json.Truthy | app/main.py:128 | `not landmarks`: None, False and 0 are false, other bools and numbers true; a sized value is true iff its length is positive |
| Json.Len | app/main.py:128 | `len()` is defined exactly on strings, lists and objects, and is their number of characters, items or keys |
| Json.Get | app/main.py:123 | `.get("landmarks")` is the field's value when present and None when missing |
| Gestures.Direction | app/main.py:78-83 | like→up, dislike→down, two_up→right, two_up_inverted→left; any other label gives no direction |
| Gestures.DirectionInjective | app/main.py:78-83 | no two labels map to the same direction, so the table is a bijection onto up, down, right, left |
| Inference.Row | app/main.py:134 | a flat list of numbers becomes the row of those numbers, in order |
| Inference.Features | app/main.py:134-137 | 63 numbers reach the classifier as the normalised frame over `feature_names`; anything but a list fails with the one-cell shape error, the same as any width-1 row |
| Inference.MaxProbability | app/main.py:140 | confidence is a member of the probability row and at least every entry; an empty row raises numpy's error; probabilities in [0,1] give a confidence in [0,1] |
| Inference.Infer | app/main.py:132-143 | succeeds iff every stage succeeds; on success: label is `inverse_transform(predict(f))`, confidence is the max of `predict_proba(f)`, direction is the table lookup; on failure: the message of the first failing stage (frame, predict, predict_proba, np.max, inverse_transform) |
| Metrics.Apply | app/main.py:145-147 | no event decreases a counter; a non-negative latency does not decrease the sum |
| Metrics.ReplayCounts | app/main.py:96-98 | after a run of requests each counter equals its start value plus the served count, fault count, or served latencies |
| Metrics.AtLeastOne | app/main.py:173 | `max(n, 1)` is at least 1 and at least n, and equals n for positive n |
| Metrics.Snapshot | app/main.py:167-177 | error_rate · max(N,1) = M; average latency · N = latency sum when N > 0, else 0; input_validation_errors = error count |
| Metrics.ReportAfter | app/main.py:167-177 | after N served and M failed requests since start, the report shows N, M, M / max(N,1) and the mean served latency |
| Api.Load | app/main.py:66-75 | the model and the encoder are loaded together or not at all |
| Api.Validate | app/main.py:121-130 | accepted iff the body is an object whose `landmarks` has length 63; non-objects give "Invalid JSON input"; an object rejected with a 400 (missing, null, falsy or wrong-length `landmarks`) gets "Expected 63 landmark features"; otherwise only the uncaught `len()` error |
| Api.WrongLengthRejected | app/main.py:128-130 | a landmark list of any length other than 63 (for example 50) gives 400 "Expected 63 landmark features" |
| Api.TextOrObjectLandmarksFail | app/main.py:128-136 | a 63-character string or 63-key object passes validation and then always gives a 500 with the one-cell shape error |
| Api.Respond | app/main.py:110-161 | not loaded gives the 500 before the body is read; validation failures do not depend on the classifier; 200 iff inference succeeds, 500 with its message iff it fails; every 400 is one of the two messages |
| Api.EventOf | app/main.py:145-147 | only a served prediction counts (with its latency), and only an inference failure counts as an error |
| Api.NotLoadedNeverCounts | app/main.py:117-118 | without the artifacts no run of requests moves any counter |
| Api.WellFormedRequestReachesClassifier | app/main.py:121-137 | an object whose `landmarks` holds 63 numbers, whatever its other fields, passes validation and reaches the classifier as the normalised 63-column frame |
| Api.Events | app/main.py:110-161 | a run of requests yields one counter event per request |
| Api.GestureService.constructor | app/main.py:66-75 | the service starts with the loading outcome and all counters at zero |
| Api.GestureService.Predict | app/main.py:110-161 | the outcome is `Respond`, and the counters move exactly by that outcome's event |
| Api.GestureService.GetMetrics | app/main.py:165-177 | the report is `Snapshot` of the current counters |

## Left out

- `normalize_landmarks`: its floating-point arithmetic is an opaque total function. It reads x1, y1, x13 and y13 once, before its loop rewrites any column, and it raises nothing on a frame of floats.
- The pickled SVM and the label encoder: `predict`, `predict_proba` and `inverse_transform` are opaque, possibly-failing functions. Loading from disk is a parameter of the constructor.
- numpy's conversion of a list that is not a flat list of numbers (nested or mixed lists) is an opaque, possibly-failing function. The exact exception texts of the opaque functions are their own.
- Inference.Features: JSON numbers are unbounded reals, so numpy's 64-bit integer range is not modelled. An all-integer list with a value outside it (such as 2**64) becomes an object array, on which the normaliser's `np.sqrt` raises. The model instead promises that such a list reaches the classifier.
- Floating point: latencies, probabilities and the derived rates are reals, so rounding, NaN and infinity are not modelled.
- Clocks: `time.time()` becomes the `latency` parameter of `Predict`. The timestamps, uptime and `last_prediction_time` (which reports the current time) are not modelled.
- The FastAPI application, CORS, the Prometheus instrumentator, `health_check`, logging and `print`, and the server entry point are framework wiring and output.
- Concurrency: the counters are unsynchronised globals under async handlers. The model handles one request at a time.
- JSON decoding itself: a body that fails to decode is `None`. String lengths count code points as Dafny characters.
