/**
 * The process-wide counters behind the metrics report: predictions served,
 * failures inside the guarded inference block, and the summed latency of the
 * predictions served.
 */
module Metrics {

  datatype Counters = Counters(predictions: nat, errors: nat, latencySum: real)

  const INITIAL: Counters := Counters(0, 0, 0.0)

  /** What one request does to the counters. */
  datatype Event =
    | Served(latency: real)  // a prediction was returned
    | Faulted                // the inference block raised
    | Untouched              // rejected before the inference block, or raised outside it

  function Apply(c: Counters, e: Event): (d: Counters)
    ensures d.predictions >= c.predictions && d.errors >= c.errors
    ensures (e.Served? ==> e.latency >= 0.0) ==> d.latencySum >= c.latencySum
  {
    match e
    case Served(latency) => Counters(c.predictions + 1, c.errors, c.latencySum + latency)
    case Faulted => Counters(c.predictions, c.errors + 1, c.latencySum)
    case Untouched => c
  }

  /** The counters after handling `events` in order, one request at a time. */
  function Replay(c: Counters, events: seq<Event>): Counters
    decreases |events|
  {
    if events == [] then c else Replay(Apply(c, events[0]), events[1..])
  }

  function ServedCount(events: seq<Event>): nat {
    if events == [] then 0 else (if events[0].Served? then 1 else 0) + ServedCount(events[1..])
  }

  function FaultCount(events: seq<Event>): nat {
    if events == [] then 0 else (if events[0].Faulted? then 1 else 0) + FaultCount(events[1..])
  }

  function ServedLatency(events: seq<Event>): real {
    if events == [] then 0.0 else (if events[0].Served? then events[0].latency else 0.0) + ServedLatency(events[1..])
  }

  /** Every counter moves by exactly the requests that move it; none ever decreases. */
  lemma {:induction false} ReplayCounts(c: Counters, events: seq<Event>)
    ensures Replay(c, events) ==
      Counters(c.predictions + ServedCount(events), c.errors + FaultCount(events), c.latencySum + ServedLatency(events))
    decreases |events|
  {
    if events != [] {
      ReplayCounts(Apply(c, events[0]), events[1..]);
    }
  }

  /** Python's `max(n, 1)`. */
  function AtLeastOne(n: nat): (m: nat)
    ensures m >= 1 && m >= n && (n >= 1 ==> m == n)
  {
    if n >= 1 then n else 1
  }

  /** The `model_metrics` and `data_metrics` counts of the metrics report. */
  datatype Report = Report(
    predictionCount: nat,
    errorCount: nat,
    errorRate: real,
    averageLatency: real,
    inputValidationErrors: nat)

  function Snapshot(c: Counters): (m: Report)
    ensures m.predictionCount == c.predictions && m.errorCount == c.errors
    ensures m.errorRate * AtLeastOne(c.predictions) as real == c.errors as real
    ensures m.errorRate >= 0.0 && (m.errorRate == 0.0 <==> c.errors == 0)
    ensures c.predictions > 0 ==> m.averageLatency * c.predictions as real == c.latencySum
    ensures c.predictions == 0 ==> m.averageLatency == 0.0
    // the "input validation errors" figure is the inference error count, not the number of rejected inputs
    ensures m.inputValidationErrors == c.errors
  {
    Report(
      c.predictions,
      c.errors,
      c.errors as real / AtLeastOne(c.predictions) as real,
      if c.predictions > 0 then c.latencySum / c.predictions as real else 0.0,
      c.errors)
  }

  /** After N served and M failed requests since start: the report's figures in terms of N, M and the latencies. */
  lemma ReportAfter(events: seq<Event>)
    ensures var m := Snapshot(Replay(INITIAL, events));
      && m.predictionCount == ServedCount(events)
      && m.errorCount == FaultCount(events)
      && m.errorRate == FaultCount(events) as real / AtLeastOne(ServedCount(events)) as real
      && (ServedCount(events) > 0 ==> m.averageLatency == ServedLatency(events) / ServedCount(events) as real)
      && (ServedCount(events) == 0 ==> m.averageLatency == 0.0)
  {
    ReplayCounts(INITIAL, events);
  }
}
