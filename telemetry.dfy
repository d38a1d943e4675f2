/** The metric counters: how one recorded outcome changes them, how a stored
    copy is restored, and the average latency reported to the stats panel. */
module Telemetry {
  import opened ContactTypes

  /** The counters a fresh page starts from. */
  const Zero := Metrics(0, 0, 0, 0)

  /** One recorded outcome: `ok` with an optional latency, or a failure. */
  datatype Event = Event(ok: bool, latency: Option<nat>)

  /** The effect of `trackMetric` on the counters. A latency is added only when it
      is present and non-zero (the source tests it for truthiness), which adds the
      same amount as adding it unconditionally. */
  function Track(m: Metrics, ok: bool, latency: Option<nat>): (r: Metrics)
    ensures ok ==> r.success == m.success + 1 && r.failures == m.failures
    ensures ok ==> r.totalLatency == m.totalLatency + (if latency.Some? then latency.value else 0)
    ensures !ok ==> r.failures == m.failures + 1 && r.success == m.success && r.totalLatency == m.totalLatency
    ensures r.queuedItems == m.queuedItems
  {
    if ok then
      m.(success := m.success + 1,
         totalLatency := if latency.Some? && latency.value > 0 then m.totalLatency + latency.value else m.totalLatency)
    else
      m.(failures := m.failures + 1)
  }

  /** `b`'s three accumulating counters (success, failures, totalLatency) are at least `a`'s. */
  predicate NoLess(a: Metrics, b: Metrics) {
    a.success <= b.success && a.failures <= b.failures && a.totalLatency <= b.totalLatency
  }

  /** The counters after a history of recorded outcomes, oldest first. */
  function TrackAll(m: Metrics, events: seq<Event>): Metrics
    decreases |events|
  {
    if events == [] then m
    else TrackAll(Track(m, events[0].ok, events[0].latency), events[1..])
  }

  /** How many events of a history are successes. */
  function CountOk(events: seq<Event>): (n: nat)
    ensures n <= |events|
  {
    if events == [] then 0 else (if events[0].ok then 1 else 0) + CountOk(events[1..])
  }

  /** Over any history the counters never decrease, every event raises exactly
      one of success and failures, and successes are counted exactly. */
  lemma {:induction false} TrackAllGrows(m: Metrics, events: seq<Event>)
    ensures NoLess(m, TrackAll(m, events))
    ensures TrackAll(m, events).success + TrackAll(m, events).failures == m.success + m.failures + |events|
    ensures TrackAll(m, events).success == m.success + CountOk(events)
    decreases |events|
  {
    if events != [] {
      TrackAllGrows(Track(m, events[0].ok, events[0].latency), events[1..]);
    }
  }

  /** Latency only ever comes from successes: a history with no success leaves
      the latency total and the success count as they were. */
  lemma {:induction false} FailuresAddNoLatency(m: Metrics, events: seq<Event>)
    requires forall k :: 0 <= k < |events| ==> !events[k].ok
    ensures TrackAll(m, events).totalLatency == m.totalLatency
    ensures TrackAll(m, events).success == m.success
    ensures TrackAll(m, events).failures == m.failures + |events|
    decreases |events|
  {
    if events != [] {
      FailuresAddNoLatency(Track(m, events[0].ok, events[0].latency), events[1..]);
    }
  }

  /** `Object.assign(metrics, parsed)`: a readable stored copy replaces the
      in-memory counters; a missing or unparseable one leaves them alone. */
  function Restore(m: Metrics, stored: Option<Metrics>): (r: Metrics)
    ensures stored.Some? ==> r == stored.value
    ensures stored.None? ==> r == m
  {
    match stored
    case Some(s) => s
    case None => m
  }

  /** The average latency reported by `getMetrics`: the latency total shared out
      over the successes, or 0 before the first success. */
  function AvgLatency(m: Metrics): (avg: real)
    ensures m.success > 0 ==> avg * (m.success as real) == m.totalLatency as real
    ensures m.success == 0 ==> avg == 0.0
    ensures avg >= 0.0
  {
    if m.success > 0 then m.totalLatency as real / m.success as real else 0.0
  }
}
