/** The submission pipeline of the contact form: the module-level metric
    counters, the persisted queue of deferred submissions, the send engine with
    retries and linear backoff, and the pass that replays the queue. */
module ContactApi {
  import opened ContactTypes
  import opened Telemetry
  import opened Queue
  import opened Delivery

  /** The two localStorage slots. `None` stands for a value that is missing or
      cannot be parsed. */
  class Storage {
    var metricsSlot: Option<Metrics>
    var queueSlot: Option<seq<QueuedMessage>>

    constructor (metricsSlot: Option<Metrics>, queueSlot: Option<seq<QueuedMessage>>)
      ensures this.metricsSlot == metricsSlot && this.queueSlot == queueSlot
    {
      this.metricsSlot := metricsSlot;
      this.queueSlot := queueSlot;
    }
  }

  /** What the environment has seen of the pipeline: the POSTs made, the waits
      taken, both interleaved in the order they happened, and the clock. */
  datatype Traffic = Traffic(sent: seq<Request>, waits: seq<nat>, trace: seq<Step>, now: nat)

  /** The rest of what the pipeline reaches outside itself: the connectivity
      flag, one millisecond clock (standing for both `performance.now` and
      `Date.now`), the transport and the timer. The transport is a script of
      replies indexed by call number; `sent` and `waits` record every POST made
      and every backoff wait taken, and `trace` records both in order. */
  class Browser {
    var online: bool
    var now: nat
    const script: seq<Reply>
    var sent: seq<Request>
    var waits: seq<nat>
    var trace: seq<Step>

    /** A page load: no call or wait has happened yet. */
    constructor (online: bool, now: nat, script: seq<Reply>)
      ensures this.online == online && this.now == now && this.script == script
      ensures sent == [] && waits == [] && trace == []
    {
      this.online := online;
      this.now := now;
      this.script := script;
      sent := [];
      waits := [];
      trace := [];
    }

    /** The traffic so far, as one value. */
    ghost function Seen(): Traffic
      reads this
    {
      Traffic(sent, waits, trace, now)
    }

    /** `axios.post`: the next scripted reply settles this call, and the clock
        advances by the time it took. */
    method Post(req: Request) returns (o: Outcome)
      modifies this
      ensures o == ReplyAt(script, old(|sent|)).outcome
      ensures sent == old(sent) + [req]
      ensures trace == old(trace) + [Call(req)]
      ensures now == old(now) + ReplyAt(script, old(|sent|)).took
      ensures online == old(online) && waits == old(waits)
    {
      var reply := ReplyAt(script, |sent|);
      sent := sent + [req];
      trace := trace + [Call(req)];
      now := now + reply.took;
      o := reply.outcome;
    }

    /** `await new Promise(resolve => setTimeout(resolve, ms))`. */
    method Sleep(ms: nat)
      modifies this
      ensures waits == old(waits) + [ms]
      ensures trace == old(trace) + [Wait(ms)]
      ensures now == old(now) + ms
      ensures online == old(online) && sent == old(sent)
    {
      waits := waits + [ms];
      trace := trace + [Wait(ms)];
      now := now + ms;
    }
  }

  /** The traffic of a submission after `attempt` failed tries, relative to the
      traffic `t0` it started from: one POST of `request` per try, the backoff
      wait after each failure, in that order, and the time both took. */
  ghost predicate AttemptedUpTo(script: seq<Reply>, base: nat, request: Request, attempt: nat,
                                t0: Traffic, t: Traffic)
  {
    && |t0.sent| == base
    && t.sent == t0.sent + Repeat(request, attempt)
    && t.waits == t0.waits + Backoffs(attempt)
    && t.trace == t0.trace + Attempts(request, attempt)
    && t.now == t0.now + Elapsed(script, base, attempt) + Waited(attempt)
  }

  /** The traffic of a submission that made `calls` POSTs (at least one):
      `calls` copies of `request` with a backoff wait between each two and none
      after the last, and the time both took. */
  ghost predicate Called(script: seq<Reply>, base: nat, request: Request, calls: nat,
                         t0: Traffic, t: Traffic)
  {
    && calls > 0
    && |t0.sent| == base
    && t.sent == t0.sent + Repeat(request, calls)
    && t.waits == t0.waits + Backoffs(calls - 1)
    && t.trace == t0.trace + Tries(request, calls)
    && t.now == t0.now + Elapsed(script, base, calls) + Waited(calls - 1)
  }

  /** A POST after `attempt` failed tries is call `base + attempt`; it adds one
      request and its duration. */
  lemma PostStep(script: seq<Reply>, base: nat, request: Request, attempt: nat,
                 t0: Traffic, t: Traffic, t': Traffic)
    requires AttemptedUpTo(script, base, request, attempt, t0, t)
    requires t' == t.(sent := t.sent + [request], trace := t.trace + [Call(request)],
                      now := t.now + ReplyAt(script, |t.sent|).took)
    ensures |t.sent| == base + attempt
    ensures Called(script, base, request, attempt + 1, t0, t')
  {
    assert Repeat(request, attempt + 1) == Repeat(request, attempt) + [request];
    ElapsedSnoc(script, base, attempt);
  }

  /** The wait after failure number `failed` completes the traffic of `failed` tries. */
  lemma BackoffStep(script: seq<Reply>, base: nat, request: Request, failed: nat,
                    t0: Traffic, t: Traffic, t': Traffic)
    requires Called(script, base, request, failed, t0, t)
    requires t' == t.(waits := t.waits + [BackoffDelay(failed)], trace := t.trace + [Wait(BackoffDelay(failed))],
                      now := t.now + BackoffDelay(failed))
    ensures AttemptedUpTo(script, base, request, failed, t0, t')
  {
    assert Attempts(request, failed) == Attempts(request, failed - 1) + [Call(request)] + [Wait(BackoffDelay(failed))];
  }

  /** What a sync pass changes: the POSTs made and their trace, the clock, the
      counters and the two storage slots. */
  datatype Pass = Pass(sent: seq<Request>, trace: seq<Step>, now: nat, m: Metrics,
                       slot: Option<seq<QueuedMessage>>, stored: Option<Metrics>)

  /** The state `p` of a sync pass over `snapshot` after its first `i` entries,
      relative to the state `p0` it started from: the calls made, the time
      spent, the queue with every redelivered id removed, and the counters with
      one success per redelivery. */
  ghost predicate SyncedUpTo(snapshot: seq<QueuedMessage>, script: seq<Reply>, base: nat, i: nat,
                             p0: Pass, p: Pass)
  {
    && i <= |snapshot|
    && |p0.sent| == base
    && p.sent == p0.sent + Replays(snapshot, i)
    && p.trace == p0.trace + ReplayCalls(snapshot, i)
    && p.now == p0.now + Elapsed(script, base, i)
    && LoadQueue(p.slot) == Keep(snapshot, DeliveredIds(snapshot, script, base, i))
    && p.m.success == p0.m.success + Successes(script, base, i)
    && p.m.failures == p0.m.failures && p.m.totalLatency == p0.m.totalLatency
    && (Successes(script, base, i) == 0 ==> p.m == p0.m && p.slot == p0.slot && p.stored == p0.stored)
    && (Successes(script, base, i) > 0 ==> p.m.queuedItems == |LoadQueue(p.slot)| && p.stored == Some(p.m))
  }

  /** One iteration of the sync loop: the POST replaying entry `i` and, when it
      succeeds, the entry's removal and a recorded success. It extends a pass
      over the first `i` entries to a pass over the first `i + 1`. */
  lemma SyncAdvance(snapshot: seq<QueuedMessage>, script: seq<Reply>, base: nat, i: nat,
                    p0: Pass, p: Pass, delivered: bool, p': Pass)
    requires i < |snapshot|
    requires SyncedUpTo(snapshot, script, base, i, p0, p)
    requires delivered == ReplyAt(script, |p.sent|).outcome.Ok?
    requires p'.sent == p.sent + [Replay(snapshot[i])]
    requires p'.trace == p.trace + [Call(Replay(snapshot[i]))]
    requires p'.now == p.now + ReplyAt(script, |p.sent|).took
    requires delivered ==>
      && p'.slot == Some(RemoveId(LoadQueue(p.slot), snapshot[i].id))
      && p'.m == Track(p.m.(queuedItems := |RemoveId(LoadQueue(p.slot), snapshot[i].id)|), true, None)
      && p'.stored == Some(p'.m)
    requires !delivered ==> p'.m == p.m && p'.slot == p.slot && p'.stored == p.stored
    ensures SyncedUpTo(snapshot, script, base, i + 1, p0, p')
  {
    var ids := DeliveredIds(snapshot, script, base, i);
    assert |p.sent| == base + i;
    assert DeliveredIds(snapshot, script, base, i + 1) == ids + if delivered then {snapshot[i].id} else {};
    ElapsedSnoc(script, base, i);
    if delivered {
      KeepTwice(snapshot, ids, {snapshot[i].id});
      assert LoadQueue(p'.slot) == Keep(Keep(snapshot, ids), {snapshot[i].id});
    } else {
      assert DeliveredIds(snapshot, script, base, i + 1) == ids;
    }
  }

  class ContactApi {
    /** The module-level `metrics` object. */
    var metrics: Metrics
    const store: Storage
    const env: Browser

    /** Loading the module: the counters start at zero whatever storage holds. */
    constructor (store: Storage, env: Browser)
      ensures metrics == Zero && this.store == store && this.env == env
    {
      metrics := Zero;
      this.store := store;
      this.env := env;
    }

    /** `trackMetric`: update the counters, then persist them. */
    method TrackMetric(ok: bool, latency: Option<nat>)
      modifies this, store
      ensures metrics == Track(old(metrics), ok, latency)
      ensures store.metricsSlot == Some(metrics)
      ensures store.queueSlot == old(store.queueSlot)
    {
      if ok {
        metrics := metrics.(success := metrics.success + 1);
        if latency.Some? && latency.value > 0 {
          metrics := metrics.(totalLatency := metrics.totalLatency + latency.value);
        }
      } else {
        metrics := metrics.(failures := metrics.failures + 1);
      }
      store.metricsSlot := Some(metrics);
    }

    /** `getQueuedMessages`: the persisted queue, empty when missing or corrupt. */
    method GetQueuedMessages() returns (q: seq<QueuedMessage>)
      ensures store.queueSlot.Some? ==> q == store.queueSlot.value
      ensures store.queueSlot.None? ==> q == []
    {
      q := LoadQueue(store.queueSlot);
    }

    /** `getMetrics`: reload the persisted counters when readable, refresh the
        cached queue length from the live queue, and report the average latency. */
    method GetMetrics() returns (s: Snapshot)
      modifies this
      ensures metrics == Restore(old(metrics), store.metricsSlot).(queuedItems := |LoadQueue(store.queueSlot)|)
      ensures s.success == metrics.success && s.failures == metrics.failures
      ensures s.totalLatency == metrics.totalLatency
      ensures s.queuedItems == |LoadQueue(store.queueSlot)|
      ensures s.avgLatency == AvgLatency(metrics)
    {
      if store.metricsSlot.Some? {
        metrics := store.metricsSlot.value;
      }
      var queue := GetQueuedMessages();
      metrics := metrics.(queuedItems := |queue|);
      s := Snapshot(metrics.success, metrics.failures, metrics.totalLatency, metrics.queuedItems, AvgLatency(metrics));
    }

    /** `saveToQueue`: append one entry stamped with the current time, then
        persist the queue and the counters with the new queue length. */
    method SaveToQueue(data: FormData, idempotencyKey: string, id: string)
      modifies this, store
      ensures store.queueSlot == Some(LoadQueue(old(store.queueSlot)) + [QueuedMessage(id, data, idempotencyKey, env.now)])
      ensures metrics == old(metrics).(queuedItems := |LoadQueue(old(store.queueSlot))| + 1)
      ensures store.metricsSlot == Some(metrics)
    {
      var queue := GetQueuedMessages();
      queue := queue + [QueuedMessage(id, data, idempotencyKey, env.now)];
      store.queueSlot := Some(queue);
      metrics := metrics.(queuedItems := |queue|);
      store.metricsSlot := Some(metrics);
    }

    /** `removeFromQueue`: drop every entry carrying `id`, then persist the queue
        and the counters with the new queue length. */
    method RemoveFromQueue(id: string)
      modifies this, store
      ensures store.queueSlot == Some(RemoveId(LoadQueue(old(store.queueSlot)), id))
      ensures metrics == old(metrics).(queuedItems := |RemoveId(LoadQueue(old(store.queueSlot)), id)|)
      ensures store.metricsSlot == Some(metrics)
    {
      var queue := GetQueuedMessages();
      var updated := RemoveId(queue, id);
      store.queueSlot := Some(updated);
      metrics := metrics.(queuedItems := |updated|);
      store.metricsSlot := Some(metrics);
    }

    /** `sendContactForm`. Offline: defer the submission and fail without calling
        the transport or recording a metric. Online: up to `MaxAttempts` POSTs with
        the same idempotency key, waiting 1000 ms times the number of failures so
        far between them; the first success records its latency (measured from
        the start, waits included) and returns its body; after the last failure
        the submission is deferred, a failure is recorded and the last error is
        returned. */
    method SendContactForm(data: FormData, idempotencyKey: string, id: string) returns (res: SendOutcome)
      modifies this, store, env
      ensures env.online == old(env.online)
      ensures !old(env.online) ==>
        && res == Offline
        && env.Seen() == old(env.Seen())
        && store.queueSlot == Some(LoadQueue(old(store.queueSlot)) + [QueuedMessage(id, data, idempotencyKey, env.now)])
        && metrics == old(metrics).(queuedItems := |LoadQueue(old(store.queueSlot))| + 1)
        && store.metricsSlot == Some(metrics)
      ensures old(env.online) ==>
        var d := Deliver(env.script, |old(env.sent)|, 0);
        && res == d.outcome
        && Called(env.script, |old(env.sent)|, Request(data, idempotencyKey), d.calls, old(env.Seen()), env.Seen())
      ensures old(env.online) && res.Delivered? ==>
        && store.queueSlot == old(store.queueSlot)
        && metrics == Track(old(metrics), true, Some(env.now - old(env.now)))
        && store.metricsSlot == Some(metrics)
      ensures old(env.online) && res.Exhausted? ==>
        && store.queueSlot == Some(LoadQueue(old(store.queueSlot)) + [QueuedMessage(id, data, idempotencyKey, env.now)])
        && metrics == Track(old(metrics).(queuedItems := |LoadQueue(old(store.queueSlot))| + 1), false, None)
        && store.metricsSlot == Some(metrics)
    {
      var startTime := env.now;
      if !env.online {
        SaveToQueue(data, idempotencyKey, id);
        return Offline;
      }
      ghost var base := |env.sent|;
      ghost var d := Deliver(env.script, base, 0);
      var request := Request(data, idempotencyKey);
      var attempt := 0;
      while attempt < MaxAttempts
        invariant attempt < MaxAttempts
        invariant Deliver(env.script, base, attempt) == d
        invariant AttemptedUpTo(env.script, base, request, attempt, old(env.Seen()), env.Seen())
        invariant metrics == old(metrics) && store.queueSlot == old(store.queueSlot) && store.metricsSlot == old(store.metricsSlot)
        invariant env.online
        decreases MaxAttempts - attempt
      {
        ghost var t := env.Seen();
        var outcome := env.Post(request);
        PostStep(env.script, base, request, attempt, old(env.Seen()), t, env.Seen());
        if outcome.Ok? {
          assert Deliver(env.script, base, attempt) == Attempted(attempt + 1, Delivered(outcome.body));
          var endTime := env.now;
          TrackMetric(true, Some(endTime - startTime));
          assert Called(env.script, base, request, attempt + 1, old(env.Seen()), env.Seen());
          return Delivered(outcome.body);
        }
        attempt := attempt + 1;
        if attempt >= MaxAttempts {
          assert Deliver(env.script, base, attempt - 1) == Attempted(MaxAttempts, Exhausted(outcome.error));
          SaveToQueue(data, idempotencyKey, id);
          TrackMetric(false, None);
          assert Called(env.script, base, request, attempt, old(env.Seen()), env.Seen());
          return Exhausted(outcome.error);
        }
        assert Deliver(env.script, base, attempt - 1) == Deliver(env.script, base, attempt);
        var backoffTime := BackoffDelay(attempt);
        ghost var called := env.Seen();
        env.Sleep(backoffTime);
        BackoffStep(env.script, base, request, attempt, old(env.Seen()), called, env.Seen());
      }
      assert false;
    }

    /** `syncOfflineQueue`. Offline or with an empty queue it does nothing.
        Otherwise it replays a snapshot of the queue oldest first, one POST per
        entry under the entry's own key and no wait: a success removes that
        entry's id and records a success without latency; a failure changes
        nothing. */
    method SyncOfflineQueue()
      modifies this, store, env
      ensures env.online == old(env.online) && env.waits == old(env.waits)
      ensures !old(env.online) || LoadQueue(old(store.queueSlot)) == [] ==>
        && metrics == old(metrics) && env.sent == old(env.sent) && env.trace == old(env.trace)
        && env.now == old(env.now) && store.queueSlot == old(store.queueSlot) && store.metricsSlot == old(store.metricsSlot)
      ensures old(env.online) && LoadQueue(old(store.queueSlot)) != [] ==>
        var snapshot := LoadQueue(old(store.queueSlot));
        var base := |old(env.sent)|;
        var delivered := Successes(env.script, base, |snapshot|);
        && env.sent == old(env.sent) + Replays(snapshot, |snapshot|)
        && env.trace == old(env.trace) + ReplayCalls(snapshot, |snapshot|)
        && env.now == old(env.now) + Elapsed(env.script, base, |snapshot|)
        && LoadQueue(store.queueSlot) == Keep(snapshot, DeliveredIds(snapshot, env.script, base, |snapshot|))
        && metrics.success == old(metrics.success) + delivered
        && metrics.failures == old(metrics.failures)
        && metrics.totalLatency == old(metrics.totalLatency)
        && (delivered == 0 ==> metrics == old(metrics) && store.queueSlot == old(store.queueSlot)
                               && store.metricsSlot == old(store.metricsSlot))
        && (delivered > 0 ==> metrics.queuedItems == |LoadQueue(store.queueSlot)|
                              && store.metricsSlot == Some(metrics))
    {
      if !env.online {
        return;
      }
      var queue := GetQueuedMessages();
      if |queue| == 0 {
        return;
      }
      ghost var base := |env.sent|;
      ghost var p0 := Pass(env.sent, env.trace, env.now, metrics, store.queueSlot, store.metricsSlot);
      KeepUntouched(queue, {});
      for i := 0 to |queue|
        invariant SyncedUpTo(queue, env.script, base, i, p0,
                             Pass(env.sent, env.trace, env.now, metrics, store.queueSlot, store.metricsSlot))
        invariant env.online == old(env.online) && env.waits == old(env.waits)
      {
        ghost var p := Pass(env.sent, env.trace, env.now, metrics, store.queueSlot, store.metricsSlot);
        var outcome := env.Post(Replay(queue[i]));
        if outcome.Ok? {
          RemoveFromQueue(queue[i].id);
          TrackMetric(true, None);
        }
        SyncAdvance(queue, env.script, base, i, p0, p, outcome.Ok?,
                    Pass(env.sent, env.trace, env.now, metrics, store.queueSlot, store.metricsSlot));
      }
    }
  }
}
