/** The retry policy of `sendContactForm` and the replay pass of
    `syncOfflineQueue`, stated as functions of the transport's scripted replies.
    The transport is an oracle: `ReplyAt(script, n)` is how the n-th POST of the session
    settles, so a run that starts after `base` calls reads `ReplyAt(script, base)`,
    `ReplyAt(script, base + 1)`, and so on. */
module Delivery {
  import opened ContactTypes
  import opened Queue

  /** Total attempts per submission: one initial try and two retries. */
  const MaxAttempts: nat := 3

  /** The wait before the next try once `failed` attempts have failed (linear backoff). */
  function BackoffDelay(failed: nat): nat
  {
    1000 * failed
  }

  /** The waits taken after the first `n` failures, in order. */
  function Backoffs(n: nat): (w: seq<nat>)
    ensures |w| == n
  {
    if n == 0 then [] else Backoffs(n - 1) + [BackoffDelay(n)]
  }

  /** The wait after failure `k + 1` is `k + 1` seconds. */
  lemma {:induction false} BackoffsAt(n: nat, k: nat)
    requires k < n
    ensures Backoffs(n)[k] == 1000 * (k + 1)
  {
    if k < n - 1 {
      BackoffsAt(n - 1, k);
    }
  }

  /** Milliseconds spent waiting after the first `n` failures. */
  function Waited(n: nat): nat
  {
    if n == 0 then 0 else Waited(n - 1) + BackoffDelay(n)
  }

  /** Total of a sequence of durations. */
  function Sum(s: seq<nat>): nat
  {
    if s == [] then 0 else Sum(s[..|s| - 1]) + s[|s| - 1]
  }

  /** The time waited is the total of the recorded waits. */
  lemma {:induction false} WaitedIsSum(n: nat)
    ensures Waited(n) == Sum(Backoffs(n))
  {
    if n > 0 {
      WaitedIsSum(n - 1);
      var w := Backoffs(n);
      assert w[..|w| - 1] == Backoffs(n - 1);
    }
  }

  /** The waits after `n` failures add up to 500 * n * (n + 1) milliseconds. */
  lemma {:induction false} BackoffTotal(n: nat)
    ensures Waited(n) == 500 * n * (n + 1)
  {
    if n > 0 {
      BackoffTotal(n - 1);
    }
  }

  /** Milliseconds spent in the `n` transport calls that start at call `base`. */
  function Elapsed(script: seq<Reply>, base: nat, n: nat): nat
  {
    if n == 0 then 0 else Elapsed(script, base, n - 1) + ReplyAt(script, base + n - 1).took
  }

  /** One more call adds its duration. */
  lemma ElapsedSnoc(script: seq<Reply>, base: nat, n: nat)
    ensures Elapsed(script, base, n + 1) == Elapsed(script, base, n) + ReplyAt(script, base + n).took
  {
  }

  /** `n` copies of the same request. */
  function Repeat(req: Request, n: nat): (s: seq<Request>)
    ensures |s| == n
  {
    if n == 0 then [] else Repeat(req, n - 1) + [req]
  }

  /** Every retry resends the same request: same payload, same idempotency key. */
  lemma {:induction false} RepeatAt(req: Request, n: nat, k: nat)
    requires k < n
    ensures Repeat(req, n)[k] == req
  {
    if k < n - 1 {
      RepeatAt(req, n - 1, k);
    }
  }

  /** The steps of `n` failed tries in a row: each POST followed by its backoff wait. */
  function Attempts(req: Request, n: nat): (s: seq<Step>)
    ensures |s| == 2 * n
  {
    if n == 0 then [] else Attempts(req, n - 1) + [Call(req), Wait(BackoffDelay(n))]
  }

  /** The steps of a submission that made `calls` POSTs: the failed tries with
      their waits, then the last POST, with no wait after it. */
  function Tries(req: Request, calls: nat): (s: seq<Step>)
    ensures calls > 0 ==> |s| == 2 * calls - 1
  {
    if calls == 0 then [] else Attempts(req, calls - 1) + [Call(req)]
  }

  /** Try `k + 1` of a run of failed tries is a POST, and the wait right after it
      is `k + 1` seconds. */
  lemma {:induction false} AttemptsAt(req: Request, n: nat, k: nat)
    requires k < n
    ensures Attempts(req, n)[2 * k] == Call(req)
    ensures Attempts(req, n)[2 * k + 1] == Wait(1000 * (k + 1))
  {
    if k < n - 1 {
      AttemptsAt(req, n - 1, k);
    }
  }

  /** A submission's steps alternate: POST number `k + 1` sits at position `2k`,
      the wait of `1000 * (k + 1)` ms sits between POSTs `k + 1` and `k + 2`, and
      the last step is a POST, so no wait follows the final try. */
  lemma TriesInterleave(req: Request, calls: nat, k: nat)
    requires k < calls
    ensures Tries(req, calls)[2 * k] == Call(req)
    ensures k < calls - 1 ==> Tries(req, calls)[2 * k + 1] == Wait(1000 * (k + 1))
    ensures Tries(req, calls)[|Tries(req, calls)| - 1] == Call(req)
  {
    if k < calls - 1 {
      AttemptsAt(req, calls - 1, k);
    }
  }

  /** How many transport calls an online submission makes, and how it settles. */
  datatype Attempted = Attempted(calls: nat, outcome: SendOutcome)

  /** The retry loop of `sendContactForm`, entered after `attempt` failures: POST;
      stop at the first success; after the last allowed failure report its error;
      otherwise try again. */
  function Deliver(script: seq<Reply>, base: nat, attempt: nat): (r: Attempted)
    requires attempt < MaxAttempts
    ensures attempt < r.calls <= MaxAttempts
    ensures !r.outcome.Offline?
    ensures r.outcome.Delivered? ==> ReplyAt(script, base + r.calls - 1).outcome == Ok(r.outcome.body)
    ensures r.outcome.Exhausted? ==>
      r.calls == MaxAttempts && ReplyAt(script, base + r.calls - 1).outcome == Err(r.outcome.error)
    decreases MaxAttempts - attempt
  {
    match ReplyAt(script, base + attempt).outcome
    case Ok(body) => Attempted(attempt + 1, Delivered(body))
    case Err(e) =>
      if attempt + 1 >= MaxAttempts then Attempted(MaxAttempts, Exhausted(e))
      else Deliver(script, base, attempt + 1)
  }

  /** Every call before the last one of a submission failed: the retry loop
      stops at the first success. */
  lemma {:induction false} DeliverFailsBefore(script: seq<Reply>, base: nat, attempt: nat, c: nat)
    requires attempt < MaxAttempts
    requires base + attempt <= c < base + Deliver(script, base, attempt).calls - 1
    ensures ReplyAt(script, c).outcome.Err?
    decreases MaxAttempts - attempt
  {
    if c > base + attempt {
      DeliverFailsBefore(script, base, attempt + 1, c);
    }
  }

  /** An online submission is delivered exactly when one of its three allowed
      attempts succeeds, and exhausted exactly when all three fail. */
  lemma DeliverIff(script: seq<Reply>, base: nat)
    ensures Deliver(script, base, 0).outcome.Delivered? <==>
      exists c :: base <= c < base + MaxAttempts && ReplyAt(script, c).outcome.Ok?
    ensures Deliver(script, base, 0).outcome.Exhausted? <==>
      forall c :: base <= c < base + MaxAttempts ==> ReplyAt(script, c).outcome.Err?
  {
    var r := Deliver(script, base, 0);
    if r.outcome.Delivered? {
      assert ReplyAt(script, base + (r.calls - 1)).outcome.Ok?;
    } else {
      assert r.outcome.Exhausted?;
      forall c | base <= c < base + MaxAttempts
        ensures ReplyAt(script, c).outcome.Err?
      {
        if c < base + r.calls - 1 {
          DeliverFailsBefore(script, base, 0, c);
        } else {
          assert c == base + r.calls - 1;
        }
      }
    }
  }

  /** The replay request for a queued entry: its payload under its own key. */
  function Replay(e: QueuedMessage): Request
  {
    Request(e.data, e.idempotencyKey)
  }

  /** The requests a sync pass makes over the first `n` entries of a snapshot:
      one per entry, in queue order. */
  function Replays(snapshot: seq<QueuedMessage>, n: nat): (s: seq<Request>)
    requires n <= |snapshot|
    ensures |s| == n
  {
    if n == 0 then [] else Replays(snapshot, n - 1) + [Replay(snapshot[n - 1])]
  }

  /** Request `k` of a sync pass replays entry `k` under that entry's own key. */
  lemma {:induction false} ReplaysAt(snapshot: seq<QueuedMessage>, n: nat, k: nat)
    requires k < n <= |snapshot|
    ensures Replays(snapshot, n)[k] == Replay(snapshot[k])
  {
    if k < n - 1 {
      ReplaysAt(snapshot, n - 1, k);
    }
  }

  /** The steps of a sync pass over the first `n` entries: one POST per entry,
      and no wait. */
  function ReplayCalls(snapshot: seq<QueuedMessage>, n: nat): (s: seq<Step>)
    requires n <= |snapshot|
    ensures |s| == n
  {
    if n == 0 then [] else ReplayCalls(snapshot, n - 1) + [Call(Replay(snapshot[n - 1]))]
  }

  /** Step `k` of a sync pass is the POST replaying entry `k`: a pass never waits. */
  lemma {:induction false} ReplayCallsAt(snapshot: seq<QueuedMessage>, n: nat, k: nat)
    requires k < n <= |snapshot|
    ensures ReplayCalls(snapshot, n)[k] == Call(Replay(snapshot[k]))
  {
    if k < n - 1 {
      ReplayCallsAt(snapshot, n - 1, k);
    }
  }

  /** The ids a sync pass over the first `n` entries redelivers: entry `k` is
      redelivered when call `base + k` succeeds. */
  function DeliveredIds(snapshot: seq<QueuedMessage>, script: seq<Reply>, base: nat, n: nat): set<string>
    requires n <= |snapshot|
  {
    if n == 0 then {}
    else
      DeliveredIds(snapshot, script, base, n - 1) +
        if ReplyAt(script, base + n - 1).outcome.Ok? then {snapshot[n - 1].id} else {}
  }

  /** An id is redelivered exactly when some entry carrying it got a successful reply. */
  lemma {:induction false} DeliveredIdsMembers(snapshot: seq<QueuedMessage>, script: seq<Reply>, base: nat,
                                               n: nat, x: string)
    requires n <= |snapshot|
    ensures x in DeliveredIds(snapshot, script, base, n) <==>
      exists k :: 0 <= k < n && snapshot[k].id == x && ReplyAt(script, base + k).outcome.Ok?
  {
    if n > 0 {
      DeliveredIdsMembers(snapshot, script, base, n - 1, x);
      if x in DeliveredIds(snapshot, script, base, n) && x !in DeliveredIds(snapshot, script, base, n - 1) {
        assert snapshot[n - 1].id == x && ReplyAt(script, base + (n - 1)).outcome.Ok?;
      }
    }
  }

  /** How many of the `n` calls starting at `base` succeed. */
  function Successes(script: seq<Reply>, base: nat, n: nat): (c: nat)
    ensures c <= n
  {
    if n == 0 then 0
    else Successes(script, base, n - 1) + (if ReplyAt(script, base + n - 1).outcome.Ok? then 1 else 0)
  }

  /** A sync pass whose every call fails redelivers nothing. */
  lemma {:induction false} AllFailedDeliversNothing(snapshot: seq<QueuedMessage>, script: seq<Reply>, base: nat, n: nat)
    requires n <= |snapshot|
    requires forall c :: base <= c < base + n ==> ReplyAt(script, c).outcome.Err?
    ensures DeliveredIds(snapshot, script, base, n) == {}
    ensures Successes(script, base, n) == 0
  {
    if n > 0 {
      AllFailedDeliversNothing(snapshot, script, base, n - 1);
    }
  }

  /** A sync pass whose every call succeeds redelivers every id of its snapshot. */
  lemma AllSucceededDeliversAll(snapshot: seq<QueuedMessage>, script: seq<Reply>, base: nat)
    requires forall c :: base <= c < base + |snapshot| ==> ReplyAt(script, c).outcome.Ok?
    ensures DeliveredIds(snapshot, script, base, |snapshot|) == Ids(snapshot)
    ensures Successes(script, base, |snapshot|) == |snapshot|
  {
    AllSucceededCounted(script, base, |snapshot|);
    forall x
      ensures x in DeliveredIds(snapshot, script, base, |snapshot|) <==> x in Ids(snapshot)
    {
      DeliveredIdsMembers(snapshot, script, base, |snapshot|, x);
      if x in Ids(snapshot) {
        var e :| e in snapshot && e.id == x;
        var k :| 0 <= k < |snapshot| && snapshot[k] == e;
        assert ReplyAt(script, base + k).outcome.Ok?;
      }
    }
  }

  /** When every call succeeds, every call is counted. */
  lemma {:induction false} AllSucceededCounted(script: seq<Reply>, base: nat, n: nat)
    requires forall c :: base <= c < base + n ==> ReplyAt(script, c).outcome.Ok?
    ensures Successes(script, base, n) == n
  {
    if n > 0 {
      AllSucceededCounted(script, base, n - 1);
    }
  }

  /** A sync pass never removes an entry whose id is not in its snapshot, and it
      leaves no entry whose id it redelivered. */
  lemma SyncRemovesOnlyRedelivered(q: seq<QueuedMessage>, snapshot: seq<QueuedMessage>,
                                   script: seq<Reply>, base: nat, e: QueuedMessage)
    requires e in q
    ensures e.id !in Ids(snapshot) ==> e in Keep(q, DeliveredIds(snapshot, script, base, |snapshot|))
    ensures e.id in DeliveredIds(snapshot, script, base, |snapshot|) ==>
      e !in Keep(q, DeliveredIds(snapshot, script, base, |snapshot|))
  {
    var ids := DeliveredIds(snapshot, script, base, |snapshot|);
    KeepMembers(q, ids, e);
    DeliveredIdsMembers(snapshot, script, base, |snapshot|, e.id);
    if e.id in ids {
      var k :| 0 <= k < |snapshot| && snapshot[k].id == e.id && ReplyAt(script, base + k).outcome.Ok?;
      assert snapshot[k] in snapshot;
    }
  }

  /** Replaying a queue whose every call fails leaves it exactly as it was: a
      second pass right after a pass removes nothing when nothing gets through. */
  lemma FailedPassRemovesNothing(q: seq<QueuedMessage>, script: seq<Reply>, base: nat)
    requires forall c :: base <= c < base + |q| ==> ReplyAt(script, c).outcome.Err?
    ensures Keep(q, DeliveredIds(q, script, base, |q|)) == q
    ensures Successes(script, base, |q|) == 0
  {
    AllFailedDeliversNothing(q, script, base, |q|);
    KeepUntouched(q, {});
  }
}
