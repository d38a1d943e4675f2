# Contact-form submission pipeline

This project is a Dafny model of the resilient submission pipeline behind the contact form of
`formulario-contact`. All of that pipeline lives in `src/api/contactApi.ts`.
The pipeline has four parts:

- **Metric counters.** A module-level `metrics` object holds `success`, `failures`,
  `totalLatency` and `queuedItems`. `trackMetric` updates it and persists it. `getMetrics`
  reloads it, refreshes the queue length and reports the average latency.
- **Deferred-submission queue.** The queue is persisted in its own storage slot.
  `getQueuedMessages` loads it and falls back to the empty queue. `saveToQueue` appends an
  entry. `removeFromQueue` filters out every entry with a given id.
- **Send engine.** `sendContactForm` fails fast while offline and defers the message.
  Online, it makes up to three POSTs with the same idempotency key, waiting 1000 ms times the
  number of failures between them. After the third failure it defers the message, records a
  failure and rethrows the last error.
- **Queue synchroniser.** `syncOfflineQueue` makes one pass over a snapshot of the queue,
  oldest first. Each entry that gets through is removed by id and counted as a success.

The files follow that structure:

- `types.dfy` (`ContactTypes`) holds the values: form data, queue entries, counters,
  requests, and scripted transport replies.
- `telemetry.dfy` (`Telemetry`) holds the counter arithmetic.
- `queue.dfy` (`Queue`) holds loading the queue and removal by id.
- `delivery.dfy` (`Delivery`) holds the retry policy and the replay pass. Both are stated as
  functions of the transport's replies.
- `contact_api.dfy` (`ContactApi`) holds the imperative model:
  - the two storage slots (`Storage`);
  - the browser environment (`Browser`: connectivity, one millisecond clock, transport,
    timer);
  - the module itself (`ContactApi`), whose methods update the counters and the slots in
    place.

The methods are proved against the functions of `Delivery`, `Queue` and `Telemetry`. The
properties are proved about those functions as lemmas.

The transport is an oracle: `ReplyAt(script, n)` is how the n-th POST of the session
settles (a body or an error) and how long it took. Storage slots are `Option`s, where
`None` stands for a value that is missing or cannot be parsed.

## Model

Source paths are relative to the repository's source tree.

| member | source | states |
|---|---|---|
| Telemetry.Track | formulario-contact/src/api/contactApi.ts:32-40 | a success raises `success` by one and `totalLatency` by the latency when one is given, and leaves `failures` alone; a failure raises `failures` by one and leaves `success` and `totalLatency` alone; `queuedItems` never changes |
| Telemetry.TrackAllGrows | formulario-contact/src/api/contactApi.ts:32-40 | over any history of recorded outcomes no counter decreases, each outcome raises exactly one of `success` and `failures`, and `success` grows by exactly the number of successes |
| Telemetry.FailuresAddNoLatency | formulario-contact/src/api/contactApi.ts:38-40 | a history of failures only raises `failures` (by its length); latency and successes stay as they were |
| Telemetry.Restore | formulario-contact/src/api/contactApi.ts:48-57 | a readable stored copy of the counters replaces the in-memory ones; a missing or unparseable one leaves them unchanged |
| Telemetry.AvgLatency | formulario-contact/src/api/contactApi.ts:65 | the average times the success count is the latency total when there is a success; otherwise the average is 0; it is never negative |
| Queue.LoadQueue | formulario-contact/src/api/contactApi.ts:70-78 | the stored queue, or the empty queue when the slot is missing or unparseable |
| Queue.Keep | formulario-contact/src/api/contactApi.ts:99 | filtering never lengthens the queue, and no survivor carries a removed id |
| Queue.KeepMembers | formulario-contact/src/api/contactApi.ts:97-99 | an entry survives removal exactly when it was in the queue and its id is not removed |
| Queue.KeepCount | formulario-contact/src/api/contactApi.ts:97-99 | removal drops every copy of an entry with a removed id and keeps every copy of every other entry, as multisets |
| Queue.KeepAppend | formulario-contact/src/api/contactApi.ts:99 | filtering distributes over concatenation, so the survivors keep their relative order |
| Queue.KeepUntouched | formulario-contact/src/api/contactApi.ts:99 | removing ids no entry carries leaves the queue identical |
| Queue.KeepTwice | formulario-contact/src/api/contactApi.ts:97-103 | two removals in a row equal one removal of both id sets, so removal by id is idempotent |
| Delivery.BackoffsAt | formulario-contact/src/api/contactApi.ts:148-150 | the wait after failure k+1 is 1000·(k+1) ms: 1000 ms, then 2000 ms |
| Delivery.BackoffTotal | formulario-contact/src/api/contactApi.ts:148-150 | the waits after n failures total 500·n·(n+1) ms |
| Delivery.WaitedIsSum | formulario-contact/src/api/contactApi.ts:148-150 | the time the clock advances for waits equals the sum of the recorded waits |
| Delivery.AttemptsAt | formulario-contact/src/api/contactApi.ts:119-150 | in a run of failed tries, try k+1 is a POST and the step right after it is a wait of 1000·(k+1) ms |
| Delivery.TriesInterleave | formulario-contact/src/api/contactApi.ts:119-150 | a submission's steps alternate: POST k+1 at position 2k, the wait of 1000·(k+1) ms between POSTs k+1 and k+2, and a POST as the last step, so no wait follows the final try |
| Delivery.RepeatAt | formulario-contact/src/api/contactApi.ts:119-128 | every try of a submission posts the same payload under the same idempotency key |
| Delivery.Deliver | formulario-contact/src/api/contactApi.ts:116-152 | an online submission makes between 1 and 3 calls; it is delivered with the body of its last call's successful reply, or exhausted after exactly 3 calls with the last call's error; it never reports offline |
| Delivery.DeliverFailsBefore | formulario-contact/src/api/contactApi.ts:119-146 | every call of a submission before its last one failed: the loop stops at the first success |
| Delivery.DeliverIff | formulario-contact/src/api/contactApi.ts:116-152 | a submission is delivered if and only if one of its three allowed calls succeeds, and exhausted if and only if all three fail |
| Delivery.ReplaysAt | formulario-contact/src/api/contactApi.ts:163-172 | call k of a sync pass replays queue entry k, with that entry's payload under that entry's own key |
| Delivery.ReplayCallsAt | formulario-contact/src/api/contactApi.ts:163-172 | step k of a sync pass is the POST replaying entry k: a pass never waits |
| Delivery.DeliveredIdsMembers | formulario-contact/src/api/contactApi.ts:163-176 | an id is removed by a sync pass if and only if some entry carrying it got a successful reply |
| Delivery.Successes | formulario-contact/src/api/contactApi.ts:163-178 | a pass over n entries counts at most n successes |
| Delivery.AllFailedDeliversNothing | formulario-contact/src/api/contactApi.ts:179-182 | a pass whose every call fails removes no id and counts no success |
| Delivery.AllSucceededDeliversAll | formulario-contact/src/api/contactApi.ts:163-178 | a pass whose every call succeeds removes every id of its snapshot and counts one success per entry |
| Delivery.AllSucceededCounted | formulario-contact/src/api/contactApi.ts:177-178 | when every call succeeds, every call is counted as a success |
| Delivery.SyncRemovesOnlyRedelivered | formulario-contact/src/api/contactApi.ts:163-183 | a pass never removes an entry whose id is not in its snapshot, and no entry with a redelivered id survives it |
| Delivery.FailedPassRemovesNothing | formulario-contact/src/api/contactApi.ts:159-183 | a pass in which every call fails leaves the queue exactly as it was and counts nothing |
| ContactApi.PostStep | formulario-contact/src/api/contactApi.ts:119-128 | the POST after `attempt` failures is call `base + attempt`; it adds one copy of the request, one POST step to the trace and the call's duration |
| ContactApi.BackoffStep | formulario-contact/src/api/contactApi.ts:148-150 | the wait after failure n follows that failure's POST in the trace, is logged as a wait of 1000·n ms, and advances the clock by that much |
| ContactApi.SyncAdvance | formulario-contact/src/api/contactApi.ts:163-183 | one iteration of the sync loop extends the proved state of a pass over i entries to i+1 entries; a failed call changes nothing but the transport log, the trace and the clock |
| ContactApi.Browser.Post | formulario-contact/src/api/contactApi.ts:121-128 | a POST is settled by the next scripted reply, is appended to the log of sent requests and to the trace as a POST step, and advances the clock by its duration |
| ContactApi.Browser.Sleep | formulario-contact/src/api/contactApi.ts:150 | a wait is recorded in the log of waits and in the trace as a wait step, and advances the clock by its length |
| ContactApi.ContactApi.constructor | formulario-contact/src/api/contactApi.ts:24-29 | the counters start at zero |
| ContactApi.ContactApi.TrackMetric | formulario-contact/src/api/contactApi.ts:32-44 | the counters become `Track` of the old ones and are persisted; the queue slot is untouched |
| ContactApi.ContactApi.GetQueuedMessages | formulario-contact/src/api/contactApi.ts:70-78 | returns the stored queue, or `[]` when it is missing or corrupt |
| ContactApi.ContactApi.GetMetrics | formulario-contact/src/api/contactApi.ts:47-67 | the counters are reloaded when readable and `queuedItems` is set to the live queue length; the report carries them and `AvgLatency` of them |
| ContactApi.ContactApi.SaveToQueue | formulario-contact/src/api/contactApi.ts:81-94 | the stored queue becomes the old queue plus exactly one entry at the end, with the given id, data, key and the current time; `queuedItems` is the new length and the counters are persisted |
| ContactApi.ContactApi.RemoveFromQueue | formulario-contact/src/api/contactApi.ts:97-103 | the stored queue becomes the old one without the entries carrying the id; `queuedItems` is the new length and the counters are persisted |
| ContactApi.ContactApi.SendContactForm | formulario-contact/src/api/contactApi.ts:106-153 | the connectivity flag never changes. Offline: no call, no wait and no clock movement; one entry with the caller's key is appended; only `queuedItems` changes; the result is `Offline`. Online: the calls, waits and result are those of `Deliver`, and the trace is exactly `Tries` of the request: each backoff wait falls between two POSTs and none follows the last; on delivery the queue is unchanged and a success with the measured latency is recorded; on exhaustion one entry is appended and a failure is recorded |
| ContactApi.ContactApi.SyncOfflineQueue | formulario-contact/src/api/contactApi.ts:156-184 | the connectivity flag and the log of waits never change: a pass takes no backoff wait. Offline or with an empty queue, nothing changes. Otherwise the snapshot is replayed in order (the trace grows by exactly one POST per entry), and the queue becomes the snapshot without the ids redelivered. `success` rises by the number of successful calls while failures and latency stay as they were. A pass with no success changes no counter and no slot |

## Left out

- Concurrency is not modelled. Each call is atomic, and `sendContactForm` and `syncOfflineQueue` never interleave at their `await` points. The queue a pass reads is therefore the queue it writes back to.
- JSON serialisation is not modelled. A slot holds the decoded value, or `None` when it is missing or unparseable. A blob that parses to something other than an array of entries, and a partial counters object merged by `Object.assign`, are not modelled.
- Latencies and timestamps are whole milliseconds (`nat`), not floating point. One clock stands for both `performance.now` and `Date.now`.
- The id of a new queue entry comes from `crypto.randomUUID`; here it is a parameter of `SendContactForm` and `SaveToQueue`.
- The offline `Error` and its message are modelled only as the `Offline` outcome. A rethrown transport error is its message string.
- The transport is a script of replies. A call past the end of the script fails as a network error. HTTP status handling is folded into the reply's outcome.
- Console logging of caught errors is not modelled.
- Storage writes always succeed. In the source, a `localStorage.setItem` that throws (storage full or disabled) inside `trackMetric` on the success path (contactApi.ts:43, called at line 132) is caught by the retry loop's `catch` (line 138) after `success` was already raised. The POST is then sent again, and after the third try the `setItem` of `saveToQueue` (line 91) throws out of the `catch`. The model's storage slots are plain fields, so it cannot show this re-send, double count or error report.
- A corrupt stored metrics blob does not reset the counters to zero: `getMetrics` catches the parse error and keeps the in-memory counters (contactApi.ts:51-56), and `Telemetry.Restore` does the same.
- The React page, the form components, the stats panel, the bootstrapping code and the mock server are not part of this model.
