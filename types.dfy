/** Values exchanged by the contact-form submission pipeline: the form payload,
    deferred queue entries, the metric counters, transport requests and replies,
    and the outcome of a submission. */
module ContactTypes {

  datatype Option<+T> = None | Some(value: T)

  /** The form payload; the pipeline carries it and never looks inside. */
  datatype FormData = FormData(name: string, email: string, subject: string, message: string)

  /** A deferred submission, as stored in the persisted queue. */
  datatype QueuedMessage = QueuedMessage(id: string, data: FormData, idempotencyKey: string, timestamp: nat)

  /** The module-level counters. `queuedItems` is a cached copy of the queue length. */
  datatype Metrics = Metrics(success: nat, failures: nat, totalLatency: nat, queuedItems: nat)

  /** What `getMetrics` hands to its caller: the counters plus the average latency. */
  datatype Snapshot = Snapshot(success: nat, failures: nat, totalLatency: nat, queuedItems: nat, avgLatency: real)

  /** One POST to the contact endpoint. The idempotency key travels both in the
      body and in the X-Idempotency-Key header; both copies are the same value. */
  datatype Request = Request(data: FormData, idempotencyKey: string)

  /** How the transport settles one POST: a response body, or the error axios throws
      (a network failure or a status of 400 or more). */
  datatype Outcome = Ok(body: string) | Err(error: string)

  /** One scripted transport reply: its outcome and the milliseconds it took. */
  datatype Reply = Reply(outcome: Outcome, took: nat)

  /** The transport's replies, scripted in call order: the reply to call `n`.
      A call past the end of the script fails as a network error would. */
  function ReplyAt(script: seq<Reply>, n: nat): Reply
  {
    if n < |script| then script[n] else Reply(Err("Network Error"), 0)
  }

  /** One step the pipeline takes outside itself, in the order taken: a POST of a
      request, or a wait of some milliseconds. */
  datatype Step = Call(req: Request) | Wait(ms: nat)

  /** How `sendContactForm` settles: the response body, the offline fast-fail,
      or the last transport error once every attempt failed. */
  datatype SendOutcome = Delivered(body: string) | Offline | Exhausted(error: string)
}
