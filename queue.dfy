/** The persisted queue of deferred submissions: loading it from its storage
    slot, and removing entries by id the way `Array.prototype.filter` does. */
module Queue {
  import opened ContactTypes

  /** `getQueuedMessages`: the stored queue, or the empty queue when the slot is
      missing or its contents cannot be parsed. */
  function LoadQueue(slot: Option<seq<QueuedMessage>>): (q: seq<QueuedMessage>)
    ensures slot.None? ==> q == []
    ensures slot.Some? ==> q == slot.value
  {
    match slot
    case Some(s) => s
    case None => []
  }

  /** The ids present in a queue. */
  function Ids(q: seq<QueuedMessage>): set<string>
  {
    set e | e in q :: e.id
  }

  /** The entries of `q` whose id is not in `ids`, in their original order. */
  function Keep(q: seq<QueuedMessage>, ids: set<string>): (r: seq<QueuedMessage>)
    ensures |r| <= |q|
    ensures forall k :: 0 <= k < |r| ==> r[k].id !in ids
  {
    if q == [] then []
    else (if q[0].id in ids then [] else [q[0]]) + Keep(q[1..], ids)
  }

  /** `removeFromQueue`'s `queue.filter(msg => msg.id !== id)`. */
  function RemoveId(q: seq<QueuedMessage>, id: string): (r: seq<QueuedMessage>)
  {
    Keep(q, {id})
  }

  /** Keeping distributes over concatenation: the kept entries of a queue are the
      kept entries of its front followed by those of its back, so the relative
      order of the survivors is the order they had. */
  lemma {:induction false} KeepAppend(a: seq<QueuedMessage>, b: seq<QueuedMessage>, ids: set<string>)
    ensures Keep(a + b, ids) == Keep(a, ids) + Keep(b, ids)
    decreases |a|
  {
    if a == [] {
      assert a + b == b;
    } else {
      assert (a + b)[1..] == a[1..] + b;
      KeepAppend(a[1..], b, ids);
    }
  }

  /** An entry survives exactly when it was in the queue and its id is not removed. */
  lemma {:induction false} KeepMembers(q: seq<QueuedMessage>, ids: set<string>, e: QueuedMessage)
    ensures e in Keep(q, ids) <==> e in q && e.id !in ids
    decreases |q|
  {
    if q != [] {
      KeepMembers(q[1..], ids, e);
      assert e in q <==> e == q[0] || e in q[1..];
    }
  }

  /** Removal takes out every copy of a removed entry and keeps every copy of
      any other entry: nothing is duplicated, lost or invented. */
  lemma {:induction false} KeepCount(q: seq<QueuedMessage>, ids: set<string>, e: QueuedMessage)
    ensures multiset(Keep(q, ids))[e] == if e.id in ids then 0 else multiset(q)[e]
    decreases |q|
  {
    if q != [] {
      KeepCount(q[1..], ids, e);
      assert q == [q[0]] + q[1..];
      assert multiset(q) == multiset([q[0]]) + multiset(q[1..]);
    }
  }

  /** Removing nothing, or removing ids that no entry carries, leaves the queue as it was. */
  lemma {:induction false} KeepUntouched(q: seq<QueuedMessage>, ids: set<string>)
    requires forall k :: 0 <= k < |q| ==> q[k].id !in ids
    ensures Keep(q, ids) == q
    decreases |q|
  {
    if q != [] {
      KeepUntouched(q[1..], ids);
    }
  }

  /** Two removals in a row are one removal of both id sets; in particular a
      removal by id is idempotent. */
  lemma {:induction false} KeepTwice(q: seq<QueuedMessage>, a: set<string>, b: set<string>)
    ensures Keep(Keep(q, a), b) == Keep(q, a + b)
    decreases |q|
  {
    if q != [] {
      KeepTwice(q[1..], a, b);
      var head := if q[0].id in a then [] else [q[0]];
      KeepAppend(head, Keep(q[1..], a), b);
    }
  }
}
