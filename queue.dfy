/**
 * The payment queue of the Redis-list variant: one store list, producers append
 * serialized items at the tail, a failed dispatch pushes its original text back at
 * the head, and the consumer takes items from the head. Serialization is the
 * abstract `stringify`; whether a store call succeeds is an input (a failed call
 * is only logged).
 */
module InMemoryQueue {
  import opened CircuitBreakerTypes
  import opened RedisStore

  class Queue<T> {
    const redis: Redis
    const queueKey: string
    const stringify: T -> string

    constructor (redis: Redis, queueKey: string, stringify: T -> string)
      ensures this.redis == redis && this.queueKey == queueKey && this.stringify == stringify
    {
      this.redis := redis;
      this.queueKey := queueKey;
      this.stringify := stringify;
    }

    /** The queued texts, head first. */
    function Items(): seq<string>
      reads this, redis
    {
      redis.List(queueKey)
    }

    /** `add`: the serialized item goes to the tail; the items already queued stay as they are. */
    method Add(item: T, ok: bool)
      modifies redis`lists
      ensures ok ==> Items() == old(Items()) + [stringify(item)]
      ensures ok ==> forall k :: k != queueKey ==> redis.List(k) == old(redis.List(k))
      ensures !ok ==> redis.lists == old(redis.lists)
    {
      if ok {
        redis.RPush(queueKey, stringify(item));
      }
    }

    /** `requeue`: the text goes back to the head exactly as it was, without serializing again. */
    method Requeue(item: string, ok: bool)
      modifies redis`lists
      ensures ok ==> Items() == [item] + old(Items())
      ensures ok ==> forall k :: k != queueKey ==> redis.List(k) == old(redis.List(k))
      ensures !ok ==> redis.lists == old(redis.lists)
    {
      if ok {
        redis.LPush(queueKey, item);
      }
    }

    /** The consumer's pop (BLPOP without the wait): the head item, if any. */
    method Take() returns (item: Option<string>)
      modifies redis`lists
      ensures old(Items()) == [] ==> item == None && Items() == []
      ensures old(Items()) != [] ==> item == Some(old(Items())[0]) && Items() == old(Items())[1..]
      ensures forall k :: k != queueKey ==> redis.List(k) == old(redis.List(k))
    {
      item := redis.LPop(queueKey);
    }
  }

  /** A history of queue operations on the texts, as the three methods above apply them. */
  datatype QueueOp = Push(text: string) | PushFront(text: string) | Pop

  /** One operation: the new list and what it hands to the consumer. */
  function Step(l: seq<string>, op: QueueOp): (r: (seq<string>, seq<string>))
    ensures op.Push? ==> r == (l + [op.text], [])
    ensures op.PushFront? ==> r == ([op.text] + l, [])
    ensures op.Pop? ==> r.1 + r.0 == l && |r.1| == (if l == [] then 0 else 1)
  {
    match op
    case Push(s) => (l + [s], [])
    case PushFront(s) => ([s] + l, [])
    case Pop => if l == [] then ([], []) else (l[1..], [l[0]])
  }

  /** Runs a history from `l`: the final list and every text consumed, in order. */
  function Run(l: seq<string>, ops: seq<QueueOp>): (seq<string>, seq<string>)
    decreases |ops|
  {
    if ops == [] then (l, [])
    else
      var step := Step(l, ops[0]);
      var rest := Run(step.0, ops[1..]);
      (rest.0, step.1 + rest.1)
  }

  /** The texts a history appends at the tail, in order. */
  function Pushed(ops: seq<QueueOp>): seq<string> {
    if ops == [] then []
    else (if ops[0].Push? then [ops[0].text] else []) + Pushed(ops[1..])
  }

  predicate NoRequeue(ops: seq<QueueOp>) {
    forall i :: 0 <= i < |ops| ==> !ops[i].PushFront?
  }

  /**
   * First in, first out: without requeues, what is consumed followed by what is
   * left is exactly the initial list followed by the added texts, in add order.
   */
  lemma {:induction false} ConsumedInAddOrder(l: seq<string>, ops: seq<QueueOp>)
    requires NoRequeue(ops)
    ensures Run(l, ops).1 + Run(l, ops).0 == l + Pushed(ops)
    decreases |ops|
  {
    if ops != [] {
      var step := Step(l, ops[0]);
      var rest := Run(step.0, ops[1..]);
      assert NoRequeue(ops[1..]) by {
        forall i | 0 <= i < |ops[1..]| ensures !ops[1..][i].PushFront? {
          assert ops[1..][i] == ops[i + 1];
        }
      }
      ConsumedInAddOrder(step.0, ops[1..]);
      assert rest.1 + rest.0 == step.0 + Pushed(ops[1..]);
      if ops[0].Push? {
        PushCase(l, ops[0].text, rest.1, rest.0, Pushed(ops[1..]));
      } else {
        PopCase(l, step.0, step.1, rest.1, rest.0, Pushed(ops[1..]));
      }
    }
  }

  lemma PushCase(l: seq<string>, t: string, consumed: seq<string>, final: seq<string>, pushed: seq<string>)
    requires consumed + final == (l + [t]) + pushed
    ensures ([] + consumed) + final == l + ([t] + pushed)
  {
    assert [] + consumed == consumed;
  }

  lemma PopCase(l: seq<string>, l': seq<string>, c: seq<string>, consumed: seq<string>, final: seq<string>, pushed: seq<string>)
    requires c + l' == l
    requires consumed + final == l' + pushed
    ensures (c + consumed) + final == l + pushed
  {
    assert (c + consumed) + final == c + (consumed + final);
    assert c + (l' + pushed) == (c + l') + pushed;
  }

  /**
   * A requeued text is consumed before everything that was queued when it was
   * requeued and everything added later: it heads the consumption order.
   */
  lemma RequeuedConsumedFirst(l: seq<string>, s: string, ops: seq<QueueOp>)
    requires NoRequeue(ops)
    ensures Run(Step(l, PushFront(s)).0, ops).1 + Run(Step(l, PushFront(s)).0, ops).0 == [s] + l + Pushed(ops)
  {
    ConsumedInAddOrder([s] + l, ops);
  }

  /** Without any requeue, the first text consumed is the oldest one queued. */
  lemma FirstConsumedIsOldest(l: seq<string>, ops: seq<QueueOp>)
    requires NoRequeue(ops)
    requires l != [] && Run(l, ops).1 != []
    ensures Run(l, ops).1[0] == l[0]
  {
    ConsumedInAddOrder(l, ops);
    assert (Run(l, ops).1 + Run(l, ops).0)[0] == Run(l, ops).1[0];
  }
}
