/**
 * Persistence and dispatch of the Redis-list variant. Each processor has a timeline
 * (a sorted set of `amount:correlationId` members scored by request time) and a
 * stats hash of two counters, `count` and `total`. `send` posts a payment to a
 * processor, saves it on success and, on failure, asks the in-process breaker what
 * to do: drop, requeue at the head of the queue, or try the same processor again.
 *
 * JSON parsing is the abstract `parse`; what the processor, the breaker and the
 * store answer are inputs.
 */
module PaymentRepository {
  import opened CircuitBreakerTypes
  import opened RedisStore
  import opened DecimalText
  import opened PaymentData
  import opened InMemoryQueue

  const PROCESSED_PAYMENTS_PREFIX := "processed:payments"

  function TimelineKey(p: Processor): string {
    PROCESSED_PAYMENTS_PREFIX + ":" + ProcessorName(p) + ":timeline"
  }

  function StatsKey(p: Processor): string {
    PROCESSED_PAYMENTS_PREFIX + ":" + ProcessorName(p) + ":stats"
  }

  /** The four store keys are pairwise distinct, so the processors never share data. */
  lemma KeysAreDistinct(p: Processor, q: Processor)
    ensures TimelineKey(p) != StatsKey(q)
    ensures TimelineKey(p) == TimelineKey(q) ==> p == q
    ensures StatsKey(p) == StatsKey(q) ==> p == q
  {
    var n := |PROCESSED_PAYMENTS_PREFIX| + 1;
    assert TimelineKey(p)[|TimelineKey(p)| - 1] == 'e';
    assert StatsKey(q)[|StatsKey(q)| - 1] == 's';
    if p != q {
      assert TimelineKey(p)[n] != TimelineKey(q)[n];
      assert StatsKey(p)[n] != StatsKey(q)[n];
    }
  }

  /** The text `newPayment` writes in place of the closing brace. */
  function RequestedAtField(requestedAt: string): string {
    ",\"requestedAt\":\"" + requestedAt + "\"}"
  }

  /**
   * `newPayment`: the serialized payment without its last character (JavaScript's
   * `slice(0, -1)`, which leaves an empty text empty), followed by the
   * `requestedAt` field and a closing brace.
   */
  function NewPayment(stringifiedData: string, requestedAt: string): (r: string)
    ensures |r| == (if stringifiedData == [] then 0 else |stringifiedData| - 1) + |RequestedAtField(requestedAt)|
    ensures stringifiedData != [] ==> r[..|stringifiedData| - 1] == stringifiedData[..|stringifiedData| - 1]
    ensures r[|r| - |RequestedAtField(requestedAt)|..] == RequestedAtField(requestedAt)
    ensures r[|r| - 1] == '}'
  {
    var kept := if stringifiedData == [] then [] else stringifiedData[..|stringifiedData| - 1];
    var r := kept + RequestedAtField(requestedAt);
    assert r[|kept|..] == RequestedAtField(requestedAt);
    r
  }

  /** On the text of an object, `newPayment` adds `requestedAt` as its last field. */
  lemma NewPaymentAddsLastField(fields: string, requestedAt: string)
    ensures NewPayment("{" + fields + "}", requestedAt) ==
            "{" + fields + ",\"requestedAt\":\"" + requestedAt + "\"}"
  {
    var s := "{" + fields + "}";
    assert s[..|s| - 1] == "{" + fields;
  }

  /** A timeline member: the amount's text, a colon, the correlation id. */
  function Member(amount: int, correlationId: string): string {
    IntToString(amount) + ":" + correlationId
  }

  /** `split(':')[0]`: the text before the first colon, or all of it without one. */
  function BeforeFirstColon(m: string): (r: string)
    ensures r <= m
    ensures ':' !in r
    ensures |r| < |m| ==> m[|r|] == ':'
  {
    if m == [] then []
    else if m[0] == ':' then []
    else [m[0]] + BeforeFirstColon(m[1..])
  }

  lemma {:induction false} BeforeFirstColonOfJoin(a: string, rest: string)
    requires ':' !in a
    ensures BeforeFirstColon(a + ":" + rest) == a
  {
    if a != [] {
      assert (a + ":" + rest)[1..] == a[1..] + ":" + rest;
      BeforeFirstColonOfJoin(a[1..], rest);
      assert [a[0]] + a[1..] == a;
    }
  }

  /** The amount `find` reads back from a member. */
  function MemberAmount(m: string): int {
    ParseInt(BeforeFirstColon(m))
  }

  /** Reading a member back gives the amount it was written with, whatever the id. */
  lemma MemberRoundTrip(amount: int, correlationId: string)
    ensures MemberAmount(Member(amount, correlationId)) == amount
  {
    BeforeFirstColonOfJoin(IntToString(amount), correlationId);
    ParseIntOfIntToString(amount);
  }

  /** Two saves share a member only when both the amount and the id agree. */
  lemma MemberInjective(a: int, i: string, b: int, j: string)
    requires Member(a, i) == Member(b, j)
    ensures a == b && i == j
  {
    MemberRoundTrip(a, i);
    MemberRoundTrip(b, j);
    var n := |IntToString(a)|;
    assert IntToString(a) == IntToString(b) by {
      BeforeFirstColonOfJoin(IntToString(a), i);
      BeforeFirstColonOfJoin(IntToString(b), j);
    }
    assert i == Member(a, i)[n + 1..];
    assert j == Member(b, j)[n + 1..];
  }

  /** The `reduce` of `find`: the amounts of the members, added left to right. */
  function SumAmounts(z: seq<Entry>): int {
    if z == [] then 0 else SumAmounts(z[..|z| - 1]) + MemberAmount(z[|z| - 1].member)
  }

  lemma SumAmountsAppend(z: seq<Entry>, e: Entry)
    ensures SumAmounts(z + [e]) == SumAmounts(z) + MemberAmount(e.member)
  {
    assert (z + [e])[..|z|] == z;
  }

  /**
   * `find` over one processor's timeline and stats hash. `ok` says whether the
   * store answered in time. Without bounds it reads the counters (a missing
   * field is 0); with either bound it counts and adds up the members scored in
   * [fromTime or 0, toTime or +inf]. An empty range and an error give zeros.
   */
  function Find(timeline: seq<Entry>, stats: map<string, int>, fromTime: Option<int>, toTime: Option<int>, ok: bool)
    : (s: Summary)
    ensures !ok ==> s == ZERO_SUMMARY
    ensures ok && fromTime.None? && toTime.None? ==> s == Summary(HGet(stats, "count"), HGet(stats, "total"))
    ensures ok && (fromTime.Some? || toTime.Some?) ==>
              s.totalRequests == |RangeByScore(timeline, fromTime.GetOr(0), toTime)|
    ensures ok && (fromTime.Some? || toTime.Some?) && RangeByScore(timeline, fromTime.GetOr(0), toTime) == [] ==>
              s == ZERO_SUMMARY
  {
    if !ok then ZERO_SUMMARY
    else if fromTime.None? && toTime.None? then
      Summary(HGet(stats, "count"), HGet(stats, "total"))
    else
      var amounts := RangeByScore(timeline, fromTime.GetOr(0), toTime);
      if |amounts| == 0 then ZERO_SUMMARY
      else Summary(|amounts|, SumAmounts(amounts))
  }

  /** The two counter updates of `save`. */
  function SaveCounters(stats: map<string, int>, amount: int): (r: map<string, int>)
    ensures HGet(r, "count") == HGet(stats, "count") + 1
    ensures HGet(r, "total") == HGet(stats, "total") + amount
  {
    Increment(Increment(stats, "count", 1), "total", amount)
  }

  /** The counters agree with the timeline: one count and its amount per member. */
  predicate CountersMatch(timeline: seq<Entry>, stats: map<string, int>) {
    HGet(stats, "count") == |timeline| && HGet(stats, "total") == SumAmounts(timeline)
  }

  /** Saving a payment whose member is new keeps the counters in step with the timeline. */
  lemma FreshSaveKeepsCountersMatched(timeline: seq<Entry>, stats: map<string, int>, amount: int, id: string, ts: int)
    requires CountersMatch(timeline, stats)
    requires Member(amount, id) !in Members(timeline)
    ensures CountersMatch(AddIfAbsent(timeline, Member(amount, id), ts), SaveCounters(stats, amount))
  {
    SumAmountsAppend(timeline, Entry(Member(amount, id), ts));
    MemberRoundTrip(amount, id);
  }

  /**
   * Saving a member that is already there leaves the timeline as it is but still
   * counts it, so the counters no longer agree with the timeline.
   */
  lemma DuplicateSaveDesyncsCounters(timeline: seq<Entry>, stats: map<string, int>, amount: int, id: string, ts: int)
    requires CountersMatch(timeline, stats)
    requires Member(amount, id) in Members(timeline)
    ensures AddIfAbsent(timeline, Member(amount, id), ts) == timeline
    ensures !CountersMatch(AddIfAbsent(timeline, Member(amount, id), ts), SaveCounters(stats, amount))
  {
  }

  /** A bounded `find` over a timeline with one more entry at the end. */
  lemma BoundedFindOfAppend(timeline: seq<Entry>, stats: map<string, int>, stats': map<string, int>, e: Entry,
                            fromTime: Option<int>, toTime: Option<int>)
    requires fromTime.Some? || toTime.Some?
    ensures var before := Find(timeline, stats, fromTime, toTime, true);
            Find(timeline + [e], stats', fromTime, toTime, true) ==
            if InRange(e, fromTime.GetOr(0), toTime) then
              Summary(before.totalRequests + 1, before.totalAmount + MemberAmount(e.member))
            else before
  {
    var r := RangeByScore(timeline, fromTime.GetOr(0), toTime);
    RangeOfAppend(timeline, e, fromTime.GetOr(0), toTime);
    if InRange(e, fromTime.GetOr(0), toTime) {
      SumAmountsAppend(r, e);
      if r == [] {
        assert SumAmounts([e]) == MemberAmount(e.member) by {
          assert [e][..0] == [];
        }
      }
    } else {
      assert r + [] == r;
    }
  }

  /**
   * A bounded `find` after a save with a new member: one more request and its
   * amount when the request time lies in the range, no difference otherwise.
   */
  lemma BoundedFindSeesFreshSave(timeline: seq<Entry>, stats: map<string, int>, amount: int, id: string, ts: int,
                                 fromTime: Option<int>, toTime: Option<int>)
    requires Member(amount, id) !in Members(timeline)
    requires fromTime.Some? || toTime.Some?
    ensures var before := Find(timeline, stats, fromTime, toTime, true);
            var after := Find(AddIfAbsent(timeline, Member(amount, id), ts), SaveCounters(stats, amount), fromTime, toTime, true);
            if InRange(Entry(Member(amount, id), ts), fromTime.GetOr(0), toTime) then
              after == Summary(before.totalRequests + 1, before.totalAmount + amount)
            else after == before
  {
    var e := Entry(Member(amount, id), ts);
    assert AddIfAbsent(timeline, Member(amount, id), ts) == timeline + [e];
    BoundedFindOfAppend(timeline, stats, SaveCounters(stats, amount), e, fromTime, toTime);
    MemberRoundTrip(amount, id);
  }

  /**
   * While the counters agree with the timeline and no score is negative, reading
   * the counters answers what a scan of [0, +inf] would.
   */
  lemma UnboundedFindAgreesWithScan(timeline: seq<Entry>, stats: map<string, int>)
    requires CountersMatch(timeline, stats)
    requires forall i :: 0 <= i < |timeline| ==> 0 <= timeline[i].score
    ensures Find(timeline, stats, None, None, true) == Find(timeline, stats, Some(0), None, true)
  {
    RangeCoversAll(timeline, 0);
  }

  /** What one posting attempt of `send` met. */
  datatype Attempt =
    /** The processor answered with a 2xx `status`; `saveOk` is whether the save's pipeline ran. */
    | Responded(requestedAt: int, status: int, saveOk: bool)
    /** The post threw; `signalled` is what the breaker's `signal` answered, `requeueOk` whether a requeue reached the store. */
    | Threw(signalled: Option<Color>, requeueOk: bool)

  /** How a `send` ended. */
  datatype SendOutcome =
    | Unparsable                          // the data is not JSON; nothing is posted
    | Accepted(at: int, stored: bool)     // 200 or 201: saved when `stored`
    | Ignored(status: int)                // another 2xx status: nothing saved
    | Dropped                             // the breaker answered null
    | Requeued(stored: bool)              // the breaker answered RED: back at the head when `stored`
    | Unfinished                          // the given attempts ran out while still retrying

  /** An attempt after which `send` calls itself again: the breaker answered a color that is not RED. */
  predicate Retries(a: Attempt) {
    a.Threw? && a.signalled.Some? && a.signalled.value != Red
  }

  /** The attempt that ends `send`: the first one that is not a retry. */
  function FirstDecisive(attempts: seq<Attempt>): (k: Option<nat>)
    ensures k.Some? ==> k.value < |attempts| && !Retries(attempts[k.value])
    ensures k.Some? ==> forall j :: 0 <= j < k.value ==> Retries(attempts[j])
    ensures k.None? <==> forall j :: 0 <= j < |attempts| ==> Retries(attempts[j])
  {
    if attempts == [] then None
    else if !Retries(attempts[0]) then Some(0)
    else
      match FirstDecisive(attempts[1..])
      case None => None
      case Some(k) => Some(k + 1)
  }

  /** What an attempt that is not a retry makes of `send`. */
  function Conclusion(a: Attempt): (o: SendOutcome)
    requires !Retries(a)
    ensures o.Accepted? <==> a.Responded? && (a.status == 200 || a.status == 201)
    ensures o.Accepted? ==> o == Accepted(a.requestedAt, a.saveOk)
    ensures o.Requeued? <==> a.Threw? && a.signalled == Some(Red)
    ensures o.Requeued? ==> o.stored == a.requeueOk
    ensures o.Dropped? <==> a.Threw? && a.signalled.None?
    ensures !o.Unparsable? && !o.Unfinished?
  {
    match a
    case Responded(at, status, saveOk) =>
      if status == 200 || status == 201 then Accepted(at, saveOk) else Ignored(status)
    case Threw(signalled, requeueOk) =>
      if signalled.None? then Dropped else Requeued(requeueOk)
  }

  class Repository {
    const redis: Redis
    const queue: Queue<PaymentDto>
    const parse: string -> Option<PaymentDto>

    constructor (redis: Redis, queue: Queue<PaymentDto>, parse: string -> Option<PaymentDto>)
      ensures this.redis == redis && this.queue == queue && this.parse == parse
    {
      this.redis := redis;
      this.queue := queue;
      this.parse := parse;
    }

    /**
     * `save`, when its pipeline runs (`ok`): the member is added to the timeline
     * only if absent, and both counters are incremented either way.
     */
    method Save(p: Processor, amount: int, correlationId: string, timestamp: int, ok: bool)
      modifies redis`zsets, redis`hashes
      ensures ok ==> redis.zsets == old(redis.zsets)[TimelineKey(p) :=
                AddIfAbsent(old(redis.SortedSet(TimelineKey(p))), Member(amount, correlationId), timestamp)]
      ensures ok ==> redis.hashes == old(redis.hashes)[StatsKey(p) :=
                SaveCounters(old(redis.Hash(StatsKey(p))), amount)]
      ensures !ok ==> redis.zsets == old(redis.zsets) && redis.hashes == old(redis.hashes)
    {
      if !ok {
        return;
      }
      var timelineKey := TimelineKey(p);
      var statsKey := StatsKey(p);
      redis.ZAddNX(timelineKey, timestamp, Member(amount, correlationId));
      redis.HIncrBy(statsKey, "count", 1);
      redis.HIncrBy(statsKey, "total", amount);
    }

    /** `find` against this store. */
    function FindStored(p: Processor, fromTime: Option<int>, toTime: Option<int>, ok: bool): (s: Summary)
      reads this, redis
      ensures !ok ==> s == ZERO_SUMMARY
      ensures ok && fromTime.None? && toTime.None? ==>
                s == Summary(HGet(redis.Hash(StatsKey(p)), "count"), HGet(redis.Hash(StatsKey(p)), "total"))
      ensures ok && (fromTime.Some? || toTime.Some?) ==>
                s.totalRequests == |RangeByScore(redis.SortedSet(TimelineKey(p)), fromTime.GetOr(0), toTime)|
    {
      Find(redis.SortedSet(TimelineKey(p)), redis.Hash(StatsKey(p)), fromTime, toTime, ok)
    }

    /**
     * `send(processorType, data)` over the answers `attempts` its successive
     * calls meet. Every retry goes to the same processor; the first attempt that
     * is not a retry decides the outcome; only that attempt touches the store.
     */
    method Send(p: Processor, data: string, attempts: seq<Attempt>) returns (outcome: SendOutcome)
      modifies redis`zsets, redis`hashes, queue.redis`lists
      decreases |attempts|
      ensures parse(data).None? ==> outcome == Unparsable
      ensures parse(data).Some? ==>
                var k := FirstDecisive(attempts);
                && (k.None? ==> outcome == Unfinished)
                && (k.Some? ==> outcome == Conclusion(attempts[k.value]))
      ensures outcome.Accepted? && outcome.stored ==>
                var payment := parse(data).value;
                && redis.zsets == old(redis.zsets)[TimelineKey(p) :=
                     AddIfAbsent(old(redis.SortedSet(TimelineKey(p))), Member(payment.amount, payment.correlationId), outcome.at)]
                && redis.hashes == old(redis.hashes)[StatsKey(p) :=
                     SaveCounters(old(redis.Hash(StatsKey(p))), payment.amount)]
                && queue.redis.lists == old(queue.redis.lists)
      ensures outcome.Requeued? && outcome.stored ==>
                && queue.Items() == [data] + old(queue.Items())
                && (forall key :: key != queue.queueKey ==> queue.redis.List(key) == old(queue.redis.List(key)))
                && redis.zsets == old(redis.zsets) && redis.hashes == old(redis.hashes)
      ensures !(outcome.Accepted? && outcome.stored) && !(outcome.Requeued? && outcome.stored) ==>
                && redis.zsets == old(redis.zsets) && redis.hashes == old(redis.hashes)
                && queue.redis.lists == old(queue.redis.lists)
    {
      var payment := parse(data);
      if payment.None? {
        return Unparsable;
      }
      if attempts == [] {
        return Unfinished;
      }
      match attempts[0]
      case Responded(requestedAt, status, saveOk) =>
        if status == 200 || status == 201 {
          Save(p, payment.value.amount, payment.value.correlationId, requestedAt, saveOk);
          outcome := Accepted(requestedAt, saveOk);
        } else {
          outcome := Ignored(status);
        }
      case Threw(signalled, requeueOk) =>
        if signalled.None? {
          return Dropped;
        }
        if signalled.value == Red {
          queue.Requeue(data, requeueOk);
          return Requeued(requeueOk);
        }
        outcome := Send(p, data, attempts[1..]);
    }
  }

  /** `send` saves only after a 200 or 201 answer, under that attempt's request time. */
  lemma SendSavesOnlyOnSuccess(attempts: seq<Attempt>)
    requires FirstDecisive(attempts).Some?
    requires Conclusion(attempts[FirstDecisive(attempts).value]).Accepted?
    ensures exists k :: 0 <= k < |attempts| && attempts[k].Responded? &&
              (attempts[k].status == 200 || attempts[k].status == 201) &&
              Conclusion(attempts[FirstDecisive(attempts).value]).at == attempts[k].requestedAt
  {
    var k := FirstDecisive(attempts).value;
    assert attempts[k].Responded?;
  }
}
