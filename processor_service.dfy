/**
 * Dispatch and batched persistence of the BullMQ variant. A payment answered with
 * 200 is buffered; the buffer is written to the processors' timelines in one
 * pipeline when it reaches BATCH_SIZE entries or when the single batch timer fires.
 * Statistics are read back by parsing the stored records.
 *
 * The clock, the processor's answer, whether a pipeline runs and the JSON codec
 * (`stringify`, `parse`) are inputs.
 */
module ProcessorService {
  import opened CircuitBreakerTypes
  import opened RedisStore
  import opened PaymentData

  const PROCESSED_PAYMENTS_PREFIX := "processed:payments"
  const BATCH_SIZE := 100
  const BATCH_TIMEOUT := 1000

  function TimelineKey(p: Processor): string {
    PROCESSED_PAYMENTS_PREFIX + ":" + ProcessorName(p) + ":timeline"
  }

  /** An entry of `pendingPayments`; `requestedAt` is the request time in ms. */
  datatype PendingPayment = PendingPayment(processor: Processor, amount: int, requestedAt: int, correlationId: string)

  /** The record stored for a payment; `timestamp` is its request time read back as a number. */
  datatype PaymentRecord = PaymentRecord(
    amount: int, requestedAt: int, processor: Processor, timestamp: int, correlationId: string)

  function RecordOf(p: PendingPayment): PaymentRecord {
    PaymentRecord(p.amount, p.requestedAt, p.processor, p.requestedAt, p.correlationId)
  }

  /** One `zadd` queued on the pipeline. */
  datatype ZAddCommand = ZAddCommand(key: string, score: int, member: string)

  /** The command `flushBatch` queues for one buffered payment. */
  function CommandFor(stringify: PaymentRecord -> string, p: PendingPayment): (c: ZAddCommand)
    ensures c.key == TimelineKey(p.processor) && c.score == p.requestedAt
    ensures c.member == stringify(RecordOf(p))
  {
    ZAddCommand(TimelineKey(p.processor), p.requestedAt, stringify(RecordOf(p)))
  }

  /** The commands of a batch: one per buffered payment, in buffer order. */
  function BatchCommands(stringify: PaymentRecord -> string, batch: seq<PendingPayment>): (cs: seq<ZAddCommand>)
    ensures |cs| == |batch|
    ensures forall i :: 0 <= i < |batch| ==> cs[i] == CommandFor(stringify, batch[i])
  {
    seq(|batch|, i requires 0 <= i < |batch| => CommandFor(stringify, batch[i]))
  }

  /** The sorted sets after a pipeline of `zadd` commands ran in order. */
  function ApplyZAdds(zsets: map<string, seq<Entry>>, cs: seq<ZAddCommand>): map<string, seq<Entry>> {
    if cs == [] then zsets
    else
      var before := ApplyZAdds(zsets, cs[..|cs| - 1]);
      var c := cs[|cs| - 1];
      before[c.key := AddOrUpdate(SortedSetIn(before, c.key), c.member, c.score)]
  }

  /**
   * After a pipeline ran, every member it added is in its key's set, every member
   * that was there before still is, and keys it did not name are unchanged.
   */
  lemma {:induction false} ApplyZAddsAdds(zsets: map<string, seq<Entry>>, cs: seq<ZAddCommand>)
    ensures forall i :: 0 <= i < |cs| ==> cs[i].member in Members(SortedSetIn(ApplyZAdds(zsets, cs), cs[i].key))
    ensures forall k :: Members(SortedSetIn(zsets, k)) <= Members(SortedSetIn(ApplyZAdds(zsets, cs), k))
    ensures forall k :: (forall i :: 0 <= i < |cs| ==> cs[i].key != k) ==>
              SortedSetIn(ApplyZAdds(zsets, cs), k) == SortedSetIn(zsets, k)
  {
    if cs != [] {
      var init := cs[..|cs| - 1];
      ApplyZAddsAdds(zsets, init);
      var before := ApplyZAdds(zsets, init);
      var c := cs[|cs| - 1];
      var after := ApplyZAdds(zsets, cs);
      assert after == before[c.key := AddOrUpdate(SortedSetIn(before, c.key), c.member, c.score)];
      forall k ensures Members(SortedSetIn(before, k)) <= Members(SortedSetIn(after, k)) {
      }
      forall i | 0 <= i < |cs| ensures cs[i].member in Members(SortedSetIn(after, cs[i].key)) {
        if i < |cs| - 1 {
          assert cs[i] == init[i];
        }
      }
      forall k | forall i :: 0 <= i < |cs| ==> cs[i].key != k
        ensures SortedSetIn(after, k) == SortedSetIn(zsets, k)
      {
        assert forall i :: 0 <= i < |init| ==> init[i].key != k by {
          forall i | 0 <= i < |init| ensures init[i].key != k {
            assert init[i] == cs[i];
          }
        }
        assert c.key != k;
      }
    }
  }

  /**
   * A batch that was written leaves each of its records in its processor's
   * timeline, scored by its request time, and keeps every record already stored.
   */
  lemma FlushStoresEveryEntry(stringify: PaymentRecord -> string, zsets: map<string, seq<Entry>>,
                              batch: seq<PendingPayment>)
    ensures var after := ApplyZAdds(zsets, BatchCommands(stringify, batch));
            && (forall i :: 0 <= i < |batch| ==>
                  stringify(RecordOf(batch[i])) in Members(SortedSetIn(after, TimelineKey(batch[i].processor))))
            && (forall k :: Members(SortedSetIn(zsets, k)) <= Members(SortedSetIn(after, k)))
  {
    var cs := BatchCommands(stringify, batch);
    ApplyZAddsAdds(zsets, cs);
    forall i | 0 <= i < |batch|
      ensures stringify(RecordOf(batch[i])) in Members(SortedSetIn(ApplyZAdds(zsets, cs), TimelineKey(batch[i].processor)))
    {
      assert cs[i] == CommandFor(stringify, batch[i]);
    }
  }

  /** `pipeline.exec()` of a pipeline of `zadd` commands that runs: each command, in order. */
  method Exec(redis: Redis, pipeline: seq<ZAddCommand>)
    modifies redis`zsets
    ensures redis.zsets == ApplyZAdds(old(redis.zsets), pipeline)
  {
    for i := 0 to |pipeline|
      invariant redis.zsets == ApplyZAdds(old(redis.zsets), pipeline[..i])
    {
      assert pipeline[..i + 1][..i] == pipeline[..i];
      redis.ZAdd(pipeline[i].key, pipeline[i].score, pipeline[i].member);
    }
    assert pipeline[..|pipeline|] == pipeline;
  }

  /** What a call of the processor met. */
  datatype PostResult =
    /** The processor answered (any 2xx status). */
    | Answered(status: int)
    /** The call failed; `status` is the error response's status, if there was one. */
    | Failed(errorStatus: Option<int>)

  /** The records that parse, in order; unparseable ones are left out. */
  function ParsedRecords(parse: string -> Option<PaymentRecord>, entries: seq<Entry>): (rs: seq<PaymentRecord>)
    ensures |rs| <= |entries|
    ensures forall r :: r in rs <==> exists i :: 0 <= i < |entries| && parse(entries[i].member) == Some(r)
    ensures (forall i :: 0 <= i < |entries| ==> parse(entries[i].member).Some?) ==>
              && |rs| == |entries|
              && forall i :: 0 <= i < |entries| ==> Some(rs[i]) == parse(entries[i].member)
  {
    if entries == [] then []
    else
      var rest := ParsedRecords(parse, entries[..|entries| - 1]);
      match parse(entries[|entries| - 1].member)
      case Some(r) => rest + [r]
      case None => rest
  }

  function SumRecordAmounts(rs: seq<PaymentRecord>): int {
    if rs == [] then 0 else SumRecordAmounts(rs[..|rs| - 1]) + rs[|rs| - 1].amount
  }

  /** Parsing keeps the order of the entries: the records of two runs are those of each, in turn. */
  lemma {:induction false} ParsedRecordsConcat(parse: string -> Option<PaymentRecord>, a: seq<Entry>, b: seq<Entry>)
    ensures ParsedRecords(parse, a + b) == ParsedRecords(parse, a) + ParsedRecords(parse, b)
    decreases |b|
  {
    if b == [] {
      assert a + b == a;
    } else {
      var init := b[..|b| - 1];
      assert (a + b)[..|a + b| - 1] == a + init;
      assert (a + b)[|a + b| - 1] == b[|b| - 1];
      ParsedRecordsConcat(parse, a, init);
    }
  }

  /** The entries `getProcessedPaymentStats` reads: all of them without bounds, the range with either. */
  function Scanned(timeline: seq<Entry>, fromTime: Option<int>, toTime: Option<int>): seq<Entry> {
    if fromTime.Some? || toTime.Some? then RangeByScore(timeline, fromTime.GetOr(0), toTime) else timeline
  }

  /**
   * `getProcessedPaymentStats` over one timeline: every record without bounds,
   * the records scored in [fromTime or 0, toTime or +inf] with either bound; the
   * count and the amount sum of those that parse. An empty answer and an error
   * (`ok` false) give zeros.
   */
  function ProcessedPaymentStats(parse: string -> Option<PaymentRecord>, timeline: seq<Entry>,
                                 fromTime: Option<int>, toTime: Option<int>, ok: bool): (s: Summary)
    ensures !ok ==> s == ZERO_SUMMARY
    ensures ok && fromTime.None? && toTime.None? ==> 0 <= s.totalRequests <= |timeline|
    ensures ok && (fromTime.Some? || toTime.Some?) ==>
              0 <= s.totalRequests <= |RangeByScore(timeline, fromTime.GetOr(0), toTime)|
    ensures ok && (forall i :: 0 <= i < |timeline| ==> parse(timeline[i].member).Some?) ==>
              (fromTime.None? && toTime.None? ==> s.totalRequests == |timeline|)
    ensures ok ==> var records := ParsedRecords(parse, Scanned(timeline, fromTime, toTime));
                   s == Summary(|records|, SumRecordAmounts(records))
    ensures ok && Scanned(timeline, fromTime, toTime) == [] ==> s == ZERO_SUMMARY
  {
    if !ok then ZERO_SUMMARY
    else
      var paymentList := Scanned(timeline, fromTime, toTime);
      if |paymentList| == 0 then ZERO_SUMMARY
      else
        var payments := ParsedRecords(parse, paymentList);
        Summary(|payments|, SumRecordAmounts(payments))
  }

  /**
   * A record whose text parses back to itself, added to a timeline that did not
   * hold that text, counts once more and adds its amount to the unbounded stats.
   */
  lemma StatsCountAddedRecord(parse: string -> Option<PaymentRecord>, stringify: PaymentRecord -> string,
                              timeline: seq<Entry>, r: PaymentRecord, score: int)
    requires parse(stringify(r)) == Some(r)
    requires stringify(r) !in Members(timeline)
    ensures var before := ProcessedPaymentStats(parse, timeline, None, None, true);
            ProcessedPaymentStats(parse, AddOrUpdate(timeline, stringify(r), score), None, None, true) ==
            Summary(before.totalRequests + 1, before.totalAmount + r.amount)
  {
    var e := Entry(stringify(r), score);
    assert AddOrUpdate(timeline, stringify(r), score) == timeline + [e];
    assert Scanned(timeline + [e], None, None) == timeline + [e];
    ParsedRecordsOfAppend(parse, timeline, e, r);
  }


  /**
   * The bounded analogue: a record whose text parses back to itself, added to a
   * timeline that did not hold that text, counts once more and adds its amount
   * exactly when its score lies in [fromTime or 0, toTime or +inf]; otherwise the
   * stats are unchanged.
   */
  lemma BoundedStatsCountAddedRecord(parse: string -> Option<PaymentRecord>, stringify: PaymentRecord -> string,
                                     timeline: seq<Entry>, r: PaymentRecord, score: int,
                                     fromTime: Option<int>, toTime: Option<int>)
    requires parse(stringify(r)) == Some(r)
    requires stringify(r) !in Members(timeline)
    requires fromTime.Some? || toTime.Some?
    ensures var before := ProcessedPaymentStats(parse, timeline, fromTime, toTime, true);
            var after := ProcessedPaymentStats(parse, AddOrUpdate(timeline, stringify(r), score), fromTime, toTime, true);
            if InRange(Entry(stringify(r), score), fromTime.GetOr(0), toTime) then
              after == Summary(before.totalRequests + 1, before.totalAmount + r.amount)
            else after == before
  {
    var e := Entry(stringify(r), score);
    var lo := fromTime.GetOr(0);
    assert AddOrUpdate(timeline, stringify(r), score) == timeline + [e];
    RangeOfAppend(timeline, e, lo, toTime);
    var range := RangeByScore(timeline, lo, toTime);
    if InRange(e, lo, toTime) {
      assert Scanned(timeline + [e], fromTime, toTime) == range + [e];
      ParsedRecordsOfAppend(parse, range, e, r);
    } else {
      assert Scanned(timeline + [e], fromTime, toTime) == range;
    }
  }

  /** One more entry that parses to `r`: one more record, and `r`'s amount more in the sum. */
  lemma ParsedRecordsOfAppend(parse: string -> Option<PaymentRecord>, entries: seq<Entry>, e: Entry, r: PaymentRecord)
    requires parse(e.member) == Some(r)
    ensures ParsedRecords(parse, entries + [e]) == ParsedRecords(parse, entries) + [r]
    ensures SumRecordAmounts(ParsedRecords(parse, entries) + [r]) == SumRecordAmounts(ParsedRecords(parse, entries)) + r.amount
  {
    assert (entries + [e])[..|entries|] == entries;
    var ps := ParsedRecords(parse, entries);
    assert (ps + [r])[..|ps|] == ps;
  }

  /**
   * The persistence step of one buffered payment, from the buffer and sorted sets
   * before to those after: the entry is appended; a buffer that reaches
   * BATCH_SIZE is flushed at once, and its pipeline writes every entry when it
   * runs (`flushOk`) and nothing otherwise.
   */
  ghost predicate PersistEffect(stringify: PaymentRecord -> string,
                                before: seq<PendingPayment>, zBefore: map<string, seq<Entry>>,
                                entry: PendingPayment, flushOk: bool,
                                after: seq<PendingPayment>, zAfter: map<string, seq<Entry>>)
  {
    var entered := before + [entry];
    if |entered| >= BATCH_SIZE then
      after == [] && zAfter == (if flushOk then ApplyZAdds(zBefore, BatchCommands(stringify, entered)) else zBefore)
    else
      after == entered && zAfter == zBefore
  }

  class Service {
    const redis: Redis
    const stringify: PaymentRecord -> string
    const parse: string -> Option<PaymentRecord>
    var pendingPayments: seq<PendingPayment>
    /** Whether `batchTimer` is set, and when it fires. */
    var batchTimer: bool
    var timerDeadline: int
    /** The processors whose failure was reported, oldest first. */
    var failureReports: seq<Processor>

    /** The buffer stays below BATCH_SIZE, and the timer is set exactly while it holds entries. */
    ghost predicate Valid()
      reads this
    {
      |pendingPayments| < BATCH_SIZE && (batchTimer <==> pendingPayments != [])
    }

    constructor (redis: Redis, stringify: PaymentRecord -> string, parse: string -> Option<PaymentRecord>)
      ensures Valid()
      ensures this.redis == redis && this.stringify == stringify && this.parse == parse
      ensures pendingPayments == [] && !batchTimer && failureReports == []
    {
      this.redis := redis;
      this.stringify := stringify;
      this.parse := parse;
      pendingPayments := [];
      batchTimer := false;
      timerDeadline := 0;
      failureReports := [];
    }

    /**
     * `flushBatch`: nothing for an empty buffer. Otherwise the buffer is taken and
     * emptied and the timer cleared, one `zadd` per taken entry is queued, and the
     * pipeline writes them all when it runs (`ok`); a failed batch is dropped.
     */
    method FlushBatch(ok: bool)
      modifies this`pendingPayments, this`batchTimer, redis`zsets
      ensures old(pendingPayments) == [] ==>
                pendingPayments == [] && batchTimer == old(batchTimer) && redis.zsets == old(redis.zsets)
      ensures old(pendingPayments) != [] ==>
                && pendingPayments == [] && !batchTimer
                && redis.zsets == if ok then ApplyZAdds(old(redis.zsets), BatchCommands(stringify, old(pendingPayments)))
                                  else old(redis.zsets)
    {
      if |pendingPayments| == 0 {
        return;
      }
      var paymentsToProcess := pendingPayments;
      pendingPayments := [];
      if batchTimer {
        batchTimer := false;
      }
      var pipeline: seq<ZAddCommand> := [];
      for i := 0 to |paymentsToProcess|
        invariant |pipeline| == i
        invariant forall j :: 0 <= j < i ==> pipeline[j] == CommandFor(stringify, paymentsToProcess[j])
      {
        var payment := paymentsToProcess[i];
        var paymentRecord := RecordOf(payment);
        pipeline := pipeline + [ZAddCommand(TimelineKey(payment.processor), payment.requestedAt, stringify(paymentRecord))];
      }
      assert pipeline == BatchCommands(stringify, paymentsToProcess);
      if !ok {
        return;
      }
      Exec(redis, pipeline);
    }

    /**
     * `persistProcessedPaymentAsync` at clock reading `now`: a full buffer is
     * flushed at once; otherwise a timer is started only when none is set, and a
     * running timer keeps its deadline.
     */
    method PersistProcessedPaymentAsync(processor: Processor, amount: int, requestedAt: int, correlationId: string,
                                        now: int, flushOk: bool)
      requires Valid()
      modifies this`pendingPayments, this`batchTimer, this`timerDeadline, redis`zsets
      ensures Valid()
      ensures PersistEffect(stringify, old(pendingPayments), old(redis.zsets),
                            PendingPayment(processor, amount, requestedAt, correlationId), flushOk,
                            pendingPayments, redis.zsets)
      ensures batchTimer && old(batchTimer) ==> timerDeadline == old(timerDeadline)
      ensures batchTimer && !old(batchTimer) ==> timerDeadline == now + BATCH_TIMEOUT
    {
      pendingPayments := pendingPayments + [PendingPayment(processor, amount, requestedAt, correlationId)];
      if |pendingPayments| >= BATCH_SIZE {
        FlushBatch(flushOk);
      } else if !batchTimer {
        batchTimer := true;
        timerDeadline := now + BATCH_TIMEOUT;
      }
    }

    /** The batch timer fires: the buffer is flushed. */
    method TimerFires(ok: bool)
      requires Valid() && batchTimer
      modifies this`pendingPayments, this`batchTimer, redis`zsets
      ensures Valid() && pendingPayments == [] && !batchTimer
      ensures redis.zsets == if ok then ApplyZAdds(old(redis.zsets), BatchCommands(stringify, old(pendingPayments)))
                             else old(redis.zsets)
    {
      FlushBatch(ok);
    }

    /**
     * `processPayment` at clock reading `now`: an answer with status 200 persists
     * the payment with request time `now`; a failure whose response has status
     * 500 is reported against the processor; anything else has no effect.
     */
    method ProcessPayment(processor: Processor, data: PaymentDto, now: int, response: PostResult, flushOk: bool)
      requires Valid()
      modifies this`pendingPayments, this`batchTimer, this`timerDeadline, this`failureReports, redis`zsets
      ensures Valid()
      ensures response == Answered(200) ==>
                && PersistEffect(stringify, old(pendingPayments), old(redis.zsets),
                                 PendingPayment(processor, data.amount, now, data.correlationId), flushOk,
                                 pendingPayments, redis.zsets)
                && failureReports == old(failureReports)
      ensures response == Failed(Some(500)) ==>
                && failureReports == old(failureReports) + [processor]
                && pendingPayments == old(pendingPayments) && redis.zsets == old(redis.zsets)
      ensures response != Answered(200) && response != Failed(Some(500)) ==>
                && failureReports == old(failureReports)
                && pendingPayments == old(pendingPayments) && redis.zsets == old(redis.zsets)
    {
      var requestedAt := now;
      match response
      case Failed(status) =>
        if status == Some(500) {
          failureReports := failureReports + [processor];
        }
      case Answered(status) =>
        if status == 200 {
          PersistProcessedPaymentAsync(processor, data.amount, requestedAt, data.correlationId, now, flushOk);
        }
    }

    /** `onDestroy`: the timer is cleared and whatever is buffered is flushed. */
    method OnDestroy(ok: bool)
      modifies this`pendingPayments, this`batchTimer, redis`zsets
      ensures Valid() && pendingPayments == [] && !batchTimer
      ensures redis.zsets == if ok && old(pendingPayments) != []
                             then ApplyZAdds(old(redis.zsets), BatchCommands(stringify, old(pendingPayments)))
                             else old(redis.zsets)
    {
      if batchTimer {
        batchTimer := false;
      }
      FlushBatch(ok);
    }

    /** `getProcessedPaymentStats` against this store. */
    function GetProcessedPaymentStats(p: Processor, fromTime: Option<int>, toTime: Option<int>, ok: bool)
      : (s: Summary)
      reads this, redis
      ensures !ok ==> s == ZERO_SUMMARY
      ensures ok ==> var records := ParsedRecords(parse, Scanned(redis.SortedSet(TimelineKey(p)), fromTime, toTime));
                     s == Summary(|records|, SumRecordAmounts(records))
    {
      ProcessedPaymentStats(parse, redis.SortedSet(TimelineKey(p)), fromTime, toTime, ok)
    }

    /** `getPaymentSummary`: the stats of both processors over the same bounds. */
    function GetPaymentSummary(fromTime: Option<int>, toTime: Option<int>, defaultOk: bool, fallbackOk: bool)
      : (r: (Summary, Summary))
      reads this, redis
      ensures r.0 == GetProcessedPaymentStats(Default, fromTime, toTime, defaultOk)
      ensures r.1 == GetProcessedPaymentStats(Fallback, fromTime, toTime, fallbackOk)
      ensures !defaultOk ==> r.0 == ZERO_SUMMARY
      ensures !fallbackOk ==> r.1 == ZERO_SUMMARY
    {
      (GetProcessedPaymentStats(Default, fromTime, toTime, defaultOk),
       GetProcessedPaymentStats(Fallback, fromTime, toTime, fallbackOk))
    }
  }
}
