# Circuit-breaker routing engine of the rinha payment router, in Dafny

This project models the routing engine of a payment router. The router takes
payment requests and sends each one to one of two downstream processors,
"default" and "fallback". A circuit breaker decides where each payment goes:

- GREEN routes to default.
- YELLOW routes to fallback.
- RED routes to neither; the payment goes back on the queue.

The repository contains two variants of the engine. They live side by side, and
each is its own set of modules here.

**Redis-list variant**

- `CircuitBreakerService` is the in-process breaker. It holds the decision table
  over two health snapshots and the probe classifier. It also holds a small state
  machine: the cached color, the `openedHealth` guard (raised while a probe is in
  flight), the `poolingHealth` guard (raised while the recovery loop runs),
  `signal`, and the recovery loop.
- `CircuitBreakerWorker` is the worker-thread breaker. It uses the same table. Its
  color updates are debounced, and it runs one recovery monitor.
- `CircuitBreakerManager` is the main-thread side of the worker. It tracks the
  color the worker reports, whether the worker is ready, and a bounded restart
  counter.
- `CircuitBreakerSync` shares the color between processes through a state key and
  a pub/sub channel.
- `PaymentRepository` does persistence and dispatch:
  - a per-processor timeline of `amount:correlationId` members, inserted with NX;
  - a per-processor pair of counters;
  - summaries read from either one;
  - the send / signal / requeue / retry control flow.
- `InMemoryQueue` is the payment list. Producers append at the tail, requeued
  payments go back at the head, and the consumer pops from the head.

**BullMQ variant**

- `PaymentConsumer` turns the color into exactly one action per job.
- `ProcessorService` holds the buffer of processed payments. The buffer is
  flushed in one pipeline at 100 entries, or when its single timer fires. The
  stored records are parsed back for statistics.
- `CronCircuitBreaker` is the scheduled breaker, with its fixed 5000 ms rule.

**Support modules**

- `CircuitBreakerTypes`: colors, health snapshots, the configuration and the
  worker messages.
- `RedisStore`: strings, lists, sorted sets, counter hashes and a publication log,
  as fields of a `Redis` class with one method per command used.
- `DecimalText`: the decimal text of an amount.
- `PaymentData`: the payment and summary records.

**What the model takes as inputs.** Everything the engine learns from the outside
is a parameter:

- the answer of each HTTP probe or post (`ProbeOutcome`, `Attempt`, `PostResult`);
- whether each store round trip succeeded;
- the clock (`now`, in milliseconds);
- the JSON codec (`parse`, `stringify`);
- what a worker spawn did (`SpawnOutcome`).

Amounts are integer cents. Loops and recursion that wait on the outside world take
a finite list of what they will meet:

- the recovery loop takes the probe rounds;
- `send` takes its successive attempts;
- the manager takes its successive spawns.

If the list runs out while the source would still be waiting, the model says so
explicitly (`None`, `Unfinished`, `poolingHealth` still raised).

## Model

| member | source | states |
|---|---|---|
| `CircuitBreakerService.Classify` | src/common/circuit-breaker/circuit-breaker.service.ts:106-119 | a body is taken as is; a 429 gives `{false, 0}`; any other error gives `{true, 0}`; failing exactly for an error or a failing body |
| `CircuitBreakerService.DefineTheColor` | src/common/circuit-breaker/circuit-breaker.service.ts:122-138 | RED iff both are failing; default failing and fallback healthy gives YELLOW; default healthy and fallback failing gives GREEN at any latency; both healthy gives YELLOW iff default.minRT − fallback.minRT ≥ threshold |
| `CircuitBreakerService.TableRoutesToHealthyProcessor` | src/common/circuit-breaker/circuit-breaker.service.ts:122-138 | GREEN never names a failing default, YELLOW never a failing fallback |
| `CircuitBreakerService.PeerColor` | src/common/circuit-breaker/circuit-breaker.service.ts:150-163 | the peer rule of `signal`: not RED iff the peer's answer says healthy; YELLOW exactly when that holds and default was the one that failed |
| `CircuitBreakerService.PeerColorIsTableWithFailedMarked` | src/common/circuit-breaker/circuit-breaker.service.ts:157-163 | the peer rule is the decision table with the failed processor's snapshot replaced by the failure snapshot |
| `CircuitBreakerService.FirstNonRedRound` | src/common/circuit-breaker/circuit-breaker.service.ts:65-85 | the index of the first probe round whose table color is not RED, every earlier one RED; None iff every round is RED |
| `CircuitBreakerService.RecoveryResult` | src/common/circuit-breaker/circuit-breaker.service.ts:56-89 | the loop's answer is never RED when it returns; it is still polling iff the cache is RED and every round was RED |
| `CircuitBreakerService.CircuitBreaker.constructor` | src/common/circuit-breaker/circuit-breaker.service.ts:25-33 | starts GREEN (what `getCurrentColor` returns) with neither guard raised |
| `CircuitBreakerService.CircuitBreaker.Health` | src/common/circuit-breaker/circuit-breaker.service.ts:100-120 | while `openedHealth` is raised the answer is the failure snapshot without probing; otherwise the probe's classification |
| `CircuitBreakerService.CircuitBreaker.GetCurrentColor` | src/common/circuit-breaker/circuit-breaker.service.ts:140-142 | the cached color, with no time-to-live and no store re-read |
| `CircuitBreakerService.CircuitBreaker.SetColor` | src/common/circuit-breaker/circuit-breaker.service.ts:91-97 | afterwards the cache holds the color, whatever it held; only the cache may change, so a repeated call changes nothing |
| `CircuitBreakerService.CircuitBreaker.CronToCheckTheHealth` | src/common/circuit-breaker/circuit-breaker.service.ts:56-89 | RED at once, changing nothing, when already polling; otherwise the first non-RED color from the cache or from a round's table color; `openedHealth` cleared; `poolingHealth` lowered on every return and raised only while still polling |
| `CircuitBreakerService.CircuitBreaker.Signal` | src/common/circuit-breaker/circuit-breaker.service.ts:145-172 | answers RED on every path; while polling nothing changes; otherwise the probe counts as failing, the guard is lowered again, and the cache ends as the recovery loop's first non-RED round color or RED while it still polls |
| `CircuitBreakerWorker.DebounceFacts` | src/common/circuit-breaker/circuit-breaker.worker.ts:151-165 | writing the current color is never a change; RED always gets through; another color within 2000 ms of the last change is dropped |
| `CircuitBreakerWorker.Worker.constructor` | src/common/circuit-breaker/circuit-breaker.worker.ts:14-23 | no configuration, GREEN, no monitor, last change at 0, and WORKER_READY as the only message sent |
| `CircuitBreakerWorker.Worker.CalculateColor` | src/common/circuit-breaker/circuit-breaker.worker.ts:131-149 | RED with no configuration, otherwise the shared decision table with the configured threshold |
| `CircuitBreakerWorker.Worker.CheckHealth` | src/common/circuit-breaker/circuit-breaker.worker.ts:108-129 | no answer exactly when there is no configuration; otherwise the shared classification (429 healthy, other errors failing) |
| `CircuitBreakerWorker.Worker.CheckForRecovery` | src/common/circuit-breaker/circuit-breaker.worker.ts:94-106 | RED with no configuration, otherwise the table color of the two probes, a missing answer counting as failing |
| `CircuitBreakerWorker.Worker.UpdateConfig` | src/common/circuit-breaker/circuit-breaker.worker.ts:47-49 | the configuration is the one received |
| `CircuitBreakerWorker.Worker.UpdateColor` | src/common/circuit-breaker/circuit-breaker.worker.ts:151-165 | when the debounce lets the change through, the color and the change time update and exactly one COLOR_UPDATE with that color and time is sent; otherwise nothing changes and nothing is sent |
| `CircuitBreakerWorker.Worker.StartRecoveryMonitoring` | src/common/circuit-breaker/circuit-breaker.worker.ts:69-84 | monitoring runs afterwards iff it already ran or a configuration is set, so at most one monitor exists |
| `CircuitBreakerWorker.Worker.StopRecoveryMonitoring` | src/common/circuit-breaker/circuit-breaker.worker.ts:86-91 | no monitor runs afterwards |
| `CircuitBreakerWorker.Worker.HandleFailureSignal` | src/common/circuit-breaker/circuit-breaker.worker.ts:51-66 | nothing before a configuration; otherwise a healthy peer gives YELLOW when default failed and GREEN when fallback failed, through the debounce; a failing peer gives RED and starts monitoring |
| `CircuitBreakerWorker.Worker.RecoveryTick` | src/common/circuit-breaker/circuit-breaker.worker.ts:72-83 | a color that is not RED stops monitoring; a RED recovery keeps it running; a recovered color is applied only when the debounce allows, and monitoring stops even when the debounce drops it, leaving RED |
| `CircuitBreakerWorker.Worker.Shutdown` | src/common/circuit-breaker/circuit-breaker.worker.ts:174-177 | monitoring stopped and the worker has exited |
| `CircuitBreakerWorker.Worker.HandleMessage` | src/common/circuit-breaker/circuit-breaker.worker.ts:33-45 | CONFIG_UPDATE only replaces the configuration; SIGNAL_FAILURE has the failure handler's full effect on color, change time, outbox and monitoring, and nothing before a configuration; SHUTDOWN stops monitoring and exits, leaving color, change time and outbox |
| `CircuitBreakerManager.FirstStarted` | src/common/circuit-breaker/circuit-breaker.manager.ts:30-48 | the first spawn that started among the first n, every earlier one failed; None iff none started |
| `CircuitBreakerManager.Manager.constructor` | src/common/circuit-breaker/circuit-breaker.manager.ts:15-21 | no worker, GREEN (what `getCurrentColor` returns), not ready, no restart attempts, nothing posted |
| `CircuitBreakerManager.Manager.GetCurrentColor` | src/common/circuit-breaker/circuit-breaker.manager.ts:131-133 | the color last reported by the worker or set by a failure or restart |
| `CircuitBreakerManager.Manager.HandleWorkerMessage` | src/common/circuit-breaker/circuit-breaker.manager.ts:70-81 | COLOR_UPDATE sets only the color, WORKER_READY only the ready flag, anything else changes nothing |
| `CircuitBreakerManager.Manager.SendMessageToWorker` | src/common/circuit-breaker/circuit-breaker.manager.ts:123-129 | the message is posted iff a worker exists and is ready, and dropped otherwise |
| `CircuitBreakerManager.Manager.SignalFailure` | src/common/circuit-breaker/circuit-breaker.manager.ts:135-144 | RED returned and stored in every worker state; SIGNAL_FAILURE posted only through the ready gate |
| `CircuitBreakerManager.Manager.StopWorker` | src/common/circuit-breaker/circuit-breaker.manager.ts:146-171 | no worker and not ready afterwards; SHUTDOWN posted iff a ready worker existed |
| `CircuitBreakerManager.Manager.StartWorker` | src/common/circuit-breaker/circuit-breaker.manager.ts:30-48 | with successive spawn outcomes: if one of the allowed attempts starts, the worker is ready and attempts reset to 0 (the color is RED if a restart came first); otherwise attempts reach 2 and the color is RED; attempts never exceed 2 |
| `CircuitBreakerManager.Manager.HandleWorkerRestart` | src/common/circuit-breaker/circuit-breaker.manager.ts:99-114 | always RED; at the limit nothing else changes; below it the attempt is counted, ready is cleared and a start follows |
| `CircuitBreakerManager.Manager.Initialize` | src/common/circuit-breaker/circuit-breaker.manager.ts:23-28 | the worker is ready afterwards iff one of the allowed spawns started, with the start's effect on worker, attempts and color; the posted log is the old one, plus SHUTDOWN for a replaced ready worker, plus CONFIG_UPDATE with the configuration iff ready, and nothing else |
| `CircuitBreakerManager.Manager.HandleWorkerExit` | src/common/circuit-breaker/circuit-breaker.manager.ts:62-67 | a non-zero exit code is RED and has the restart's effect: nothing more at the limit, otherwise ready with attempts reset iff a remaining spawn started, attempts used up otherwise; exit code 0 changes nothing, posted included |
| `CircuitBreakerSync.InitialColor` | src/common/circuit-breaker/circuit-breaker-sync.service.ts:35-43 | the stored text when present and non-empty; 'green' when it is missing or empty or the read fails |
| `CircuitBreakerSync.OnChannelMessage` | src/common/circuit-breaker/circuit-breaker-sync.service.ts:49-53 | a message reaches the callback iff it came on `circuit_breaker:color`, unchanged |
| `CircuitBreakerSync.DeliveredColors` | src/common/circuit-breaker/circuit-breaker-sync.service.ts:49-53 | everything a subscriber receives was published on the color channel |
| `CircuitBreakerSync.DeliveredAfterPublish` | src/common/circuit-breaker/circuit-breaker-sync.service.ts:24-27 | a color published on the channel is delivered, after everything published before it |
| `CircuitBreakerSync.SyncService.constructor` | src/common/circuit-breaker/circuit-breaker-sync.service.ts:12 | nothing published yet |
| `CircuitBreakerSync.SyncService.PublishColorChange` | src/common/circuit-breaker/circuit-breaker-sync.service.ts:18-33 | no-op for the last published color; on success the state key and the channel both get the color, it becomes the last published (so a repeat is a no-op), and `getInitialColor` now gives it; on failure nothing changes, so the next call tries again |
| `CircuitBreakerSync.SyncService.GetInitialColor` | src/common/circuit-breaker/circuit-breaker-sync.service.ts:35-43 | the text stored under the state key when the read succeeds and it is present and non-empty; 'green' otherwise |
| `CircuitBreakerSync.InitialColorAfterPublish` | src/common/circuit-breaker/circuit-breaker-sync.service.ts:35-43 | two services on one store: once one has stored a color under the state key, the other starts up with that color |
| `InMemoryQueue.Queue.Add` | src/common/in-memory-queue/in-memory-queue.service.ts:17-21 | the serialized item is appended at the tail and the list grows by one; no other list changes; a failed push changes nothing |
| `InMemoryQueue.Queue.Requeue` | src/common/in-memory-queue/in-memory-queue.service.ts:23-26 | the text as given is prepended at the head and the list grows by one; nothing else changes |
| `InMemoryQueue.Queue.Take` | src/common/pooling/pooling.service.ts:36-40 | the consumer gets the head item and the rest remains; an empty list gives nothing; no other list changes |
| `InMemoryQueue.Step` | src/common/in-memory-queue/in-memory-queue.service.ts:17-26 | the list effect of an add, a requeue and a head pop; a pop hands out the head and leaves the rest |
| `InMemoryQueue.ConsumedInAddOrder` | src/common/in-memory-queue/in-memory-queue.service.ts:19 | without requeues, what is consumed followed by what is left equals the initial list followed by the added texts: FIFO |
| `InMemoryQueue.RequeuedConsumedFirst` | src/common/in-memory-queue/in-memory-queue.service.ts:24 | a requeued text comes out before everything queued earlier and everything added later |
| `InMemoryQueue.FirstConsumedIsOldest` | src/common/pooling/pooling.service.ts:36 | without requeues the first text consumed is the oldest one queued |
| `RedisStore.AddIfAbsent` | src/payment/payment.repository.ts:63 | NX insert: the members gain exactly the new member; existing entries are untouched; an absent member is added at its score; the size grows by one iff it was absent; no member appears twice |
| `RedisStore.AddOrUpdate` | src/processor/processor.service.ts:155 | plain ZADD: the member is present at the new score afterwards, other entries unchanged, the size grows iff it was absent, no duplicates |
| `RedisStore.RangeByScore` | src/payment/payment.repository.ts:134 | exactly the entries whose score lies in [min, max], with an absent max meaning +inf |
| `RedisStore.RangeCoversAll` | src/payment/payment.repository.ts:130-134 | a range below every score returns the whole set |
| `RedisStore.Increment` | src/payment/payment.repository.ts:64-65 | HINCRBY: the field goes up by delta from 0 when missing; other fields are unchanged |
| `RedisStore.Redis.Set` | src/common/circuit-breaker/circuit-breaker-sync.service.ts:25 | SET stores the value under the key |
| `RedisStore.Redis.Publish` | src/common/circuit-breaker/circuit-breaker-sync.service.ts:26 | PUBLISH appends to the publication log |
| `RedisStore.Redis.RPush` | src/common/in-memory-queue/in-memory-queue.service.ts:19 | RPUSH appends at the tail |
| `RedisStore.Redis.LPush` | src/common/in-memory-queue/in-memory-queue.service.ts:24 | LPUSH inserts at the head |
| `RedisStore.Redis.LPop` | src/common/pooling/pooling.service.ts:36 | the head of the list, removed; nothing from an empty list |
| `RedisStore.Redis.ZAddNX` | src/payment/payment.repository.ts:63 | the sorted set becomes its NX insert |
| `RedisStore.Redis.ZAdd` | src/processor/processor.service.ts:155 | the sorted set becomes its plain insert |
| `RedisStore.Redis.HIncrBy` | src/payment/payment.repository.ts:64-65 | the hash becomes its increment |
| `DecimalText.IntToString` | src/payment/payment.repository.ts:63 | the amount's text is non-empty and has no colon |
| `DecimalText.ParseNatOfNatToString` | src/payment/payment.repository.ts:149 | reading the decimal text of a natural number gives the number |
| `DecimalText.ParseIntOfIntToString` | src/payment/payment.repository.ts:149 | reading an amount's text back gives the amount, negative ones included |
| `PaymentRepository.KeysAreDistinct` | src/payment/payment.repository.ts:60-61 | the timeline and stats keys of the two processors are four different keys |
| `PaymentRepository.NewPayment` | src/payment/payment.repository.ts:35-39 | the data minus its last character (an empty text stays empty), then `,"requestedAt":"<ts>"}`; the result always ends in `}` |
| `PaymentRepository.NewPaymentAddsLastField` | src/payment/payment.repository.ts:37 | on the text of an object, `requestedAt` becomes its last field |
| `PaymentRepository.BeforeFirstColon` | src/payment/payment.repository.ts:149 | `split(':')[0]`: a colon-free prefix of the member that stops at its first colon |
| `PaymentRepository.BeforeFirstColonOfJoin` | src/payment/payment.repository.ts:149 | splitting `a:rest` with a colon-free `a` gives `a` |
| `PaymentRepository.MemberRoundTrip` | src/payment/payment.repository.ts:149 | the amount read back from `amount:correlationId` is the amount written, whatever the id |
| `PaymentRepository.MemberInjective` | src/payment/payment.repository.ts:63 | two saves produce the same member only when both the amount and the id agree |
| `PaymentRepository.SumAmountsAppend` | src/payment/payment.repository.ts:148-151 | the left-to-right sum over one more member adds that member's amount |
| `PaymentRepository.Find` | src/payment/payment.repository.ts:104-160 | zeros on error; the counters without bounds, a missing field reading 0; with either bound, the count of members scored in [from or 0, to or +inf], and zeros for an empty range |
| `PaymentRepository.SaveCounters` | src/payment/payment.repository.ts:64-65 | count goes up by 1 and total by the amount |
| `PaymentRepository.FreshSaveKeepsCountersMatched` | src/payment/payment.repository.ts:63-65 | a save with a new member keeps the counters equal to the timeline's size and amount sum |
| `PaymentRepository.DuplicateSaveDesyncsCounters` | src/payment/payment.repository.ts:63-65 | a save with an existing member leaves the timeline unchanged but the counters no longer match it |
| `RedisStore.RangeOfAppend` | src/payment/payment.repository.ts:134 | the range of a set with one more entry is the old range plus that entry when its score is in range |
| `PaymentRepository.BoundedFindOfAppend` | src/payment/payment.repository.ts:129-156 | a bounded find over one more entry counts it and adds its amount exactly when its score is in range |
| `PaymentRepository.BoundedFindSeesFreshSave` | src/payment/payment.repository.ts:129-156 | after a save with a new member, a bounded find gains one request and its amount iff the request time is in range |
| `PaymentRepository.UnboundedFindAgreesWithScan` | src/payment/payment.repository.ts:112-156 | while the counters match the timeline and no score is negative, the counter answer equals a scan of [0, +inf] |
| `PaymentRepository.FirstDecisive` | src/payment/payment.repository.ts:88-101 | the first attempt not answered by a non-RED color, every earlier one a retry; None iff all are retries |
| `PaymentRepository.Conclusion` | src/payment/payment.repository.ts:79-98 | accepted iff the status is 200 or 201, requeued iff the breaker said RED, dropped iff it said null; any other status is ignored |
| `PaymentRepository.Repository.Save` | src/payment/payment.repository.ts:51-68 | the timeline gets the member by NX at the request time, and both counters go up even when the member was already there; a failed pipeline changes nothing |
| `PaymentRepository.Repository.FindStored` | src/payment/payment.repository.ts:104-160 | `find` against the store: zeros on error, the processor's counters without bounds, the number of its timeline members in range with either bound |
| `PaymentRepository.Repository.Send` | src/payment/payment.repository.ts:70-102 | unparseable data posts nothing; every retry goes to the same processor; the first attempt that is not a retry decides: save on 200/201, requeue of the original text at the head on RED, drop on null; only that attempt touches the store |
| `PaymentRepository.SendSavesOnlyOnSuccess` | src/payment/payment.repository.ts:79-86 | a saving send met a 200 or 201 answer, and saves under that attempt's request time |
| `PaymentConsumer.RequeuePayment` | src/payment/payment.processor.ts:28-30 | the job's data unchanged, with priority 1 and exponential backoff of 1000 ms |
| `PaymentConsumer.Process` | src/payment/payment.processor.ts:32-46 | exactly one action: requeue iff RED, dispatch of the same data to default iff GREEN, otherwise (YELLOW) to fallback |
| `PaymentConsumer.DispatchAvoidsFailingProcessor` | src/payment/payment.processor.ts:32-46 | routed by the table's color, a job never goes to a processor whose snapshot is failing, and is requeued iff both are |
| `ProcessorService.CommandFor` | src/processor/processor.service.ts:143-155 | one `zadd` on the processor's timeline, scored by the request time, holding the serialized record |
| `ProcessorService.BatchCommands` | src/processor/processor.service.ts:143-160 | one command per buffered entry, in buffer order |
| `ProcessorService.ApplyZAddsAdds` | src/processor/processor.service.ts:155-162 | after a pipeline ran, every member it added is present, no member is lost, and keys it did not name are unchanged |
| `ProcessorService.FlushStoresEveryEntry` | src/processor/processor.service.ts:126-162 | a written batch leaves each record in its processor's timeline, next to everything stored before |
| `ProcessorService.Exec` | src/processor/processor.service.ts:162 | running the pipeline applies its commands in order |
| `ProcessorService.ParsedRecords` | src/processor/processor.service.ts:350-361 | a record is kept iff some member parses to it; never more records than members; when all parse, one record per member, each the parse of its member in order |
| `ProcessorService.ParsedRecordsConcat` | src/processor/processor.service.ts:350-361 | parsing keeps the members' order: the records of two runs are those of the first followed by those of the second |
| `ProcessorService.ParsedRecordsOfAppend` | src/processor/processor.service.ts:350-367 | one more member that parses to a record adds that record at the end and its amount to the sum |
| `ProcessorService.ProcessedPaymentStats` | src/processor/processor.service.ts:311-380 | zeros on error and for an empty scan; otherwise the number of parseable records among the members scanned (all without bounds, those in [from or 0, to or +inf] with either) and the sum of their amounts; never more than the members scanned |
| `ProcessorService.StatsCountAddedRecord` | src/processor/processor.service.ts:350-367 | without bounds, a newly stored record that parses back to itself adds one request and its amount to the stats |
| `ProcessorService.BoundedStatsCountAddedRecord` | src/processor/processor.service.ts:320-367 | with either bound, a newly stored record that parses back to itself adds one request and its amount iff its score lies in range, and changes nothing otherwise |
| `ProcessorService.Service.constructor` | src/processor/processor.service.ts:22-28 | empty buffer, no timer |
| `ProcessorService.Service.FlushBatch` | src/processor/processor.service.ts:126-171 | nothing for an empty buffer; otherwise the buffer is emptied and the timer cleared, and the store gets one `zadd` per taken entry when the pipeline runs; a failed batch is dropped |
| `ProcessorService.Service.PersistProcessedPaymentAsync` | src/processor/processor.service.ts:96-124 | exactly one entry is appended; reaching 100 flushes at once, so fewer than 100 stay pending; a timer is set exactly while entries are pending; a running one keeps its deadline, a new one is due 1000 ms later |
| `ProcessorService.Service.TimerFires` | src/processor/processor.service.ts:116-122 | the timer's flush empties the buffer and writes it when the pipeline runs |
| `ProcessorService.Service.ProcessPayment` | src/processor/processor.service.ts:54-84 | persists only on a 200 answer, with the request time `now`; reports a failure only for an error carrying status 500; changes nothing otherwise |
| `ProcessorService.Service.OnDestroy` | src/processor/processor.service.ts:382-388 | the timer is cleared and the buffer flushed |
| `ProcessorService.Service.GetProcessedPaymentStats` | src/processor/processor.service.ts:311-380 | the stats of one processor's stored timeline: zeros on error, else the count and amount sum of the parseable records scanned |
| `ProcessorService.Service.GetPaymentSummary` | src/processor/processor.service.ts:272-309 | both processors' stats over the same bounds, each zero when its own read fails |
| `CronCircuitBreaker.ProbeSnapshot` | src/processor/circuit-breaker.service.ts:45-65 | the body on success; the failure snapshot on any error, 429 included |
| `CronCircuitBreaker.CronColor` | src/processor/circuit-breaker.service.ts:67-80 | GREEN iff default is healthy and either within 5000 ms or fallback is failing; YELLOW iff default is failing or slower than 5000 ms and fallback is healthy; RED iff both are failing |
| `CronCircuitBreaker.FallbackLatencyIgnored` | src/processor/circuit-breaker.service.ts:68-69 | fallback's response time never changes the color |
| `CronCircuitBreaker.CronRoutesToHealthyProcessor` | src/processor/circuit-breaker.service.ts:71-78 | GREEN never names a failing default and YELLOW never a failing fallback; both breakers agree on RED exactly |
| `CronCircuitBreaker.CronBreaker.constructor` | src/processor/circuit-breaker.service.ts:21-23 | GREEN with both snapshots `{false, 0}` |
| `CronCircuitBreaker.CronBreaker.CheckPaymentHealth` | src/processor/circuit-breaker.service.ts:45-54 | default's snapshot is the probe's body, or the failure snapshot on error |
| `CronCircuitBreaker.CronBreaker.CheckFallbackHealth` | src/processor/circuit-breaker.service.ts:56-65 | fallback's snapshot is the probe's body, or the failure snapshot on error |
| `CronCircuitBreaker.CronBreaker.UpdateCircuitBreakerColor` | src/processor/circuit-breaker.service.ts:67-80 | the color is the cron rule of the two stored snapshots |
| `CronCircuitBreaker.CronBreaker.CheckHealth` | src/processor/circuit-breaker.service.ts:30-43 | one scheduled run: both snapshots replaced from the probes, and the color recomputed from them |
| `CronCircuitBreaker.CronBreaker.GetHealthStatus` | src/processor/circuit-breaker.service.ts:86-92 | the current color and both snapshots |
| `CronCircuitBreaker.CronBreaker.GetCurrentColor` | src/processor/circuit-breaker.service.ts:82-84 | the color of the last scheduled check, GREEN before the first |

## Where the code departs from the design description

The model follows the code:

- **`signal` always ends RED.** It raises `openedHealth` before probing the other
  processor, so `health` answers "failing" without probing. The healthy-peer
  branch is therefore unreachable, and every `signal` outside polling sets RED and
  returns RED (`CircuitBreaker.Signal`).
- **`send` retries without a bound.** After a non-RED `signal` answer it calls
  itself again with the same processor, with no limit. The design describes one
  retry through the newly indicated processor.
- **`save` counts duplicates.** The NX insert is keyed by the member
  `amount:correlationId`, not by `(timestamp, correlationId)`. The counters are
  incremented even when the insert is skipped. So the counter summary and the
  timeline scan agree only while no member is saved twice
  (`UnboundedFindAgreesWithScan`, `DuplicateSaveDesyncsCounters`).
- **`getCurrentColor` has no time-to-live.** It returns the cached color and never
  re-reads the shared store.
- **The worker's debounce can leave RED.** A recovery tick stops monitoring even
  when the debounce drops the recovered color. The worker then stays RED until the
  next failure signal (`Worker.RecoveryTick`).
- **The two variants save different statuses.** The Redis-list variant saves on
  200 or 201. The BullMQ variant persists only on 200.
- **The failure report calls a missing method.** The BullMQ variant calls
  `reportProcessorFailure`, which src/processor/circuit-breaker.service.ts does not
  define. The model records the report in `failureReports`. The code as written
  would throw inside the error handler, and the subscription's error callback
  would swallow it.

## Left out

- HTTP (axios), timeouts and the health endpoint: probe and post answers are inputs.
- Redis client mechanics: pipelines are all-or-nothing (a partial pipeline failure
  is not modelled), `Promise.race` timeouts are an `ok` input, and the subscriber
  lifecycle (`duplicate`, `subscribe`, `unsubscribe`) is left out. The blocking
  `blpop` loop of the pooling service is reduced to one head pop (`Queue.Take`).
  Sorted-set range answers are not ordered by score, because every consumer only
  counts and sums them.
- Concurrency and timing: every service is one sequential owner. Interleavings of
  `signal` with concurrent dispatches, of overlapping recovery loops, and of any
  process with another are not modelled; the guards are modelled as flags. Timers,
  intervals and sleeps are method calls (`RecoveryTick`, `TimerFires`) or are
  ignored (the restart delay, the recovery loop's interval).
- `CircuitBreaker.Signal`: the `.then` continuation of the recovery loop runs at
  once instead of later, over a finite list of rounds. If every given round is
  RED, the loop is still running afterwards (`poolingHealth` stays raised).
- `CircuitBreaker.CronToCheckTheHealth`: the rounds a `while (true)` loop would
  meet are a finite input list, and running out of them is reported as None.
- `Repository.Send`: its unbounded self-recursion is bounded by the list of
  attempts given. When the list is exhausted while still retrying, the outcome is
  `Unfinished`. The answer of `signal` is an input (`Color | null`, as its type
  says), so the retry path is reachable in the model. With the in-process breaker
  modelled here, that answer is always RED.
- `Manager.StartWorker`, `Manager.HandleWorkerRestart`, `Manager.Initialize`,
  `Manager.HandleWorkerExit`: spawn outcomes are a list that must cover every
  attempt the restart limit allows. Worker spawning, `terminate`, `process.exit`,
  the 10 s ready wait, and the worker's 'error' listener are process plumbing. The
  exit listener is modelled as `HandleWorkerExit`.
- `Attempt.Responded` and `PostResult.Answered` stand for answers axios resolves, so their status is a 2xx; the types do not restrict the value, and a non-200/201 status in `Send` is `Ignored`.
- `DecimalText.ParseNat` reads any non-digit character as the digit 0, where `parseFloat` gives NaN or stops. Only members that `save` did not write can contain one, and those are not modelled.
- Floating point: amounts are integer cents. `Math.round(x * 100) / 100`,
  `parseFloat` and the decimal point in an amount's text are not modelled.
- JSON is abstract (`parse`, `stringify`) except for the string splice of
  `newPayment`. `newPaymentJSON` is the parse of `send`'s data; its `requestedAt`
  is the attempt's clock reading. ISO date text and `getTime` are dropped: request
  times are milliseconds throughout.
- `getPaymentRecords` / `getProcessedPaymentRecords` of the BullMQ processor
  service return parsed records to an HTTP caller. Only the statistics built from
  the same scan are modelled (`ProcessedPaymentStats`, `Service.GetPaymentSummary`).
- In `flushBatch`, the `processedKeys` set is filled but never read, so it is not
  modelled.
- Multi-document logging, `extractErrorMessage`, and the DI modules, controllers,
  bootstrap and configuration code are left out.
- `Queue<T>.Add` takes an item of any type with an abstract `stringify`. A failed
  push or requeue is only logged in the source, and is a no-op here.
