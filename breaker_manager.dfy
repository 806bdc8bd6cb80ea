/**
 * The main-thread side of the worker-thread breaker: it caches the color the worker
 * reports, gates messages on the worker being ready, and restarts a failed worker a
 * bounded number of times. Messages posted to the worker are appended to `posted`.
 * What happens when a worker is spawned is an input (`SpawnOutcome`); the restart
 * delay is timing only and is not modelled.
 */
module CircuitBreakerManager {
  import opened CircuitBreakerTypes

  const MAX_RESTART_ATTEMPTS: nat := 2

  /**
   * One attempt to start a worker: it starts and reports WORKER_READY, its
   * constructor throws, or it is created but not ready before the wait times out.
   */
  datatype SpawnOutcome = Started | SpawnThrew | ReadyTimeout

  /** The index of the first successful spawn among the first `n` outcomes. */
  function FirstStarted(spawns: seq<SpawnOutcome>, n: nat): (k: Option<nat>)
    requires n <= |spawns|
    ensures k.Some? ==> k.value < n && spawns[k.value] == Started
    ensures k.Some? ==> forall j :: 0 <= j < k.value ==> spawns[j] != Started
    ensures k.None? <==> forall j :: 0 <= j < n ==> spawns[j] != Started
  {
    if n == 0 then None
    else if spawns[0] == Started then Some(0)
    else
      match FirstStarted(spawns[1..], n - 1)
      case None => None
      case Some(k) => Some(k + 1)
  }

  class Manager {
    /** Whether `worker` is set. */
    var hasWorker: bool
    var currentColor: Color
    var isWorkerReady: bool
    var restartAttempts: nat
    /** Messages posted to the worker, oldest first. */
    var posted: seq<MainThreadMessage>

    ghost predicate Valid()
      reads this
    {
      restartAttempts <= MAX_RESTART_ATTEMPTS && (isWorkerReady ==> hasWorker)
    }

    constructor ()
      ensures Valid()
      ensures !hasWorker && currentColor == Green && !isWorkerReady && restartAttempts == 0 && posted == []
    {
      hasWorker := false;
      currentColor := Green;
      isWorkerReady := false;
      restartAttempts := 0;
      posted := [];
    }

    /** `getCurrentColor`: the color last reported by the worker, or set by a failure or restart. */
    function GetCurrentColor(): (c: Color)
      reads this
      ensures c == currentColor
    {
      currentColor
    }

    /** COLOR_UPDATE sets only the color, WORKER_READY only the ready flag; others are ignored. */
    method HandleWorkerMessage(message: WorkerMessage)
      requires Valid() && hasWorker
      modifies this`currentColor, this`isWorkerReady
      ensures Valid()
      ensures message.ColorUpdate? ==> currentColor == message.color && isWorkerReady == old(isWorkerReady)
      ensures message.WorkerReady? ==> isWorkerReady && currentColor == old(currentColor)
      ensures !message.ColorUpdate? && !message.WorkerReady? ==>
                currentColor == old(currentColor) && isWorkerReady == old(isWorkerReady)
    {
      match message {
        case ColorUpdate(c, _) => currentColor := c;
        case WorkerReady => isWorkerReady := true;
        case _ =>
      }
    }

    /** A message reaches the worker only when one exists and is ready; otherwise it is dropped. */
    method SendMessageToWorker(message: MainThreadMessage)
      modifies this`posted
      ensures posted == if hasWorker && isWorkerReady then old(posted) + [message] else old(posted)
    {
      if hasWorker && isWorkerReady {
        posted := posted + [message];
      }
    }

    /** `signalFailure`: forwards the signal when possible, and is RED at once whatever the worker does. */
    method SignalFailure(processor: Processor, now: int) returns (c: Color)
      modifies this`posted, this`currentColor
      ensures c == Red && currentColor == Red
      ensures posted == if hasWorker && isWorkerReady then old(posted) + [WorkerMessage.SignalFailure(processor, now)]
                        else old(posted)
    {
      SendMessageToWorker(WorkerMessage.SignalFailure(processor, now));
      currentColor := Red;
      return currentColor;
    }

    /** `stopWorker`: asks a worker to shut down and forgets it (by exit or by terminate). */
    method StopWorker()
      requires Valid()
      modifies this`posted, this`hasWorker, this`isWorkerReady
      ensures !hasWorker && !isWorkerReady
      ensures posted == if old(hasWorker) && old(isWorkerReady) then old(posted) + [Shutdown] else old(posted)
    {
      if hasWorker {
        SendMessageToWorker(Shutdown);
        hasWorker := false;
        isWorkerReady := false;
      }
    }

    /**
     * `startWorker` with `spawns` the outcomes of this start and of every restart
     * it may lead to. A start that succeeds resets `restartAttempts`; one that
     * fails goes through `handleWorkerRestart`, which retries while attempts remain.
     * The first success, if any, leaves the worker ready; otherwise the attempts are
     * used up and the color is RED.
     */
    method StartWorker(spawns: seq<SpawnOutcome>)
      requires Valid()
      requires |spawns| > MAX_RESTART_ATTEMPTS - restartAttempts
      modifies this
      decreases |spawns|, 0
      ensures Valid()
      ensures var k := FirstStarted(spawns, MAX_RESTART_ATTEMPTS - old(restartAttempts) + 1);
              && (k.Some? ==>
                    && hasWorker && isWorkerReady && restartAttempts == 0
                    && currentColor == (if k.value == 0 then old(currentColor) else Red))
              && (k.None? ==>
                    && restartAttempts == MAX_RESTART_ATTEMPTS && !isWorkerReady && currentColor == Red
                    && hasWorker == (spawns[MAX_RESTART_ATTEMPTS - old(restartAttempts)] == ReadyTimeout))
      ensures posted == if old(hasWorker) && old(isWorkerReady) then old(posted) + [Shutdown] else old(posted)
    {
      if hasWorker {
        StopWorker();
      }
      match spawns[0]
      case Started =>
        hasWorker := true;
        HandleWorkerMessage(WorkerReady);
        restartAttempts := 0;
      case SpawnThrew =>
        HandleWorkerRestart(spawns[1..]);
      case ReadyTimeout =>
        hasWorker := true;
        HandleWorkerRestart(spawns[1..]);
    }

    /**
     * `handleWorkerRestart`: at the limit it only sets RED; otherwise it counts the
     * attempt, clears the ready flag, sets RED and starts a worker again.
     */
    method HandleWorkerRestart(spawns: seq<SpawnOutcome>)
      requires Valid()
      requires |spawns| >= MAX_RESTART_ATTEMPTS - restartAttempts
      modifies this
      decreases |spawns|, 1
      ensures Valid() && currentColor == Red
      ensures old(restartAttempts) >= MAX_RESTART_ATTEMPTS ==>
                && restartAttempts == old(restartAttempts) && hasWorker == old(hasWorker)
                && isWorkerReady == old(isWorkerReady) && posted == old(posted)
      ensures old(restartAttempts) < MAX_RESTART_ATTEMPTS ==>
                var k := FirstStarted(spawns, MAX_RESTART_ATTEMPTS - old(restartAttempts));
                && (k.Some? ==> hasWorker && isWorkerReady && restartAttempts == 0)
                && (k.None? ==>
                      && restartAttempts == MAX_RESTART_ATTEMPTS && !isWorkerReady
                      && hasWorker == (spawns[MAX_RESTART_ATTEMPTS - old(restartAttempts) - 1] == ReadyTimeout))
                && posted == old(posted)
    {
      if restartAttempts >= MAX_RESTART_ATTEMPTS {
        currentColor := Red;
        return;
      }
      restartAttempts := restartAttempts + 1;
      isWorkerReady := false;
      currentColor := Red;
      // sleep(RESTART_DELAY * restartAttempts)
      StartWorker(spawns);
    }

    /** `initialize`: start a worker, then send it the configuration if it is ready. */
    method Initialize(config: HealthCheckConfig, spawns: seq<SpawnOutcome>)
      requires Valid()
      requires |spawns| > MAX_RESTART_ATTEMPTS - restartAttempts
      modifies this
      ensures Valid()
      ensures var k := FirstStarted(spawns, MAX_RESTART_ATTEMPTS - old(restartAttempts) + 1);
              && (isWorkerReady <==> k.Some?)
              && (k.Some? ==>
                    && hasWorker && restartAttempts == 0
                    && currentColor == (if k.value == 0 then old(currentColor) else Red))
              && (k.None? ==>
                    && restartAttempts == MAX_RESTART_ATTEMPTS && currentColor == Red
                    && hasWorker == (spawns[MAX_RESTART_ATTEMPTS - old(restartAttempts)] == ReadyTimeout))
      ensures var stopped := if old(hasWorker) && old(isWorkerReady) then old(posted) + [Shutdown] else old(posted);
              posted == if isWorkerReady then stopped + [ConfigUpdate(config)] else stopped
      ensures isWorkerReady ==> |posted| > 0 && posted[|posted| - 1] == ConfigUpdate(config)
    {
      StartWorker(spawns);
      if isWorkerReady {
        SendMessageToWorker(ConfigUpdate(config));
      }
    }

    /** The worker's 'exit' listener: a non-zero exit code triggers a restart. */
    method HandleWorkerExit(code: int, spawns: seq<SpawnOutcome>)
      requires Valid()
      requires |spawns| >= MAX_RESTART_ATTEMPTS - restartAttempts
      modifies this
      ensures Valid()
      ensures code != 0 ==> currentColor == Red && posted == old(posted)
      ensures code != 0 && old(restartAttempts) >= MAX_RESTART_ATTEMPTS ==>
                && restartAttempts == old(restartAttempts) && hasWorker == old(hasWorker)
                && isWorkerReady == old(isWorkerReady)
      ensures code != 0 && old(restartAttempts) < MAX_RESTART_ATTEMPTS ==>
                var k := FirstStarted(spawns, MAX_RESTART_ATTEMPTS - old(restartAttempts));
                && (k.Some? ==> hasWorker && isWorkerReady && restartAttempts == 0)
                && (k.None? ==>
                      && restartAttempts == MAX_RESTART_ATTEMPTS && !isWorkerReady
                      && hasWorker == (spawns[MAX_RESTART_ATTEMPTS - old(restartAttempts) - 1] == ReadyTimeout))
      ensures code == 0 ==>
                && currentColor == old(currentColor) && hasWorker == old(hasWorker)
                && restartAttempts == old(restartAttempts) && isWorkerReady == old(isWorkerReady)
                && posted == old(posted)
    {
      if code != 0 {
        HandleWorkerRestart(spawns);
      }
    }
  }
}
