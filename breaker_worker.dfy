/**
 * The worker-thread circuit breaker: it holds the configuration, the current color
 * and when it last changed, and whether the recovery interval is running. Messages
 * it posts to the main thread are appended to `outbox`. Clock readings, probe
 * answers and interval ticks are inputs: each tick is one call of `RecoveryTick`.
 */
module CircuitBreakerWorker {
  import opened CircuitBreakerTypes
  import opened CircuitBreakerService

  const COLOR_DEBOUNCE_MS := 2000

  /**
   * The debounce of `updateColor`: a different color is taken at once when it is
   * RED, and otherwise only when at least COLOR_DEBOUNCE_MS passed since the last change.
   */
  predicate ColorChangeApplies(current: Color, lastColorChange: int, newColor: Color, now: int) {
    current != newColor && (newColor == Red || now - lastColorChange >= COLOR_DEBOUNCE_MS)
  }

  /** Writing the current color again is never a change, and RED always gets through. */
  lemma DebounceFacts(current: Color, last: int, newColor: Color, now: int)
    ensures !ColorChangeApplies(current, last, current, now)
    ensures current != Red ==> ColorChangeApplies(current, last, Red, now)
    ensures newColor != Red && now - last < COLOR_DEBOUNCE_MS ==>
              !ColorChangeApplies(current, last, newColor, now)
  {
  }

  class Worker {
    var config: Option<HealthCheckConfig>
    var currentColor: Color
    /** Whether `recoveryInterval` is set. */
    var recoveryActive: bool
    var lastColorChange: int
    /** Messages posted to the main thread, oldest first. */
    var outbox: seq<WorkerMessage>
    /** Set by `shutdown`, which ends the worker's process. */
    var exited: bool

    /** The worker announces itself with WORKER_READY as soon as it exists. */
    constructor ()
      ensures config == None && currentColor == Green && !recoveryActive && lastColorChange == 0
      ensures outbox == [WorkerReady] && !exited
    {
      config := None;
      currentColor := Green;
      recoveryActive := false;
      lastColorChange := 0;
      outbox := [WorkerReady];
      exited := false;
    }

    /** `calculateColor`: the shared decision table, and RED while no configuration is set. */
    function CalculateColor(d: ProcessorHealth, f: ProcessorHealth): (c: Color)
      reads this
      ensures config.None? ==> c == Red
      ensures config.Some? ==> c == DefineTheColor(d, f, config.value.latencyDiffToUseFallback)
    {
      if config.None? then Red
      else DefineTheColor(d, f, config.value.latencyDiffToUseFallback)
    }

    /** `checkHealth`: no answer (null) without configuration, else the shared classification. */
    function CheckHealth(probe: ProbeOutcome): (h: Option<ProcessorHealth>)
      reads this
      ensures h.None? <==> config.None?
      ensures h.Some? ==> h.value == Classify(probe)
    {
      if config.None? then None else Some(Classify(probe))
    }

    /** `checkForRecovery`: both probes, a missing answer counting as failing, then the table. */
    function CheckForRecovery(defaultProbe: ProbeOutcome, fallbackProbe: ProbeOutcome): (c: Color)
      reads this
      ensures config.None? ==> c == Red
      ensures config.Some? ==>
                c == RoundColor(Round(defaultProbe, fallbackProbe), config.value.latencyDiffToUseFallback)
    {
      if config.None? then Red
      else
        CalculateColor(CheckHealth(defaultProbe).GetOr(FAILURE), CheckHealth(fallbackProbe).GetOr(FAILURE))
    }

    method UpdateConfig(c: HealthCheckConfig)
      modifies this`config
      ensures config == Some(c)
    {
      config := Some(c);
    }

    /** `updateColor` at clock reading `now`: an applied change emits exactly one COLOR_UPDATE. */
    method UpdateColor(newColor: Color, now: int)
      modifies this`currentColor, this`lastColorChange, this`outbox
      ensures ColorChangeApplies(old(currentColor), old(lastColorChange), newColor, now) ==>
                && currentColor == newColor && lastColorChange == now
                && outbox == old(outbox) + [ColorUpdate(newColor, now)]
      ensures !ColorChangeApplies(old(currentColor), old(lastColorChange), newColor, now) ==>
                currentColor == old(currentColor) && lastColorChange == old(lastColorChange) && outbox == old(outbox)
    {
      if currentColor != newColor {
        if newColor == Red || now - lastColorChange >= COLOR_DEBOUNCE_MS {
          currentColor := newColor;
          lastColorChange := now;
          outbox := outbox + [ColorUpdate(newColor, now)];
        }
      }
    }

    /** Without configuration, or with an interval already running, nothing happens. */
    method StartRecoveryMonitoring()
      modifies this`recoveryActive
      ensures recoveryActive == (old(recoveryActive) || config.Some?)
    {
      if config.None? || recoveryActive {
        return;
      }
      recoveryActive := true;
    }

    method StopRecoveryMonitoring()
      modifies this`recoveryActive
      ensures !recoveryActive
    {
      if recoveryActive {
        recoveryActive := false;
      }
    }

    /**
     * `handleFailureSignal`: nothing before a configuration arrives. Otherwise the
     * peer's answer picks YELLOW/GREEN, or RED, which also starts monitoring.
     */
    method HandleFailureSignal(processor: Processor, peerProbe: ProbeOutcome, now: int)
      modifies this`currentColor, this`lastColorChange, this`outbox, this`recoveryActive
      ensures old(config).None? ==>
                && currentColor == old(currentColor) && lastColorChange == old(lastColorChange)
                && outbox == old(outbox) && recoveryActive == old(recoveryActive)
      ensures old(config).Some? ==>
                var c := PeerColor(processor, Some(Classify(peerProbe)));
                && (ColorChangeApplies(old(currentColor), old(lastColorChange), c, now) ==>
                      currentColor == c && lastColorChange == now && outbox == old(outbox) + [ColorUpdate(c, now)])
                && (!ColorChangeApplies(old(currentColor), old(lastColorChange), c, now) ==>
                      currentColor == old(currentColor) && lastColorChange == old(lastColorChange) && outbox == old(outbox))
                && recoveryActive == (old(recoveryActive) || c == Red)
    {
      if config.None? {
        return;
      }
      var health := CheckHealth(peerProbe);
      if health.Some? && !health.value.failing {
        var newColor := if processor == Default then Yellow else Green;
        UpdateColor(newColor, now);
      } else {
        UpdateColor(Red, now);
        StartRecoveryMonitoring();
      }
    }

    /**
     * One firing of the recovery interval. A color that is no longer RED stops
     * monitoring. Otherwise a recovered color is handed to `updateColor` and
     * monitoring stops, even when the debounce throws that color away.
     */
    method RecoveryTick(defaultProbe: ProbeOutcome, fallbackProbe: ProbeOutcome, now: int)
      requires recoveryActive
      modifies this`currentColor, this`lastColorChange, this`outbox, this`recoveryActive
      ensures old(currentColor) != Red ==>
                && !recoveryActive && currentColor == old(currentColor)
                && lastColorChange == old(lastColorChange) && outbox == old(outbox)
      ensures old(currentColor) == Red ==>
                var c := CheckForRecovery(defaultProbe, fallbackProbe);
                && (c == Red ==>
                      && recoveryActive && currentColor == Red
                      && lastColorChange == old(lastColorChange) && outbox == old(outbox))
                && (c != Red ==> !recoveryActive)
                && (c != Red && now - old(lastColorChange) >= COLOR_DEBOUNCE_MS ==>
                      currentColor == c && lastColorChange == now && outbox == old(outbox) + [ColorUpdate(c, now)])
                && (c != Red && now - old(lastColorChange) < COLOR_DEBOUNCE_MS ==>
                      currentColor == Red && lastColorChange == old(lastColorChange) && outbox == old(outbox))
    {
      if currentColor != Red {
        StopRecoveryMonitoring();
        return;
      }
      var recoveredColor := CheckForRecovery(defaultProbe, fallbackProbe);
      if recoveredColor != Red {
        UpdateColor(recoveredColor, now);
        StopRecoveryMonitoring();
      }
    }

    method Shutdown()
      modifies this`recoveryActive, this`exited
      ensures !recoveryActive && exited
    {
      StopRecoveryMonitoring();
      exited := true;
    }

    /**
     * `handleMessage`: CONFIG_UPDATE replaces the configuration, SIGNAL_FAILURE runs
     * the failure handler (`peerProbe` is what the probe of the other processor
     * answers, `now` the clock), SHUTDOWN stops monitoring and ends the worker.
     */
    method HandleMessage(message: MainThreadMessage, peerProbe: ProbeOutcome, now: int)
      modifies this
      ensures message.ConfigUpdate? ==>
                && config == Some(message.config) && currentColor == old(currentColor)
                && lastColorChange == old(lastColorChange) && outbox == old(outbox)
                && recoveryActive == old(recoveryActive) && exited == old(exited)
      ensures message.SignalFailure? ==>
                && config == old(config) && exited == old(exited)
                && (old(config).None? ==>
                      && currentColor == old(currentColor) && lastColorChange == old(lastColorChange)
                      && outbox == old(outbox) && recoveryActive == old(recoveryActive))
                && (old(config).Some? ==>
                      var c := PeerColor(message.processor, Some(Classify(peerProbe)));
                      && (ColorChangeApplies(old(currentColor), old(lastColorChange), c, now) ==>
                            currentColor == c && lastColorChange == now && outbox == old(outbox) + [ColorUpdate(c, now)])
                      && (!ColorChangeApplies(old(currentColor), old(lastColorChange), c, now) ==>
                            && currentColor == old(currentColor) && lastColorChange == old(lastColorChange)
                            && outbox == old(outbox))
                      && recoveryActive == (old(recoveryActive) || c == Red))
      ensures message.Shutdown? ==>
                && !recoveryActive && exited && config == old(config)
                && currentColor == old(currentColor) && lastColorChange == old(lastColorChange) && outbox == old(outbox)
    {
      match message
      case ConfigUpdate(c) => UpdateConfig(c);
      case SignalFailure(p, _) => HandleFailureSignal(p, peerProbe, now);
      case Shutdown => Shutdown();
    }
  }
}
