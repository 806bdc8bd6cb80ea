/**
 * The in-process circuit breaker of the Redis-list variant: a pure decision table
 * over two health snapshots, the probe classifier, and a small state machine
 * (cached color, the "probe in flight" guard `openedHealth` and the "recovery
 * loop running" guard `poolingHealth`).
 *
 * Probe answers are inputs. The recovery loop waits between probe rounds; here a
 * finite list of rounds stands for what the probes answer in successive rounds.
 */
module CircuitBreakerService {
  import opened CircuitBreakerTypes

  /** How `health` reads one probe outcome: 429 counts as healthy, any other error as failing. */
  function Classify(p: ProbeOutcome): (h: ProcessorHealth)
    ensures h.failing <==> p.Err? || (p.Ok? && p.body.failing)
    ensures p.Ok? ==> h == p.body
    ensures !p.Ok? ==> h.minResponseTime == 0
  {
    match p
    case Ok(body) => body
    case Throttled => ProcessorHealth(false, 0)
    case Err => FAILURE
  }

  /** The decision table `defineTheColor`, with the latency threshold as a parameter. */
  function DefineTheColor(d: ProcessorHealth, f: ProcessorHealth, threshold: int): (c: Color)
    ensures c == Red <==> d.failing && f.failing
    ensures d.failing && !f.failing ==> c == Yellow
    ensures !d.failing && f.failing ==> c == Green
    ensures !d.failing && !f.failing ==>
              (c == Yellow <==> d.minResponseTime - f.minResponseTime >= threshold)
  {
    var diff := d.minResponseTime - f.minResponseTime;
    if d.failing && f.failing then Red
    else if d.failing && !f.failing then Yellow
    else if !d.failing && !f.failing && diff >= threshold then Yellow
    else Green
  }

  /** A non-RED color always routes to a processor that was not reported failing. */
  lemma TableRoutesToHealthyProcessor(d: ProcessorHealth, f: ProcessorHealth, threshold: int)
    ensures DefineTheColor(d, f, threshold) == Green ==> !d.failing
    ensures DefineTheColor(d, f, threshold) == Yellow ==> !f.failing
  {
  }

  /**
   * The color `signal` picks after a dispatch to `failed` went wrong, from the
   * answer about the other processor: a healthy peer gives YELLOW when default
   * failed and GREEN when fallback failed; a failing or missing answer gives RED.
   */
  function PeerColor(failed: Processor, peer: Option<ProcessorHealth>): (c: Color)
    ensures c != Red <==> peer.Some? && !peer.value.failing
    ensures c == Yellow <==> c != Red && failed == Default
  {
    if peer.Some? && !peer.value.failing then
      (if failed == Default then Yellow else Green)
    else Red
  }

  /** The peer rule is the decision table with the failed processor marked failing. */
  lemma PeerColorIsTableWithFailedMarked(failed: Processor, peer: ProcessorHealth, threshold: int)
    ensures PeerColor(failed, Some(peer)) ==
            (if failed == Default then DefineTheColor(FAILURE, peer, threshold)
             else DefineTheColor(peer, FAILURE, threshold))
  {
  }

  /** What both probes of one recovery round answered. */
  datatype Round = Round(defaultProbe: ProbeOutcome, fallbackProbe: ProbeOutcome)

  /** The color one recovery round yields when the probes really run. */
  function RoundColor(r: Round, threshold: int): Color {
    DefineTheColor(Classify(r.defaultProbe), Classify(r.fallbackProbe), threshold)
  }

  /** The first round whose color is not RED, if any. */
  function FirstNonRedRound(rounds: seq<Round>, threshold: int): (k: Option<nat>)
    ensures k.Some? ==> k.value < |rounds| && RoundColor(rounds[k.value], threshold) != Red
    ensures k.Some? ==> forall j :: 0 <= j < k.value ==> RoundColor(rounds[j], threshold) == Red
    ensures k.None? <==> forall j :: 0 <= j < |rounds| ==> RoundColor(rounds[j], threshold) == Red
  {
    if rounds == [] then None
    else if RoundColor(rounds[0], threshold) != Red then Some(0)
    else
      match FirstNonRedRound(rounds[1..], threshold)
      case None => None
      case Some(k) => Some(k + 1)
  }

  /**
   * What the recovery loop returns when it starts from `cached`: the cached color
   * if it is not RED, else the color of the first round that is not RED; None
   * when every given round is RED, i.e. the loop is still polling.
   */
  function RecoveryResult(cached: Color, rounds: seq<Round>, threshold: int): (r: Option<Color>)
    ensures r.Some? ==> r.value != Red
    ensures r.None? <==>
              cached == Red && forall j :: 0 <= j < |rounds| ==> RoundColor(rounds[j], threshold) == Red
  {
    if cached != Red then Some(cached)
    else
      match FirstNonRedRound(rounds, threshold)
      case None => None
      case Some(k) => Some(RoundColor(rounds[k], threshold))
  }

  class CircuitBreaker {
    const latencyDiffToUseFallback: int
    var cachedColor: Color
    /** Raised while `signal` probes, so that concurrent probes answer "failing" at once. */
    var openedHealth: bool
    /** Raised while the recovery loop runs. */
    var poolingHealth: bool

    constructor (latencyDiffToUseFallback: int)
      ensures this.latencyDiffToUseFallback == latencyDiffToUseFallback
      ensures cachedColor == Green && !openedHealth && !poolingHealth
    {
      this.latencyDiffToUseFallback := latencyDiffToUseFallback;
      cachedColor := Green;
      openedHealth := false;
      poolingHealth := false;
    }

    /** `health`: while `openedHealth` is raised the probe is not issued and counts as failing. */
    function Health(probe: ProbeOutcome): (h: ProcessorHealth)
      reads this
      ensures openedHealth ==> h == FAILURE
      ensures !openedHealth ==> h == Classify(probe)
    {
      if openedHealth then FAILURE else Classify(probe)
    }

    /**
     * `getCurrentColor`: the cached color, with no time-to-live and no re-read of
     * the shared store.
     */
    function GetCurrentColor(): (c: Color)
      reads this
      ensures c == cachedColor
    {
      cachedColor
    }

    /** `color`: writing the color it already holds changes nothing. */
    method SetColor(c: Color)
      modifies this`cachedColor
      ensures cachedColor == c
    {
      if cachedColor == c {
        return;
      }
      cachedColor := c;
    }

    /**
     * `cronToCheckTheHealth`. Returns RED at once when a loop already runs.
     * Otherwise it clears `openedHealth`, raises `poolingHealth`, and returns the
     * first non-RED color, read from the cache or computed from a round of probes,
     * lowering `poolingHealth` on the way out. When the given rounds run out while
     * every one was RED, the loop has not returned yet: the result is None and
     * `poolingHealth` stays raised.
     */
    method CronToCheckTheHealth(rounds: seq<Round>) returns (r: Option<Color>)
      modifies this`poolingHealth, this`openedHealth
      ensures old(poolingHealth) ==> r == Some(Red) && poolingHealth && openedHealth == old(openedHealth)
      ensures !old(poolingHealth) ==>
                && r == RecoveryResult(cachedColor, rounds, latencyDiffToUseFallback)
                && !openedHealth
                && poolingHealth == r.None?
    {
      if poolingHealth {
        return Some(Red);
      }
      poolingHealth := true;
      openedHealth := false;
      var i := 0;
      while true
        invariant 0 <= i <= |rounds|
        invariant poolingHealth && !openedHealth
        invariant i > 0 ==> cachedColor == Red
        invariant forall j :: 0 <= j < i ==> RoundColor(rounds[j], latencyDiffToUseFallback) == Red
        decreases |rounds| - i
      {
        var newColor := GetCurrentColor();
        if newColor != Red {
          poolingHealth := false;
          return Some(newColor);
        }
        if i == |rounds| {
          return None;
        }
        // health() never answers null here, so the `|| FAILURE` fallback never applies
        var healthDefault := Health(rounds[i].defaultProbe);
        var healthFallback := Health(rounds[i].fallbackProbe);
        var color := DefineTheColor(healthDefault, healthFallback, latencyDiffToUseFallback);
        if color != Red {
          poolingHealth := false;
          return Some(color);
        }
        // sleep HEALTH_INTERVAL, then poll again
        i := i + 1;
      }
    }

    /**
     * `signal(processor)`, with `peerProbe` what a probe of the other processor
     * would answer and `rounds` what the recovery loop's probes answer. A running
     * recovery loop makes it answer RED and change nothing. Otherwise it raises
     * `openedHealth` before probing, so the probe counts as failing; the color
     * becomes RED, the recovery loop runs, and its non-RED result, if reached, is
     * written to the cache. The answer is RED either way.
     */
    method Signal(processor: Processor, peerProbe: ProbeOutcome, rounds: seq<Round>)
      returns (r: Option<Color>)
      modifies this`cachedColor, this`openedHealth, this`poolingHealth
      ensures r == Some(Red)
      ensures old(poolingHealth) ==>
                cachedColor == old(cachedColor) && openedHealth == old(openedHealth) && poolingHealth
      ensures !old(poolingHealth) ==>
                && !openedHealth
                && var k := FirstNonRedRound(rounds, latencyDiffToUseFallback);
                && (k.Some? ==> cachedColor == RoundColor(rounds[k.value], latencyDiffToUseFallback) && !poolingHealth)
                && (k.None? ==> cachedColor == Red && poolingHealth)
    {
      if poolingHealth {
        return Some(Red);
      }
      openedHealth := true;
      var health := Health(peerProbe);
      openedHealth := false;
      var newColor := PeerColor(processor, Some(health));
      SetColor(newColor);
      if newColor != Red {
        r := Some(newColor);
        return;
      }
      var recoveredColor := CronToCheckTheHealth(rounds);
      if recoveredColor.Some? && recoveredColor.value != Red {
        SetColor(recoveredColor.value);
      }
      return Some(Red);
    }
  }
}
