/**
 * Shared vocabulary of the circuit breaker: routing colors, processor identity,
 * health snapshots, the health-check configuration and the messages exchanged
 * between the main thread and the health-check worker.
 */
module CircuitBreakerTypes {

  datatype Option<+T> = None | Some(value: T) {
    function GetOr(default: T): T {
      match this
      case Some(v) => v
      case None => default
    }
  }

  /** Routing color: GREEN routes to default, YELLOW to fallback, RED to neither. */
  datatype Color = Green | Yellow | Red

  /** The string value the color enum carries ('green', 'yellow', 'red'). */
  function ColorName(c: Color): string {
    match c
    case Green => "green"
    case Yellow => "yellow"
    case Red => "red"
  }

  /** The two downstream payment processors. */
  datatype Processor = Default | Fallback

  /** The string value the processor enum carries, used in store keys. */
  function ProcessorName(p: Processor): string {
    match p
    case Default => "default"
    case Fallback => "fallback"
  }

  /** Body of a processor's `/payments/service-health` answer; times in ms. */
  datatype ProcessorHealth = ProcessorHealth(failing: bool, minResponseTime: int)

  /** The synthetic "failing" snapshot used whenever a probe gives no usable answer. */
  const FAILURE := ProcessorHealth(true, 0)

  /**
   * What one HTTP health probe produced: a body, a 429 (throttled) answer, or any
   * other error (non-2xx status, timeout, network error).
   */
  datatype ProbeOutcome = Ok(body: ProcessorHealth) | Throttled | Err

  /** The worker's configuration; URLs are opaque strings. */
  datatype HealthCheckConfig = HealthCheckConfig(
    defaultUrl: string,
    fallbackUrl: string,
    healthInterval: int,
    healthTimeout: int,
    latencyDiffToUseFallback: int)

  /** Every message either side of the worker channel can send. */
  datatype WorkerMessage =
    | ColorUpdate(color: Color, timestamp: int)
    | ConfigUpdate(config: HealthCheckConfig)
    | SignalFailure(processor: Processor, timestamp: int)
    | WorkerReady
    | Shutdown

  /** The messages the main thread sends to the worker. */
  type MainThreadMessage = m: WorkerMessage | m.ConfigUpdate? || m.SignalFailure? || m.Shutdown?
    witness Shutdown
}
