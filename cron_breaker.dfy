/**
 * The breaker of the BullMQ variant: a scheduled check probes both processors,
 * stores each answer as that processor's health snapshot, and recomputes the color
 * with a fixed 5000 ms latency limit on the default processor. Probe answers are
 * inputs; each scheduled run is one call of `CheckHealth`.
 */
module CronCircuitBreaker {
  import opened CircuitBreakerTypes
  import CircuitBreakerService

  const MAX_DEFAULT_RESPONSE_TIME := 5000

  /** A health probe here: any error, a 429 included, stores the failing snapshot. */
  function ProbeSnapshot(p: ProbeOutcome): (h: ProcessorHealth)
    ensures p.Ok? ==> h == p.body
    ensures !p.Ok? ==> h == FAILURE
  {
    if p.Ok? then p.body else FAILURE
  }

  /** The rule of `updateCircuitBreakerColor`. */
  function CronColor(payment: ProcessorHealth, fallback: ProcessorHealth): (c: Color)
    ensures c == Green <==>
              (!payment.failing && payment.minResponseTime <= MAX_DEFAULT_RESPONSE_TIME) ||
              (!payment.failing && fallback.failing)
    ensures c == Yellow <==>
              (payment.failing || payment.minResponseTime > MAX_DEFAULT_RESPONSE_TIME) && !fallback.failing
    ensures c == Red <==> payment.failing && fallback.failing
  {
    if !payment.failing && payment.minResponseTime <= MAX_DEFAULT_RESPONSE_TIME then Green
    else if (payment.failing || payment.minResponseTime > MAX_DEFAULT_RESPONSE_TIME) && !fallback.failing then Yellow
    else if payment.failing && fallback.failing then Red
    else Green
  }

  /** Only whether fallback is failing matters; its response time is never read. */
  lemma FallbackLatencyIgnored(payment: ProcessorHealth, fallback: ProcessorHealth, fallback': ProcessorHealth)
    requires fallback.failing == fallback'.failing
    ensures CronColor(payment, fallback) == CronColor(payment, fallback')
  {
  }

  /**
   * Both breakers agree on RED, and neither routes to a processor whose snapshot
   * is failing.
   */
  lemma CronRoutesToHealthyProcessor(payment: ProcessorHealth, fallback: ProcessorHealth, threshold: int)
    ensures CronColor(payment, fallback) == Green ==> !payment.failing
    ensures CronColor(payment, fallback) == Yellow ==> !fallback.failing
    ensures CronColor(payment, fallback) == Red <==>
            CircuitBreakerService.DefineTheColor(payment, fallback, threshold) == Red
  {
  }

  /** What `getHealthStatus` returns. */
  datatype HealthStatus = HealthStatus(color: Color, payment: ProcessorHealth, fallback: ProcessorHealth)

  class CronBreaker {
    var currentColor: Color
    var paymentHealth: ProcessorHealth
    var fallbackHealth: ProcessorHealth

    constructor ()
      ensures currentColor == Green
      ensures paymentHealth == ProcessorHealth(false, 0) && fallbackHealth == ProcessorHealth(false, 0)
    {
      currentColor := Green;
      paymentHealth := ProcessorHealth(false, 0);
      fallbackHealth := ProcessorHealth(false, 0);
    }

    method CheckPaymentHealth(probe: ProbeOutcome)
      modifies this`paymentHealth
      ensures paymentHealth == ProbeSnapshot(probe)
    {
      if probe.Ok? {
        paymentHealth := probe.body;
      } else {
        paymentHealth := FAILURE;
      }
    }

    method CheckFallbackHealth(probe: ProbeOutcome)
      modifies this`fallbackHealth
      ensures fallbackHealth == ProbeSnapshot(probe)
    {
      if probe.Ok? {
        fallbackHealth := probe.body;
      } else {
        fallbackHealth := FAILURE;
      }
    }

    method UpdateCircuitBreakerColor()
      modifies this`currentColor
      ensures currentColor == CronColor(paymentHealth, fallbackHealth)
    {
      var paymentFailing, paymentResponseTime := paymentHealth.failing, paymentHealth.minResponseTime;
      var fallbackFailing := fallbackHealth.failing;
      if !paymentFailing && paymentResponseTime <= MAX_DEFAULT_RESPONSE_TIME {
        currentColor := Green;
      } else if (paymentFailing || paymentResponseTime > MAX_DEFAULT_RESPONSE_TIME) && !fallbackFailing {
        currentColor := Yellow;
      } else if paymentFailing && fallbackFailing {
        currentColor := Red;
      } else {
        currentColor := Green;
      }
    }

    /** One scheduled `checkHealth`: both probes, then the color. */
    method CheckHealth(paymentProbe: ProbeOutcome, fallbackProbe: ProbeOutcome)
      modifies this
      ensures paymentHealth == ProbeSnapshot(paymentProbe) && fallbackHealth == ProbeSnapshot(fallbackProbe)
      ensures currentColor == CronColor(ProbeSnapshot(paymentProbe), ProbeSnapshot(fallbackProbe))
    {
      CheckPaymentHealth(paymentProbe);
      CheckFallbackHealth(fallbackProbe);
      UpdateCircuitBreakerColor();
    }

    /** `getCurrentColor`: the color set by the last scheduled check, GREEN before the first. */
    function GetCurrentColor(): (c: Color)
      reads this
      ensures c == currentColor
    {
      currentColor
    }

    function GetHealthStatus(): (s: HealthStatus)
      reads this
      ensures s.color == currentColor && s.payment == paymentHealth && s.fallback == fallbackHealth
    {
      HealthStatus(currentColor, paymentHealth, fallbackHealth)
    }
  }
}
