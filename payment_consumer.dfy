/**
 * The job handler of the BullMQ variant: it reads the breaker color once and takes
 * exactly one action, either putting the job back on the queue or dispatching it to
 * one processor.
 */
module PaymentConsumer {
  import opened CircuitBreakerTypes
  import opened PaymentData
  import CircuitBreakerService

  /** The options a job is added with. */
  datatype JobOptions = JobOptions(priority: int, backoffType: string, backoffDelay: int)

  const REQUEUE_OPTIONS := JobOptions(1, "exponential", 1000)

  datatype Action =
    | Requeue(data: PaymentDto, options: JobOptions)
    | Dispatch(processor: Processor, data: PaymentDto)

  /** `requeuePayment`: the job's data, unchanged, added again with priority 1 and exponential backoff. */
  function RequeuePayment(data: PaymentDto): (a: Action)
    ensures a.Requeue? && a.data == data
    ensures a.options.priority == 1 && a.options.backoffType == "exponential" && a.options.backoffDelay == 1000
  {
    Requeue(data, REQUEUE_OPTIONS)
  }

  /** `process`: RED requeues, GREEN dispatches to default, YELLOW to fallback. */
  function Process(color: Color, data: PaymentDto): (a: Action)
    ensures a.Requeue? <==> color == Red
    ensures a.Requeue? ==> a == RequeuePayment(data)
    ensures a.Dispatch? ==> a.data == data
    ensures a.Dispatch? ==> (a.processor == Default <==> color == Green)
  {
    match color
    case Red => RequeuePayment(data)
    case Green => Dispatch(Default, data)
    case Yellow => Dispatch(Fallback, data)
  }

  /**
   * The color comes from the in-process breaker. When it holds what its decision
   * table made of two snapshots, a job is dispatched only to a processor whose
   * snapshot was not failing, and requeued only when both were.
   */
  lemma DispatchAvoidsFailingProcessor(payment: ProcessorHealth, fallback: ProcessorHealth, threshold: int,
                                       data: PaymentDto)
    ensures var a := Process(CircuitBreakerService.DefineTheColor(payment, fallback, threshold), data);
            && (a.Dispatch? && a.processor == Default ==> !payment.failing)
            && (a.Dispatch? && a.processor == Fallback ==> !fallback.failing)
            && (a.Requeue? <==> payment.failing && fallback.failing)
  {
  }
}
