/** Payment data shared by both variants; amounts are in integer cents. */
module PaymentData {
  /** A payment as clients submit it. */
  datatype PaymentDto = PaymentDto(correlationId: string, amount: int)

  /** What a summary query answers for one processor. */
  datatype Summary = Summary(totalRequests: int, totalAmount: int)

  const ZERO_SUMMARY := Summary(0, 0)
}
