/** The payment service's records and messages. */
module PaymentModel {
  import opened Wrappers

  datatype PaymentMethod = CREDIT_CARD | DEBIT_CARD | BANK_TRANSFER | ELECTRONIC_WALLET | CASH_ON_DELIVERY

  datatype PaymentStatus = PENDING | PROCESSING | COMPLETED | FAILED | REFUNDED | CANCELLED

  /** An incoming charge request: the method decides which credential fields matter. */
  datatype PaymentRequest = PaymentRequest(
    orderId: int,
    amount: int,
    paymentMethod: PaymentMethod,
    cardNumber: Option<string>,
    cardHolderName: Option<string>,
    expiryDate: Option<string>,
    cvv: Option<string>,
    accountNumber: Option<string>,
    bankCode: Option<string>,
    walletId: Option<string>)

  /** A stored payment record; amounts are in minor units. */
  datatype Payment = Payment(
    id: int,
    orderId: int,
    amount: int,
    status: PaymentStatus,
    paymentMethod: PaymentMethod,
    transactionId: Option<string>)

  datatype PaymentResponse = PaymentResponse(
    paymentId: int,
    orderId: int,
    amount: int,
    status: PaymentStatus,
    paymentMethod: PaymentMethod,
    transactionId: Option<string>,
    message: string)

  /** A refund request names the payment; the reason is informational. */
  datatype RefundRequest = RefundRequest(paymentId: int, reason: Option<string>)
}
