/**
  What the order service exchanges with its remote collaborators (cart,
  catalog, payment services): the transfer shapes, the payment constants,
  the collaborators themselves as oracles, and the record of calls issued.
 */
module OrderClients {
  import opened Wrappers
  import opened OrderModel

  // Payment statuses and methods as the payment service spells them.
  const PAYMENT_STATUS_PENDING: string := "PENDING"
  const PAYMENT_STATUS_COMPLETED: string := "COMPLETED"
  const PAYMENT_STATUS_FAILED: string := "FAILED"
  const PAYMENT_STATUS_REFUNDED: string := "REFUNDED"
  const PAYMENT_STATUS_CANCELLED: string := "CANCELLED"

  const PAYMENT_METHOD_CREDIT_CARD: string := "CREDIT_CARD"
  const PAYMENT_METHOD_DEBIT_CARD: string := "DEBIT_CARD"
  const PAYMENT_METHOD_ELECTRONIC_WALLET: string := "ELECTRONIC_WALLET"
  const PAYMENT_METHOD_CASH_ON_DELIVERY: string := "CASH_ON_DELIVERY"

  datatype CartItemDto = CartItemDto(productId: int, productName: string, price: int, quantity: int)

  datatype CartDto = CartDto(userId: int, username: string, totalAmount: int, items: seq<CartItemDto>)

  datatype ProductDto = ProductDto(id: int, name: string, price: int, available: bool)

  /** A create-order request: addresses, payment method, notes and credentials. */
  datatype OrderRequest = OrderRequest(
    userId: int,
    shippingAddress: string,
    billingAddress: string,
    paymentMethod: PaymentMethod,
    notes: Option<string>,
    cardNumber: Option<string>,
    cardHolderName: Option<string>,
    expiryDate: Option<string>,
    cvv: Option<string>,
    accountNumber: Option<string>,
    bankCode: Option<string>,
    walletId: Option<string>)

  /** A status-update request. */
  datatype StatusUpdate = StatusUpdate(status: OrderStatus, notes: Option<string>, trackingNumber: Option<string>)

  datatype PaymentRequestDto = PaymentRequestDto(
    orderId: int,
    amount: int,
    paymentMethod: string,
    cardNumber: Option<string>,
    cardHolderName: Option<string>,
    expiryDate: Option<string>,
    cvv: Option<string>,
    accountNumber: Option<string>,
    bankCode: Option<string>,
    walletId: Option<string>)

  datatype PaymentResponseDto = PaymentResponseDto(
    paymentId: Option<int>,
    orderId: Option<int>,
    amount: Option<int>,
    status: Option<string>,
    paymentMethod: Option<string>,
    transactionId: Option<string>,
    message: Option<string>)

  datatype RefundRequestDto = RefundRequestDto(paymentId: int, reason: Option<string>)

  /** One call the order service makes to a collaborator, with its arguments. */
  datatype Call =
    | CartFetch(userId: int)
    | CartClear(userId: int)
    | ProductFetch(productId: int)
    | StockUpdate(productId: int, delta: int)
    | PaymentCharge(request: PaymentRequestDto)
    | PaymentRefund(refund: RefundRequestDto)
    | PaymentCancel(paymentId: int)
    | PaymentStatusFetch(paymentId: int)
    | Notification(orderId: int, eventType: string)

  /**
    The remote collaborators, as oracles: for each request, the answer the
    collaborator gives. A payment answer may carry a null body.
   */
  datatype Env = Env(
    cartOf: int -> Remote<CartDto>,
    clearCart: int -> Remote<()>,
    productOf: int -> Remote<ProductDto>,
    updateStock: (int, int) -> Remote<()>,
    charge: PaymentRequestDto -> Remote<Option<PaymentResponseDto>>,
    refund: RefundRequestDto -> Remote<Option<PaymentResponseDto>>,
    cancel: int -> Remote<()>,
    paymentStatus: int -> Remote<Option<PaymentResponseDto>>)

  /** The calls a facade issued, in order, and what it returned or raised. */
  datatype Step<+T> = Step(calls: seq<Call>, result: Result<T>)
}
