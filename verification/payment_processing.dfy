/**
  The order service's facade over the payment service: method mapping,
  request building, and translation of every failure into
  PaymentProcessingException.
 */
module PaymentProcessingService {
  import opened Wrappers
  import opened OrderModel
  import opened OrderClients

  /** `mapToPaymentServiceMethod`: the payment-service code of each order payment method. */
  function MapToPaymentServiceMethod(m: PaymentMethod): (code: string)
    ensures code in {PAYMENT_METHOD_CREDIT_CARD, PAYMENT_METHOD_ELECTRONIC_WALLET, PAYMENT_METHOD_CASH_ON_DELIVERY}
    ensures code != PAYMENT_METHOD_DEBIT_CARD
  {
    match m
    case CARD => PAYMENT_METHOD_CREDIT_CARD
    case FPS => PAYMENT_METHOD_ELECTRONIC_WALLET
    case CASH => PAYMENT_METHOD_CASH_ON_DELIVERY
  }

  /** Reads a payment-service method code back as an order payment method. */
  function PaymentMethodOfCode(code: string): Option<PaymentMethod>
  {
    if code == PAYMENT_METHOD_CREDIT_CARD then Some(CARD)
    else if code == PAYMENT_METHOD_ELECTRONIC_WALLET then Some(FPS)
    else if code == PAYMENT_METHOD_CASH_ON_DELIVERY then Some(CASH)
    else None
  }

  /** The mapping loses nothing: each method is recovered from its code, so no two share one. */
  lemma MethodMappingRoundTrip(m: PaymentMethod)
    ensures PaymentMethodOfCode(MapToPaymentServiceMethod(m)) == Some(m)
  {
  }

  /**
    The request `processPayment` sends: the order's id and total, the mapped
    method, card credentials only for a card code, the wallet id only for the
    wallet code, and never the bank-transfer fields.
   */
  function BuildPaymentRequest(order: Order, req: OrderRequest): (p: PaymentRequestDto)
    ensures p.orderId == order.id && p.amount == order.totalAmount
    ensures p.paymentMethod == MapToPaymentServiceMethod(order.paymentMethod)
    ensures p.paymentMethod in {PAYMENT_METHOD_CREDIT_CARD, PAYMENT_METHOD_DEBIT_CARD} ==>
              && p.cardNumber == req.cardNumber
              && p.cardHolderName == req.cardHolderName
              && p.expiryDate == req.expiryDate
              && p.cvv == req.cvv
              && p.walletId == None
    ensures p.paymentMethod == PAYMENT_METHOD_ELECTRONIC_WALLET ==>
              && p.walletId == req.walletId
              && p.cardNumber == None && p.cardHolderName == None && p.expiryDate == None && p.cvv == None
    ensures p.paymentMethod == PAYMENT_METHOD_CASH_ON_DELIVERY ==>
              && p.walletId == None
              && p.cardNumber == None && p.cardHolderName == None && p.expiryDate == None && p.cvv == None
    ensures p.accountNumber == None && p.bankCode == None
  {
    var code := MapToPaymentServiceMethod(order.paymentMethod);
    var base := PaymentRequestDto(order.id, order.totalAmount, code, None, None, None, None, None, None, None);
    if code == PAYMENT_METHOD_CREDIT_CARD || code == PAYMENT_METHOD_DEBIT_CARD then
      base.(cardNumber := req.cardNumber, cardHolderName := req.cardHolderName,
            expiryDate := req.expiryDate, cvv := req.cvv)
    else if code == PAYMENT_METHOD_ELECTRONIC_WALLET then
      base.(walletId := req.walletId)
    else
      base
  }

  /**
    `processPayment`: sends the built request; a decoded body is returned as
    is, and a null body or a transport failure raises
    PaymentProcessingException.
   */
  function ProcessPayment(env: Env, order: Order, req: OrderRequest): (r: Step<PaymentResponseDto>)
    ensures r.calls == [PaymentCharge(BuildPaymentRequest(order, req))]
    ensures r.result.Ok? <==>
              env.charge(BuildPaymentRequest(order, req)).Reply? && env.charge(BuildPaymentRequest(order, req)).body.Some?
    ensures r.result.Ok? ==> r.result.value == env.charge(BuildPaymentRequest(order, req)).body.value
    ensures r.result.Err? ==> r.result.error == PaymentProcessing
  {
    var request := BuildPaymentRequest(order, req);
    var result :=
      match env.charge(request)
      case Reply(Some(response)) => Ok(response)
      case Reply(None) => Err(PaymentProcessing)
      case NotFound => Err(PaymentProcessing)
      case Failed => Err(PaymentProcessing);
    Step([PaymentCharge(request)], result)
  }

  /** `cancelPayment`: completes when the payment service answers; any failure raises. */
  function CancelPayment(env: Env, paymentId: int): (r: Step<()>)
    ensures r.calls == [PaymentCancel(paymentId)]
    ensures r.result.Ok? <==> env.cancel(paymentId).Reply?
    ensures r.result.Err? ==> r.result.error == PaymentProcessing
  {
    var result :=
      match env.cancel(paymentId)
      case Reply(_) => Ok(())
      case NotFound => Err(PaymentProcessing)
      case Failed => Err(PaymentProcessing);
    Step([PaymentCancel(paymentId)], result)
  }

  /**
    `refundPayment`: returns only a response whose status is "REFUNDED"; a
    null body, any other status and a transport failure all raise
    PaymentProcessingException.
   */
  function RefundPayment(env: Env, paymentId: int, reason: Option<string>): (r: Step<PaymentResponseDto>)
    ensures r.calls == [PaymentRefund(RefundRequestDto(paymentId, reason))]
    ensures r.result.Ok? ==> r.result.value.status == Some(PAYMENT_STATUS_REFUNDED)
    ensures r.result.Ok? <==>
              && env.refund(RefundRequestDto(paymentId, reason)).Reply?
              && env.refund(RefundRequestDto(paymentId, reason)).body.Some?
              && env.refund(RefundRequestDto(paymentId, reason)).body.value.status == Some(PAYMENT_STATUS_REFUNDED)
    ensures r.result.Ok? ==> r.result.value == env.refund(RefundRequestDto(paymentId, reason)).body.value
    ensures r.result.Err? ==> r.result.error == PaymentProcessing
  {
    var request := RefundRequestDto(paymentId, reason);
    var result :=
      match env.refund(request)
      case Reply(Some(response)) =>
        if response.status != Some(PAYMENT_STATUS_REFUNDED) then Err(PaymentProcessing) else Ok(response)
      case Reply(None) => Err(PaymentProcessing)
      case NotFound => Err(PaymentProcessing)
      case Failed => Err(PaymentProcessing);
    Step([PaymentRefund(request)], result)
  }

  /** `getPaymentStatus`: the decoded body; a null body or a transport failure raises. */
  function GetPaymentStatus(env: Env, paymentId: int): (r: Step<PaymentResponseDto>)
    ensures r.calls == [PaymentStatusFetch(paymentId)]
    ensures r.result.Ok? <==> env.paymentStatus(paymentId).Reply? && env.paymentStatus(paymentId).body.Some?
    ensures r.result.Ok? ==> r.result.value == env.paymentStatus(paymentId).body.value
    ensures r.result.Err? ==> r.result.error == PaymentProcessing
  {
    var result :=
      match env.paymentStatus(paymentId)
      case Reply(Some(response)) => Ok(response)
      case Reply(None) => Err(PaymentProcessing)
      case NotFound => Err(PaymentProcessing)
      case Failed => Err(PaymentProcessing);
    Step([PaymentStatusFetch(paymentId)], result)
  }
}
