/**
  The order service's resilience layer: one guarded call per collaborator
  operation, each with a fixed fallback value or action.
 */
module CircuitBreakerService {
  import opened Wrappers
  import opened OrderModel
  import opened OrderClients
  import opened Resilience
  import CartManagementService
  import InventoryService
  import PaymentProcessingService

  const UNKNOWN_USERNAME: string := "Unknown"
  const PAYMENT_UNAVAILABLE_MESSAGE: string :=
    "Payment service is currently unavailable. Payment will be processed later."

  /** `getUserCartFallback`: an empty cart for the requested user. */
  function GetUserCartFallback(userId: int): (c: CartDto)
    ensures c.userId == userId && c.username == UNKNOWN_USERNAME
    ensures c.totalAmount == 0 && c.items == []
  {
    CartDto(userId, UNKNOWN_USERNAME, 0, [])
  }

  /**
    Guarded `getUserCart`: never raises. It yields the fetched cart when that
    cart has items, and the empty fallback cart otherwise, because the facade's
    empty-cart exception is itself caught by the breaker.
   */
  function GetUserCart(env: Env, userId: int): (r: Step<CartDto>)
    ensures r.calls == [CartFetch(userId)]
    ensures r.result.Ok?
    ensures CartManagementService.GetUserCart(env, userId).result.Ok? ==>
              r.result == CartManagementService.GetUserCart(env, userId).result
    ensures env.cartOf(userId).Reply? && |env.cartOf(userId).body.items| > 0 ==>
              r.result.value == env.cartOf(userId).body
    ensures |r.result.value.items| > 0 || r.result.value == GetUserCartFallback(userId)
  {
    var s := CartManagementService.GetUserCart(env, userId);
    Step(s.calls, Guard(s.result, Ok(GetUserCartFallback(userId))))
  }

  /** Guarded `clearUserCart`: the fallback only logs, so the call always completes. */
  function ClearUserCart(env: Env, userId: int): (r: Step<()>)
    ensures r.calls == [CartClear(userId)]
    ensures r.result == Ok(())
  {
    var s := CartManagementService.ClearUserCart(env, userId);
    Step(s.calls, Guard(s.result, Ok(())))
  }

  /**
    Guarded `isProductAvailable`: the product's flag when the lookup succeeds,
    and `true` (fail-open) when it fails for any reason, a 404 included.
   */
  function IsProductAvailable(env: Env, productId: int): (r: Step<bool>)
    ensures r.calls == [ProductFetch(productId)]
    ensures r.result.Ok?
    ensures env.productOf(productId).Reply? ==> r.result.value == env.productOf(productId).body.available
    ensures !env.productOf(productId).Reply? ==> r.result.value
  {
    var s := InventoryService.IsProductAvailable(env, productId);
    Step(s.calls, Guard(s.result, Ok(true)))
  }

  /** `processPaymentFallback`: a PENDING response whose payment id is the negated order id. */
  function ProcessPaymentFallback(order: Order): (p: PaymentResponseDto)
    ensures p.status == Some(PAYMENT_STATUS_PENDING)
    ensures p.status != Some(PAYMENT_STATUS_COMPLETED)
    ensures p.paymentId == Some(-order.id)
  {
    PaymentResponseDto(Some(-1 * order.id), None, None, Some(PAYMENT_STATUS_PENDING), None, None,
                       Some(PAYMENT_UNAVAILABLE_MESSAGE))
  }

  /** Guarded `processPayment`: never raises; the facade's response or the PENDING fallback. */
  function ProcessPayment(env: Env, order: Order, req: OrderRequest): (r: Step<PaymentResponseDto>)
    ensures r.calls == PaymentProcessingService.ProcessPayment(env, order, req).calls
    ensures r.result.Ok?
    ensures PaymentProcessingService.ProcessPayment(env, order, req).result.Ok? ==>
              r.result == PaymentProcessingService.ProcessPayment(env, order, req).result
    ensures PaymentProcessingService.ProcessPayment(env, order, req).result.Err? ==>
              r.result.value == ProcessPaymentFallback(order)
  {
    var s := PaymentProcessingService.ProcessPayment(env, order, req);
    Step(s.calls, Guard(s.result, Ok(ProcessPaymentFallback(order))))
  }

  /** Guarded `cancelPayment`: the fallback only logs a deferred retry, so it always completes. */
  function CancelPayment(env: Env, paymentId: int): (r: Step<()>)
    ensures r.calls == [PaymentCancel(paymentId)]
    ensures r.result == Ok(())
  {
    var s := PaymentProcessingService.CancelPayment(env, paymentId);
    Step(s.calls, Guard(s.result, Ok(())))
  }

  /** Guarded `refundPayment`: its fallback raises, so a failed refund is never silent. */
  function RefundPayment(env: Env, paymentId: int, reason: Option<string>): (r: Step<()>)
    ensures r.calls == [PaymentRefund(RefundRequestDto(paymentId, reason))]
    ensures r.result.Ok? <==> PaymentProcessingService.RefundPayment(env, paymentId, reason).result.Ok?
    ensures r.result.Err? ==> r.result.error == PaymentProcessing
  {
    var s := PaymentProcessingService.RefundPayment(env, paymentId, reason);
    var underlying: Result<()> := if s.result.Ok? then Ok(()) else Err(s.result.error);
    Step(s.calls, Guard(underlying, Err(PaymentProcessing)))
  }

  /**
    Guarded `sendOrderNotification`. The notification service only logs the
    event, and the fallback only logs too: the event is requested and the
    call always completes.
   */
  function SendOrderNotification(order: Order, eventType: string): (r: Step<()>)
    ensures r.calls == [Notification(order.id, eventType)]
    ensures r.result == Ok(())
  {
    Step([Notification(order.id, eventType)], Ok(()))
  }

  /**
    `increaseStock`, which the order service calls on this component but which
    the component does not define; given the never-raising semantics of the
    inventory facade's `increaseStock`.
   */
  function IncreaseStock(env: Env, productId: int, quantity: int): (r: Step<()>)
    ensures r.calls == [StockUpdate(productId, quantity)]
    ensures r.result == Ok(())
  {
    var s := InventoryService.IncreaseStock(env, productId, quantity);
    Step(s.calls, Guard(s.result, Ok(())))
  }
}
