/**
  Properties of the order orchestrator that relate several operations, or
  that pin down how the wiring behaves in the situations a reader might
  expect to go otherwise.
 */
module OrderProperties {
  import opened Wrappers
  import opened OrderModel
  import opened OrderClients
  import opened OrderService
  import OrderStatusService
  import CircuitBreakerService
  import PaymentProcessingService

  /** Creating an order keeps the store well-formed. */
  lemma CreateOrderKeepsStoreValid(store: OrderStore, req: OrderRequest, env: Env)
    requires ValidStore(store)
    ensures ValidStore(CreateOrder(store, req, env).store)
  {
  }

  /** A status update keeps the store well-formed. */
  lemma UpdateOrderStatusKeepsStoreValid(store: OrderStore, orderId: int, upd: StatusUpdate, env: Env)
    requires ValidStore(store)
    ensures ValidStore(UpdateOrderStatus(store, orderId, upd, env).store)
  {
  }

  /** A cancellation keeps the store well-formed. */
  lemma CancelOrderKeepsStoreValid(store: OrderStore, orderId: int, reason: Option<string>, env: Env)
    requires ValidStore(store)
    ensures ValidStore(CancelOrder(store, orderId, reason, env).store)
  {
  }

  /**
    A new order ends CREATED, PENDING or PAID, and each of these is a status
    the lifecycle allows an order starting CREATED to be in.
   */
  lemma CreatedOrderStatusIsLegal(store: OrderStore, req: OrderRequest, env: Env)
    requires CreateOrder(store, req, env).result.Ok?
    ensures CreateOrder(store, req, env).result.value.status in {CREATED, PENDING, PAID}
    ensures OrderStatusService.ValidateStatusTransition(CREATED, CreateOrder(store, req, env).result.value.status).Ok?
  {
  }

  /** Every status a successful update or cancellation saves is a legal move from the stored one. */
  lemma StatusChangesFollowLifecycle(store: OrderStore, orderId: int, upd: StatusUpdate, reason: Option<string>, env: Env)
    ensures UpdateOrderStatus(store, orderId, upd, env).result.Ok? ==>
              OrderStatusService.ValidateStatusTransition(
                store.orders[orderId].status, UpdateOrderStatus(store, orderId, upd, env).result.value.status).Ok?
    ensures CancelOrder(store, orderId, reason, env).result.Ok? ==>
              OrderStatusService.ValidateStatusTransition(store.orders[orderId].status, CANCELLED).Ok?
  {
    if CancelOrder(store, orderId, reason, env).result.Ok? {
      OrderStatusService.CancellableIffCancelTransitionValid(store.orders[orderId].status);
    }
  }

  /**
    The empty-cart check does not stop order creation: the facade's empty-cart
    exception, like a cart-service outage, is absorbed by the breaker, and the
    order is built from the empty fallback cart with no lines, a zero total
    and the username "Unknown".
   */
  lemma EmptyCartYieldsItemlessOrder(store: OrderStore, req: OrderRequest, env: Env)
    requires !env.cartOf(req.userId).Reply? || |env.cartOf(req.userId).body.items| == 0
    ensures CreateOrder(store, req, env).result.Ok?
    ensures CreateOrder(store, req, env).result.value.items == []
    ensures CreateOrder(store, req, env).result.value.totalAmount == 0
    ensures CreateOrder(store, req, env).result.value.username == CircuitBreakerService.UNKNOWN_USERNAME
  {
    assert CartFor(env, req.userId) == CircuitBreakerService.GetUserCartFallback(req.userId);
  }

  /**
    With the payment service unreachable, a card or wallet order is still
    created, stays CREATED and records no payment id: the order path calls the
    unguarded facade, so the negated-id fallback of the guarded call is never
    used there.
   */
  lemma UnreachablePaymentLeavesOrderCreated(store: OrderStore, req: OrderRequest, env: Env)
    requires req.paymentMethod != CASH
    requires forall p :: env.charge(p) == Failed
    requires AllReservable(env, CartFor(env, req.userId).items)
    ensures CreateOrder(store, req, env).result.Ok?
    ensures CreateOrder(store, req, env).result.value.status == CREATED
    ensures CreateOrder(store, req, env).result.value.paymentId == None
    ensures CircuitBreakerService.ProcessPayment(env, CreateOrder(store, req, env).result.value, req).result.value.paymentId
            == Some(-store.nextId)
  {
    var o := CreateOrder(store, req, env).result.value;
    assert env.charge(PaymentProcessingService.BuildPaymentRequest(o, req)) == Failed;
  }

  /** A cash order never reaches the payment service. */
  lemma CashOrderIsNeverCharged(store: OrderStore, req: OrderRequest, env: Env)
    requires req.paymentMethod == CASH
    ensures forall c :: c in CreateOrder(store, req, env).calls ==> !c.PaymentCharge?
  {
    var r := CreateOrder(store, req, env);
    var items := CartFor(env, req.userId).items;
    NoChargeInReservation(items);
    if r.result.Err? {
      PrefixCallsAreReservation(r.calls[1..], items);
      assert r.calls == [r.calls[0]] + r.calls[1..];
    } else {
      var tail := [CartClear(req.userId)] + [Notification(r.result.value.id, ORDER_CREATED)];
      assert r.calls == [CartFetch(req.userId)] + ReservationCalls(items) + tail;
    }
  }

  /** Every call in a prefix of a reservation is a lookup or a stock update. */
  lemma PrefixCallsAreReservation(calls: seq<Call>, items: seq<CartItemDto>)
    requires calls <= ReservationCalls(items)
    ensures forall c :: c in calls ==> c.ProductFetch? || c.StockUpdate?
  {
    NoChargeInReservation(items);
    forall c | c in calls ensures c.ProductFetch? || c.StockUpdate? {
      var k :| 0 <= k < |calls| && calls[k] == c;
      assert ReservationCalls(items)[k] == c;
    }
  }

  /** A reservation consists of lookups and stock updates only. */
  lemma {:induction false} NoChargeInReservation(items: seq<CartItemDto>)
    ensures forall c :: c in ReservationCalls(items) ==> c.ProductFetch? || c.StockUpdate?
    decreases |items|
  {
    if |items| > 0 {
      NoChargeInReservation(items[1..]);
    }
  }

  /**
    A reservation that fails part-way returns no stock: every stock update it
    issued is a reduction by a cart line's quantity.
   */
  lemma {:induction false} ReservationNeverCompensates(items: seq<CartItemDto>, k: nat)
    requires forall i :: 0 <= i < |items| ==> items[i].quantity > 0
    requires k <= |ReservationCalls(items)|
    ensures forall c :: c in ReservationCalls(items)[..k] && c.StockUpdate? ==> c.delta < 0
    decreases |items|
  {
    if |items| > 0 {
      var tail := ReservationCalls(items[1..]);
      assert ReservationCalls(items) == [ProductFetch(items[0].productId), StockUpdate(items[0].productId, -items[0].quantity)] + tail;
      if k > 2 {
        ReservationNeverCompensates(items[1..], k - 2);
        assert ReservationCalls(items)[..k] == ReservationCalls(items)[..2] + tail[..k - 2];
      }
    }
  }

  /** A failed refund leaves the order exactly as stored, status included. */
  lemma FailedRefundIsNotPersisted(store: OrderStore, orderId: int, upd: StatusUpdate, env: Env)
    requires orderId in store.orders
    requires upd.status == REFUNDED && store.orders[orderId].paymentId.Some?
    requires OrderStatusService.ValidateStatusTransition(store.orders[orderId].status, REFUNDED).Ok?
    requires PaymentProcessingService.RefundPayment(env, store.orders[orderId].paymentId.value, upd.notes).result.Err?
    ensures UpdateOrderStatus(store, orderId, upd, env).result == Err(PaymentProcessing)
    ensures UpdateOrderStatus(store, orderId, upd, env).store.orders[orderId].status == store.orders[orderId].status
  {
  }

  /** A cancelled order can still be refunded, but never cancelled again once refunded. */
  lemma CancelThenRefund(store: OrderStore, orderId: int, reason: Option<string>, upd: StatusUpdate, env: Env)
    requires CancelOrder(store, orderId, reason, env).result.Ok?
    requires upd.status == REFUNDED
    requires store.orders[orderId].paymentId.None?
    ensures var s1 := CancelOrder(store, orderId, reason, env).store;
            var s2 := UpdateOrderStatus(s1, orderId, upd, env);
            && s2.result.Ok?
            && s2.result.value.status == REFUNDED
            && CancelOrder(s2.store, orderId, reason, env).result == Err(InvalidOrderState)
  {
  }
}
