/**
  The order orchestrator: creates an order from the user's cart, moves it
  through its lifecycle and cancels it, coordinating the cart, catalog and
  payment collaborators.

  Each operation returns the order store it leaves behind, the collaborator
  calls it issued in order, and its value or the exception it raised. The
  operations are transactional: when one raises, the store it returns is the
  store it was given, while the remote calls already issued stay issued.
 */
module OrderService {
  import opened Wrappers
  import opened OrderModel
  import opened OrderClients
  import OrderStatusService
  import InventoryService
  import PaymentProcessingService
  import CircuitBreakerService

  const ORDER_CREATED: string := "ORDER_CREATED"
  const STATUS_UPDATED: string := "STATUS_UPDATED"
  const ORDER_CANCELLED: string := "ORDER_CANCELLED"
  const CANCEL_REASON_PREFIX: string := "Cancel reason: "

  /** The order repository: orders by id, and the id the next saved order receives. */
  datatype OrderStore = OrderStore(orders: map<int, Order>, nextId: int)

  /** Ids are positive, handed out in increasing order, and every order sits under its own id. */
  predicate ValidStore(s: OrderStore) {
    && s.nextId >= 1
    && forall id :: id in s.orders ==> 1 <= id < s.nextId && s.orders[id].id == id
  }

  /** What an orchestrator operation leaves behind. */
  datatype Run<+T> = Run(store: OrderStore, calls: seq<Call>, result: Result<T>)

  /** `findOrderById`: the stored order, or OrderNotFoundException. */
  function FindOrderById(store: OrderStore, orderId: int): (r: Result<Order>)
    ensures r.Ok? <==> orderId in store.orders
    ensures r.Ok? ==> r.value == store.orders[orderId]
    ensures r.Err? ==> r.error == OrderNotFound
  {
    if orderId in store.orders then Ok(store.orders[orderId]) else Err(OrderNotFound)
  }

  // ---------------------------------------------------------------------------
  // Order creation

  /** The order line copied from one cart line, before it is attached to an order. */
  function Snapshot(ci: CartItemDto): OrderItem {
    OrderItem(ci.productId, ci.productName, ci.price, ci.quantity, false)
  }

  /** The order lines that end up in the order: one attached snapshot per cart line, in cart order. */
  function Snapshots(items: seq<CartItemDto>): (r: seq<OrderItem>)
    ensures |r| == |items|
    decreases |items|
  {
    if |items| == 0 then [] else [Snapshot(items[0]).(attached := true)] + Snapshots(items[1..])
  }

  /** Line `i` of the order lines is the attached snapshot of cart line `i`. */
  lemma {:induction false} SnapshotsAt(items: seq<CartItemDto>, i: nat)
    requires i < |items|
    ensures Snapshots(items)[i] == Snapshot(items[i]).(attached := true)
    decreases i
  {
    if i > 0 {
      SnapshotsAt(items[1..], i - 1);
    }
  }

  /** The calls a fully successful reservation makes: per cart line, a lookup, then a stock reduction. */
  function ReservationCalls(items: seq<CartItemDto>): seq<Call>
    decreases |items|
  {
    if |items| == 0 then []
    else LineCalls(items[0]) + ReservationCalls(items[1..])
  }

  /** A cart line can be reserved: its product is available and its stock reduction goes through. */
  predicate Reservable(env: Env, ci: CartItemDto) {
    && InventoryService.IsProductAvailable(env, ci.productId).result == Ok(true)
    && InventoryService.ReduceStock(env, ci.productId, ci.quantity).result.Ok?
  }

  predicate AllReservable(env: Env, items: seq<CartItemDto>) {
    forall i :: 0 <= i < |items| ==> Reservable(env, items[i])
  }

  /** The calls reserving one cart line makes when it goes through: a lookup, then a stock reduction. */
  function LineCalls(ci: CartItemDto): seq<Call> {
    [ProductFetch(ci.productId), StockUpdate(ci.productId, -ci.quantity)]
  }

  /**
    One iteration of `addItemsToOrder` as far as the collaborators see it:
    the availability check, then (only for an available product) the stock
    reduction. An unavailable product stops with IllegalState after the
    lookup alone.
   */
  function ReserveLine(env: Env, ci: CartItemDto): (r: Step<()>)
    ensures r.calls <= LineCalls(ci)
    ensures r.result.Ok? <==> Reservable(env, ci)
    ensures r.result.Ok? ==> r.calls == LineCalls(ci)
    ensures r.result.Err? ==> r.result.error in {IllegalState, ProductNotFound, Runtime}
    ensures InventoryService.IsProductAvailable(env, ci.productId).result == Ok(false) ==>
              r == Step([ProductFetch(ci.productId)], Err(IllegalState))
  {
    var check := InventoryService.IsProductAvailable(env, ci.productId);
    if check.result.Err? then
      Step(check.calls, Err(check.result.error))
    else if !check.result.value then
      Step(check.calls, Err(IllegalState))
    else
      var reduce := InventoryService.ReduceStock(env, ci.productId, ci.quantity);
      Step(check.calls + reduce.calls, reduce.result)
  }

  /**
    `addItemsToOrder`: for each cart line in order, checks availability,
    appends the line's snapshot, and reduces stock. The first failure aborts;
    the calls issued up to it are a prefix of the full reservation, so no
    earlier reduction is ever compensated.
   */
  function AddItemsToOrder(env: Env, order: Order, items: seq<CartItemDto>): (r: Step<Order>)
    ensures r.calls <= ReservationCalls(items)
    ensures r.result.Ok? <==> AllReservable(env, items)
    ensures r.result.Ok? ==> r.calls == ReservationCalls(items)
    ensures r.result.Ok? ==> r.result.value == order.(items := order.items + Snapshots(items))
    ensures r.result.Err? ==> r.result.error in {IllegalState, ProductNotFound, Runtime}
    ensures |items| > 0 && InventoryService.IsProductAvailable(env, items[0].productId).result == Ok(false) ==>
              r == Step([ProductFetch(items[0].productId)], Err(IllegalState))
    decreases |items|
  {
    if |items| == 0 then
      Step([], Ok(order))
    else
      var ci := items[0];
      var line := ReserveLine(env, ci);
      assert ReservationCalls(items) == LineCalls(ci) + ReservationCalls(items[1..]);
      assert AllReservable(env, items) <==> Reservable(env, ci) && AllReservable(env, items[1..]) by {
        AllReservableCons(env, items);
      }
      if line.result.Err? then
        Step(line.calls, Err(line.result.error))
      else
        var withItem := AddItem(order, Snapshot(ci)).0;
        var rest := AddItemsToOrder(env, withItem, items[1..]);
        assert Snapshots(items) == [Snapshot(ci).(attached := true)] + Snapshots(items[1..]);
        assert order.items + Snapshots(items) == withItem.items + Snapshots(items[1..]);
        Step(line.calls + rest.calls, rest.result)
  }

  /**
    Reservation stops at the first unavailable product: when every line
    before line `k` goes through and line `k`'s product is unavailable, the
    earlier lines have reserved their stock, line `k` is only looked up, and
    the result is IllegalState.
   */
  lemma {:induction false} AddItemsStopsAtUnavailableLine(env: Env, order: Order, items: seq<CartItemDto>, k: nat)
    requires k < |items|
    requires AllReservable(env, items[..k])
    requires InventoryService.IsProductAvailable(env, items[k].productId).result == Ok(false)
    ensures AddItemsToOrder(env, order, items)
            == Step(ReservationCalls(items[..k]) + [ProductFetch(items[k].productId)], Err(IllegalState))
    decreases k
  {
    if k > 0 {
      var ci := items[0];
      assert items[..k][0] == ci;
      assert Reservable(env, ci);
      var withItem := AddItem(order, Snapshot(ci)).0;
      var before := items[1..][..k - 1];
      assert items[..k][1..] == before;
      assert AllReservable(env, before) by {
        forall i | 0 <= i < |before|
          ensures Reservable(env, before[i])
        {
          assert before[i] == items[..k][i + 1];
        }
      }
      AddItemsStopsAtUnavailableLine(env, withItem, items[1..], k - 1);
      assert ReservationCalls(items[..k]) == LineCalls(ci) + ReservationCalls(before);
    }
  }

  /** A non-empty cart can be reserved exactly when its first line and all the others can. */
  lemma AllReservableCons(env: Env, items: seq<CartItemDto>)
    requires |items| > 0
    ensures AllReservable(env, items) <==> Reservable(env, items[0]) && AllReservable(env, items[1..])
  {
  }

  /**
    `processOrderPayment`: a cash order becomes PENDING without contacting the
    payment service. Any other order is charged through the unguarded facade:
    a COMPLETED response makes it PAID, any other response leaves its status,
    and the response's payment id is copied either way; a raised payment
    error is swallowed and leaves the order as it was.
   */
  function ProcessOrderPayment(env: Env, order: Order, req: OrderRequest): (r: Step<Order>)
    ensures r.result.Ok?
    ensures r.result.value == order.(status := r.result.value.status, paymentId := r.result.value.paymentId)
    ensures req.paymentMethod == CASH ==>
              r.calls == [] && r.result.value == order.(status := PENDING)
    ensures req.paymentMethod != CASH ==>
              r.calls == [PaymentCharge(PaymentProcessingService.BuildPaymentRequest(order, req))]
    ensures req.paymentMethod != CASH ==>
              var answer := env.charge(PaymentProcessingService.BuildPaymentRequest(order, req));
              && (answer.Reply? && answer.body.Some? ==>
                    && r.result.value.paymentId == answer.body.value.paymentId
                    && r.result.value.status
                       == (if answer.body.value.status == Some(PAYMENT_STATUS_COMPLETED) then PAID else order.status))
              && (!(answer.Reply? && answer.body.Some?) ==> r.result.value == order)
  {
    if req.paymentMethod != CASH then
      var pay := PaymentProcessingService.ProcessPayment(env, order, req);
      match pay.result
      case Ok(response) =>
        var paid := if response.status == Some(PAYMENT_STATUS_COMPLETED) then order.(status := PAID) else order;
        Step(pay.calls, Ok(paid.(paymentId := response.paymentId)))
      case Err(_) =>
        Step(pay.calls, Ok(order))
    else
      Step([], Ok(order.(status := PENDING)))
  }

  /** The order `createOrder` builds from the request and the cart, before any line is added. */
  function NewOrder(id: int, req: OrderRequest, cart: CartDto): Order {
    Order(id, req.userId, cart.username, CREATED, cart.totalAmount, req.shippingAddress,
          req.billingAddress, req.paymentMethod, None, [], req.notes, None)
  }

  /** The cart `createOrder` works from: the guarded fetch never raises. */
  function CartFor(env: Env, userId: int): CartDto {
    CircuitBreakerService.GetUserCart(env, userId).result.value
  }

  /**
    `createOrder`. The order starts CREATED with the user id of the request
    and the username and total of the cart, not a total recomputed from the
    lines. The lines are reserved one by one; a failed reservation raises and
    nothing is saved. Once saved, clearing the cart, charging the payment and
    notifying never make the operation fail.
   */
  function CreateOrder(store: OrderStore, req: OrderRequest, env: Env): (r: Run<Order>)
    ensures r.result.Err? ==> r.store == store
    ensures r.result.Ok? <==> AllReservable(env, CartFor(env, req.userId).items)
    ensures r.result.Err? ==>
              && |r.calls| >= 1 && r.calls[0] == CartFetch(req.userId)
              && r.calls[1..] <= ReservationCalls(CartFor(env, req.userId).items)
    ensures r.result.Ok? ==>
              var cart := CartFor(env, req.userId);
              var o := r.result.value;
              && o.id == store.nextId
              && o.userId == req.userId
              && o.username == cart.username
              && o.totalAmount == cart.totalAmount
              && o.items == Snapshots(cart.items)
              && o.shippingAddress == req.shippingAddress
              && o.billingAddress == req.billingAddress
              && o.paymentMethod == req.paymentMethod
              && o.notes == req.notes
              && o.trackingNumber == None
              && r.store == OrderStore(store.orders[store.nextId := o], store.nextId + 1)
    ensures r.result.Ok? ==>
              var o := r.result.value;
              r.calls == [CartFetch(req.userId)] + ReservationCalls(CartFor(env, req.userId).items)
                         + [CartClear(req.userId)]
                         + (if req.paymentMethod == CASH then []
                            else [PaymentCharge(PaymentProcessingService.BuildPaymentRequest(o, req))])
                         + [Notification(o.id, ORDER_CREATED)]
    ensures r.result.Ok? && req.paymentMethod == CASH ==>
              r.result.value.status == PENDING && r.result.value.paymentId == None
    ensures r.result.Ok? && req.paymentMethod != CASH ==>
              var o := r.result.value;
              var answer := env.charge(PaymentProcessingService.BuildPaymentRequest(o, req));
              && (answer.Reply? && answer.body.Some? ==>
                    && o.paymentId == answer.body.value.paymentId
                    && o.status == (if answer.body.value.status == Some(PAYMENT_STATUS_COMPLETED) then PAID else CREATED))
              && (!(answer.Reply? && answer.body.Some?) ==> o.status == CREATED && o.paymentId == None)
  {
    var fetch := CircuitBreakerService.GetUserCart(env, req.userId);
    var cart := fetch.result.value;
    var draft := NewOrder(store.nextId, req, cart);
    var filled := AddItemsToOrder(env, draft, cart.items);
    if filled.result.Err? then
      Run(store, fetch.calls + filled.calls, Err(filled.result.error))
    else
      var saved := filled.result.value;
      var clear := CircuitBreakerService.ClearUserCart(env, req.userId);
      var payment := ProcessOrderPayment(env, saved, req);
      var final := payment.result.value;
      var notify := CircuitBreakerService.SendOrderNotification(final, ORDER_CREATED);
      Run(OrderStore(store.orders[store.nextId := final], store.nextId + 1),
          fetch.calls + filled.calls + clear.calls + payment.calls + notify.calls,
          Ok(final))
  }

  /**
    An unavailable product in the cart makes `createOrder` fail with
    IllegalState: the lines before it have reduced stock, nothing after it is
    contacted, and no order is saved.
   */
  lemma CreateOrderStopsAtUnavailableLine(store: OrderStore, req: OrderRequest, env: Env, k: nat)
    requires k < |CartFor(env, req.userId).items|
    requires AllReservable(env, CartFor(env, req.userId).items[..k])
    requires InventoryService.IsProductAvailable(env, CartFor(env, req.userId).items[k].productId).result == Ok(false)
    ensures var items := CartFor(env, req.userId).items;
            CreateOrder(store, req, env)
            == Run(store,
                   [CartFetch(req.userId)] + ReservationCalls(items[..k]) + [ProductFetch(items[k].productId)],
                   Err(IllegalState))
  {
    var cart := CartFor(env, req.userId);
    AddItemsStopsAtUnavailableLine(env, NewOrder(store.nextId, req, cart), cart.items, k);
  }

  // ---------------------------------------------------------------------------
  // Lifecycle changes

  /**
    `updateOrderNotes`: a null or empty note changes nothing; otherwise the
    note is appended on a new line, or becomes the notes when there were none.
   */
  function UpdateOrderNotes(o: Order, newNotes: Option<string>): (r: Order)
    ensures r == o.(notes := r.notes)
    ensures !Present(newNotes) ==> r == o
    ensures Present(newNotes) && o.notes.None? ==> r.notes == newNotes
    ensures Present(newNotes) && o.notes.Some? ==> r.notes == Some(o.notes.value + "\n" + newNotes.value)
    ensures o.notes.Some? ==> r.notes.Some? && o.notes.value <= r.notes.value
  {
    if Present(newNotes) then
      o.(notes := Some(if o.notes.Some? then o.notes.value + "\n" + newNotes.value else newNotes.value))
    else
      o
  }

  /** `processRefund`: refunds through the unguarded facade; any failure raises PaymentProcessingException. */
  function ProcessRefund(env: Env, paymentId: int, reason: Option<string>): (r: Step<()>)
    ensures r.calls == [PaymentRefund(RefundRequestDto(paymentId, reason))]
    ensures r.result.Ok? <==> PaymentProcessingService.RefundPayment(env, paymentId, reason).result.Ok?
    ensures r.result.Err? ==> r.result.error == PaymentProcessing
  {
    var refund := PaymentProcessingService.RefundPayment(env, paymentId, reason);
    Step(refund.calls, if refund.result.Ok? then Ok(()) else Err(PaymentProcessing))
  }

  /** The order `updateOrderStatus` saves, when it gets that far. */
  function StatusUpdated(o: Order, upd: StatusUpdate): Order {
    var withNotes := UpdateOrderNotes(o.(status := upd.status), upd.notes);
    if Present(upd.trackingNumber) then withNotes.(trackingNumber := upd.trackingNumber) else withNotes
  }

  /** A status update that asks for a refund: the target is REFUNDED and a payment id is recorded. */
  predicate RefundRequested(o: Order, upd: StatusUpdate) {
    upd.status == REFUNDED && o.paymentId.Some?
  }

  /**
    `updateOrderStatus`. An unknown order or an illegal transition raises
    before any call and any change. Otherwise the new status, the appended
    notes and a non-empty tracking number are applied; a refund is requested
    exactly when moving to REFUNDED with a payment id, and a failed refund
    raises before the save, so the status change is not persisted.
   */
  function UpdateOrderStatus(store: OrderStore, orderId: int, upd: StatusUpdate, env: Env): (r: Run<Order>)
    ensures r.result.Err? ==> r.store == store
    ensures orderId !in store.orders ==> r == Run(store, [], Err(OrderNotFound))
    ensures orderId in store.orders
            && OrderStatusService.ValidateStatusTransition(store.orders[orderId].status, upd.status).Err? ==>
              r == Run(store, [], Err(InvalidOrderState))
    ensures r.result.Ok? ==>
              var o := store.orders[orderId];
              var o' := r.result.value;
              && orderId in store.orders
              && OrderStatusService.ValidateStatusTransition(o.status, upd.status).Ok?
              && o'.status == upd.status
              && o'.notes == UpdateOrderNotes(o, upd.notes).notes
              && o'.trackingNumber == (if Present(upd.trackingNumber) then upd.trackingNumber else o.trackingNumber)
              && o' == o.(status := o'.status, notes := o'.notes, trackingNumber := o'.trackingNumber)
              && r.store == store.(orders := store.orders[orderId := o'])
              && |r.calls| >= 1
              && r.calls[|r.calls| - 1] == Notification(o.id, STATUS_UPDATED)
    ensures orderId in store.orders
            && OrderStatusService.ValidateStatusTransition(store.orders[orderId].status, upd.status).Ok? ==>
              var o := store.orders[orderId];
              && (RefundRequested(o, upd) ==>
                    r.calls == [PaymentRefund(RefundRequestDto(o.paymentId.value, upd.notes))]
                               + (if r.result.Ok? then [Notification(o.id, STATUS_UPDATED)] else []))
              && (!RefundRequested(o, upd) ==> r.result.Ok? && r.calls == [Notification(o.id, STATUS_UPDATED)])
              && (r.result.Err? <==>
                    RefundRequested(o, upd)
                    && PaymentProcessingService.RefundPayment(env, o.paymentId.value, upd.notes).result.Err?)
              && (r.result.Err? ==> r.result.error == PaymentProcessing)
  {
    match FindOrderById(store, orderId)
    case Err(e) => Run(store, [], Err(e))
    case Ok(o) =>
      match OrderStatusService.ValidateStatusTransition(o.status, upd.status)
      case Err(e) => Run(store, [], Err(e))
      case Ok(_) =>
        var updated := StatusUpdated(o, upd);
        var refund :=
          if upd.status == REFUNDED && updated.paymentId.Some?
          then ProcessRefund(env, updated.paymentId.value, upd.notes)
          else Step([], Ok(()));
        if refund.result.Err? then
          Run(store, refund.calls, Err(refund.result.error))
        else
          var notify := CircuitBreakerService.SendOrderNotification(updated, STATUS_UPDATED);
          Run(store.(orders := store.orders[orderId := updated]), refund.calls + notify.calls, Ok(updated))
  }

  /** The stock increases a cancellation requests: one per order line, with its quantity. */
  function RestockCalls(items: seq<OrderItem>): (r: seq<Call>)
    ensures |r| == |items|
  {
    seq(|items|, i requires 0 <= i < |items| => StockUpdate(items[i].productId, items[i].quantity))
  }

  /** The loop of `cancelOrder` that returns every line to stock; each increase is best-effort. */
  function RestockItems(env: Env, items: seq<OrderItem>): (r: Step<()>)
    ensures r.calls == RestockCalls(items)
    ensures r.result == Ok(())
    decreases |items|
  {
    if |items| == 0 then
      Step([], Ok(()))
    else
      var head := CircuitBreakerService.IncreaseStock(env, items[0].productId, items[0].quantity);
      var rest := RestockItems(env, items[1..]);
      assert RestockCalls(items) == head.calls + RestockCalls(items[1..]);
      Step(head.calls + rest.calls, Ok(()))
  }

  /** The cancellation note: the prefixed reason, or null when there is no reason. */
  function CancelNote(reason: Option<string>): (r: Option<string>)
    ensures reason.None? <==> r.None?
    ensures reason.Some? ==> Present(r) && r.value == CANCEL_REASON_PREFIX + reason.value
  {
    match reason
    case None => None
    case Some(text) => Some(CANCEL_REASON_PREFIX + text)
  }

  /**
    `cancelOrder`. An unknown order, or one past the point of cancellation,
    raises with no call and no change. Otherwise the order becomes CANCELLED
    with the reason appended to its notes, its payment (if any) is cancelled
    through the guarded call, it is saved, and every line is returned to
    stock whatever the payment service answered.
   */
  function CancelOrder(store: OrderStore, orderId: int, reason: Option<string>, env: Env): (r: Run<Order>)
    ensures r.result.Err? ==> r.store == store && r.calls == []
    ensures orderId !in store.orders ==> r.result == Err(OrderNotFound)
    ensures orderId in store.orders ==>
              (r.result.Err? <==> !OrderStatusService.CanBeCancelled(store.orders[orderId].status))
    ensures orderId in store.orders && r.result.Err? ==> r.result.error == InvalidOrderState
    ensures r.result.Ok? ==>
              var o := store.orders[orderId];
              var o' := r.result.value;
              && orderId in store.orders
              && o'.status == CANCELLED
              && o'.notes == UpdateOrderNotes(o, CancelNote(reason)).notes
              && o' == o.(status := CANCELLED, notes := o'.notes)
              && r.store == store.(orders := store.orders[orderId := o'])
              && r.calls == (if o.paymentId.Some? then [PaymentCancel(o.paymentId.value)] else [])
                            + RestockCalls(o.items)
                            + [Notification(o.id, ORDER_CANCELLED)]
  {
    match FindOrderById(store, orderId)
    case Err(e) => Run(store, [], Err(e))
    case Ok(o) =>
      if !OrderStatusService.CanBeCancelled(o.status) then
        Run(store, [], Err(InvalidOrderState))
      else
        var cancelled := UpdateOrderNotes(o.(status := CANCELLED), CancelNote(reason));
        var cancelPayment :=
          if cancelled.paymentId.Some?
          then CircuitBreakerService.CancelPayment(env, cancelled.paymentId.value)
          else Step([], Ok(()));
        var restock := RestockItems(env, cancelled.items);
        var notify := CircuitBreakerService.SendOrderNotification(cancelled, ORDER_CANCELLED);
        Run(store.(orders := store.orders[orderId := cancelled]),
            cancelPayment.calls + restock.calls + notify.calls,
            Ok(cancelled))
  }
}
