# Order lifecycle of a three-service storefront, in Dafny

This project models the part of a Spring storefront that takes a customer's
cart to a paid, shipped, cancelled or refunded order. Three services take part:

- **Order service.** It holds the order status state machine (`OrderStatusService`),
  the orchestrator (`OrderService`: create, update status, cancel), the
  `Order` aggregate, and the facades in front of the cart, catalog and payment
  services (`CartManagementService`, `InventoryService`,
  `PaymentProcessingService`). A `CircuitBreakerService` guards some calls
  with fixed fallbacks.
- **Cart service.** It holds the `Cart` aggregate (merge by product, remove by
  product, update the first match, clear; the total is always the sum of the
  subtotals), the `CartService` operations, and the guarded product and user
  lookups with their fallbacks (`CartCircuitBreakerService`).
- **Payment service.** It holds the payment record state machine
  (`PaymentService`): PENDING settles to COMPLETED or FAILED, COMPLETED may
  become REFUNDED, and PENDING may become CANCELLED. The simulator
  (`PaymentSimulatorService`) validates credentials per payment method.

How the model is built:

- **Money** is an integer number of minor units.
- **Remote collaborators** are oracle functions in a record (`OrderClients.Env`,
  `CartClients.CartEnv`). They answer with a body, a 404 or a transport
  failure.
- **Facades** return the calls they issued together with their outcome
  (`Step`). This lets the orchestrator's contracts say which remote effects
  happen, in which order, and that a failed reservation never compensates.
- **Exceptions** are `Result` errors. The orchestrator's and repositories'
  operations are transactional: an error returns the store it was given.
- **Circuit breakers** are `Resilience.Guard`: the call's value when it
  succeeded, otherwise the fallback.
- **Payment randomness** is a parameter: each simulated outcome is a draw in
  [0, 1), compared with the 90% and 95% success rates.
- **Transaction ids** are built from a millisecond clock value and a random
  suffix, both passed in.

Modules follow the source classes:

- Shared: `Wrappers`, `Money`, `Decimal`, `Resilience`.
- Order service: `OrderModel`, `OrderStatusService`, `OrderClients`,
  `CartManagementService`, `InventoryService`, `PaymentProcessingService`,
  `CircuitBreakerService`, `OrderService` and `OrderProperties`.
- Cart service: `CartModel`, `CartClients`, `CartCircuitBreakerService` and
  `CartService`.
- Payment service: `PaymentModel`, `PaymentSimulatorService` and
  `PaymentService`.

## Behaviour worth knowing

- **Breaker fallbacks catch every exception.** Each fallback method of
  `CircuitBreakerService` takes a plain `Exception`
  (`OrderService/src/main/java/org/ithub/orderservice/service/CircuitBreakerService.java:31-40`).
  That includes not-found and the empty-cart exception the cart facade
  raises (`OrderService/src/main/java/org/ithub/orderservice/service/CartManagementService.java:22-25`).
  So an empty or unreachable cart does not stop `createOrder`: the order is
  built from the fallback cart, with no lines, zero total and username
  "Unknown" (`OrderProperties.EmptyCartYieldsItemlessOrder`).
- **`createOrder` checks stock and charges through the unguarded facades.**
  `addItemsToOrder` and `processOrderPayment` call `InventoryService` and
  `PaymentProcessingService` directly, not the breaker
  (`OrderService/src/main/java/org/ithub/orderservice/service/OrderService.java:186`,
  `:199` and `:207`). The payment call's exception is caught and dropped
  (`OrderService.java:224-227`). So a payment-service outage leaves the new
  order CREATED with no payment id, and the breaker's fallback payment id
  (minus the order id) never reaches an order on this path
  (`OrderProperties.UnreachablePaymentLeavesOrderCreated`).
- **A failed refund is not saved.** During a change to REFUNDED,
  `processRefund` rethrows the refund failure before the save
  (`OrderService.java:120-125` and `:235-243`). The order keeps its old
  status (`OrderProperties.FailedRefundIsNotPersisted`).
- **REFUNDED is two steps from CREATED and PENDING.** The transition table
  lists REFUNDED only from PAID, COMPLETED and CANCELLED
  (`OrderService/src/main/java/org/ithub/orderservice/service/OrderStatusService.java:23-34`
  and `:59-64`). From CREATED or PENDING the route goes through CANCELLED
  (`OrderStatusService.RefundedWithinTwoSteps`).
- **`cancelOrder` returns stock through a breaker method the breaker class
  does not declare.** `OrderService.java:161` calls
  `circuitBreakerService.increaseStock`, but only `InventoryService`
  declares `increaseStock`
  (`OrderService/src/main/java/org/ithub/orderservice/service/InventoryService.java:50`).
  The model gives the call the inventory facade's never-raising behaviour.

## Model

| member | source | states |
|---|---|---|
| OrderStatusService.ValidateStatusTransition | OrderService/src/main/java/org/ithub/orderservice/service/OrderStatusService.java:14-71 | Keeping the same status always passes. Any other change passes exactly when the lifecycle table lists the target. Every rejection is InvalidOrderState. |
| OrderStatusService.CanBeCancelled | OrderService/src/main/java/org/ithub/orderservice/service/OrderStatusService.java:74-79 | True exactly for statuses before shipping: everything except SHIPPING, DELIVERED, COMPLETED and REFUNDED. |
| OrderStatusService.CancellableIffCancelTransitionValid | OrderService/src/main/java/org/ithub/orderservice/service/OrderStatusService.java:14-79 | An order is cancellable exactly when the lifecycle allows a move to CANCELLED. The two definitions agree. |
| OrderStatusService.RefundedIsTerminal | OrderService/src/main/java/org/ithub/orderservice/service/OrderStatusService.java:65-66 | From REFUNDED, every different target is rejected. |
| OrderStatusService.NoReturnToUnpaid | OrderService/src/main/java/org/ithub/orderservice/service/OrderStatusService.java:22-70 | The only change into CREATED or PENDING is CREATED to PENDING. |
| OrderStatusService.RefundedWithinTwoSteps | OrderService/src/main/java/org/ithub/orderservice/service/OrderStatusService.java:22-70 | Every status reaches REFUNDED in at most two legal moves. CREATED and PENDING cannot reach it in one. |
| OrderModel.CalculateTotal | OrderService/src/main/java/org/ithub/orderservice/model/Order.java:84-88 | The total is the sum of price times quantity over the items, and zero with no items. Nothing else changes. |
| OrderModel.AddItem | OrderService/src/main/java/org/ithub/orderservice/model/Order.java:74-77 | Appends the item at the end with its back-reference set. Earlier items keep their order and nothing else changes. |
| OrderModel.RemoveItem | OrderService/src/main/java/org/ithub/orderservice/model/Order.java:79-82 | Removes the first equal item, if there is one, and clears the back-reference of the item passed in. An absent item leaves the order unchanged. |
| OrderModel.AddItemRaisesTotal | OrderService/src/main/java/org/ithub/orderservice/model/Order.java:74-88 | After an add, the recalculated total is the old total plus the new item's price times quantity. |
| OrderModel.TotalNonNegative | OrderService/src/main/java/org/ithub/orderservice/model/Order.java:84-88 | Non-negative prices and quantities give a non-negative total. |
| Money.FoldSumIsSum | OrderService/src/main/java/org/ithub/orderservice/model/Order.java:85-87 | The stream reduction from zero, a left fold, equals the recursive sum of the subtotals. |
| CartManagementService.GetUserCart | OrderService/src/main/java/org/ithub/orderservice/service/CartManagementService.java:17-32 | Succeeds exactly when the cart service returns a cart with items, and returns it unchanged. An empty cart or a failure gives IllegalState. |
| CartManagementService.ClearUserCart | OrderService/src/main/java/org/ithub/orderservice/service/CartManagementService.java:35-44 | Requests the clear and never fails. |
| InventoryService.GetProductInfo | OrderService/src/main/java/org/ithub/orderservice/service/InventoryService.java:18-29 | Returns the catalog's product. A 404 gives ProductNotFound and any other failure gives Runtime. |
| InventoryService.IsProductAvailable | OrderService/src/main/java/org/ithub/orderservice/service/InventoryService.java:32-35 | Returns the product's available flag. Fails exactly when the lookup fails, with the lookup's error. |
| InventoryService.ReduceStock | OrderService/src/main/java/org/ithub/orderservice/service/InventoryService.java:38-47 | Requests a stock delta of minus the quantity. Succeeds exactly when the catalog answers; otherwise Runtime. |
| InventoryService.IncreaseStock | OrderService/src/main/java/org/ithub/orderservice/service/InventoryService.java:50-59 | Requests a stock delta of plus the quantity and never fails. |
| PaymentProcessingService.MapToPaymentServiceMethod | OrderService/src/main/java/org/ithub/orderservice/service/PaymentProcessingService.java:121-127 | Every method maps to one of the three codes the mapping uses, and never to DEBIT_CARD. |
| PaymentProcessingService.MethodMappingRoundTrip | OrderService/src/main/java/org/ithub/orderservice/service/PaymentProcessingService.java:121-127 | The mapping is injective: the code reads back as the method it came from. |
| PaymentProcessingService.BuildPaymentRequest | OrderService/src/main/java/org/ithub/orderservice/service/PaymentProcessingService.java:27-46 | The request carries the order's id and total. Card fields are forwarded only for a card code and the wallet id only for the wallet code. Bank fields are never sent. |
| PaymentProcessingService.ProcessPayment | OrderService/src/main/java/org/ithub/orderservice/service/PaymentProcessingService.java:24-61 | Sends exactly one charge. Succeeds exactly when a non-null body comes back; a null body or a failure gives PaymentProcessing. |
| PaymentProcessingService.CancelPayment | OrderService/src/main/java/org/ithub/orderservice/service/PaymentProcessingService.java:64-73 | Succeeds exactly when the payment service answers; any failure gives PaymentProcessing. |
| PaymentProcessingService.RefundPayment | OrderService/src/main/java/org/ithub/orderservice/service/PaymentProcessingService.java:76-101 | Succeeds exactly when a body with status "REFUNDED" comes back. A null body, another status or a failure gives PaymentProcessing. |
| PaymentProcessingService.GetPaymentStatus | OrderService/src/main/java/org/ithub/orderservice/service/PaymentProcessingService.java:104-118 | Returns the service's non-null answer; a null body or a failure gives PaymentProcessing. |
| CircuitBreakerService.GetUserCartFallback | OrderService/src/main/java/org/ithub/orderservice/service/CircuitBreakerService.java:31-40 | An empty cart for the user, named "Unknown", with a zero total. |
| CircuitBreakerService.GetUserCart | OrderService/src/main/java/org/ithub/orderservice/service/CircuitBreakerService.java:26-40 | Never fails. Returns the facade's cart when it succeeded; otherwise the empty fallback. |
| CircuitBreakerService.ClearUserCart | OrderService/src/main/java/org/ithub/orderservice/service/CircuitBreakerService.java:42-50 | Requests the clear and never fails. |
| CircuitBreakerService.IsProductAvailable | OrderService/src/main/java/org/ithub/orderservice/service/CircuitBreakerService.java:52-62 | Fails open: the product's flag when the lookup succeeds, otherwise true. |
| CircuitBreakerService.ProcessPaymentFallback | OrderService/src/main/java/org/ithub/orderservice/service/CircuitBreakerService.java:69-77 | A PENDING answer, never COMPLETED, whose payment id is minus the order id. |
| CircuitBreakerService.ProcessPayment | OrderService/src/main/java/org/ithub/orderservice/service/CircuitBreakerService.java:64-77 | Never fails. Returns the facade's answer when it succeeded; otherwise the fallback answer. |
| CircuitBreakerService.CancelPayment | OrderService/src/main/java/org/ithub/orderservice/service/CircuitBreakerService.java:79-88 | Requests the cancel and never fails. |
| CircuitBreakerService.RefundPayment | OrderService/src/main/java/org/ithub/orderservice/service/CircuitBreakerService.java:90-98 | Succeeds exactly when the facade's refund does. The fallback raises PaymentProcessing. |
| CircuitBreakerService.SendOrderNotification | OrderService/src/main/java/org/ithub/orderservice/service/CircuitBreakerService.java:100-110 | Requests the notification for the order and event, and never fails. |
| CircuitBreakerService.IncreaseStock | OrderService/src/main/java/org/ithub/orderservice/service/InventoryService.java:50-59 | Requests a stock increase by the quantity and never fails. |
| OrderService.FindOrderById | OrderService/src/main/java/org/ithub/orderservice/service/OrderService.java:178-181 | The stored order, or OrderNotFound exactly when the id is absent. |
| OrderService.ReserveLine | OrderService/src/main/java/org/ithub/orderservice/service/OrderService.java:186-199 | One cart line: succeeds exactly when the product is available and its stock reduction goes through. An unavailable product stops with IllegalState after the lookup alone, before any stock change. |
| OrderService.AddItemsToOrder | OrderService/src/main/java/org/ithub/orderservice/service/OrderService.java:183-201 | Succeeds exactly when every line is available and its stock reduction succeeds. The lines are then appended in cart order, and the calls are lookup and reduce per line. A failing run's calls are a prefix of those, and its error is IllegalState, ProductNotFound or Runtime. An unavailable first line stops with IllegalState after its lookup alone. |
| OrderService.AddItemsStopsAtUnavailableLine | OrderService/src/main/java/org/ithub/orderservice/service/OrderService.java:183-201 | When the lines before line k go through and line k's product is unavailable, the result is IllegalState. The calls are then the full reservation of the earlier lines plus line k's lookup, and nothing later is contacted. |
| OrderService.SnapshotsAt | OrderService/src/main/java/org/ithub/orderservice/service/OrderService.java:190-196 | Order line i copies cart line i's product id, name, price and quantity and is attached to the order. |
| OrderService.ProcessOrderPayment | OrderService/src/main/java/org/ithub/orderservice/service/OrderService.java:203-233 | A CASH order becomes PENDING with no call. Otherwise a returned answer sets the payment id and makes the order PAID exactly when the status is "COMPLETED". Any payment error leaves the order as it was. |
| OrderService.CreateOrder | OrderService/src/main/java/org/ithub/orderservice/service/OrderService.java:40-75 | Succeeds exactly when every cart line can be reserved. The new order gets the next id, the request's addresses, method and notes, and the cart's username, total and lines, and is stored. The remote calls are fetch cart, then reserve, clear cart, pay (not for cash) and notify. A failure stores nothing. |
| OrderService.CreateOrderStopsAtUnavailableLine | OrderService/src/main/java/org/ithub/orderservice/service/OrderService.java:58-59 | An unavailable product in the cart fails the order with IllegalState and stores nothing. The calls are the cart fetch, the reservations of the earlier lines, and the failing lookup. |
| OrderService.UpdateOrderNotes | OrderService/src/main/java/org/ithub/orderservice/service/OrderService.java:245-249 | Null or empty notes change nothing. Otherwise they are appended on a new line, or set when there were none. Existing notes are always kept as a prefix. |
| OrderService.ProcessRefund | OrderService/src/main/java/org/ithub/orderservice/service/OrderService.java:235-243 | Requests the refund; any failure becomes PaymentProcessing. |
| OrderService.UpdateOrderStatus | OrderService/src/main/java/org/ithub/orderservice/service/OrderService.java:101-132 | An unknown id or an illegal transition fails with no calls and no change. Otherwise the saved order has the new status, appended notes and a tracking number replaced only by a non-empty one. A refund is requested exactly when moving to REFUNDED with a payment id. Then the calls are the one refund call, followed by the STATUS_UPDATED notification only when the refund succeeds. A failed refund saves nothing and sends no notification. Success always ends with a STATUS_UPDATED notification. |
| OrderService.RestockItems | OrderService/src/main/java/org/ithub/orderservice/service/OrderService.java:160-162 | One stock increase per item, in item order, by that item's quantity. Never fails. |
| OrderService.CancelNote | OrderService/src/main/java/org/ithub/orderservice/service/OrderService.java:149 | No note without a reason. Otherwise "Cancel reason: " followed by the reason. |
| OrderService.CancelOrder | OrderService/src/main/java/org/ithub/orderservice/service/OrderService.java:135-166 | An unknown id gives OrderNotFound and a non-cancellable status gives InvalidOrderState, with no calls and no change. Otherwise the order is saved CANCELLED with the reason noted. Calls: cancel the payment exactly when a payment id is set, restock every item, then notify. |
| OrderProperties.CreateOrderKeepsStoreValid | OrderService/src/main/java/org/ithub/orderservice/service/OrderService.java:40-75 | Creating an order keeps every stored order under its own id, below the next id. |
| OrderProperties.UpdateOrderStatusKeepsStoreValid | OrderService/src/main/java/org/ithub/orderservice/service/OrderService.java:101-132 | A status update keeps the store well-formed. |
| OrderProperties.CancelOrderKeepsStoreValid | OrderService/src/main/java/org/ithub/orderservice/service/OrderService.java:135-166 | A cancellation keeps the store well-formed. |
| OrderProperties.CreatedOrderStatusIsLegal | OrderService/src/main/java/org/ithub/orderservice/service/OrderService.java:203-233 | A new order ends CREATED, PENDING or PAID, each a legal status for an order that starts CREATED. |
| OrderProperties.StatusChangesFollowLifecycle | OrderService/src/main/java/org/ithub/orderservice/service/OrderService.java:104-146 | Every status a successful update or cancellation saves is a legal move from the stored status. |
| OrderProperties.EmptyCartYieldsItemlessOrder | OrderService/src/main/java/org/ithub/orderservice/service/CircuitBreakerService.java:26-40 | With an empty or unreachable cart, order creation still succeeds, with no lines, a zero total and username "Unknown". |
| OrderProperties.UnreachablePaymentLeavesOrderCreated | OrderService/src/main/java/org/ithub/orderservice/service/OrderService.java:203-233 | With the payment service down, a card or wallet order is created CREATED with no payment id. The guarded call would have answered with minus the order id. |
| OrderProperties.CashOrderIsNeverCharged | OrderService/src/main/java/org/ithub/orderservice/service/OrderService.java:203-232 | A cash order never sends a charge to the payment service, whether creation succeeds or fails. |
| OrderProperties.NoChargeInReservation | OrderService/src/main/java/org/ithub/orderservice/service/OrderService.java:183-201 | Reserving cart lines only looks products up and updates stock. |
| OrderProperties.ReservationNeverCompensates | OrderService/src/main/java/org/ithub/orderservice/service/OrderService.java:183-201 | Every stock update in any prefix of a reservation reduces stock. A failure part-way gives nothing back. |
| OrderProperties.FailedRefundIsNotPersisted | OrderService/src/main/java/org/ithub/orderservice/service/OrderService.java:120-125 | When the refund fails, the update fails with PaymentProcessing and the stored status is unchanged. |
| OrderProperties.CancelThenRefund | OrderService/src/main/java/org/ithub/orderservice/service/OrderService.java:101-166 | A cancelled order without a payment id can move to REFUNDED, and once refunded it can no longer be cancelled. |
| CartModel.SubtotalProperties | CartService/src/main/java/org/ithub/cartservice/model/CartItem.java:38-40 | The subtotal is price times quantity. It is zero for no units, additive in the quantity, and non-negative for non-negative inputs. |
| CartModel.RecalculateTotal | CartService/src/main/java/org/ithub/cartservice/model/Cart.java:34-38 | Afterwards the total is the sum of the line subtotals, and nothing else changes. |
| CartModel.AddItem | CartService/src/main/java/org/ithub/cartservice/model/Cart.java:40-52 | A known product's quantity grows on its first line; a new product is appended. The total stays consistent and distinct products stay distinct. |
| CartModel.AddItemTotal | CartService/src/main/java/org/ithub/cartservice/model/Cart.java:40-52 | The total grows by exactly the added line's subtotal. A merge counts the existing line's price. |
| CartModel.RemoveItem | CartService/src/main/java/org/ithub/cartservice/model/Cart.java:54-57 | The remaining lines are the cart's lines with that product's filtered out, in their original order. The product is gone and the total stays consistent. |
| CartModel.WithoutProductSingle | CartService/src/main/java/org/ithub/cartservice/model/Cart.java:55 | On a single line, the filter keeps the line exactly when it belongs to another product. |
| CartModel.WithoutProductKeepsOthers | CartService/src/main/java/org/ithub/cartservice/model/Cart.java:55 | Every line of another product is kept exactly as many times as it occurs. |
| CartModel.RemoveItemIdempotent | CartService/src/main/java/org/ithub/cartservice/model/Cart.java:54-57 | Removing a product twice is the same as removing it once. |
| CartModel.AddThenRemoveNewProduct | CartService/src/main/java/org/ithub/cartservice/model/Cart.java:40-57 | Adding a new product and then removing it gives back the original lines and total. |
| CartModel.UpdateItemQuantity | CartService/src/main/java/org/ithub/cartservice/model/Cart.java:59-67 | Sets the quantity on the first line for the product, keeping the total consistent. With no such line, the cart is returned untouched. |
| CartModel.ClearCart | CartService/src/main/java/org/ithub/cartservice/model/Cart.java:69-72 | No lines and a zero total. |
| CartClients.FetchProduct | CartService/src/main/java/org/ithub/cartservice/service/CartService.java:44-51 | The catalog's product. A 404 gives ProductNotFound and any other failure gives Runtime. |
| CartClients.FetchUser | CartService/src/main/java/org/ithub/cartservice/service/CartService.java:111-118 | The user. A 404 gives UserNotFound and any other failure gives Runtime. |
| CartService.GetOrCreateCart | CartService/src/main/java/org/ithub/cartservice/service/CartService.java:108-124 | The stored cart. Otherwise a new empty cart with the user's username is stored; an unknown user gives UserNotFound. |
| CartService.LineFor | CartService/src/main/java/org/ithub/cartservice/service/CartService.java:57-62 | The new line carries the product's id, name and price, the requested quantity and no image. |
| CartService.AddProductToCart | CartService/src/main/java/org/ithub/cartservice/service/CartService.java:38-67 | A non-positive quantity gives IllegalArgument before any lookup. An unknown product gives ProductNotFound, an unreachable one Runtime, and an unavailable one IllegalState. For a positive quantity of an available product, the call succeeds exactly when the user's cart can be found or created, and otherwise fails with that lookup's error. On success the line is added to that cart and saved. |
| CartService.UpdateProductQuantity | CartService/src/main/java/org/ithub/cartservice/service/CartService.java:70-80 | A non-positive quantity is exactly a removal. A user without a cart gives CartNotFound. Otherwise the first line gets the quantity. |
| CartService.RemoveProductFromCart | CartService/src/main/java/org/ithub/cartservice/service/CartService.java:83-90 | Fails exactly when the user has no cart, and then with CartNotFound. Otherwise the product's lines are removed and saved. |
| CartService.ClearCart | CartService/src/main/java/org/ithub/cartservice/service/CartService.java:93-100 | Fails exactly when the user has no cart, and then with CartNotFound. Otherwise the saved cart has no lines and a zero total. |
| CartService.AddProductKeepsCartsValid | CartService/src/main/java/org/ithub/cartservice/service/CartService.java:38-67 | Every stored cart stays keyed by its user, with a consistent total and distinct products. |
| CartService.UpdateQuantityKeepsCartsValid | CartService/src/main/java/org/ithub/cartservice/service/CartService.java:70-80 | Updating a quantity keeps every stored cart valid. |
| CartService.RemoveAndClearKeepCartsValid | CartService/src/main/java/org/ithub/cartservice/service/CartService.java:83-100 | Removing a product or clearing keeps every stored cart valid. |
| CartService.DistinctAfterRemoval | CartService/src/main/java/org/ithub/cartservice/model/Cart.java:54-57 | Removing a product keeps the remaining lines distinct by product. |
| CartCircuitBreakerService.ProductFallback | CartService/src/main/java/org/ithub/cartservice/service/CartCircuitBreakerService.java:38-49 | The requested id, price zero, not available. |
| CartCircuitBreakerService.GetProductById | CartService/src/main/java/org/ithub/cartservice/service/CartCircuitBreakerService.java:26-49 | Never fails. Returns the catalog's product when the lookup succeeds; on any failure, the unavailable placeholder. |
| CartCircuitBreakerService.UserFallback | CartService/src/main/java/org/ithub/cartservice/service/CartCircuitBreakerService.java:65-74 | The requested id, with username "temp_user_" followed by the id in decimal. |
| CartCircuitBreakerService.GetUserById | CartService/src/main/java/org/ithub/cartservice/service/CartCircuitBreakerService.java:53-74 | Never fails. Returns the user when the lookup succeeds; otherwise the placeholder. |
| CartCircuitBreakerService.UserFallbackNamesTheUser | CartService/src/main/java/org/ithub/cartservice/service/CartCircuitBreakerService.java:71 | The placeholder username has the prefix, and its remaining characters are decimal digits that read back as the user id. |
| Decimal.LongToString | CartService/src/main/java/org/ithub/cartservice/service/CartCircuitBreakerService.java:71 | A Java long in decimal, with a minus sign for negative values. |
| Decimal.NatToStringRoundTrip | CartService/src/main/java/org/ithub/cartservice/service/CartCircuitBreakerService.java:71 | Reading the decimal digits of a natural number gives the number back. |
| PaymentSimulatorService.ValidateCardData | PaymentService/src/main/java/org/ithub/paymentservice/service/PaymentSimulatorService.java:75-80 | Valid exactly when card number, holder name, expiry date and CVV are all non-null and non-empty. |
| PaymentSimulatorService.ValidateBankTransferData | PaymentService/src/main/java/org/ithub/paymentservice/service/PaymentSimulatorService.java:82-85 | Valid exactly when account number and bank code are both non-null and non-empty. |
| PaymentSimulatorService.ValidateWalletData | PaymentService/src/main/java/org/ithub/paymentservice/service/PaymentSimulatorService.java:87-89 | Valid exactly when the wallet id is non-null and non-empty. |
| PaymentSimulatorService.ValidatePaymentData | PaymentService/src/main/java/org/ithub/paymentservice/service/PaymentSimulatorService.java:65-73 | Valid exactly when every field the method needs is present. Cash on delivery is always valid. |
| PaymentSimulatorService.SimulatePaymentProcessing | PaymentService/src/main/java/org/ithub/paymentservice/service/PaymentSimulatorService.java:17-36 | Invalid data always fails. Success implies valid data. With valid data, success is exactly a draw below 0.9. |
| PaymentSimulatorService.SimulateRefundProcessing | PaymentService/src/main/java/org/ithub/paymentservice/service/PaymentSimulatorService.java:39-51 | Succeeds exactly when the draw is below 0.95. |
| PaymentSimulatorService.HighDrawAlwaysFails | PaymentService/src/main/java/org/ithub/paymentservice/service/PaymentSimulatorService.java:17-36 | A draw at or above the success rate fails the charge, whatever the credentials. |
| PaymentService.TransactionId | PaymentService/src/main/java/org/ithub/paymentservice/service/PaymentService.java:124-126 | For a suffix below 1000, as the random draw gives, the id is "TXN" followed only by decimal digits. |
| PaymentService.ResponseOf | PaymentService/src/main/java/org/ithub/paymentservice/service/PaymentService.java:128-139 | The response carries the stored record's id, order, amount, status, method and transaction id. |
| PaymentService.ProcessPayment | PaymentService/src/main/java/org/ithub/paymentservice/service/PaymentService.java:31-63 | Stores a new record under the next id with the request's order, amount and method. It is COMPLETED exactly when the simulation succeeds, otherwise FAILED, so never left PENDING. The response mirrors the record. |
| PaymentService.GetPaymentStatus | PaymentService/src/main/java/org/ithub/paymentservice/service/PaymentService.java:66-71 | Read-only. Fails exactly for unknown ids, and then with PaymentNotFound; otherwise it returns the stored record. |
| PaymentService.RefundPayment | PaymentService/src/main/java/org/ithub/paymentservice/service/PaymentService.java:84-105 | An unknown id gives PaymentNotFound and a non-COMPLETED record gives PaymentRejected. Success requires COMPLETED and a passing draw, and only the status changes, to REFUNDED. A failure saves nothing. |
| PaymentService.CancelPayment | PaymentService/src/main/java/org/ithub/paymentservice/service/PaymentService.java:109-123 | An unknown id gives PaymentNotFound. Succeeds exactly from PENDING, moving to CANCELLED with nothing else changed; any other status gives PaymentRejected. |
| PaymentService.ProcessPaymentStepsLegally | PaymentService/src/main/java/org/ithub/paymentservice/service/PaymentService.java:31-63 | The store stays well-formed and existing records are untouched. The new record's status is a legal settlement of PENDING. |
| PaymentService.RefundAndCancelStepLegally | PaymentService/src/main/java/org/ithub/paymentservice/service/PaymentService.java:84-123 | A successful refund or cancel keeps the store well-formed and changes one record's status along the reference transition relation. |
| PaymentService.SettledRecordsAreFinal | PaymentService/src/main/java/org/ithub/paymentservice/service/PaymentService.java:89-117 | FAILED, REFUNDED and CANCELLED records can be neither refunded nor cancelled. |
| PaymentService.ProcessedPaymentCannotBeCancelled | PaymentService/src/main/java/org/ithub/paymentservice/service/PaymentService.java:50-59 | A payment as `processPayment` leaves it is never PENDING, so cancelling it is rejected. |
| PaymentService.RefundOnlyOnce | PaymentService/src/main/java/org/ithub/paymentservice/service/PaymentService.java:89-91 | After a successful refund, a second refund is rejected whatever the draw. |

## Left out

- **Controllers, application mains, exception-to-HTTP mapping and DTO conversion.** These are plumbing. Exception messages are not modelled, only exception kinds.
- OrderModel.RemoveItem: compares order items by value, fields and back-reference included. The item class is not part of this model, so the equality `List.remove` uses there (value or entity identity) is assumed to be value equality.
- **Feign clients and JPA repositories.** Clients are oracle functions. Repositories are maps keyed by id, with a counter for new ids.
- **Repository reads of listings.** This covers paging, reads by user, status or date range, `getCartById` and `getPaymentsByOrderId`.
- **The circuit breaker's open, half-open and closed states.** A short-circuited call looks like a failed one.
- **Clock, randomness and delays.** Timestamps and the processing delay are not modelled. The random draws and the transaction id's clock value and suffix are parameters; the suffix is required to lie below 1000, the bound of the source's random draw.
- **Catalog stock-update signature.** Its mismatch with its callers is not modelled; a stock update is an abstract (product, delta) request.
- **Notification, user and catalog services.** They are outside the model. A notification is an event in the call trace.
- **Concurrency and transaction isolation.** Operations are sequential: an error means nothing is saved.
- **Exceptions other than transport errors.** The model does not cover exceptions a facade lets escape unchanged, for example a null cart body. Collaborators answer with a body, a 404 or a failure.
- CartModel.AddItem: does not model 32-bit wrap-around of the merged quantity, because Java `int` overflow would need quantities above two billion.
- CartService.AddProductToCart: stores a newly created cart together with the added line. The code saves the new cart earlier, inside the same transaction, so the committed outcome is the same.
- PaymentService.ProcessPayment: gives only the committed result. The intermediate PENDING save happens inside the same transaction and is not observable afterwards.
- PaymentSimulatorService.SimulatePaymentProcessing: does not model the `default` branch of the method switch, because the enum has no other values.
