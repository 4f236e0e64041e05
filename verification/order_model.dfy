/**
  The Order aggregate of the order service: an order, its items, its
  lifecycle status and the payment method the customer chose.
 */
module OrderModel {
  import opened Wrappers
  import opened Money

  /** The lifecycle states of an order. */
  datatype OrderStatus =
    | CREATED | PENDING | PAID | PROCESSING | SHIPPING
    | DELIVERED | COMPLETED | CANCELLED | REFUNDED

  /** The payment methods an order request may name. */
  datatype PaymentMethod = CARD | FPS | CASH

  /**
    One line of an order: a snapshot of a cart item. `attached` stands for
    the item's back-reference to its order being set.
   */
  datatype OrderItem = OrderItem(
    productId: int,
    productName: string,
    price: int,
    quantity: int,
    attached: bool)
  {
    function Subtotal(): int {
      price * quantity
    }
  }

  datatype Order = Order(
    id: int,
    userId: int,
    username: string,
    status: OrderStatus,
    totalAmount: int,
    shippingAddress: string,
    billingAddress: string,
    paymentMethod: PaymentMethod,
    trackingNumber: Option<string>,
    items: seq<OrderItem>,
    notes: Option<string>,
    paymentId: Option<int>)

  /**
    The subtotal of every item, in item order. The order service keeps its
    own item type, separate from the cart service's lines, so it has its own
    copy of this function.
   */
  function Subtotals(items: seq<OrderItem>): (r: seq<int>)
    ensures |r| == |items|
    ensures forall i :: 0 <= i < |items| ==> r[i] == items[i].price * items[i].quantity
  {
    seq(|items|, i requires 0 <= i < |items| => items[i].Subtotal())
  }

  /** `Order.calculateTotal`: folds price times quantity over the items. */
  function CalculateTotal(o: Order): (r: Order)
    ensures r.totalAmount == Sum(Subtotals(o.items))
    ensures |o.items| == 0 ==> r.totalAmount == 0
    ensures r == o.(totalAmount := r.totalAmount)
  {
    FoldSumIsSum(0, Subtotals(o.items));
    o.(totalAmount := FoldSum(0, Subtotals(o.items)))
  }

  /**
    `Order.addItem`: appends the item at the end and sets its back-reference;
    returns the new order and the item as it now sits in the order.
   */
  function AddItem(o: Order, item: OrderItem): (r: (Order, OrderItem))
    ensures r.1 == item.(attached := true)
    ensures r.0.items == o.items + [r.1]
    ensures |r.0.items| == |o.items| + 1
    ensures forall i :: 0 <= i < |o.items| ==> r.0.items[i] == o.items[i]
    ensures r.0 == o.(items := r.0.items)
  {
    var linked := item.(attached := true);
    (o.(items := o.items + [linked]), linked)
  }

  /** The first position of `x` in `s`, if any (`List.indexOf`). */
  function IndexOf<T(==)>(s: seq<T>, x: T): (r: Option<nat>)
    ensures r.None? <==> x !in s
    ensures r.Some? ==>
              && r.value < |s|
              && s[r.value] == x
              && forall i :: 0 <= i < r.value ==> s[i] != x
    decreases |s|
  {
    if |s| == 0 then None
    else if s[0] == x then Some(0)
    else match IndexOf(s[1..], x)
      case None => None
      case Some(k) => Some(k + 1)
  }

  /**
    `Order.removeItem`: removes the first item equal to `item` (if any) and
    clears the back-reference of the item passed in.
   */
  function RemoveItem(o: Order, item: OrderItem): (r: (Order, OrderItem))
    ensures r.1 == item.(attached := false)
    ensures item !in o.items ==> r.0 == o
    ensures item in o.items ==> |r.0.items| == |o.items| - 1
    ensures item in o.items ==>
              exists k ::
                && 0 <= k < |o.items|
                && o.items[k] == item
                && (forall i :: 0 <= i < k ==> o.items[i] != item)
                && r.0.items == o.items[..k] + o.items[k + 1..]
    ensures r.0 == o.(items := r.0.items)
  {
    match IndexOf(o.items, item)
    case None => (o, item.(attached := false))
    case Some(k) => (o.(items := o.items[..k] + o.items[k + 1..]), item.(attached := false))
  }

  /** Adding an item raises the recalculated total by exactly its subtotal. */
  lemma {:induction false} AddItemRaisesTotal(o: Order, item: OrderItem)
    ensures CalculateTotal(AddItem(o, item).0).totalAmount
         == CalculateTotal(o).totalAmount + item.price * item.quantity
  {
    var added := AddItem(o, item).0;
    assert Subtotals(added.items) == Subtotals(o.items) + [item.price * item.quantity];
    SumAppend(Subtotals(o.items), [item.price * item.quantity]);
  }

  /** Items with non-negative prices and quantities give a non-negative total. */
  lemma TotalNonNegative(o: Order)
    requires forall i :: 0 <= i < |o.items| ==> o.items[i].price >= 0 && o.items[i].quantity >= 0
    ensures CalculateTotal(o).totalAmount >= 0
  {
    SumNonNegative(Subtotals(o.items));
  }
}
