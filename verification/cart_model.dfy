/**
  The Cart aggregate of the cart service: a user's cart lines, kept with at
  most one line per product, and the cart total.
 */
module CartModel {
  import opened Wrappers
  import opened Money

  datatype CartItem = CartItem(
    productId: int,
    productName: string,
    price: int,
    quantity: int,
    productImageUrl: Option<string>)
  {
    /** `getSubtotal`. */
    function Subtotal(): int {
      price * quantity
    }
  }

  /**
    The subtotal is price times quantity: zero for no units, additive in the
    quantity (so two lines of one product may be merged into one), and
    non-negative for a non-negative price and quantity.
   */
  lemma SubtotalProperties(item: CartItem, a: int, b: int)
    ensures item.Subtotal() == item.price * item.quantity
    ensures item.(quantity := 0).Subtotal() == 0
    ensures item.(quantity := a + b).Subtotal() == item.(quantity := a).Subtotal() + item.(quantity := b).Subtotal()
    ensures item.price >= 0 && item.quantity >= 0 ==> item.Subtotal() >= 0
  {
    assert item.price * (a + b) == item.price * a + item.price * b;
    if item.price >= 0 && item.quantity >= 0 {
      assert item.price * item.quantity >= 0;
    }
  }

  datatype Cart = Cart(userId: int, username: string, items: seq<CartItem>, totalAmount: int)

  /** The subtotal of every line, in line order. */
  function Subtotals(items: seq<CartItem>): (r: seq<int>)
    ensures |r| == |items|
    ensures forall i :: 0 <= i < |items| ==> r[i] == items[i].price * items[i].quantity
  {
    seq(|items|, i requires 0 <= i < |items| => items[i].Subtotal())
  }

  /** The cart's stored total equals the sum of its lines' subtotals. */
  predicate TotalConsistent(c: Cart) {
    c.totalAmount == Sum(Subtotals(c.items))
  }

  /** No product appears on two lines. */
  predicate DistinctProducts(items: seq<CartItem>) {
    forall i, j :: 0 <= i < j < |items| ==> items[i].productId != items[j].productId
  }

  /** Whether some line is for the product. */
  predicate HasProduct(items: seq<CartItem>, productId: int) {
    exists i :: 0 <= i < |items| && items[i].productId == productId
  }

  /** The first line for the product, if any: the one the loops of `addItem` and `updateItemQuantity` stop at. */
  function IndexOfProduct(items: seq<CartItem>, productId: int): (r: Option<nat>)
    ensures r.None? <==> !HasProduct(items, productId)
    ensures r.Some? ==>
              && r.value < |items|
              && items[r.value].productId == productId
              && forall i :: 0 <= i < r.value ==> items[i].productId != productId
    decreases |items|
  {
    if |items| == 0 then None
    else if items[0].productId == productId then Some(0)
    else match IndexOfProduct(items[1..], productId)
      case None =>
        assert forall i :: 1 <= i < |items| ==> items[i] == items[1..][i - 1];
        None
      case Some(k) => Some(k + 1)
  }

  /** `recalculateTotal`: folds price times quantity over the lines; nothing else changes. */
  function RecalculateTotal(c: Cart): (r: Cart)
    ensures TotalConsistent(r)
    ensures r == c.(totalAmount := r.totalAmount)
  {
    FoldSumIsSum(0, Subtotals(c.items));
    c.(totalAmount := FoldSum(0, Subtotals(c.items)))
  }

  /** The line a merge leaves behind: the existing line with the added units. */
  function Merged(existing: CartItem, added: CartItem): CartItem {
    existing.(quantity := existing.quantity + added.quantity)
  }

  /**
    `addItem`: when a line for the product exists, the first such line gets
    the added units (keeping its own name and price) and the list keeps its
    length; otherwise the item is appended. The total is recalculated, and a
    cart without duplicate products stays without them.
   */
  function AddItem(c: Cart, item: CartItem): (r: Cart)
    ensures r.userId == c.userId && r.username == c.username
    ensures TotalConsistent(r)
    ensures !HasProduct(c.items, item.productId) ==> r.items == c.items + [item]
    ensures HasProduct(c.items, item.productId) ==>
              var k := IndexOfProduct(c.items, item.productId).value;
              && |r.items| == |c.items|
              && r.items == c.items[k := Merged(c.items[k], item)]
    ensures DistinctProducts(c.items) ==> DistinctProducts(r.items)
  {
    match IndexOfProduct(c.items, item.productId)
    case Some(k) => RecalculateTotal(c.(items := c.items[k := Merged(c.items[k], item)]))
    case None => RecalculateTotal(c.(items := c.items + [item]))
  }

  /** The lines for other products, in their original order (`removeIf`). */
  function WithoutProduct(items: seq<CartItem>, productId: int): (r: seq<CartItem>)
    ensures forall x :: x in r <==> x in items && x.productId != productId
    ensures |r| <= |items|
    decreases |items|
  {
    if |items| == 0 then []
    else if items[0].productId == productId then WithoutProduct(items[1..], productId)
    else [items[0]] + WithoutProduct(items[1..], productId)
  }

  /** Removal works line by line: it distributes over concatenation, so the kept lines keep their order. */
  lemma {:induction false} WithoutProductDistributes(a: seq<CartItem>, b: seq<CartItem>, productId: int)
    ensures WithoutProduct(a + b, productId) == WithoutProduct(a, productId) + WithoutProduct(b, productId)
    decreases |a|
  {
    if |a| == 0 {
      assert a + b == b;
    } else {
      assert (a + b)[1..] == a[1..] + b;
      WithoutProductDistributes(a[1..], b, productId);
    }
  }

  /**
    On one line, removal keeps it exactly when it is for another product;
    with `WithoutProductDistributes` this fixes the order and multiplicity
    of the kept lines of any list.
   */
  lemma WithoutProductSingle(x: CartItem, productId: int)
    ensures WithoutProduct([x], productId) == if x.productId == productId then [] else [x]
  {
    assert [x][1..] == [];
  }

  /** Each line for another product is kept exactly as often as it occurs, and in order. */
  lemma {:induction false} WithoutProductKeepsOthers(items: seq<CartItem>, productId: int, x: CartItem)
    requires x.productId != productId
    ensures multiset(WithoutProduct(items, productId))[x] == multiset(items)[x]
    decreases |items|
  {
    if |items| > 0 {
      var rest := WithoutProduct(items[1..], productId);
      WithoutProductKeepsOthers(items[1..], productId, x);
      assert items == [items[0]] + items[1..];
      assert multiset(items)[x] == multiset([items[0]])[x] + multiset(items[1..])[x];
      if items[0].productId != productId {
        assert multiset([items[0]] + rest)[x] == multiset([items[0]])[x] + multiset(rest)[x];
      }
    }
  }

  /** Removing a product no line mentions changes nothing. */
  lemma {:induction false} WithoutAbsentProduct(items: seq<CartItem>, productId: int)
    requires !HasProduct(items, productId)
    ensures WithoutProduct(items, productId) == items
    decreases |items|
  {
    if |items| > 0 {
      assert !HasProduct(items[1..], productId) by {
        forall i | 0 <= i < |items[1..]| ensures items[1..][i].productId != productId {
          assert items[1..][i] == items[i + 1];
        }
      }
      WithoutAbsentProduct(items[1..], productId);
    }
  }

  /** `removeItem`: drops every line for the product, keeps the rest in order, and recalculates the total. */
  function RemoveItem(c: Cart, productId: int): (r: Cart)
    ensures r.userId == c.userId && r.username == c.username
    ensures TotalConsistent(r)
    ensures forall x :: x in r.items <==> x in c.items && x.productId != productId
    ensures !HasProduct(r.items, productId)
    ensures !HasProduct(c.items, productId) ==> r.items == c.items
    ensures r.items == WithoutProduct(c.items, productId)
  {
    var kept := WithoutProduct(c.items, productId);
    assert !HasProduct(c.items, productId) ==> kept == c.items by {
      if !HasProduct(c.items, productId) {
        WithoutAbsentProduct(c.items, productId);
      }
    }
    assert !HasProduct(kept, productId) by {
      forall i | 0 <= i < |kept| ensures kept[i].productId != productId {
        assert kept[i] in kept;
      }
    }
    RecalculateTotal(c.(items := kept))
  }

  /**
    `updateItemQuantity`: sets the quantity of the first line for the product
    and recalculates the total; with no such line the cart, total included,
    is returned untouched.
   */
  function UpdateItemQuantity(c: Cart, productId: int, quantity: int): (r: Cart)
    ensures !HasProduct(c.items, productId) ==> r == c
    ensures HasProduct(c.items, productId) ==>
              var k := IndexOfProduct(c.items, productId).value;
              && r.items == c.items[k := c.items[k].(quantity := quantity)]
              && TotalConsistent(r)
              && r.userId == c.userId && r.username == c.username
    ensures DistinctProducts(c.items) ==> DistinctProducts(r.items)
  {
    match IndexOfProduct(c.items, productId)
    case Some(k) => RecalculateTotal(c.(items := c.items[k := c.items[k].(quantity := quantity)]))
    case None => c
  }

  /** `clearCart`: no lines and a zero total. */
  function ClearCart(c: Cart): (r: Cart)
    ensures r.items == [] && r.totalAmount == 0
    ensures TotalConsistent(r)
    ensures r.userId == c.userId && r.username == c.username
  {
    c.(items := [], totalAmount := 0)
  }

  /**
    Adding units raises a consistent total by the added quantity times the
    price of the line that receives them: the cart's own price for a product
    already in the cart, the item's price for a new one.
   */
  lemma {:induction false} AddItemTotal(c: Cart, item: CartItem)
    requires TotalConsistent(c)
    ensures HasProduct(c.items, item.productId) ==>
              AddItem(c, item).totalAmount
              == c.totalAmount + c.items[IndexOfProduct(c.items, item.productId).value].price * item.quantity
    ensures !HasProduct(c.items, item.productId) ==>
              AddItem(c, item).totalAmount == c.totalAmount + item.Subtotal()
  {
    match IndexOfProduct(c.items, item.productId)
    case Some(k) =>
      var merged := Merged(c.items[k], item);
      assert Subtotals(c.items[k := merged]) == Subtotals(c.items)[k := merged.Subtotal()];
      SumUpdate(Subtotals(c.items), k, merged.Subtotal());
      SubtotalProperties(c.items[k], c.items[k].quantity, item.quantity);
    case None =>
      assert Subtotals(c.items + [item]) == Subtotals(c.items) + [item.Subtotal()];
      SumAppend(Subtotals(c.items), [item.Subtotal()]);
  }

  /** Adding a product new to the cart and then removing it gives back the original lines and total. */
  lemma AddThenRemoveNewProduct(c: Cart, item: CartItem)
    requires TotalConsistent(c)
    requires !HasProduct(c.items, item.productId)
    ensures RemoveItem(AddItem(c, item), item.productId).items == c.items
    ensures RemoveItem(AddItem(c, item), item.productId).totalAmount == c.totalAmount
  {
    WithoutProductDistributes(c.items, [item], item.productId);
    WithoutAbsentProduct(c.items, item.productId);
    assert WithoutProduct([item], item.productId) == [];
  }

  /** Removing a product twice is the same as removing it once. */
  lemma RemoveItemIdempotent(c: Cart, productId: int)
    ensures RemoveItem(RemoveItem(c, productId), productId) == RemoveItem(c, productId)
  {
  }
}
