/**
  The cart service's operations on a user's cart. Carts are kept per user;
  every operation is transactional, so a raised exception leaves the carts as
  they were (an `Err` carries no new store).
 */
module CartService {
  import opened Wrappers
  import opened CartModel
  import opened CartClients

  /** The cart repository, looked up by user id. */
  type CartStore = map<int, Cart>

  /** Every stored cart belongs to its key's user, has a consistent total and distinct products. */
  predicate ValidCarts(store: CartStore) {
    forall userId :: userId in store ==>
      && store[userId].userId == userId
      && TotalConsistent(store[userId])
      && DistinctProducts(store[userId].items)
  }

  /** An empty cart for the user, named as the user service names them. */
  function NewCart(userId: int, user: UserDto): Cart {
    Cart(userId, user.username, [], 0)
  }

  /**
    `getOrCreateCart`: the stored cart; otherwise a new empty cart with the
    user service's username, saved. An unknown user raises
    UserNotFoundException, any other lookup failure a RuntimeException.
   */
  function GetOrCreateCart(store: CartStore, userId: int, env: CartEnv): (r: Result<(CartStore, Cart)>)
    ensures userId in store ==> r == Ok((store, store[userId]))
    ensures userId !in store && env.userOf(userId).Reply? ==>
              var created := NewCart(userId, env.userOf(userId).body);
              r == Ok((store[userId := created], created))
    ensures userId !in store && env.userOf(userId).NotFound? ==> r == Err(UserNotFound)
    ensures userId !in store && env.userOf(userId).Failed? ==> r == Err(Runtime)
    ensures r.Ok? ==> userId in r.value.0 && r.value.0[userId] == r.value.1
    ensures r.Ok? ==> forall k :: k in store ==> k in r.value.0 && r.value.0[k] == store[k]
  {
    if userId in store then
      Ok((store, store[userId]))
    else
      var user :- FetchUser(env, userId);
      var created := NewCart(userId, user);
      Ok((store[userId := created], created))
  }

  /** The cart line `addProductToCart` builds from the catalog's product. */
  function LineFor(p: ProductDto, quantity: int): (item: CartItem)
    ensures item.productId == p.id && item.productName == p.name && item.price == p.price
    ensures item.quantity == quantity && item.productImageUrl == None
  {
    CartItem(p.id, p.name, p.price, quantity, None)
  }

  /**
    `addProductToCart`. A non-positive quantity raises IllegalArgumentException
    before any lookup; an unknown product raises ProductNotFoundException and
    an unavailable one IllegalStateException. Otherwise the user's cart
    (created if need be) receives a line with the product's id, name and price
    and the requested quantity, and is saved.
   */
  function AddProductToCart(store: CartStore, userId: int, productId: int, quantity: int, env: CartEnv)
    : (r: Result<(CartStore, Cart)>)
    ensures quantity <= 0 ==> r == Err(IllegalArgument)
    ensures quantity > 0 && env.productOf(productId).NotFound? ==> r == Err(ProductNotFound)
    ensures quantity > 0 && env.productOf(productId).Failed? ==> r == Err(Runtime)
    ensures quantity > 0 && env.productOf(productId).Reply? && !env.productOf(productId).body.available ==>
              r == Err(IllegalState)
    ensures r.Ok? ==>
              && quantity > 0 && env.productOf(productId).Reply? && env.productOf(productId).body.available
              && GetOrCreateCart(store, userId, env).Ok?
    ensures r.Ok? && GetOrCreateCart(store, userId, env).Ok? ==>
              var found := GetOrCreateCart(store, userId, env).value;
              && r.value.1 == AddItem(found.1, LineFor(env.productOf(productId).body, quantity))
              && r.value.0 == found.0[userId := r.value.1]
    ensures quantity > 0 && env.productOf(productId).Reply? && env.productOf(productId).body.available ==>
              && (r.Ok? <==> GetOrCreateCart(store, userId, env).Ok?)
              && (GetOrCreateCart(store, userId, env).Err? ==> r == Err(GetOrCreateCart(store, userId, env).error))
  {
    if quantity <= 0 then
      Err(IllegalArgument)
    else
      var product :- FetchProduct(env, productId);
      if !product.available then
        Err(IllegalState)
      else
        var found :- GetOrCreateCart(store, userId, env);
        var cart := AddItem(found.1, LineFor(product, quantity));
        Ok((found.0[userId := cart], cart))
  }

  /** `removeProductFromCart`: drops the product's lines; a user without a cart raises CartNotFoundException. */
  function RemoveProductFromCart(store: CartStore, userId: int, productId: int): (r: Result<(CartStore, Cart)>)
    ensures userId !in store <==> r == Err(CartNotFound)
    ensures userId in store <==> r.Ok?
    ensures r.Ok? ==>
              && r.value.1 == RemoveItem(store[userId], productId)
              && r.value.0 == store[userId := r.value.1]
  {
    if userId !in store then
      Err(CartNotFound)
    else
      var cart := RemoveItem(store[userId], productId);
      Ok((store[userId := cart], cart))
  }

  /**
    `updateProductQuantity`: a non-positive quantity is exactly a removal;
    otherwise the first line for the product gets the quantity. A user without
    a cart raises CartNotFoundException.
   */
  function UpdateProductQuantity(store: CartStore, userId: int, productId: int, quantity: int)
    : (r: Result<(CartStore, Cart)>)
    ensures quantity <= 0 ==> r == RemoveProductFromCart(store, userId, productId)
    ensures userId !in store ==> r == Err(CartNotFound)
    ensures quantity > 0 && userId in store ==>
              var cart := UpdateItemQuantity(store[userId], productId, quantity);
              r == Ok((store[userId := cart], cart))
  {
    if quantity <= 0 then
      RemoveProductFromCart(store, userId, productId)
    else if userId !in store then
      Err(CartNotFound)
    else
      var cart := UpdateItemQuantity(store[userId], productId, quantity);
      Ok((store[userId := cart], cart))
  }

  /** `clearCart`: the saved cart has no lines and a zero total; a user without a cart raises CartNotFoundException. */
  function ClearCart(store: CartStore, userId: int): (r: Result<(CartStore, Cart)>)
    ensures userId !in store <==> r == Err(CartNotFound)
    ensures userId in store <==> r.Ok?
    ensures r.Ok? ==>
              && r.value.1.items == [] && r.value.1.totalAmount == 0
              && r.value.1 == store[userId].(items := [], totalAmount := 0)
              && r.value.0 == store[userId := r.value.1]
  {
    if userId !in store then
      Err(CartNotFound)
    else
      var cart := CartModel.ClearCart(store[userId]);
      Ok((store[userId := cart], cart))
  }

  /** Adding a product keeps every stored cart valid. */
  lemma AddProductKeepsCartsValid(store: CartStore, userId: int, productId: int, quantity: int, env: CartEnv)
    requires ValidCarts(store)
    requires AddProductToCart(store, userId, productId, quantity, env).Ok?
    ensures ValidCarts(AddProductToCart(store, userId, productId, quantity, env).value.0)
  {
  }

  /** Updating a quantity keeps every stored cart valid. */
  lemma UpdateQuantityKeepsCartsValid(store: CartStore, userId: int, productId: int, quantity: int)
    requires ValidCarts(store)
    requires UpdateProductQuantity(store, userId, productId, quantity).Ok?
    ensures ValidCarts(UpdateProductQuantity(store, userId, productId, quantity).value.0)
  {
    if quantity <= 0 {
      RemoveAndClearKeepCartsValid(store, userId, productId);
    } else {
      var after := UpdateProductQuantity(store, userId, productId, quantity).value.0;
      var cart := UpdateItemQuantity(store[userId], productId, quantity);
      assert after == store[userId := cart];
      assert cart.userId == userId && TotalConsistent(cart) && DistinctProducts(cart.items);
    }
  }

  /** Removing a product or clearing the cart keeps every stored cart valid. */
  lemma RemoveAndClearKeepCartsValid(store: CartStore, userId: int, productId: int)
    requires ValidCarts(store)
    ensures RemoveProductFromCart(store, userId, productId).Ok? ==>
              ValidCarts(RemoveProductFromCart(store, userId, productId).value.0)
    ensures ClearCart(store, userId).Ok? ==> ValidCarts(ClearCart(store, userId).value.0)
  {
    if userId in store {
      var kept := RemoveItem(store[userId], productId).items;
      assert DistinctProducts(kept) by {
        DistinctAfterRemoval(store[userId].items, productId);
      }
    }
  }

  /** Removal keeps the lines distinct by product. */
  lemma {:induction false} DistinctAfterRemoval(items: seq<CartItem>, productId: int)
    requires DistinctProducts(items)
    ensures DistinctProducts(WithoutProduct(items, productId))
    decreases |items|
  {
    if |items| > 0 {
      var rest := WithoutProduct(items[1..], productId);
      DistinctAfterRemoval(items[1..], productId);
      if items[0].productId != productId {
        forall x | x in rest ensures x.productId != items[0].productId {
          var j :| 0 <= j < |items[1..]| && items[1..][j] == x;
          assert items[j + 1] == x;
        }
        assert WithoutProduct(items, productId) == [items[0]] + rest;
      }
    }
  }
}
