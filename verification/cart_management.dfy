/** The order service's facade over the cart service. */
module CartManagementService {
  import opened Wrappers
  import opened OrderClients

  /**
    `getUserCart`: the fetched cart when it has items; an empty cart and any
    transport failure (a 404 included) both raise IllegalStateException.
   */
  function GetUserCart(env: Env, userId: int): (r: Step<CartDto>)
    ensures r.calls == [CartFetch(userId)]
    ensures r.result.Ok? <==> env.cartOf(userId).Reply? && |env.cartOf(userId).body.items| > 0
    ensures r.result.Ok? ==> r.result.value == env.cartOf(userId).body
    ensures r.result.Err? ==> r.result.error == IllegalState
  {
    var result :=
      match env.cartOf(userId)
      case Reply(cart) => if |cart.items| == 0 then Err(IllegalState) else Ok(cart)
      case NotFound => Err(IllegalState)
      case Failed => Err(IllegalState);
    Step([CartFetch(userId)], result)
  }

  /** `clearUserCart`: asks the cart service to clear the cart and swallows any failure. */
  function ClearUserCart(env: Env, userId: int): (r: Step<()>)
    ensures r.calls == [CartClear(userId)]
    ensures r.result == Ok(())
  {
    var result :=
      match env.clearCart(userId)
      case Reply(_) => Ok(())
      case NotFound => Ok(())
      case Failed => Ok(());
    Step([CartClear(userId)], result)
  }
}
