/** The order service's facade over the catalog service: product lookup and stock. */
module InventoryService {
  import opened Wrappers
  import opened OrderClients

  /**
    `getProductInfo`: the product, or ProductNotFoundException on a 404, or a
    bare RuntimeException on any other failure.
   */
  function GetProductInfo(env: Env, productId: int): (r: Step<ProductDto>)
    ensures r.calls == [ProductFetch(productId)]
    ensures env.productOf(productId).Reply? ==> r.result == Ok(env.productOf(productId).body)
    ensures env.productOf(productId).NotFound? ==> r.result == Err(ProductNotFound)
    ensures env.productOf(productId).Failed? ==> r.result == Err(Runtime)
  {
    var result :=
      match env.productOf(productId)
      case Reply(p) => Ok(p)
      case NotFound => Err(ProductNotFound)
      case Failed => Err(Runtime);
    Step([ProductFetch(productId)], result)
  }

  /** `isProductAvailable`: the product's available flag; lookup errors propagate unchanged. */
  function IsProductAvailable(env: Env, productId: int): (r: Step<bool>)
    ensures r.calls == [ProductFetch(productId)]
    ensures env.productOf(productId).Reply? ==> r.result == Ok(env.productOf(productId).body.available)
    ensures r.result.Err? ==> r.result.error == GetProductInfo(env, productId).result.error
    ensures r.result.Err? <==> !env.productOf(productId).Reply?
  {
    var info := GetProductInfo(env, productId);
    match info.result
    case Ok(p) => Step(info.calls, Ok(p.available))
    case Err(e) => Step(info.calls, Err(e))
  }

  /** `reduceStock`: requests delta -quantity; any failure is rethrown as a RuntimeException. */
  function ReduceStock(env: Env, productId: int, quantity: int): (r: Step<()>)
    ensures r.calls == [StockUpdate(productId, -quantity)]
    ensures r.result.Ok? <==> env.updateStock(productId, -quantity).Reply?
    ensures r.result.Err? ==> r.result.error == Runtime
  {
    var result :=
      match env.updateStock(productId, -quantity)
      case Reply(_) => Ok(())
      case NotFound => Err(Runtime)
      case Failed => Err(Runtime);
    Step([StockUpdate(productId, -quantity)], result)
  }

  /** `increaseStock`: requests delta +quantity and never raises. */
  function IncreaseStock(env: Env, productId: int, quantity: int): (r: Step<()>)
    ensures r.calls == [StockUpdate(productId, quantity)]
    ensures r.result == Ok(())
  {
    var result :=
      match env.updateStock(productId, quantity)
      case Reply(_) => Ok(())
      case NotFound => Ok(())
      case Failed => Ok(());
    Step([StockUpdate(productId, quantity)], result)
  }
}
