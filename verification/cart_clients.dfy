/**
  What the cart service asks of the catalog and user services, and how it
  translates their failures.
 */
module CartClients {
  import opened Wrappers

  datatype ProductDto = ProductDto(id: int, name: string, price: int, available: bool)

  datatype UserDto = UserDto(id: int, username: string)

  /** The catalog and user services, as oracles: the answer to each lookup. */
  datatype CartEnv = CartEnv(productOf: int -> Remote<ProductDto>, userOf: int -> Remote<UserDto>)

  /**
    The guarded body of a product lookup: the product; ProductNotFoundException
    on a 404; a bare RuntimeException on any other failure.
   */
  function FetchProduct(env: CartEnv, productId: int): (r: Result<ProductDto>)
    ensures env.productOf(productId).Reply? <==> r.Ok?
    ensures r.Ok? ==> r.value == env.productOf(productId).body
    ensures env.productOf(productId).NotFound? ==> r == Err(ProductNotFound)
    ensures env.productOf(productId).Failed? ==> r == Err(Runtime)
  {
    match env.productOf(productId)
    case Reply(p) => Ok(p)
    case NotFound => Err(ProductNotFound)
    case Failed => Err(Runtime)
  }

  /**
    The guarded body of a user lookup: the user; UserNotFoundException on a
    404; a bare RuntimeException on any other failure.
   */
  function FetchUser(env: CartEnv, userId: int): (r: Result<UserDto>)
    ensures env.userOf(userId).Reply? <==> r.Ok?
    ensures r.Ok? ==> r.value == env.userOf(userId).body
    ensures env.userOf(userId).NotFound? ==> r == Err(UserNotFound)
    ensures env.userOf(userId).Failed? ==> r == Err(Runtime)
  {
    match env.userOf(userId)
    case Reply(u) => Ok(u)
    case NotFound => Err(UserNotFound)
    case Failed => Err(Runtime)
  }
}
