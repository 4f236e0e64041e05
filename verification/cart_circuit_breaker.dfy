/**
  The cart service's guarded lookups of products and users, with their
  fallbacks. (The cart operations themselves call the clients directly.)
 */
module CartCircuitBreakerService {
  import opened Wrappers
  import opened CartClients
  import opened Resilience
  import Decimal

  const UNAVAILABLE_PRODUCT_NAME: string := "Временно недоступный товар"
  const TEMP_USER_PREFIX: string := "temp_user_"

  /** `getProductByIdFallback`: a zero-priced, unavailable placeholder for the requested id. */
  function ProductFallback(productId: int): (p: ProductDto)
    ensures p.id == productId && p.price == 0 && !p.available
  {
    ProductDto(productId, UNAVAILABLE_PRODUCT_NAME, 0, false)
  }

  /**
    Guarded `getProductById`: never raises. The catalog's product when the
    lookup succeeds; on any failure, the not-found exception included, the
    unavailable placeholder.
   */
  function GetProductById(env: CartEnv, productId: int): (r: Result<ProductDto>)
    ensures r.Ok?
    ensures env.productOf(productId).Reply? ==> r.value == env.productOf(productId).body
    ensures !env.productOf(productId).Reply? ==> r.value == ProductFallback(productId)
  {
    Guard(FetchProduct(env, productId), Ok(ProductFallback(productId)))
  }

  /** `getUserByIdFallback`: a placeholder user named after the requested id. */
  function UserFallback(userId: int): (u: UserDto)
    ensures u.id == userId
    ensures u.username == TEMP_USER_PREFIX + Decimal.LongToString(userId)
  {
    UserDto(userId, TEMP_USER_PREFIX + Decimal.LongToString(userId))
  }

  /** Guarded `getUserById`: never raises; the user, or the placeholder on any failure. */
  function GetUserById(env: CartEnv, userId: int): (r: Result<UserDto>)
    ensures r.Ok?
    ensures env.userOf(userId).Reply? ==> r.value == env.userOf(userId).body
    ensures !env.userOf(userId).Reply? ==> r.value == UserFallback(userId)
  {
    Guard(FetchUser(env, userId), Ok(UserFallback(userId)))
  }

  /** The placeholder username carries the user id: the digits after the prefix read back as the id. */
  lemma UserFallbackNamesTheUser(userId: nat)
    ensures var name := UserFallback(userId).username;
            && |name| > |TEMP_USER_PREFIX|
            && name[..|TEMP_USER_PREFIX|] == TEMP_USER_PREFIX
            && Decimal.IsDigits(name[|TEMP_USER_PREFIX|..])
            && Decimal.ParseDigits(name[|TEMP_USER_PREFIX|..]) == userId
  {
    var name := UserFallback(userId).username;
    assert name[|TEMP_USER_PREFIX|..] == Decimal.NatToString(userId);
    Decimal.NatToStringRoundTrip(userId);
  }
}
