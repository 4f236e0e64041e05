/**
  A call behind a circuit breaker with a fallback method. The breaker's own
  open, half-open and closed bookkeeping is not modelled: a call that is
  short-circuited looks the same as one that failed.
 */
module Resilience {
  import opened Wrappers

  /**
    The underlying result when the call succeeded, otherwise the fallback.
    A fallback method receives the exception only to log it, so any
    exception at all selects the same fallback.
   */
  function Guard<T>(call: Result<T>, fallback: Result<T>): Result<T>
  {
    if call.Ok? then call else fallback
  }
}
