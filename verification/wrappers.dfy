/**
  Failure-carrying values shared by every service of the storefront model.

  A Java exception that escapes a service method becomes an `Err` carrying the
  exception's kind; a remote (Feign) call is answered by a `Remote` value.
 */
module Wrappers {

  /** A nullable Java reference: `None` stands for `null`. */
  datatype Option<+T> = None | Some(value: T)

  /** The exception kinds raised by the three services. */
  datatype Error =
    | InvalidOrderState   // orderservice InvalidOrderStateException
    | OrderNotFound       // orderservice OrderNotFoundException
    | ProductNotFound     // ProductNotFoundException (order and cart services)
    | UserNotFound        // cartservice UserNotFoundException
    | CartNotFound        // cartservice CartNotFoundException
    | PaymentNotFound     // paymentservice PaymentNotFoundException
    | PaymentProcessing   // orderservice PaymentProcessingException
    | PaymentRejected     // paymentservice PaymentException
    | IllegalState        // java.lang.IllegalStateException
    | IllegalArgument     // java.lang.IllegalArgumentException
    | Runtime             // a bare java.lang.RuntimeException

  /** The outcome of a service method: its value, or the exception it raised. */
  datatype Result<+T> = Ok(value: T) | Err(error: Error) {

    predicate IsFailure() {
      Err?
    }

    function PropagateFailure<U>(): Result<U>
      requires Err?
    {
      Err(error)
    }

    function Extract(): T
      requires Ok?
    {
      value
    }
  }

  /**
    What a remote call comes back with: a decoded body, a 404
    (`FeignException.NotFound`), or any other transport failure
    (another `FeignException`: timeout, refused connection, 5xx).
   */
  datatype Remote<+T> = Reply(body: T) | NotFound | Failed

  /** Java's `s != null && !s.isEmpty()`. */
  predicate Present(s: Option<string>) {
    s.Some? && |s.value| > 0
  }
}
