/** Option and Result: the values that stand for Python's `None` and for a raised exception. */
module Wrappers {

  datatype Option<+T> = None | Some(value: T)

  /** `Success(v)` is a normal return of `v`; `Failure(e)` is the exception `e` propagating to
      the caller. With `:-` a failure propagates as an uncaught exception would. */
  datatype Result<+R, +E> = Success(value: R) | Failure(error: E) {
    predicate IsFailure() {
      Failure?
    }

    function PropagateFailure<U>(): Result<U, E>
      requires Failure?
    {
      Failure(error)
    }

    function Extract(): R
      requires Success?
    {
      value
    }
  }
}
