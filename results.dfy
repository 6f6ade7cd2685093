/** Option and Result: the values a Python function either returns or raises. */
module Results {

  datatype Option<+T> = None | Some(value: T)

  /** `Success` is a normal return; `Failure` is an exception, named by its error value. */
  datatype Result<+R, +E> = Success(value: R) | Failure(error: E) {

    predicate IsFailure() {
      Failure?
    }

    function PropagateFailure<U>(): Result<U, E>
      requires Failure?
    {
      Failure(error)
    }

    function Extract(): R
      requires Success?
    {
      value
    }
  }
}
