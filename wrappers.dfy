/** Option and Result values: the model's stand-ins for Python's None and for
    exceptions that a caller may catch. */
module Wrappers {

  datatype Option<+T> = None | Some(value: T)

  /** A computation that either produced `value` or raised an exception whose
      message is `error` (Python's `str(e)`). */
  datatype Result<+R> = Success(value: R) | Failure(error: string) {

    predicate IsFailure() {
      Failure?
    }

    function PropagateFailure<U>(): Result<U>
      requires Failure?
    {
      Failure(error)
    }

    function Extract(): R
      requires Success?
    {
      value
    }
  }
}
