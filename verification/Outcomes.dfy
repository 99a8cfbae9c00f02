/** Optional values, and results that stand for a value returned or an exception raised. */
module Outcomes {
  datatype Option<+T> = None | Some(value: T)

  /** Failure-compatible, so `:-` passes an exception on. */
  datatype Result<+T, +E> = Ok(value: T) | Err(error: E) {
    predicate IsFailure() {
      Err?
    }

    function PropagateFailure<U>(): Result<U, E>
      requires Err?
    {
      Err(error)
    }

    function Extract(): T
      requires Ok?
    {
      value
    }
  }
}
