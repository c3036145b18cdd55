/** Optional values and the outcome of a fallible call. */
module Wrappers {

  datatype Option<+T> = None | Some(value: T)

  /** `:-` on a result returns early with its error. */
  datatype Result<+T, +E> = Ok(value: T) | Err(error: E) {
    predicate IsFailure() {
      Err?
    }

    function PropagateFailure<U>(): Result<U, E>
      requires Err?
    {
      Err(error)
    }

    function Extract(): T
      requires Ok?
    {
      value
    }
  }
}
