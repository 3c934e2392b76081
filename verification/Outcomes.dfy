/** Optional values and fallible results, shared by every component. */
module Outcomes {

  datatype Option<+T> = None | Some(value: T)

  /** The outcome of a fallible operation; usable with Dafny's `:-`. */
  datatype Result<+T, +E> = Ok(value: T) | Err(error: E) {
    predicate IsFailure() {
      Err?
    }

    function PropagateFailure<U>(): Result<U, E>
      requires Err?
    {
      Err(error)
    }

    function Extract(): T
      requires Ok?
    {
      value
    }
  }
}
