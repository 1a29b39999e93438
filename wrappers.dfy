/** Option and Result, the two failure-compatible wrappers the model uses. */
module Wrappers {

  /** An optional value, as `os.getenv(name, None)` returns one. */
  datatype Option<+T> = None | Some(value: T)

  /** A value or the exception that prevented it; usable with `:-`. */
  datatype Result<+T, +E> = Ok(value: T) | Err(error: E) {

    predicate IsFailure() {
      Err?
    }

    function PropagateFailure<U>(): Result<U, E>
      requires Err?
    {
      Err(error)
    }

    function Extract(): T
      requires Ok?
    {
      value
    }
  }
}
