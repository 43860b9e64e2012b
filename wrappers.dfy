/** Option and Result, the two failure-compatible wrappers the model is built on. */
module Wrappers {

  /** `Some(v)` for a value, `None` for JavaScript's `null`. */
  datatype Option<+T> = None | Some(value: T)

  /** `Ok(v)` for a value, `Err(message)` for a thrown exception. Usable with `:-`. */
  datatype Result<+T> = Ok(value: T) | Err(error: string) {

    predicate IsFailure() {
      Err?
    }

    function PropagateFailure<U>(): Result<U>
      requires Err?
    {
      Err(error)
    }

    function Extract(): T
      requires Ok?
    {
      value
    }
  }
}
