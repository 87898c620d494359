/** Failure-carrying return types shared by every layer of the model. */
module Wrappers {

  /** A value that may be absent (a null pointer, an unset field). */
  datatype Option<+T> = None | Some(value: T)

  /** Either a value or the error that a command raised instead. */
  datatype Result<+T, +E> = Ok(value: T) | Err(error: E) {

    predicate IsFailure() {
      Err?
    }

    function PropagateFailure<U>(): Result<U, E>
      requires Err?
    {
      Err(error)
    }

    function Extract(): T
      requires Ok?
    {
      value
    }
  }
}
