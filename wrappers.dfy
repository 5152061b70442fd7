/** Option and Result, the two shapes every fallible operation of the model returns. */
module Wrappers {

  datatype Option<+T> = None | Some(value: T) {
    function GetOr(default: T): T {
      match this
      case Some(v) => v
      case None => default
    }
  }

  datatype Result<+R, +E> = Ok(value: R) | Err(error: E) {
    predicate IsFailure() {
      Err?
    }

    function PropagateFailure<U>(): Result<U, E>
      requires Err?
    {
      Err(error)
    }

    function Extract(): R
      requires Ok?
    {
      value
    }
  }
}
