/** Failure-compatible Option and Result types used by every stage of the compiler.
    The source signals failure by raising an exception; here each stage returns a
    `Result` instead, and `:-` propagates the first failure unchanged. */
module Wrappers {

  datatype Option<+T> = None | Some(value: T)

  datatype Result<+T, +E> = Ok(value: T) | Err(error: E) {

    predicate IsFailure() {
      Err?
    }

    function PropagateFailure<U>(): Result<U, E>
      requires Err?
    {
      Err(error)
    }

    function Extract(): T
      requires Ok?
    {
      value
    }
  }
}
