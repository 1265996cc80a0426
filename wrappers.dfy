/** Rust's `Option` and the crate's `EvalResult` (a `Result` with an arithmetic error),
    with the members Dafny needs to use `:-` as Rust's early `return Err(e)`. */
module Wrappers {

  datatype Option<+T> = None | Some(value: T)

  datatype Result<+T, +E> = Ok(value: T) | Err(error: E) {

    predicate IsFailure() {
      Err?
    }

    /** The error travels on unchanged: no wrapping. */
    function PropagateFailure<U>(): Result<U, E>
      requires Err?
    {
      Err(error)
    }

    function Extract(): T
      requires Ok?
    {
      value
    }
  }
}
