/** Option and Result in the shape of Rust's own, usable with `:-`. */
module Wrappers {

  datatype Option<+T> = None | Some(value: T)

  /** `Ok` carries a value, `Err` the reason an operation gave up (Rust's `Result`). */
  datatype Result<+T, +E> = Ok(value: T) | Err(error: E) {

    predicate IsFailure() {
      Err?
    }

    function PropagateFailure<U>(): Result<U, E>
      requires Err?
    {
      Err(error)
    }

    function Extract(): T
      requires Ok?
    {
      value
    }
  }
}
