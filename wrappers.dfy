/** Option, Result and Outcome: the model's form of Rust's `Option<T>`,
    `Result<T, E>` and `Result<(), E>`. */
module Wrappers {

  datatype Option<+T> = None | Some(value: T) {

    predicate IsFailure() {
      None?
    }

    function PropagateFailure<U>(): Option<U>
      requires None?
    {
      None
    }

    function Extract(): T
      requires Some?
    {
      value
    }

    /** Rust's `unwrap_or`. */
    function GetOr(default: T): T {
      match this
      case Some(v) => v
      case None => default
    }
  }

  datatype Result<+T, +E> = Ok(value: T) | Err(error: E)

  /** A `Result<(), E>`: success carries nothing. */
  datatype Outcome<+E> = Pass | Fail(error: E)
}
