/** Failure-compatible wrappers shared by the codec modules. */
module Wrappers {

  /** A value that may be absent: Rust's `Option`, and the outcome of every
      reader step that would `unwrap` a failure in the source. */
  datatype Option<+T> = None | Some(value: T) {
    predicate IsFailure() { None? }

    function PropagateFailure<U>(): Option<U>
      requires None?
    {
      None
    }

    function Extract(): T
      requires Some?
    {
      value
    }
  }

  /** Rust's `Result<T, E>`, used where the source returns one to its callers. */
  datatype Result<+T, +E> = Ok(value: T) | Err(error: E)
}
