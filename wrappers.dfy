/** Failure-carrying wrappers shared by every module of the bridge model.
    - Option<T>: a value that may be absent (Rust's Option).
    - Result<T, E>: success or an error value (Rust's Result).
    - Exec<T>: whether a Rust expression returns or panics (`unwrap`, `todo!()`,
      an out-of-range index); a panic ends the task that evaluates it. */
module Wrappers {

  datatype Option<+T> = None | Some(value: T)

  datatype Result<+T, +E> = Ok(value: T) | Err(error: E)

  datatype Exec<+T> = Returns(value: T) | Panics(reason: string)

  /** The panic message of `unwrap` on an `Err`. */
  const UNWRAP_PANIC: string := "called `Result::unwrap()` on an `Err` value"
}
