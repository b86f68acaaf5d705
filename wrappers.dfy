/** Failure-carrying datatypes shared by the model. */
module Wrappers {

  /** Rust's `Option<T>`. */
  datatype Option<+T> = None | Some(value: T)

  /** Rust's `Result<T, E>`: a value the caller must branch on. */
  datatype Result<+T, +E> = Success(value: T) | Failure(error: E)

  /** How a Rust call ends: it returns a value, or it panics with a message.
      A panic is not a `Result` error: the caller cannot recover from it. */
  datatype Outcome<+T> = Returned(value: T) | Panicked(message: string)
}
