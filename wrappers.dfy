/** Failure-compatible values used throughout the model: PHP's nullable values become
    `Option`, and a call that either returns or throws an `\Exception` becomes a `Result`
    whose failure carries the exception's message. */
module Wrappers {

  datatype Option<+T> = None | Some(value: T)

  /** The outcome of a PHP call: a returned value, or an exception with its message. */
  datatype Result<+T> = Ok(value: T) | Fail(message: string)
}
