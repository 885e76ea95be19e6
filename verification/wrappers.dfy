/** Failure-carrying datatypes used across the model: `Option` stands for the
    script's `null`/`undefined`, `Result` for an operation that can end the
    process with an error instead of returning a value. */
module Wrappers {

  datatype Option<+T> = None | Some(value: T)

  datatype Result<+T, +E> = Success(value: T) | Failure(error: E)
}
