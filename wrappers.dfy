/** Outcome of an operation that the source lets throw: either a value or the error it raises. */
module Wrappers {

  datatype Result<+T, +E> = Ok(value: T) | Err(error: E)
}
