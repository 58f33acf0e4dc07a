/**
 * Optional values (JavaScript's `undefined`/`null` against a present value)
 * and the outcome of an operation that can throw.
 */
module Wrappers {

  datatype Option<+T> = None | Some(value: T)

  datatype Result<+T, +E> = Ok(value: T) | Err(error: E)
}
