/** The two stock result shapes: a Go pointer or error that may be nil, and a value-or-error pair. */
module Wrappers {
  datatype Option<+T> = None | Some(value: T)

  datatype Result<+T, +E> = Ok(value: T) | Err(error: E)
}
