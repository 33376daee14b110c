// Result and option types used in place of exceptions and `undefined`.
module Wrappers {

  datatype Option<+T> = None | Some(value: T)

  // A returned value, or the value of a thrown error.
  datatype Result<+T, +E> = Ok(value: T) | Err(error: E)
}
