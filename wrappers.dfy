/** Option and Result: a Java reference that may be null, and a call that either
    returns a value or throws a checked exception. */
module Wrappers {

  datatype Option<+T> = None | Some(value: T)

  datatype Result<+T, +E> = Ok(value: T) | Err(error: E)
}
