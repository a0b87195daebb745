/** Success/failure and optional values, the Dafny stand-ins for Java's
    exceptions and null references in this model. */
module Wrappers {

  datatype Option<+T> = None | Some(value: T)

  datatype Result<+T, +E> = Success(value: T) | Failure(error: E)
}
