/** The two failure-compatible datatypes the model uses for the program's optional values
    and for the operations that raise `Refused`. */
module Wrappers {

  datatype Option<+T> = None | Some(value: T)

  datatype Result<+T, +E> = Success(value: T) | Failure(error: E)
}
