/** Wrappers shared by the model: Option stands for a Java reference
    that may be null or an `Optional`, Result for a value or the exception that replaces it. */
module Wrappers {

  datatype Option<+T> = None | Some(value: T)

  datatype Result<+R, +E> = Success(value: R) | Failure(error: E)
}
