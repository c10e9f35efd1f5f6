/** Option and Result, the two failure-carrying shapes the model uses for
    vavr's Option/Either and for the exceptions the Java code throws. */
module Wrappers {

  datatype Option<+T> = None | Some(value: T)

  datatype Result<+T, +E> = Ok(value: T) | Err(error: E)
}
