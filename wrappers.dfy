// Error reporting shared by every module: the Java code signals failure by
// throwing, the model returns one of these values instead.
module Wrappers {

  /** The exception classes the library throws, with their messages. */
  datatype Error =
    | IllegalArgument(message: string)
    | IllegalState(message: string)
    | Runtime(message: string)
    | IndexOutOfBounds
    | NullPointer
    | Arithmetic

  /** A computation that either yields a value or throws. */
  datatype Result<T> = Ok(value: T) | Err(error: Error)

  /** A value that may be absent. */
  datatype Option<T> = None | Some(value: T)

  /** A computation with no value that either completes or throws. */
  datatype Outcome = Pass | Fail(error: Error)
}
