/** Option and Result, standing for the `None`/`ValueError` outcomes of the Python code. */
module Wrappers {

  datatype Option<+T> = None | Some(value: T)

  /** `Failure(message)` models an exception raised with that message. */
  datatype Result<+T> = Success(value: T) | Failure(message: string)
}
