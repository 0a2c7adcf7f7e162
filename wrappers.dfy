/** Option and Result values shared by every module of the model. A JavaScript
    value that may be null or undefined is an Option; an async function that
    either resolves or rejects returns a Result. */
module Wrappers {

  datatype Option<+T> = None | Some(value: T)

  datatype Result<+T, +E> = Success(value: T) | Failure(error: E)

  /** The completion of an operation that returns nothing (`Promise<void>`). */
  datatype Outcome<+E> = Pass | Fail(error: E)
}
