/** Option, Outcome and Result: absent values, raised exceptions and error returns. */
module Wrappers {

  datatype Option<+T> = None | Some(value: T)

  /** Either the operation completed (Pass) or it raised `error` (Fail). */
  datatype Outcome<+E> = Pass | Fail(error: E)

  /** Either a value (Success) or the exception raised instead (Failure). */
  datatype Result<+R, +E> = Success(value: R) | Failure(error: E)
}
