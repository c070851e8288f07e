/** Failure-carrying values shared by the other modules. */
module Wrappers {

  /** A value that may be absent: `undefined`/`null` on the JavaScript side. */
  datatype Option<+T> = None | Some(value: T)

  /** Either a value or the reasons it could not be produced. */
  datatype Result<+R, +E> = Success(value: R) | Failure(error: E)
}
