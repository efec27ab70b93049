/** Success/failure carriers for the asynchronous results the handlers compose. */
module Wrappers {

  datatype Option<+T> = None | Some(value: T)

  /** The item or the failure a single-valued asynchronous step settles with. */
  datatype Result<+T, +E> = Success(value: T) | Failure(error: E)

  /** A step that settles without an item of interest (a persist), or fails. */
  datatype Outcome<+E> = Pass | Fail(error: E)
}
