/** `Option` and `Result`, shared by the other modules. */
module Wrappers {

  /** A value that may be missing: an absent JSON field, a `null` query result. */
  datatype Option<+T> = None | Some(value: T)

  /** A computation that either produced a value or threw. */
  datatype Result<+R, +E> = Success(value: R) | Failure(error: E)
}
