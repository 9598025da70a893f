/** Small failure-carrying datatypes shared by the other modules. */
module Basics {

  /** A value that may be absent: a missing JSON field, a `find` that found nothing. */
  datatype Option<+T> = None | Some(value: T)

  /** The outcome of a step that either returns a value or throws an error carrying a message. */
  datatype Result<+T, +E> = Ok(value: T) | Err(error: E)
}
