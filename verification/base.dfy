/** Failure-carrying wrappers shared by the whole model. */
module Base {

  /** A value that may be missing: a key absent from a JSON object, a path that does not exist. */
  datatype Option<+T> = None | Some(value: T)

  /** The outcome of a scan that may end in an uncaught Python exception. */
  datatype Result<+T, +E> = Success(value: T) | Failure(error: E)
}
