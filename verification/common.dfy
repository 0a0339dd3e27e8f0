/** Optional values (Java's nullable references) and results with an error value
    (Java's thrown exceptions), shared by the user store, the token codec and the
    authentication controller. */
module Common {

  /** A nullable reference: `None` stands for Java's `null`. */
  datatype Option<+T> = None | Some(value: T)

  /** The outcome of an operation that either returns a value or fails with an error. */
  datatype Result<+T, +E> = Success(value: T) | Failure(error: E)
}
