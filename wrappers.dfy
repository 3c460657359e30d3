/** Optional values and results with an error, as used by both halves of the game. */
module Wrappers {

  /** A value that may be absent: a JSON key that is missing, a JavaScript `null`. */
  datatype Option<+T> = None | Some(value: T)

  /** The outcome of a server route: a reply, or the error it raises. */
  datatype Result<+R, +E> = Success(value: R) | Failure(error: E)
}
