/** The two result shapes used throughout: a nullable column and an operation that may throw. */
module Wrappers {
  datatype Option<+T> = None | Some(value: T)

  datatype Result<+T, +E> = Success(value: T) | Failure(error: E)

  /** The state after an operation that changes nothing when it fails. */
  function OrSame<T, E>(before: T, r: Result<T, E>): T {
    match r
    case Success(after) => after
    case Failure(_) => before
  }
}
