/** Option and Result, with the two combinators the formatter chains:
    `and_then` and `unwrap_or`, plus `map`. */
module Wrappers {

  datatype Option<+T> = None | Some(value: T) {

    /** Applies `f` to the contained value, or stays None. */
    function AndThen<U>(f: T -> Option<U>): Option<U> {
      match this
      case None => None
      case Some(v) => f(v)
    }

    /** Transforms the contained value, or stays None. */
    function Map<U>(f: T -> U): Option<U> {
      match this
      case None => None
      case Some(v) => Some(f(v))
    }

    /** The contained value, or `default` when None. */
    function UnwrapOr(default: T): T {
      match this
      case None => default
      case Some(v) => v
    }
  }

  datatype Result<+R, +E> = Success(value: R) | Failure(error: E)
}
