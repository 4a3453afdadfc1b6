/** Option and Result, the two failure-carrying shapes the client uses everywhere. */
module Wrappers {

  datatype Option<+T> = None | Some(value: T) {
    function Map<U>(f: T -> U): Option<U> {
      match this
      case None => None
      case Some(v) => Some(f(v))
    }
  }

  /** Rust's `Result<T, E>`: `Ok` carries the value, `Err` the error. */
  datatype Result<+T, +E> = Ok(value: T) | Err(error: E)
}
