/** Option and Result, the two failure-carrying shapes used throughout the model:
    Kotlin's nullable types and Go's `(value, error)` pairs become Option,
    thrown exceptions become the Err side of a Result. */
module Wrappers {

  datatype Option<+T> = None | Some(value: T) {
    function GetOr(default: T): T {
      match this
      case Some(v) => v
      case None => default
    }
  }

  datatype Result<+T, +E> = Ok(value: T) | Err(error: E)
}
