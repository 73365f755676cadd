/** Option and Result, the two failure-carrying types the model uses for the
    source's `Option<_>` and `Result<_, BoxError>`. */
module Wrappers {

  datatype Option<+T> = None | Some(value: T) {

    /** `unwrap_or` / `unwrap_or_default`: the carried value, or `default`. */
    function GetOr(default: T): T {
      match this
      case Some(v) => v
      case None => default
    }
  }

  datatype Result<+T, +E> = Ok(value: T) | Err(error: E)
}
