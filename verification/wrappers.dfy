/** Option and Result, used for absent input keys and for raised exceptions. */
module Wrappers {

  datatype Option<+T> = None | Some(value: T) {

    /** The wrapped value, or `default` when there is none (Python's `dict.get(key, default)`). */
    function GetOr(default: T): T {
      match this
      case Some(v) => v
      case None => default
    }
  }

  /** `Err` stands for an exception that propagates out of the call. */
  datatype Result<+R, +E> = Ok(value: R) | Err(error: E)
}
