/** Optional values stand for Java references that may be null. */
module Wrappers {

  datatype Option<+T> = None | Some(value: T) {

    /** The value, or `default` when this is None. */
    function GetOr(default: T): T {
      match this
      case Some(v) => v
      case None => default
    }
  }

  /** Either a value or an error (a Java exception on the modelled path). */
  datatype Result<+R, +E> = Ok(value: R) | Err(error: E)
}
