/** JavaScript's `null`/`undefined` for a value that may be missing. */
module Nullable {

  datatype Option<T> = None | Some(value: T) {

    /** The value, or `default` when missing (JavaScript's `??`). */
    function GetOr(default: T): T {
      match this
      case Some(v) => v
      case None => default
    }
  }
}
