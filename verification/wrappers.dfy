/** Optional values, for lookups that may find nothing. */
module Wrappers {

  /** A value that may be missing; `None` stands for Go's nil, as returned by
      `ctx.Value` for a key the context does not hold. */
  datatype Option<+T> = None | Some(value: T) {

    /** Returns the wrapped value, or `default` when there is none. */
    function GetOr(default: T): T {
      match this
      case Some(v) => v
      case None => default
    }
  }
}
