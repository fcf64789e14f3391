/** Optional values: a browser API that may return nothing (a missing
    query parameter, a missing storage key) or a decoder that may fail. */
module Wrappers {

  datatype Option<+T> = None | Some(value: T) {

    /** The value, or `default` when there is none (JavaScript's `x || d`
        on a possibly missing string is modelled with this and an emptiness test). */
    function GetOr(default: T): T {
      match this
      case Some(v) => v
      case None => default
    }
  }
}
