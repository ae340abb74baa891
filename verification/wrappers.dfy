/** Failure-compatible helper types shared by the whole model. */
module Wrappers {

  /** A value that may be missing: a Go nil slice or map, a key that is not present. */
  datatype Option<+T> = None | Some(value: T) {

    /** Returns the value, or `default` when there is none. */
    function GetOr(default: T): T {
      match this
      case Some(v) => v
      case None => default
    }
  }
}
