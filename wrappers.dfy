/** The optional value used for results of calls that can raise. */
module Wrappers {

  /** `None` stands for a call that raised; `Some(v)` for one that returned `v`. */
  datatype Option<+T> = None | Some(value: T) {

    /** The wrapped value, or `default` when there is none. */
    function GetOr(default: T): T {
      match this
      case Some(v) => v
      case None => default
    }
  }
}
