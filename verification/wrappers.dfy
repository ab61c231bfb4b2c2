/** Failure-carrying datatypes shared by the whole model: `Option` stands for a
    Go pointer that may be nil (or an `error` that may be nil), `Result` for a
    `(value, error)` pair of which exactly one half is meaningful. */
module Wrappers {

  datatype Option<+T> = None | Some(value: T) {

    /** The wrapped value, or `default` when there is none. */
    function GetOr(default: T): T {
      match this
      case Some(v) => v
      case None => default
    }
  }

  datatype Result<+T, +E> = Success(value: T) | Failure(error: E)
}
