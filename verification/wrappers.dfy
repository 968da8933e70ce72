/** Failure-compatible wrappers used by every operation of the ledger model. */
module Wrappers {

  /** A value that may be absent (a SQL NULL, a missing query parameter). */
  datatype Option<+T> = None | Some(value: T) {

    /** The wrapped value, or `default` when absent. */
    function GetOr(default: T): T {
      match this
      case Some(v) => v
      case None => default
    }
  }

  /** Either the outcome of a successful operation or the reason it was rejected. */
  datatype Result<+R, +E> = Success(value: R) | Failure(error: E)
}
