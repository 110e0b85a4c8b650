/** Failure-carrying values shared by the other modules: `Option` for the
    nullable fields of the records, `Result` for functions that raise. */
module Wrappers {

  datatype Option<+T> = None | Some(value: T) {
    /** The value, or `default` when absent (how a field default is applied). */
    function GetOr(default: T): T {
      match this
      case Some(v) => v
      case None => default
    }
  }

  /** `Failure` stands for a raised exception carrying `error`. */
  datatype Result<+R, +E> = Success(value: R) | Failure(error: E)
}
