/** Option and Result datatypes shared by every module of the model. */
module Wrappers {

  /** An optional value; `None` stands for a JavaScript `undefined`, `null`
      or absent object key. */
  datatype Option<+T> = None | Some(value: T) {

    /** The value, or `default` when there is none. */
    function GetOr(default: T): T {
      match this
      case Some(v) => v
      case None => default
    }
  }

  /** The outcome of an operation that may throw. */
  datatype Result<+R, +E> = Success(value: R) | Failure(error: E)
}
