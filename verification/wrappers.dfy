/** Failure-compatible helper datatypes shared by every module of the model. */
module Wrappers {

  /** An optional value; `None` also stands for JavaScript's `undefined`. */
  datatype Option<+T> = None | Some(value: T) {

    /** Returns the value in `Some`, or `default` when `None`. */
    function GetOr(default: T): T {
      match this
      case Some(v) => v
      case None => default
    }
  }

  /** Either a success value or an error (a thrown exception, a rejected promise). */
  datatype Result<+R, +E> = Success(value: R) | Failure(error: E)
}
