/** Small value wrappers shared by every module of the model. */
module Wrappers {

  /** A value that may be absent: JavaScript's `undefined` result of a
      failed `find`, or an optional key of a stored record. */
  datatype Option<+T> = None | Some(value: T) {

    /** The value, or `default` when there is none (`x ?? default`). */
    function GetOr(default: T): T {
      match this
      case Some(v) => v
      case None => default
    }
  }

  /** The outcome of a submit handler: a value, or the message it shows. */
  datatype Result<+R> = Success(value: R) | Failure(message: string)
}
