/** Optional values and results with an error, as the rest of the model uses them. */
module Wrappers {

  /** A value that may be absent: a feed field that is not there, a summarizer that returned None. */
  datatype Option<+T> = None | Some(value: T) {

    /** The value when present, otherwise `default` (Python's `getattr(obj, name, default)`). */
    function GetOr(default: T): T {
      match this
      case Some(v) => v
      case None => default
    }
  }

  /** The outcome of a step that can raise: a value, or the error that ended it. */
  datatype Result<+T, +E> = Success(value: T) | Failure(error: E)
}
