/** Option and Result, the two wrappers the model uses for Python's `None`
    defaults and for the outcome of a profile fetch. */
module Wrappers {

  /** A JSON member that may be absent: `dict.get(key)` returns `None`. */
  datatype Option<+T> = None | Some(value: T) {

    /** `dict.get(key, default)`: the value when present, otherwise the default. */
    function GetOr(default: T): (r: T)
      ensures Some? ==> r == value
      ensures None? ==> r == default
    {
      match this
      case Some(v) => v
      case None => default
    }
  }

  /** The outcome of an operation that either yields a value or raises a classified error. */
  datatype Result<+T, +E> = Ok(value: T) | Err(error: E)
}
