/** Option and Result, the two failure-carrying datatypes the model uses. */
module Wrappers {

  datatype Option<+T> = None | Some(value: T) {

    /** The value, if any, as a sequence of length zero or one. */
    function ToSeq(): (s: seq<T>)
      ensures |s| <= 1
      ensures Some? <==> |s| == 1
      ensures Some? ==> s[0] == value
    {
      match this
      case None => []
      case Some(v) => [v]
    }
  }

  /** Go's `(value, error)` pair, with exactly one of the two present. */
  datatype Result<+R, +E> = Success(value: R) | Failure(error: E)
}
