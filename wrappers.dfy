/** The optional-value datatype shared by the other modules. */
module Wrappers {

  datatype Option<+T> = None | Some(value: T) {

    /** The value as a sequence of length at most one. */
    function ToSeq(): (s: seq<T>)
      ensures |s| == if Some? then 1 else 0
      ensures Some? ==> s[0] == value
    {
      match this
      case Some(v) => [v]
      case None => []
    }
  }
}
