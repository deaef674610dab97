/** Optional values and fallible results, used for the JSON fields a report may lack and for
    the exceptions the tracker raises. */
module Wrappers {

  datatype Option<+T> = None | Some(value: T) {
    /** The value as a sequence of zero or one elements. */
    function ToSeq(): (s: seq<T>)
      ensures |s| <= 1
      ensures Some? <==> |s| == 1
      ensures Some? ==> s[0] == value
    {
      if Some? then [value] else []
    }
  }

  datatype Result<+R, +E> = Ok(value: R) | Err(error: E)
}
