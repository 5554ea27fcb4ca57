/** Optional values, standing for Swift's `T?`. */
module Wrappers {

  /** `None` is Swift's `nil`; `Some(v)` a present value. */
  datatype Option<+T> = None | Some(value: T) {

    /** Optional chaining, `x?.f`: applies `f` to a present value, keeps `nil` otherwise. */
    function Map<U>(f: T -> U): (r: Option<U>)
      ensures r.Some? <==> Some?
      ensures Some? ==> r.value == f(value)
    {
      match this
      case None => None
      case Some(v) => Some(f(v))
    }

    /** Nil-coalescing, `x ?? fallback`. */
    function GetOr(fallback: T): (r: T)
      ensures Some? ==> r == value
      ensures None? ==> r == fallback
    {
      match this
      case None => fallback
      case Some(v) => v
    }
  }
}
