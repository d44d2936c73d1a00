/** Optional values, the Python exception the tools raise, and Python's
    `x or fallback` on an optional string or list. */
module Wrappers {

  datatype Option<+T> = None | Some(value: T)

  /** The exception a tool call raises before reaching the backend. */
  datatype Error = ValueError(message: string)

  datatype Result<+T> = Ok(value: T) | Err(error: Error)

  /** Python's `x or fallback` where `x` is `None`, a `str` or a `list`:
      both `None` and an empty value are falsy and give the fallback. */
  function OrElse<T>(x: Option<seq<T>>, fallback: seq<T>): (r: seq<T>)
    ensures x.Some? && x.value != [] ==> r == x.value
    ensures x.None? || x.value == [] ==> r == fallback
    ensures r == [] ==> fallback == []
  {
    match x
    case Some(v) => if v != [] then v else fallback
    case None => fallback
  }

  /** Python's `x or []`. */
  function OrEmpty<T>(x: Option<seq<T>>): (r: seq<T>)
    ensures x.Some? ==> r == x.value
    ensures x.None? ==> r == []
  {
    OrElse(x, [])
  }
}
