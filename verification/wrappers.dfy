/** Optional values.
    A record read from the store, or the owner before it is fetched, is either
    present or JavaScript's `undefined`; `Option` models both, with `None` for
    `undefined`.
 */
module Wrappers {

  datatype Option<+T> = None | Some(value: T) {

    /** Optional chaining `o?.f`: applies `f` to a present value and stays
        absent otherwise, so `f` is never applied to `undefined`. */
    function Chain<U>(f: T -> U): (r: Option<U>)
      ensures r.Some? <==> Some?
      ensures Some? ==> r.value == f(value)
    {
      match this
      case None => None
      case Some(v) => Some(f(v))
    }

    /** The present value, or `default` when absent. */
    function GetOr(default: T): T
    {
      match this
      case None => default
      case Some(v) => v
    }
  }
}
