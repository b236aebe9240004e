/** The Some/None datatype used wherever the game holds a value that may be
    missing: `null` countdown, an `undefined` table lookup, an `undefined`
    last pipe height. */
module Wrappers {

  datatype Option<+T> = None | Some(value: T) {

    /** The value, or `default` when there is none (JavaScript's `??`). */
    function GetOr(default: T): (r: T)
      ensures Some? ==> r == value
      ensures None? ==> r == default
    {
      match this
      case Some(v) => v
      case None => default
    }
  }
}
