/**
 An optional value: the model's stand-in for a Swift optional (`nil` or a
 wrapped value), used wherever the checkbox code passes or returns `T?`.
 */
module Wrappers {

  datatype Option<+T> = None | Some(value: T)
  {
    predicate IsSome()
    {
      Some?
    }

    /** The wrapped value, or `default` when there is none (Swift's `??`). */
    function GetOr(default: T): (r: T)
      ensures Some? ==> r == value
      ensures None? ==> r == default
    {
      match this
      case Some(v) => v
      case None => default
    }
  }
}
