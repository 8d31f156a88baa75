/** Small value wrappers shared by the other modules. */
module Wrappers {

  /** A value that may be missing. For JavaScript values, `None` stands for `undefined`. */
  datatype Option<+T> = None | Some(value: T) {
    function GetOr(default: T): T {
      match this
      case Some(v) => v
      case None => default
    }
  }

  /** The outcome of an operation that either returns a value or throws `error`. */
  datatype Result<+T, +E> = Success(value: T) | Failure(error: E)

  /** A typed optional field that may also hold `null` (TypeScript `x?: T | null`): `Absent` is `undefined`, `Nil` is `null`. */
  datatype Maybe<+T> = Absent | Nil | Present(value: T) {

    /** The `??` operator: the default when the value is `undefined` or `null`. */
    function Coalesce(default: T): (r: T)
      ensures Present? ==> r == value
      ensures !Present? ==> r == default
    {
      match this
      case Present(v) => v
      case _ => default
    }
  }
}
