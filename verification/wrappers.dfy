/** Small failure-compatible wrappers and real-number helpers shared by the model. */
module Wrappers {

  /** An optional value: models a TypeScript field that may be `undefined`. */
  datatype Option<+T> = None | Some(value: T) {

    /** The value, or `default` when absent (TypeScript's `x ?? default`). */
    function GetOr(default: T): T {
      match this
      case Some(v) => v
      case None => default
    }
  }

  /** Either a value or an error; `Failure` models a thrown exception. */
  datatype Result<+R, +E> = Success(value: R) | Failure(error: E)
}

/** Minimum and maximum on reals (`Math.min` / `Math.max` over two numbers). */
module Reals {

  function Min(a: real, b: real): (m: real)
    ensures m <= a && m <= b
    ensures m == a || m == b
  {
    if a <= b then a else b
  }

  function Max(a: real, b: real): (m: real)
    ensures m >= a && m >= b
    ensures m == a || m == b
  {
    if a >= b then a else b
  }
}
