/** Option and Result: the model's stand-ins for Python's `None` and for raised exceptions. */
module Wrappers {

  datatype Option<+T> = None | Some(value: T)

  datatype Result<+R, +E> = Success(value: R) | Failure(error: E)

  function Min(a: int, b: int): int { if a <= b then a else b }

  function Max(a: int, b: int): int { if a >= b then a else b }

  /** A positive real divided by itself is one; the shares that divide a count by itself use it. */
  lemma DivSelf(x: real)
    requires x > 0.0
    ensures x / x == 1.0
  {
  }
}
