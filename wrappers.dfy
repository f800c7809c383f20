/** Small helper datatypes shared by the other modules. */
module Wrappers {

  /** A value that may be absent; JavaScript's `null` becomes `None`. */
  datatype Option<T> = None | Some(value: T)

  /**
   * A JavaScript number as the tax code sees it: either a finite value or
   * one of NaN, +Infinity, -Infinity (which the code never tells apart).
   */
  datatype Num = Finite(r: real) | NonFinite

  function Min(a: real, b: real): (m: real)
    ensures m <= a && m <= b && (m == a || m == b)
  {
    if a <= b then a else b
  }

  function Max(a: real, b: real): (m: real)
    ensures m >= a && m >= b && (m == a || m == b)
  {
    if a >= b then a else b
  }
}
