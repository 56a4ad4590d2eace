/**
 * Shapes of JavaScript values that the components handle: optional values,
 * fields that may be `undefined` or `null`, and IEEE numbers reduced to the
 * distinctions the code actually makes (NaN, the infinities, finite values).
 */
module Js {

  /** A value that may be absent (`undefined`, a missing property). */
  datatype Option<+T> = None | Some(value: T) {
    function GetOr(default: T): T {
      match this
      case Some(v) => v
      case None => default
    }
  }

  /** A property that the code tests against both `undefined` and `null`. */
  datatype Nullable<+T> = Undefined | Null | Value(value: T)

  /**
   * A JavaScript number. Finite values are reals: the rounding of IEEE
   * doubles is not modelled, and +0 and -0 are the same value (they are
   * equal under `===` and print as the same string).
   */
  datatype JsNumber = NaN | Finite(r: real) | PosInfinity | NegInfinity

  /** `Number.isNaN(n)` */
  predicate IsNaN(n: JsNumber) {
    n.NaN?
  }

  /** Truthiness of a number: every number except 0 and NaN is truthy. */
  predicate NumberTruthy(n: JsNumber) {
    !n.NaN? && n != Finite(0.0)
  }

  /** Truthiness of an integer-valued number. */
  predicate IntTruthy(i: int) {
    i != 0
  }
}
