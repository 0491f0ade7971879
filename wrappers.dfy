/** Optional values: the model's stand-in for `undefined`, `null` and `NaN`. */
module Wrappers {

  datatype Option<T> = None | Some(value: T) {

    /** The value, or `default` when there is none (JavaScript's `x ?? default`). */
    function GetOr(default: T): T {
      match this
      case Some(v) => v
      case None => default
    }
  }

  /** A parsed JavaScript number (`parseInt`, `parseFloat`): a value, or `NaN`. */
  datatype Parsed<T> = NaN | Value(v: T)

  /** `parseFloat(x) || 0`: the parsed number, with `NaN` read as 0. */
  function OrZero(input: Parsed<real>): (r: real)
    ensures input.NaN? ==> r == 0.0
    ensures input.Value? ==> r == input.v
  {
    match input
    case NaN => 0.0
    case Value(v) => v
  }
}
