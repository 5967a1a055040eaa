/**
 * The caller's constraint on one leg of a swap action (`crate::bounds`).
 *
 * The bodies of that module are not part of this model. The two operations the
 * validator needs are given by what a bound means: an exact value is known only
 * for `Desired` and `Calculated` legs; a computed value meets a `Desired` bound
 * when it equals it, a `Min` or range bound when it reaches the minimum, and a
 * `Dummy` or `Calculated` bound always.
 */
module Bound {
  import opened Wrappers
  import opened Fixed

  datatype Bounds =
    | Dummy                                   // placeholder of an abstract check
    | Desired(value: Balance)                 // the caller insists on exactly this amount
    | Min(value: Balance)                     // at least this amount
    | RangeFromDesiredToMin(desired: Balance, min: Balance)
    | Calculated(value: Balance)              // derived by the validator

  /**
   * `Option::<Balance>::from(bounds)`, also used for `bounds.unwrap()`: the
   * amount a leg fixes, if it fixes one (an unwrap of `None` panics).
   */
  function Definite(b: Bounds): (r: Option<Balance>)
    ensures r.Some? <==> b.Desired? || b.Calculated?
    ensures b.Desired? || b.Calculated? ==> r == Some(b.value)
  {
    match b
    case Desired(v) => Some(v)
    case Calculated(v) => Some(v)
    case _ => None
  }

  /** `bounds.meets_the_boundaries(&Calculated(value))`. */
  predicate MeetsTheBoundaries(bound: Bounds, value: Balance)
  {
    match bound
    case Desired(v) => value == v
    case Min(m) => value >= m
    case RangeFromDesiredToMin(_, m) => value >= m
    case Dummy => true
    case Calculated(_) => true
  }
}
