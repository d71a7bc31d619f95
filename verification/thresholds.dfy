/** Alarm flags comparing a derived reading against configured bounds. */
module Thresholds {
  import opened Wrappers

  /** Two-sided check: `x < lo || x > hi`. */
  function OutsideBand(x: real, lo: real, hi: real): bool {
    x < lo || x > hi
  }

  /** One-sided check: `x > max`; there is no lower bound. */
  function OverLimit(x: real, max: real): bool {
    x > max
  }

  /** Two-sided check guarded by NaN: a missing reading (`None`) never
      raises the flag. */
  function GuardedOutsideBand(x: Option<real>, lo: real, hi: real): (r: bool)
    ensures r ==> x.Some?
    ensures x.Some? ==> (r <==> !(lo <= x.value <= hi))
  {
    match x
    case None => false
    case Some(v) => OutsideBand(v, lo, hi)
  }
}
