/** The trajectory server's scalar helpers for yaw handling. */
module Angles {

  /** The value of `M_PI` as a decimal literal. */
  const PI: real := 3.141592653589793

  /** `std::max(a, b)`: `b` when `a < b`, otherwise `a`. */
  function Max(a: real, b: real): real { if a < b then b else a }

  /** `std::min(a, b)`: `b` when `b < a`, otherwise `a`. */
  function Min(a: real, b: real): real { if b < a then b else a }

  /** Clamp `value` into `[lo, hi]`: the lower bound is applied first, the
      upper bound last, so with `lo > hi` the result is `hi`. */
  function Saturate(value: real, lo: real, hi: real): (r: real)
    ensures lo <= hi ==> lo <= r <= hi
    ensures lo <= value <= hi ==> r == value
    ensures value < lo ==> r == (if hi < lo then hi else lo)
    ensures hi < value ==> r == hi
    ensures hi < lo ==> r == hi
  {
    Min(Max(value, lo), hi)
  }

  /** Clamping twice is clamping once. */
  lemma SaturateIdempotent(value: real, lo: real, hi: real)
    requires lo <= hi
    ensures Saturate(Saturate(value, lo, hi), lo, hi) == Saturate(value, lo, hi)
  {
  }

  /** Bring an angle into `[-PI, PI]` by subtracting, then adding, whole
      turns. The result may be exactly `-PI`. `turns` is the number of whole
      turns added. */
  method AngleWrap(angle: real) returns (r: real, ghost turns: int)
    ensures -PI <= r <= PI
    ensures r == angle + (turns as real) * 2.0 * PI
    ensures -PI <= angle <= PI ==> r == angle && turns == 0
    ensures angle > PI ==> turns < 0 && -PI < r
    ensures angle < -PI ==> turns > 0 && r < PI
  {
    r := angle;
    turns := 0;
    while r > PI
      invariant r == angle + (turns as real) * 2.0 * PI
      invariant angle > PI ==> turns <= 0 && (turns < 0 || r == angle)
      invariant angle > PI ==> r > -PI
      invariant angle <= PI ==> r == angle && turns == 0
      decreases (r - PI).Floor
    {
      r := r - 2.0 * PI;
      turns := turns - 1;
    }
    while r < -PI
      invariant r <= PI
      invariant r == angle + (turns as real) * 2.0 * PI
      invariant angle > PI ==> turns < 0 && r > -PI
      invariant angle < -PI ==> turns >= 0 && (turns > 0 || r == angle)
      invariant angle < -PI ==> r < PI
      invariant -PI <= angle <= PI ==> r == angle && turns == 0
      decreases (-PI - r).Floor
    {
      r := r + 2.0 * PI;
      turns := turns + 1;
    }
  }
}
