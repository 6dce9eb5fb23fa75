/** The validation guards and small numeric helpers shared by the kernel. */
module Helpers {
  import opened Wrappers
  import opened Values

  /** `validate_number`: a TypeError unless the value is an int or a float. */
  function ValidateNumber(v: Value): (r: Outcome)
    ensures r == Pass <==> IsIntOrFloat(v)
    ensures r.Fail? ==> r.error == TypeError
  {
    if !IsIntOrFloat(v) then Fail(TypeError) else Pass
  }

  /**
   * `validate_positive_number`: a TypeError for a non-number, a ValueError
   * for a negative number. Zero passes, and so does NaN, because `NaN < 0` is false.
   */
  function ValidatePositiveNumber(v: Value): (r: Outcome)
    ensures r.Fail? && r.error == TypeError <==> !IsIntOrFloat(v)
    ensures IsFiniteNumber(v) ==> (r == Pass <==> AsReal(v) >= 0.0)
    ensures IsFiniteNumber(v) && AsReal(v) < 0.0 ==> r == Fail(ValueError)
    ensures r == Pass ==> ValidateNumber(v) == Pass
  {
    if !IsIntOrFloat(v) then Fail(TypeError)
    else if IsNegative(v) then Fail(ValueError)
    else Pass
  }

  /** Zero is accepted as a "positive" number. */
  lemma ValidatePositiveAcceptsZero()
    ensures ValidatePositiveNumber(Int(0)) == Pass
    ensures ValidatePositiveNumber(Float(0.0)) == Pass
    ensures ValidatePositiveNumber(Bool(false)) == Pass
  {
  }

  /** NaN and +inf slip through the sign check; -inf does not. */
  lemma ValidatePositiveNonFinite()
    ensures ValidatePositiveNumber(NaN) == Pass
    ensures ValidatePositiveNumber(Infinity(true)) == Pass
    ensures ValidatePositiveNumber(Infinity(false)) == Fail(ValueError)
  {
  }

  /** `intervals_intersect`: the inclusive intervals [x1; x2] and [y1; y2] meet. */
  predicate IntervalsIntersect(x1: real, x2: real, y1: real, y2: real) {
    x1 <= y2 && x2 >= y1
  }

  predicate InInterval(p: real, lo: real, hi: real) { lo <= p <= hi }

  /** For well-formed intervals the test holds exactly when they share a point. */
  lemma IntervalsIntersectIff(x1: real, x2: real, y1: real, y2: real)
    requires x1 <= x2 && y1 <= y2
    ensures IntervalsIntersect(x1, x2, y1, y2) <==> exists p :: InInterval(p, x1, x2) && InInterval(p, y1, y2)
  {
    if IntervalsIntersect(x1, x2, y1, y2) {
      var p := if x1 <= y1 then y1 else x1;
      assert InInterval(p, x1, x2) && InInterval(p, y1, y2);
    }
  }

  /** Swapping the two intervals does not change the answer. */
  lemma IntervalsIntersectSymmetric(x1: real, x2: real, y1: real, y2: real)
    ensures IntervalsIntersect(x1, x2, y1, y2) == IntervalsIntersect(y1, y2, x1, x2)
  {
  }

  function Min(a: real, b: real): real { if a <= b then a else b }
  function Max(a: real, b: real): real { if a >= b then a else b }

  /** `clamp(minimum, value, maximum) = max(min(maximum, value), minimum)`. */
  function Clamp(minimum: real, value: real, maximum: real): (r: real)
    ensures r >= minimum
    ensures minimum <= maximum ==> minimum <= r <= maximum
    ensures minimum <= value <= maximum ==> r == value
    ensures r == value || r == minimum || r == maximum
  {
    Max(Min(maximum, value), minimum)
  }

  /** Clamping twice with the same bounds is clamping once. */
  lemma ClampIdempotent(minimum: real, value: real, maximum: real)
    requires minimum <= maximum
    ensures Clamp(minimum, Clamp(minimum, value, maximum), maximum) == Clamp(minimum, value, maximum)
  {
  }
}
