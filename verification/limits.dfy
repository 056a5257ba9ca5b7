/**
 Saturation utilities used by the balancing controller: the absolute value
 (`fabsf`), the two-sided clamp (`CppUtil::clamp`) and the symmetric voltage
 limiter (`ClampLimiter`). Single-precision floats are modelled as reals.

 The clamp is specified independently of its definition: the clamped value is
 the point of the interval nearest to the input (`IsNearest`), and
 `NearestIsClamp` shows that this description pins it down exactly.
 */
module Limits {

  /** Absolute value, the model of `fabsf`. */
  function Abs(x: real): (r: real)
    ensures r >= 0.0
    ensures r == x || r == -x
  {
    if x < 0.0 then -x else x
  }

  /** Distance between two reals on the line. */
  function Dist(a: real, b: real): real
  {
    Abs(a - b)
  }

  /** `c` is a point of `[lo, hi]` at least as close to `x` as every other point of it. */
  ghost predicate IsNearest(x: real, lo: real, hi: real, c: real)
  {
    && lo <= c <= hi
    && forall y :: lo <= y <= hi ==> Dist(c, x) <= Dist(y, x)
  }

  /** Two-sided saturation of `x` to `[lo, hi]`. */
  function Clamp(x: real, lo: real, hi: real): (r: real)
    requires lo <= hi
    ensures lo <= r <= hi
    ensures lo <= x <= hi ==> r == x
    ensures IsNearest(x, lo, hi, r)
  {
    if x < lo then lo else if x > hi then hi else x
  }

  /** The nearest point of the interval is unique, so the clamp is the only
      value satisfying `IsNearest`. */
  lemma NearestIsClamp(x: real, lo: real, hi: real, c: real)
    requires lo <= hi
    ensures IsNearest(x, lo, hi, c) <==> c == Clamp(x, lo, hi)
  {
    var k := Clamp(x, lo, hi);
    if IsNearest(x, lo, hi, c) {
      assert Dist(c, x) <= Dist(k, x);
    }
  }

  /** Saturating an already saturated value changes nothing. */
  lemma ClampIdempotent(x: real, lo: real, hi: real)
    requires lo <= hi
    ensures Clamp(Clamp(x, lo, hi), lo, hi) == Clamp(x, lo, hi)
  {
  }

  /** A larger input never yields a smaller clamped value. */
  lemma ClampMonotone(x: real, y: real, lo: real, hi: real)
    requires lo <= hi
    requires x <= y
    ensures Clamp(x, lo, hi) <= Clamp(y, lo, hi)
  {
  }

  /** A symmetric clamp treats positive and negative commands alike. */
  lemma ClampOdd(x: real, b: real)
    requires 0.0 <= b
    ensures Clamp(-x, -b, b) == -Clamp(x, -b, b)
  {
  }

  /**
   The voltage limiter: bound to `[-limit, limit]` at construction and
   stateless, so one instance may serve several actuators in the same cycle.
   */
  datatype ClampLimiter = ClampLimiter(limit: real)
  {
    ghost predicate Valid()
    {
      limit >= 0.0
    }

    /** Limits one command; the limiter itself is a value and is not changed. */
    function Update(x: real): (r: real)
      requires Valid()
      ensures Abs(r) <= limit
      ensures Abs(x) <= limit ==> r == x
      ensures IsNearest(x, -limit, limit, r)
    {
      Clamp(x, -limit, limit)
    }
  }
}
