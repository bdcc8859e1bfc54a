/** Small facts about products and quotients of reals, one per lemma, so that the
    proofs elsewhere stay linear. */
module Reals {

  function Abs(x: real): (r: real)
    ensures r >= 0.0
  {
    if x < 0.0 then -x else x
  }

  function Min(x: real, y: real): real { if x <= y then x else y }

  function Max(x: real, y: real): real { if x >= y then x else y }

  lemma MulMono(a: real, b: real, v: real)
    requires a <= b && v >= 0.0
    ensures a * v <= b * v
  {
    assert (b - a) * v >= 0.0;
  }

  lemma MulPositive(a: real, b: real)
    requires a > 0.0 && b > 0.0
    ensures a * b > 0.0
  {
  }

  lemma ProductOfNonNegatives(a: real, b: real)
    requires a >= 0.0 && b >= 0.0
    ensures a * b >= 0.0
  {
  }

  /** Dividing and multiplying back. */
  lemma DivMul(a: real, v: real)
    requires v != 0.0
    ensures a / v * v == a
  {
  }

  lemma MulDiv(a: real, v: real)
    requires v != 0.0
    ensures a * v / v == a
  {
  }

  lemma MulEqual(a: real, b: real, v: real)
    requires a * v == b * v && v != 0.0
    ensures a == b
  {
    MulDiv(a, v);
    MulDiv(b, v);
  }

  lemma MulLess(a: real, b: real, v: real)
    requires a * v <= b * v && v > 0.0
    ensures a <= b
  {
    assert a > b ==> (a - b) * v > 0.0;
  }

  lemma DivMono(a: real, b: real, v: real)
    requires a <= b && v > 0.0
    ensures a / v <= b / v
  {
    DivMul(a, v);
    DivMul(b, v);
    MulLess(a / v, b / v, v);
  }

  lemma DivPositive(a: real, v: real)
    requires a > 0.0 && v > 0.0
    ensures a / v > 0.0
  {
  }

  /** A longer way covers a smaller share in the same time. */
  lemma ShareAntitone(dt: real, a: real, b: real)
    requires dt > 0.0 && 0.0 < a <= b
    ensures dt / b <= dt / a
  {
    DivMul(dt, a);
    DivMul(dt, b);
    DivPositive(dt, b);
    MulMono(a, b, dt / b);
    assert dt / b * a <= dt / a * a;
    MulLess(dt / b, dt / a, a);
  }

  lemma QuotientOfQuotient(d: real, v: real, dt: real)
    requires d > 0.0 && v > 0.0
    ensures d / v > 0.0
    ensures v * dt / d == dt / (d / v)
  {
    DivPositive(d, v);
    var own := d / v;
    var x := v * dt / d;
    var y := dt / own;
    DivMul(d, v);
    DivMul(v * dt, d);
    DivMul(dt, own);
    assert x * (own * v) == v * dt;
    assert (x * own) * v == dt * v;
    MulEqual(x * own, dt, v);
    assert x * own == y * own;
    MulEqual(x, y, own);
  }

  lemma AbsMul(s: real, x: real)
    requires s >= 0.0
    ensures Abs(s * x) == s * Abs(x)
  {
    if x >= 0.0 {
      assert s * x >= 0.0;
    } else {
      assert s * (-x) >= 0.0;
      assert s * (-x) == -(s * x);
    }
  }

  /** The share `s` of a way `x`. */
  function Part(s: real, x: real): real { s * x }

  /** A part of a way is no longer than the way and has its direction. */
  lemma PartOfWay(s: real, x: real)
    requires 0.0 <= s <= 1.0
    ensures Abs(Part(s, x)) == Part(s, Abs(x))
    ensures 0.0 <= x ==> 0.0 <= Part(s, x) <= x
    ensures x <= 0.0 ==> x <= Part(s, x) <= 0.0
  {
    AbsMul(s, x);
    assert Part(s, x) == s * x && Part(s, Abs(x)) == s * Abs(x);
    if 0.0 <= x {
      ProductOfNonNegatives(s, x);
      MulMono(s, 1.0, x);
    } else {
      var y := -x;
      ProductOfNonNegatives(s, y);
      MulMono(s, 1.0, y);
      assert s * x == -(s * y);
    }
  }

  lemma DivAdd(a: real, b: real, v: real)
    requires v != 0.0
    ensures (a + b) / v == a / v + b / v
  {
    DivMul(a, v);
    DivMul(b, v);
    DivMul(a + b, v);
    assert (a / v + b / v) * v == a + b;
    MulEqual((a + b) / v, a / v + b / v, v);
  }

  /** `dt / t` is at least one exactly when `t` fits into `dt`. */
  lemma ShareOfOne(dt: real, t: real)
    requires dt > 0.0 && t > 0.0
    ensures dt / t > 0.0
    ensures t <= dt <==> dt / t >= 1.0
  {
    DivMul(dt, t);
    DivPositive(dt, t);
    if t <= dt {
      MulLess(1.0, dt / t, t);
    }
    if dt / t >= 1.0 {
      MulMono(1.0, dt / t, t);
    }
  }
}
