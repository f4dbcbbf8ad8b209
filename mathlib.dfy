/** The C math-library routines the simulation calls (`std::sqrt` and
    `glm::length`, `std::pow`, `std::cbrt`), passed around as function values
    because the model is over the reals and these have no closed form there.
    `Valid` states the only facts the proofs rely on. */
module MathLib {

  datatype Libm = Libm(sqrt: real -> real, pow: (real, real) -> real, cbrt: real -> real) {
    ghost predicate Valid() {
      && sqrt(0.0) == 0.0
      && (forall x: real :: 0.0 <= x ==> 0.0 <= sqrt(x) && sqrt(x) * sqrt(x) == x)
      && (forall x: real :: 0.0 < x ==> 0.0 < cbrt(x))
    }
  }

  function Abs(x: real): real {
    if x < 0.0 then -x else x
  }

  /** `std::max` */
  function Max(a: real, b: real): real {
    if a < b then b else a
  }

  /** `std::min` */
  function Min(a: real, b: real): real {
    if b < a then b else a
  }

  // Sign facts about products. Positivity is stated as `!(p <= 0.0)` rather
  // than `0.0 < p`: the solver rewrites a strict comparison of a product with
  // zero into sign conditions on its factors and then loses the bound on the
  // product itself, which the callers need.

  /** The product of two positive reals is positive. */
  lemma MulPos(a: real, b: real)
    requires 0.0 < a && 0.0 < b
    ensures !(a * b <= 0.0)
  {
    assert 0.0 < a * b;
  }

  /** The product of two negative reals is positive. */
  lemma MulNeg(a: real, b: real)
    requires a < 0.0 && b < 0.0
    ensures !(a * b <= 0.0)
  {
    assert 0.0 < a * b;
  }

  /** A non-zero real has a positive square. */
  lemma SquarePositive(a: real)
    requires a != 0.0
    ensures !(a * a <= 0.0)
  {
    if 0.0 < a {
      MulPos(a, a);
    } else {
      MulNeg(a, a);
    }
  }

  /** Multiplying by a positive factor preserves the sign. */
  lemma SignOfScaled(x: real, k: real, z: real)
    requires !(k <= 0.0) && x * k == z
    ensures x == 0.0 <==> z == 0.0
    ensures 0.0 <= x <==> 0.0 <= z
  {
    if 0.0 < x {
      MulPos(x, k);
    } else if x < 0.0 {
      MulNeg(x, -k);
      assert x * (-k) == -z;
    }
  }

  /** Multiplying both sides of `lo <= a <= hi` by a positive factor. */
  lemma ScaleBetween(k: real, a: real, lo: real, hi: real)
    requires 0.0 < k && lo <= a <= hi
    ensures k * lo <= k * a <= k * hi
  {
    assert 0.0 <= k * (a - lo);
    assert 0.0 <= k * (hi - a);
  }

  /** If `a` is `n` whole steps of `d` plus a remainder in `[0, d)`, then `n`
      is the floor of `a / d`. */
  lemma FloorOfQuotient(a: real, d: real, n: int, rest: real)
    requires 0.0 < d && 0.0 <= rest < d
    requires a == rest + (n as real) * d
    ensures (a / d).Floor == n
  {
    var q := a / d;
    assert q * d == a;
    assert (q - n as real) * d == rest;
    SignOfScaled(q - n as real, d, rest);
    assert n as real <= q;
    assert (n as real + 1.0 - q) * d == d - rest;
    SignOfScaled(n as real + 1.0 - q, d, d - rest);
    assert q < n as real + 1.0;
  }

  /** If at least `n + 1` whole steps of `d` fit in `a`, the floor of `a / d`
      exceeds `n`. */
  lemma FloorAbove(a: real, d: real, n: int)
    requires 0.0 < d && (n as real + 1.0) * d <= a
    ensures n < (a / d).Floor
  {
    var q := a / d;
    assert q * d == a;
    assert (q - (n as real + 1.0)) * d == a - (n as real + 1.0) * d;
    SignOfScaled(q - (n as real + 1.0), d, a - (n as real + 1.0) * d);
  }
}
