/** The post-Newtonian force model of the two-body simulation: the relative
    acceleration up to 2.5PN order and its split into per-body accelerations.
    Units are astronomical units, years and solar masses. */
module Formulae {
  import opened Vectors
  import opened MathLib

  /** The value of `M_PI` as the source defines it. */
  const PI: real := 3.14159265358979323846264338327950288
  /** Newtonian gravitational constant in AU^3 / (Msun yr^2). */
  const G: real := 4.0 * PI * PI
  /** Speed of light in AU / yr. */
  const C: real := 63241.0771
  const C2: real := 1.0 / (C * C)
  const C4: real := 1.0 / (C * C * C * C)
  const C5: real := 1.0 / (C * C * C * C * C)

  /** The scalar quantities the PN terms are built from. */
  datatype Scalars = Scalars(
    m: real,      // total mass
    mu: real,     // gravitational parameter G m
    eta: real,    // symmetric mass ratio m1 m2 / m^2
    r: real,      // scalar separation
    vSq: real,    // squared relative speed
    rDot: real,   // radial velocity
    rDot2: real,  // rDot squared
    muR: real)    // mu / r

  /** The scalars together with the three vectors of the relative motion. */
  datatype Terms = Terms(s: Scalars, sep: Vec3, vBold: Vec3, nHat: Vec3)

  /** The separation vector `pos1 - pos2` whose length is `r`. */
  function Separation(pos1: Vec3, pos2: Vec3): Vec3 {
    Sub(pos1, pos2)
  }

  /** The C++ computes with doubles and gets inf or NaN when the total mass or
      the separation is zero; over the reals those inputs are excluded. */
  ghost predicate Defined(pos1: Vec3, pos2: Vec3, m1: real, m2: real, sqrt: real -> real) {
    m1 + m2 != 0.0 && sqrt(Dot(Separation(pos1, pos2), Separation(pos1, pos2))) != 0.0
  }

  /** `n_smr = m1 m2 / (m1 + m2)^2` */
  function SymmetricMassRatio(m1: real, m2: real): (eta: real)
    requires m1 + m2 != 0.0
    ensures eta * ((m1 + m2) * (m1 + m2)) == m1 * m2
  {
    var m := m1 + m2;
    SquarePositive(m);
    (m1 * m2) / (m * m)
  }

  /** Mass terms and relative terms, in the order the source computes them. */
  function RelativeTerms(pos1: Vec3, pos2: Vec3, v1: Vec3, v2: Vec3, m1: real, m2: real, sqrt: real -> real): (t: Terms)
    requires Defined(pos1, pos2, m1, m2, sqrt)
    ensures t.sep == Separation(pos1, pos2) && t.vBold == Sub(v1, v2)
    ensures t.s.r * t.s.muR == t.s.mu
  {
    var m := m1 + m2;
    var mu := G * m;
    var eta := SymmetricMassRatio(m1, m2);
    var vBold := Sub(v1, v2);
    var sep := Sub(pos1, pos2);
    var r := sqrt(Dot(sep, sep));
    var vSq := Dot(vBold, vBold);
    var invR := 1.0 / r;
    var nHat := Scale(invR, sep);
    var rDot := Dot(vBold, nHat);
    Terms(Scalars(m, mu, eta, r, vSq, rDot, rDot * rDot, mu * invR), sep, vBold, nHat)
  }

  /** A vector of the shape `alpha n + beta v` in which every PN term is written. */
  function Directed(alpha: real, beta: real, nHat: Vec3, vBold: Vec3): Vec3 {
    Add(Scale(alpha, nHat), Scale(beta, vBold))
  }

  // 1PN: ((4 + 2 eta) mu/r - (1 + 3 eta) v^2 + 3/2 eta rDot^2) n + (4 - 2 eta) rDot v
  function A1PNn(s: Scalars): real {
    ((4.0 + (2.0 * s.eta)) * s.muR) - ((1.0 + (3.0 * s.eta)) * s.vSq) + (1.5 * (s.eta * s.rDot2))
  }

  function A1PNv(s: Scalars): real {
    (4.0 - (2.0 * s.eta)) * s.rDot
  }

  function A1PN(t: Terms): Vec3 {
    Directed(A1PNn(t.s), A1PNv(t.s), t.nHat, t.vBold)
  }

  // 2PN
  function A2PNn(s: Scalars): real {
    var v4 := s.vSq * s.vSq;
    var rDot4 := s.rDot2 * s.rDot2;
    var muR2 := s.muR * s.muR;
    (0.75 * (12.0 + 29.0 * s.eta) * muR2)
    + (s.eta * (3.0 - 4.0 * s.eta) * v4)
    + ((15.0 / 8.0) * s.eta * (1.0 - 3.0 * s.eta) * rDot4)
    - (1.5 * s.eta * (3.0 - 4.0 * s.eta) * s.vSq * s.rDot2)
    - (0.5 * s.eta * (13.0 - 4.0 * s.eta) * s.muR * s.vSq)
    - (2.0 + (25.0 * s.eta) + 2.0 * (s.eta * s.eta)) * s.muR * s.rDot2
  }

  function A2PNv(s: Scalars): real {
    (s.eta * (15.0 + 4.0 * s.eta) * s.vSq * s.rDot)
    - (1.5 * s.eta * (3.0 + 2.0 * s.eta) * s.rDot2 * s.rDot)
    - (0.5 * (4.0 + (41.0 * s.eta) + 8.0 * (s.eta * s.eta)) * s.muR * s.rDot)
  }

  function A2PN(t: Terms): Vec3 {
    Directed(A2PNn(t.s), A2PNv(t.s), t.nHat, t.vBold)
  }

  // 2.5PN, the radiation-reaction term:
  // ((9 v^2 + 17 mu/r) rDot n + (3 v^2 + 9 mu/r) v) * (-(8/15) eta mu/r)
  function A25PNk(s: Scalars): real {
    -(8.0 / 15.0) * s.eta * s.muR
  }

  function A25PN(t: Terms): Vec3 {
    Scale(A25PNk(t.s), Directed(((9.0 * t.s.vSq) + (17.0 * t.s.muR)) * t.s.rDot, (3.0 * t.s.vSq) + (9.0 * t.s.muR), t.nHat, t.vBold))
  }

  /** The bracket `-n + c2 A_1PN + c4 A_2PN + c5 A_25PN` for given inverse
      powers of the speed of light. */
  function Corrections(t: Terms, c2: real, c4: real, c5: real): Vec3 {
    Add(Add(Add(Neg(t.nHat), Scale(c2, A1PN(t))), Scale(c4, A2PN(t))), Scale(c5, A25PN(t)))
  }

  /** The Newtonian magnitude `mu / r^2`. */
  function NewtonianMagnitude(s: Scalars): (g: real)
    requires s.r != 0.0
    ensures g * (s.r * s.r) == s.mu
  {
    SquarePositive(s.r);
    s.mu / (s.r * s.r)
  }

  /** `(mu/r^2)(-n + c2 A_1PN + c4 A_2PN + c5 A_25PN)` */
  function Combine(t: Terms, c2: real, c4: real, c5: real): Vec3
    requires t.s.r != 0.0
  {
    Scale(NewtonianMagnitude(t.s), Corrections(t, c2, c4, c5))
  }

  /** The relative acceleration `dv/dt` of body 1 with respect to body 2. */
  function PNAcceleration(pos1: Vec3, pos2: Vec3, v1: Vec3, v2: Vec3, m1: real, m2: real, sqrt: real -> real): Vec3
    requires Defined(pos1, pos2, m1, m2, sqrt)
  {
    var t := RelativeTerms(pos1, pos2, v1, v2, m1, m2, sqrt);
    Combine(t, C2, C4, C5)
  }

  /** Splits the relative acceleration into the two bodies' accelerations by
      the mass ratio. The two conditions below determine the pair uniquely:
      momentum balance and reconstruction of the relative acceleration. */
  function ResolveRelAccel(aRel: Vec3, m1: real, m2: real): (a: (Vec3, Vec3))
    requires m1 + m2 != 0.0
    ensures Add(Scale(m1, a.0), Scale(m2, a.1)) == Zero
    ensures Sub(a.0, a.1) == aRel
  {
    var m := m1 + m2;
    var a1 := Scale(m2 / m, aRel);
    var a2 := Neg(Scale(m1 / m, aRel));
    SplitBalances(m1, m2, aRel.x);
    SplitBalances(m1, m2, aRel.y);
    SplitBalances(m1, m2, aRel.z);
    (a1, a2)
  }

  lemma SplitBalances(m1: real, m2: real, x: real)
    requires m1 + m2 != 0.0
    ensures m1 * ((m2 / (m1 + m2)) * x) + m2 * (-((m1 / (m1 + m2)) * x)) == 0.0
    ensures (m2 / (m1 + m2)) * x - (-((m1 / (m1 + m2)) * x)) == x
  {
    var m := m1 + m2;
    var p := m2 / m;
    var q := m1 / m;
    assert p * m == m2 && q * m == m1;
    assert p + q == 1.0 by {
      assert p + q == (m2 + m1) / m;
    }
    assert m1 * (p * x) == (m1 * p) * x;
    assert m2 * (q * x) == (m2 * q) * x;
    assert m1 * p == m2 * q by {
      assert m1 * p * m == m1 * m2;
      assert m2 * q * m == m1 * m2;
    }
    assert p * x + q * x == (p + q) * x;
  }

  /** The symmetric mass ratio of two non-negative masses with a positive sum
      lies in [0, 1/4]; it is 0 exactly when one mass is 0 and 1/4 exactly when
      the masses are equal. */
  lemma SymmetricMassRatioBounds(m1: real, m2: real)
    requires 0.0 <= m1 && 0.0 <= m2 && 0.0 < m1 + m2
    ensures 0.0 <= SymmetricMassRatio(m1, m2) <= 0.25
    ensures SymmetricMassRatio(m1, m2) == 0.0 <==> m1 == 0.0 || m2 == 0.0
    ensures SymmetricMassRatio(m1, m2) == 0.25 <==> m1 == m2
  {
    var eta := SymmetricMassRatio(m1, m2);
    var k := (m1 + m2) * (m1 + m2);
    SquarePositive(m1 + m2);
    // eta k == m1 m2, whose sign the rewriting of products settles
    SignOfScaled(eta, k, m1 * m2);
    assert 0.0 <= m1 * m2;
    // (1/4 - eta) k == (m1 - m2)^2 / 4
    var d := (m1 - m2) * (m1 - m2);
    assert (0.25 - eta) * k == 0.25 * d;
    SignOfScaled(0.25 - eta, k, 0.25 * d);
    assert 0.0 <= d;
    if m1 != m2 {
      SquarePositive(m1 - m2);
    }
  }

  /** Given `sqrt` squares back, `r n_hat == sep`, the direction `n_hat` has
      unit length, and `r_dot r == v . sep`, so `r_dot` is the radial
      component of the relative velocity. */
  lemma UnitDirection(pos1: Vec3, pos2: Vec3, v1: Vec3, v2: Vec3, m1: real, m2: real, lib: Libm)
    requires lib.Valid() && Defined(pos1, pos2, m1, m2, lib.sqrt)
    ensures var t := RelativeTerms(pos1, pos2, v1, v2, m1, m2, lib.sqrt);
      && Scale(t.s.r, t.nHat) == t.sep
      && Dot(t.nHat, t.nHat) == 1.0
      && t.s.rDot * t.s.r == Dot(t.vBold, t.sep)
  {
    var t := RelativeTerms(pos1, pos2, v1, v2, m1, m2, lib.sqrt);
    assert t.s.r * t.s.r == Dot(t.sep, t.sep);
    assert t.nHat == Scale(1.0 / t.s.r, t.sep) && t.s.rDot == Dot(t.vBold, t.nHat);
    Normalised(t.s.r, t.sep, t.vBold);
  }

  /** Dividing a vector by its non-zero length gives a unit vector that
      scales back to it, and projects any `v` onto it with weight `1/r`. */
  lemma Normalised(r: real, sep: Vec3, v: Vec3)
    requires r != 0.0 && r * r == Dot(sep, sep)
    ensures Scale(r, Scale(1.0 / r, sep)) == sep
    ensures Dot(Scale(1.0 / r, sep), Scale(1.0 / r, sep)) == 1.0
    ensures Dot(v, Scale(1.0 / r, sep)) * r == Dot(v, sep)
  {
    var k := 1.0 / r;
    assert k * r == 1.0;
    MScaleVec(r, k, sep);
    DotScale(k, sep);
    assert Dot(Scale(k, sep), Scale(k, sep)) == (k * r) * (k * r);
    DotScaleRight(v, k, sep);
  }

  /** Swapping the two bodies keeps every scalar and flips the three vectors. */
  lemma SwapTerms(pos1: Vec3, pos2: Vec3, v1: Vec3, v2: Vec3, m1: real, m2: real, sqrt: real -> real)
    requires Defined(pos1, pos2, m1, m2, sqrt)
    ensures Defined(pos2, pos1, m2, m1, sqrt)
    ensures var t := RelativeTerms(pos1, pos2, v1, v2, m1, m2, sqrt);
      var u := RelativeTerms(pos2, pos1, v2, v1, m2, m1, sqrt);
      && u.s == t.s
      && u.sep == Neg(t.sep) && u.vBold == Neg(t.vBold) && u.nHat == Neg(t.nHat)
  {
    var sep := Separation(pos1, pos2);
    assert Separation(pos2, pos1) == Neg(sep);
    DotNeg(sep, sep);
    var t := RelativeTerms(pos1, pos2, v1, v2, m1, m2, sqrt);
    var u := RelativeTerms(pos2, pos1, v2, v1, m2, m1, sqrt);
    assert u.vBold == Neg(t.vBold);
    DotNeg(t.vBold, t.vBold);
    ScaleNeg(1.0 / t.s.r, sep);
    DotNeg(t.vBold, t.nHat);
  }

  lemma DirectedNeg(alpha: real, beta: real, nHat: Vec3, vBold: Vec3)
    ensures Directed(alpha, beta, Neg(nHat), Neg(vBold)) == Neg(Directed(alpha, beta, nHat, vBold))
  {
    ScaleNeg(alpha, nHat);
    ScaleNeg(beta, vBold);
    AddNeg(Scale(alpha, nHat), Scale(beta, vBold));
  }

  /** The PN expression is odd in the direction vectors: same scalars, flipped
      `n_hat` and `v` give the negated acceleration. */
  lemma CombineOdd(t: Terms, u: Terms, c2: real, c4: real, c5: real)
    requires t.s.r != 0.0 && u.s == t.s && u.nHat == Neg(t.nHat) && u.vBold == Neg(t.vBold)
    ensures Combine(u, c2, c4, c5) == Neg(Combine(t, c2, c4, c5))
  {
    DirectedNeg(A1PNn(t.s), A1PNv(t.s), t.nHat, t.vBold);
    assert A1PN(u) == Neg(A1PN(t));
    DirectedNeg(A2PNn(t.s), A2PNv(t.s), t.nHat, t.vBold);
    assert A2PN(u) == Neg(A2PN(t));
    var alpha := ((9.0 * t.s.vSq) + (17.0 * t.s.muR)) * t.s.rDot;
    var beta := (3.0 * t.s.vSq) + (9.0 * t.s.muR);
    DirectedNeg(alpha, beta, t.nHat, t.vBold);
    ScaleNeg(A25PNk(t.s), Directed(alpha, beta, t.nHat, t.vBold));
    assert A25PN(u) == Neg(A25PN(t));
    var a := Scale(c2, A1PN(t));
    var b := Scale(c4, A2PN(t));
    var c := Scale(c5, A25PN(t));
    ScaleNeg(c2, A1PN(t));
    ScaleNeg(c4, A2PN(t));
    ScaleNeg(c5, A25PN(t));
    AddNeg(Neg(t.nHat), a);
    AddNeg(Add(Neg(t.nHat), a), b);
    AddNeg(Add(Add(Neg(t.nHat), a), b), c);
    assert Corrections(u, c2, c4, c5) == Neg(Corrections(t, c2, c4, c5));
    ScaleNeg(NewtonianMagnitude(t.s), Corrections(t, c2, c4, c5));
  }

  /** Swapping `(pos1, v1, m1)` with `(pos2, v2, m2)` negates the relative
      acceleration. */
  lemma PNAccelerationAntisymmetric(pos1: Vec3, pos2: Vec3, v1: Vec3, v2: Vec3, m1: real, m2: real, sqrt: real -> real)
    requires Defined(pos1, pos2, m1, m2, sqrt)
    ensures Defined(pos2, pos1, m2, m1, sqrt)
    ensures PNAcceleration(pos2, pos1, v2, v1, m2, m1, sqrt) == Neg(PNAcceleration(pos1, pos2, v1, v2, m1, m2, sqrt))
  {
    SwapTerms(pos1, pos2, v1, v2, m1, m2, sqrt);
    CombineOdd(RelativeTerms(pos1, pos2, v1, v2, m1, m2, sqrt), RelativeTerms(pos2, pos1, v2, v1, m2, m1, sqrt), C2, C4, C5);
  }

  /** With every correction coefficient zero the expression is Newtonian
      gravity, `(mu / r^2)(-n_hat)`. */
  lemma NewtonianLimit(t: Terms)
    requires t.s.r != 0.0
    ensures Combine(t, 0.0, 0.0, 0.0) == Scale(NewtonianMagnitude(t.s), Neg(t.nHat))
  {
    assert Corrections(t, 0.0, 0.0, 0.0) == Neg(t.nHat);
  }

  /** The radiation-reaction term carries the factor `eta`, so it vanishes
      when one of the masses is zero. */
  lemma RadiationVanishesWithoutMassRatio(t: Terms)
    requires t.s.eta == 0.0
    ensures A25PN(t) == Zero
  {
  }
}
