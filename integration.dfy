/** The adaptive Dormand–Prince RK5(4)7M integrator of `RK45_integration`:
    the derivative packing, one substep with its embedded error estimate, the
    RMS error norm, and the step-size controller that drives substeps across
    one physics step. */
module Integration {
  import opened Vectors
  import opened MathLib
  import opened Formulae

  // Dormand–Prince RK5(4)7M tableau: stage coefficients a_ij ...
  const A21: real := 0.2
  const A31: real := 3.0 / 40.0
  const A32: real := 9.0 / 40.0
  const A41: real := 44.0 / 45.0
  const A42: real := -56.0 / 15.0
  const A43: real := 32.0 / 9.0
  const A51: real := 19372.0 / 6561.0
  const A52: real := -25360.0 / 2187.0
  const A53: real := 64448.0 / 6561.0
  const A54: real := -212.0 / 729.0
  const A61: real := 9017.0 / 3168.0
  const A62: real := -355.0 / 33.0
  const A63: real := 46732.0 / 5247.0
  const A64: real := 49.0 / 176.0
  const A65: real := -5103.0 / 18656.0
  // ... the weights b_i of the solution y4 (b2 = b7 = 0) ...
  const B1: real := 35.0 / 384.0
  const B3: real := 500.0 / 1113.0
  const B4: real := 125.0 / 192.0
  const B5: real := -2187.0 / 6784.0
  const B6: real := 11.0 / 84.0
  // ... and the weights b*_i of the solution y5 (b*2 = 0)
  const B1S: real := 5179.0 / 57600.0
  const B3S: real := 7571.0 / 16695.0
  const B4S: real := 393.0 / 640.0
  const B5S: real := -92097.0 / 339200.0
  const B6S: real := 187.0 / 2100.0
  const B7S: real := 1.0 / 40.0

  // Controller constants
  const Safety: real := 0.9
  const MinAdapt: real := 0.1
  const MaxAdapt: real := 5.0
  /** Added to the error norm before it is inverted. */
  const ErrFloor: real := 1.0e-16
  /** Consecutive rejections that abort a step. */
  const CrashRejects: nat := 50
  /** The tolerance `step` passes to the controller. */
  const StepTol: real := 1.0

  /** The physics state shared through the back buffer: rows
      [pos1, vel1, pos2, vel2], both masses and the simulated time. */
  datatype MathState = MathState(y: Mat43, m1: real, m2: real, physicsTime: real)

  /** The absolute and relative tolerances of the error norm. */
  datatype Tol = Tol(atol: real, rtol: real)
  {
    /** Tolerances under which every error scale is positive (the division
        by the scale is undefined otherwise). */
    predicate Valid() {
      0.0 < atol && 0.0 <= rtol
    }
  }

  /** The valid tolerances. */
  type Tolerances = t: Tol | t.Valid() witness Tol(1.0, 0.0)

  /** The outcome of one substep: the fifth-order state and its error norm. */
  datatype SubstepValues = SubstepValues(stateY: Mat43, errNorm: real)

  /** The outcome of one integrated physics step. */
  datatype IntegrateResult = IntegrateResult(stateY: Mat43, slip: real, count: nat, accepts: nat, rejects: nat, crash: bool)

  /** Each stage row sums to its node and each weight set sums to one. */
  lemma TableauConsistent()
    ensures A21 == 1.0 / 5.0
    ensures A31 + A32 == 3.0 / 10.0
    ensures A41 + A42 + A43 == 4.0 / 5.0
    ensures A51 + A52 + A53 + A54 == 8.0 / 9.0
    ensures A61 + A62 + A63 + A64 + A65 == 1.0
    ensures B1 + B3 + B4 + B5 + B6 == 1.0
    ensures B1S + B3S + B4S + B5S + B6S + B7S == 1.0
  {
  }

  // ---------------------------------------------------------------------------
  // Derivatives

  /** The right-hand side of the equations of motion: unpacks
      [pos1, v1, pos2, v2] and packs [v1, a1, v2, a2], where the per-body
      accelerations split the PN relative acceleration. */
  function Derivatives(state: Mat43, m1: real, m2: real, sqrt: real -> real): (d: Mat43)
    requires Defined(state.r0, state.r2, m1, m2, sqrt)
    ensures d.r0 == state.r1 && d.r2 == state.r3
    ensures Add(Scale(m1, d.r1), Scale(m2, d.r3)) == Zero
    ensures Sub(d.r1, d.r3) == PNAcceleration(state.r0, state.r2, state.r1, state.r3, m1, m2, sqrt)
  {
    var aRel := PNAcceleration(state.r0, state.r2, state.r1, state.r3, m1, m2, sqrt);
    var a := ResolveRelAccel(aRel, m1, m2);
    Mat43(state.r1, a.0, state.r3, a.1)
  }

  // ---------------------------------------------------------------------------
  // Error norm

  /** Entry k (0..11) of a 4x3 matrix in row-major order, the order in which
      the error norm visits them. */
  function Entry(m: Mat43, k: nat): real
    requires k < 12
  {
    m.At(k / 3, k % 3)
  }

  /** Two matrices that agree on all twelve entries are equal. */
  lemma EntriesDetermine(a: Mat43, b: Mat43)
    requires forall k :: 0 <= k < 12 ==> Entry(a, k) == Entry(b, k)
    ensures a == b
  {
    assert Entry(a, 0) == Entry(b, 0) && Entry(a, 1) == Entry(b, 1) && Entry(a, 2) == Entry(b, 2);
    assert Entry(a, 3) == Entry(b, 3) && Entry(a, 4) == Entry(b, 4) && Entry(a, 5) == Entry(b, 5);
    assert Entry(a, 6) == Entry(b, 6) && Entry(a, 7) == Entry(b, 7) && Entry(a, 8) == Entry(b, 8);
    assert Entry(a, 9) == Entry(b, 9) && Entry(a, 10) == Entry(b, 10) && Entry(a, 11) == Entry(b, 11);
  }

  /** The error scale `atol + rtol max(|y_ij|, |y4_ij|)`. */
  function ErrScale(tol: Tolerances, a: real, b: real): (s: real)
    ensures tol.atol <= s
  {
    assert 0.0 <= tol.rtol * Max(Abs(a), Abs(b));
    tol.atol + tol.rtol * Max(Abs(a), Abs(b))
  }

  /** The scaled difference `(y5_ij - y4_ij) / scale` at entry k. */
  function ScaledDiff(y: Mat43, y4: Mat43, y5: Mat43, tol: Tolerances, k: nat): real
    requires k < 12
  {
    (Entry(y5, k) - Entry(y4, k)) / ErrScale(tol, Entry(y, k), Entry(y4, k))
  }

  /** The sum of the squared scaled differences over the first n entries. */
  function SumSq(y: Mat43, y4: Mat43, y5: Mat43, tol: Tolerances, n: nat): real
    requires n <= 12
  {
    if n == 0 then 0.0 else SumSq(y, y4, y5, tol, n - 1) + Square(ScaledDiff(y, y4, y5, tol, n - 1))
  }

  /** `x * x` */
  function Square(x: real): real {
    x * x
  }

  /** `sqrt(sum / N)` over the N = 12 entries of the state. */
  function ErrNorm(y: Mat43, y4: Mat43, y5: Mat43, tol: Tolerances, sqrt: real -> real): real {
    sqrt(SumSq(y, y4, y5, tol, 12) / 12.0)
  }

  /** A partial sum of squares is non-negative, and it is zero exactly when
      y4 and y5 agree on the entries it covers. */
  lemma {:induction false} SumSqZeroIff(y: Mat43, y4: Mat43, y5: Mat43, tol: Tolerances, n: nat)
    requires n <= 12
    ensures 0.0 <= SumSq(y, y4, y5, tol, n)
    ensures SumSq(y, y4, y5, tol, n) == 0.0 <==> forall k :: 0 <= k < n ==> Entry(y5, k) == Entry(y4, k)
  {
    if n > 0 {
      SumSqZeroIff(y, y4, y5, tol, n - 1);
      ScaledDiffZeroIff(y, y4, y5, tol, n - 1);
    }
  }

  /** One squared scaled difference is non-negative, and it is zero exactly
      when y4 and y5 agree on that entry. */
  lemma ScaledDiffZeroIff(y: Mat43, y4: Mat43, y5: Mat43, tol: Tolerances, k: nat)
    requires k < 12
    ensures 0.0 <= Square(ScaledDiff(y, y4, y5, tol, k))
    ensures Square(ScaledDiff(y, y4, y5, tol, k)) == 0.0 <==> Entry(y5, k) == Entry(y4, k)
  {
    var d := ScaledDiff(y, y4, y5, tol, k);
    var s := ErrScale(tol, Entry(y, k), Entry(y4, k));
    assert d * s == Entry(y5, k) - Entry(y4, k);
    assert Square(d) == d * d;
    assert 0.0 <= d * d;
    if d != 0.0 {
      SquarePositive(d);
      assert Entry(y5, k) != Entry(y4, k);
    }
  }

  /** The error norm is non-negative. */
  lemma ErrNormNonneg(y: Mat43, y4: Mat43, y5: Mat43, tol: Tolerances, lib: Libm)
    requires lib.Valid()
    ensures 0.0 <= ErrNorm(y, y4, y5, tol, lib.sqrt)
  {
    SumSqZeroIff(y, y4, y5, tol, 12);
  }

  /** The error norm is zero exactly when the two embedded solutions agree. */
  lemma ErrNormZeroIff(y: Mat43, y4: Mat43, y5: Mat43, tol: Tolerances, lib: Libm)
    requires lib.Valid()
    ensures ErrNorm(y, y4, y5, tol, lib.sqrt) == 0.0 <==> y4 == y5
  {
    SumSqZeroIff(y, y4, y5, tol, 12);
    var x := SumSq(y, y4, y5, tol, 12) / 12.0;
    assert lib.sqrt(x) * lib.sqrt(x) == x;
    if ErrNorm(y, y4, y5, tol, lib.sqrt) == 0.0 {
      assert x == 0.0;
      EntriesDetermine(y5, y4);
    }
  }

  /** Entry (i, j) is entry 3 i + j of the row-major order. */
  lemma EntryAt(m: Mat43, i: nat, j: nat)
    requires i < 4 && j < 3
    ensures Entry(m, 3 * i + j) == m.At(i, j)
  {
    assert (3 * i + j) / 3 == i && (3 * i + j) % 3 == j;
  }

  /** Visiting entry (i, j) adds its squared scaled difference to the sum. */
  lemma SumSqStep(y: Mat43, y4: Mat43, y5: Mat43, tol: Tolerances, i: nat, j: nat, diff: real)
    requires i < 4 && j < 3
    requires diff == (y5.At(i, j) - y4.At(i, j)) / ErrScale(tol, y.At(i, j), y4.At(i, j))
    ensures SumSq(y, y4, y5, tol, 3 * i + j + 1) == SumSq(y, y4, y5, tol, 3 * i + j) + Square(diff)
  {
    var k := 3 * i + j;
    EntryAt(y, i, j);
    EntryAt(y4, i, j);
    EntryAt(y5, i, j);
    assert diff == ScaledDiff(y, y4, y5, tol, k);
  }

  /** `calc_err_norm`: the RMS of the scaled differences, accumulated by two
      nested loops over the rows and the columns. */
  method CalcErrNorm(y: Mat43, y4: Mat43, y5: Mat43, atol: real, rtol: real, sqrt: real -> real) returns (norm: real)
    requires Tol(atol, rtol).Valid()
    ensures norm == ErrNorm(y, y4, y5, Tol(atol, rtol), sqrt)
  {
    var tol: Tolerances := Tol(atol, rtol);
    var sum := 0.0;
    var count := 0;
    for i := 0 to 4
      invariant count == 3 * i
      invariant sum == SumSq(y, y4, y5, tol, count)
    {
      for j := 0 to 3
        invariant count == 3 * i + j
        invariant sum == SumSq(y, y4, y5, tol, count)
      {
        var scale := ErrScale(tol, y.At(i, j), y4.At(i, j));
        var diff := (y5.At(i, j) - y4.At(i, j)) / scale;
        SumSqStep(y, y4, y5, tol, i, j, diff);
        sum := sum + Square(diff);
        count := count + 1;
      }
    }
    norm := sqrt(sum / count as real);
  }

  // ---------------------------------------------------------------------------
  // One substep

  /** The fourth- and fifth-order solutions of one substep. */
  datatype Solutions = Solutions(y4: Mat43, y5: Mat43)

  /** The seven Dormand–Prince stages from `y` over a step `h`; the fourth-order
      solution doubles as the seventh stage point. */
  function Solve(deriv: (Mat43, real, real) -> Mat43, y: Mat43, h: real, m1: real, m2: real): Solutions {
    var k1 := deriv(y, m1, m2);
    var k2 := deriv(Advance(y, h, Comb2(k1)), m1, m2);
    var k3 := deriv(Advance(y, h, Comb3(k1, k2)), m1, m2);
    var k4 := deriv(Advance(y, h, Comb4(k1, k2, k3)), m1, m2);
    var k5 := deriv(Advance(y, h, Comb5(k1, k2, k3, k4)), m1, m2);
    var k6 := deriv(Advance(y, h, Comb6(k1, k2, k3, k4, k5)), m1, m2);
    var y4 := Advance(y, h, Weighted4(k1, k3, k4, k5, k6));
    var k7 := deriv(y4, m1, m2);
    var y5 := Advance(y, h, Weighted5(k1, k3, k4, k5, k6, k7));
    Solutions(y4, y5)
  }

  /** `y + h * slope` */
  function Advance(y: Mat43, h: real, slope: Mat43): Mat43 {
    MAdd(y, MScale(h, slope))
  }

  /** `a21 k1` */
  function Comb2(k1: Mat43): Mat43 {
    MScale(A21, k1)
  }

  /** `a31 k1 + a32 k2` */
  function Comb3(k1: Mat43, k2: Mat43): Mat43 {
    MAdd(MScale(A31, k1), MScale(A32, k2))
  }

  /** `a41 k1 + a42 k2 + a43 k3` */
  function Comb4(k1: Mat43, k2: Mat43, k3: Mat43): Mat43 {
    MAdd(MAdd(MScale(A41, k1), MScale(A42, k2)), MScale(A43, k3))
  }

  /** `a51 k1 + a52 k2 + a53 k3 + a54 k4` */
  function Comb5(k1: Mat43, k2: Mat43, k3: Mat43, k4: Mat43): Mat43 {
    MAdd(MAdd(MAdd(MScale(A51, k1), MScale(A52, k2)), MScale(A53, k3)), MScale(A54, k4))
  }

  /** `a61 k1 + a62 k2 + a63 k3 + a64 k4 + a65 k5` */
  function Comb6(k1: Mat43, k2: Mat43, k3: Mat43, k4: Mat43, k5: Mat43): Mat43 {
    MAdd(MAdd(MAdd(MAdd(MScale(A61, k1), MScale(A62, k2)), MScale(A63, k3)), MScale(A64, k4)), MScale(A65, k5))
  }

  /** `b1 k1 + b3 k3 + b4 k4 + b5 k5 + b6 k6` */
  function Weighted4(k1: Mat43, k3: Mat43, k4: Mat43, k5: Mat43, k6: Mat43): Mat43 {
    MAdd(MAdd(MAdd(MAdd(MScale(B1, k1), MScale(B3, k3)), MScale(B4, k4)), MScale(B5, k5)), MScale(B6, k6))
  }

  /** `b*1 k1 + b*3 k3 + b*4 k4 + b*5 k5 + b*6 k6 + b*7 k7` */
  function Weighted5(k1: Mat43, k3: Mat43, k4: Mat43, k5: Mat43, k6: Mat43, k7: Mat43): Mat43 {
    MAdd(MAdd(MAdd(MAdd(MAdd(MScale(B1S, k1), MScale(B3S, k3)), MScale(B4S, k4)), MScale(B5S, k5)), MScale(B6S, k6)), MScale(B7S, k7))
  }

  /** `RK45_substep`: the fifth-order state and the error norm of its
      difference from the fourth-order state. */
  function Substep(deriv: (Mat43, real, real) -> Mat43, y: Mat43, h: real, m1: real, m2: real,
                   tol: Tolerances, sqrt: real -> real): SubstepValues
  {
    var s := Solve(deriv, y, h, m1, m2);
    SubstepValues(s.y5, ErrNorm(y, s.y4, s.y5, tol, sqrt))
  }

  /** With a valid `sqrt`, every substep reports a non-negative error norm. */
  lemma SubstepErrNonneg(deriv: (Mat43, real, real) -> Mat43, m1: real, m2: real, tol: Tolerances, lib: Libm)
    ensures lib.Valid() ==> forall y: Mat43, h: real :: 0.0 <= Substep(deriv, y, h, m1, m2, tol, lib.sqrt).errNorm
  {
    if lib.Valid() {
      forall y: Mat43, h: real ensures 0.0 <= Substep(deriv, y, h, m1, m2, tol, lib.sqrt).errNorm {
        var s := Solve(deriv, y, h, m1, m2);
        ErrNormNonneg(y, s.y4, s.y5, tol, lib);
      }
    }
  }

  /** Because both weight sets sum to one, a constant derivative field is
      integrated exactly by both solutions: y4 == y5 == y + h K. */
  lemma ConstantFieldExact(deriv: (Mat43, real, real) -> Mat43, y: Mat43, h: real, m1: real, m2: real, kc: Mat43)
    requires forall s: Mat43 :: deriv(s, m1, m2) == kc
    ensures Solve(deriv, y, h, m1, m2).y4 == Advance(y, h, kc)
    ensures Solve(deriv, y, h, m1, m2).y5 == Advance(y, h, kc)
  {
    TableauConsistent();
    MScaleDistrib(B1, B3, kc);
    MScaleDistrib(B1 + B3, B4, kc);
    MScaleDistrib(B1 + B3 + B4, B5, kc);
    MScaleDistrib(B1 + B3 + B4 + B5, B6, kc);
    assert Weighted4(kc, kc, kc, kc, kc) == MScale(1.0, kc);
    MScaleDistrib(B1S, B3S, kc);
    MScaleDistrib(B1S + B3S, B4S, kc);
    MScaleDistrib(B1S + B3S + B4S, B5S, kc);
    MScaleDistrib(B1S + B3S + B4S + B5S, B6S, kc);
    MScaleDistrib(B1S + B3S + B4S + B5S + B6S, B7S, kc);
    assert Weighted5(kc, kc, kc, kc, kc, kc) == MScale(1.0, kc);
    MScaleOne(kc);
  }

  /** A constant field whose step leaves `y` where it is (a zero slope, or a
      zero step) gives back `y` with error norm 0. */
  lemma StillFieldSubstep(deriv: (Mat43, real, real) -> Mat43, y: Mat43, h: real, m1: real, m2: real,
                          kc: Mat43, tol: Tolerances, lib: Libm)
    requires lib.Valid()
    requires forall s: Mat43 :: deriv(s, m1, m2) == kc
    requires Advance(y, h, kc) == y
    ensures Substep(deriv, y, h, m1, m2, tol, lib.sqrt) == SubstepValues(y, 0.0)
  {
    ConstantFieldExact(deriv, y, h, m1, m2, kc);
    ErrNormZeroIff(y, y, y, tol, lib);
  }

  /** If every stage slope is zero, the substep returns `y` itself with error
      norm 0. */
  lemma ZeroFieldSubstep(deriv: (Mat43, real, real) -> Mat43, y: Mat43, h: real, m1: real, m2: real,
                         tol: Tolerances, lib: Libm)
    requires lib.Valid()
    requires forall s: Mat43 :: deriv(s, m1, m2) == MZero
    ensures Substep(deriv, y, h, m1, m2, tol, lib.sqrt) == SubstepValues(y, 0.0)
  {
    StaysPut(y, h);
    StillFieldSubstep(deriv, y, h, m1, m2, MZero, tol, lib);
  }

  /** Advancing along a zero slope stays put. */
  lemma StaysPut(y: Mat43, h: real)
    ensures Advance(y, h, MZero) == y
  {
  }

  // ---------------------------------------------------------------------------
  // Step-size controller

  /** The fixed inputs of one call of `RK45_integrate`: the substep (with the
      derivative oracle, masses and tolerances bound in), the `pow` routine,
      the interval and the acceptance tolerance. */
  datatype Problem = Problem(substep: (Mat43, real) -> SubstepValues, pow: (real, real) -> real,
                             totalDt: real, tol: real)
  {
    /** The substep reports non-negative error norms, as `Substep` does. */
    ghost predicate Ok() {
      forall y: Mat43, h: real :: 0.0 <= substep(y, h).errNorm
    }
  }

  /** The controller's loop variables. */
  datatype Ctl = Ctl(intgT: real, h: real, state: Mat43, count: nat, accepts: nat, rejects: nat,
                     since: nat, noCrash: bool)

  /** The loop variables on entry, with `h` the integrator's stored timestep. */
  function Init(y: Mat43, h0: real): Ctl {
    Ctl(0.0, h0, y, 0, 0, 0, 0, true)
  }

  /** The loop condition. */
  predicate Continues(p: Problem, c: Ctl) {
    c.intgT < p.totalDt && c.noCrash
  }

  /** The step actually attempted: `h`, cut back so as not to overshoot. */
  function ClampedStep(p: Problem, c: Ctl): real {
    if c.intgT + c.h > p.totalDt then p.totalDt - c.intgT else c.h
  }

  /** `safety (1 / (err + 1e-16))^(1/5)`, clamped to [minAdapt, maxAdapt]. */
  function AdaptFactor(err: real, pow: (real, real) -> real): (a: real)
    requires 0.0 <= err
    ensures MinAdapt <= a <= MaxAdapt
  {
    Min(Max(Safety * pow(1.0 / (err + ErrFloor), 0.2), MinAdapt), MaxAdapt)
  }

  /** The next step size, `h *= adapt`. */
  function Rescale(h: real, adapt: real): real {
    h * adapt
  }

  /** A positive step rescaled by an adapt factor stays within the factor's
      bounds. */
  lemma RescaleBetween(h: real, adapt: real)
    requires 0.0 < h && MinAdapt <= adapt <= MaxAdapt
    ensures h * MinAdapt <= Rescale(h, adapt) <= h * MaxAdapt
  {
    ScaleBetween(h, adapt, MinAdapt, MaxAdapt);
  }

  /** One iteration of the controller loop: attempt the clamped step, accept
      it when the error norm is below `tol`, then rescale the step. */
  function Next(p: Problem, c: Ctl): Ctl
    requires p.Ok()
  {
    var h := ClampedStep(p, c);
    var values := p.substep(c.state, h);
    var adapt := AdaptFactor(values.errNorm, p.pow);
    if values.errNorm < p.tol then
      Ctl(c.intgT + h, Rescale(h, adapt), values.stateY, c.count + 1, c.accepts + 1, c.rejects, 0, c.noCrash)
    else
      var since := c.since + 1;
      Ctl(c.intgT, Rescale(h, adapt), c.state, c.count + 1, c.accepts, c.rejects + 1, since,
          if since >= CrashRejects then false else c.noCrash)
  }

  /** The controller loop run for at most `fuel` iterations: it takes one
      substep per iteration and stops early only on its own loop condition. */
  function Run(p: Problem, c: Ctl, fuel: nat): (r: Ctl)
    requires p.Ok()
    ensures c.count <= r.count <= c.count + fuel
    ensures Continues(p, r) ==> r.count == c.count + fuel
    decreases fuel
  {
    if !Continues(p, c) || fuel == 0 then c else Run(p, Next(p, c), fuel - 1)
  }

  /** What the loop keeps true: a positive step, the counters add up, the
      crash flag is raised exactly at `CrashRejects` consecutive rejections,
      and accepted time is non-negative and, once any substep was taken,
      never past `totalDt`. */
  ghost predicate Inv(p: Problem, c: Ctl) {
    && 0.0 < c.h
    && c.count == c.accepts + c.rejects
    && c.since <= CrashRejects
    && (c.noCrash <==> c.since < CrashRejects)
    && 0.0 <= c.intgT
    && (c.count == 0 ==> c.intgT == 0.0)
    && (0 < c.count ==> c.intgT <= p.totalDt)
  }

  /** The attempted step is positive and never overshoots `totalDt`, and the
      next step lies between `minAdapt` and `maxAdapt` times it. */
  lemma StepSizeBounds(p: Problem, c: Ctl)
    requires p.Ok() && Inv(p, c) && Continues(p, c)
    ensures 0.0 < ClampedStep(p, c) <= c.h
    ensures c.intgT + ClampedStep(p, c) <= p.totalDt
    ensures ClampedStep(p, c) * MinAdapt <= Next(p, c).h <= ClampedStep(p, c) * MaxAdapt
  {
    var h := ClampedStep(p, c);
    var values := p.substep(c.state, h);
    var adapt := AdaptFactor(values.errNorm, p.pow);
    RescaleBetween(h, adapt);
    assert Next(p, c).h == Rescale(h, adapt);
  }

  /** A substep is accepted exactly when its error norm is below `tol`, and
      exactly then accepted time advances and the state becomes y5;
      otherwise the state is kept. */
  lemma AcceptIffBelowTol(p: Problem, c: Ctl)
    requires p.Ok() && Inv(p, c) && Continues(p, c)
    ensures var values := p.substep(c.state, ClampedStep(p, c));
      && (values.errNorm < p.tol <==> c.intgT < Next(p, c).intgT)
      && (values.errNorm < p.tol <==> Next(p, c).accepts == c.accepts + 1)
      && Next(p, c).state == (if values.errNorm < p.tol then values.stateY else c.state)
  {
    StepSizeBounds(p, c);
  }

  /** Each iteration keeps the loop invariant. */
  lemma NextKeepsInv(p: Problem, c: Ctl)
    requires p.Ok() && Inv(p, c) && Continues(p, c)
    ensures Inv(p, Next(p, c))
  {
    StepSizeBounds(p, c);
    var h := ClampedStep(p, c);
    assert h * MinAdapt <= Next(p, c).h;
    MulPos(h, MinAdapt);
  }

  /** The loop keeps its invariant for any number of iterations. */
  lemma {:induction false} RunKeepsInv(p: Problem, c: Ctl, fuel: nat)
    requires p.Ok() && Inv(p, c)
    ensures Inv(p, Run(p, c, fuel))
    decreases fuel
  {
    if Continues(p, c) && fuel > 0 {
      NextKeepsInv(p, c);
      RunKeepsInv(p, Next(p, c), fuel - 1);
    }
  }

  /** Without an accepted substep the returned state and time are the
      input's; the accept counter never decreases. */
  lemma {:induction false} RunKeepsStateWithoutAccept(p: Problem, c: Ctl, fuel: nat)
    requires p.Ok()
    ensures c.accepts <= Run(p, c, fuel).accepts
    ensures Run(p, c, fuel).accepts == c.accepts ==> Run(p, c, fuel).state == c.state && Run(p, c, fuel).intgT == c.intgT
    decreases fuel
  {
    if Continues(p, c) && fuel > 0 {
      RunKeepsStateWithoutAccept(p, Next(p, c), fuel - 1);
    }
  }

  /** From the entry state with a positive step: the invariant holds on
      return, the crash flag is set exactly after `CrashRejects` consecutive
      rejections, and a run that ends without a crash has integrated
      exactly `totalDt`. */
  lemma RunFromInit(p: Problem, y: Mat43, h0: real, fuel: nat)
    requires p.Ok() && 0.0 < h0
    ensures Inv(p, Run(p, Init(y, h0), fuel))
    ensures !Run(p, Init(y, h0), fuel).noCrash <==> Run(p, Init(y, h0), fuel).since == CrashRejects
    ensures var r := Run(p, Init(y, h0), fuel);
      !Continues(p, r) && r.noCrash && 0.0 < p.totalDt ==> r.intgT == p.totalDt
  {
    RunKeepsInv(p, Init(y, h0), fuel);
  }

  /** The loop of `RK45_integrate` over a given substep: clamp the step to
      the remaining interval, take a substep, accept it when its error norm
      is below `tol`, count consecutive rejections, and rescale the step.
      Runs at most `fuel` iterations. */
  method Control(p: Problem, y: Mat43, h0: real, fuel: nat) returns (c: Ctl, finished: bool)
    requires p.Ok()
    ensures c == Run(p, Init(y, h0), fuel)
    ensures finished == !Continues(p, c)
  {
    var intgT := 0.0;
    var state := y;
    var accepts, rejects, count := 0, 0, 0;
    var sinceLastAccept := 0;
    var h := h0;
    var noCrash := true;
    var n := fuel;
    while intgT < p.totalDt && noCrash && n > 0
      invariant Run(p, Ctl(intgT, h, state, count, accepts, rejects, sinceLastAccept, noCrash), n)
             == Run(p, Init(y, h0), fuel)
      decreases n
    {
      ghost var before := Ctl(intgT, h, state, count, accepts, rejects, sinceLastAccept, noCrash);
      if intgT + h > p.totalDt {
        h := p.totalDt - intgT;
      }
      var values := p.substep(state, h);
      if values.errNorm < p.tol {
        intgT := intgT + h;
        state := values.stateY;
        accepts := accepts + 1;
        sinceLastAccept := 0;
      } else {
        rejects := rejects + 1;
        sinceLastAccept := sinceLastAccept + 1;
        if sinceLastAccept >= CrashRejects {
          noCrash := false;
        }
      }
      var adapt := AdaptFactor(values.errNorm, p.pow);
      h := Rescale(h, adapt);
      count := count + 1;
      assert Ctl(intgT, h, state, count, accepts, rejects, sinceLastAccept, noCrash) == Next(p, before);
      n := n - 1;
    }
    c := Ctl(intgT, h, state, count, accepts, rejects, sinceLastAccept, noCrash);
    finished := !(intgT < p.totalDt && noCrash);
  }

  /** The result record of a finished loop; `slip` is always 0. */
  function Report(c: Ctl): IntegrateResult {
    IntegrateResult(c.state, 0.0, c.count, c.accepts, c.rejects, !c.noCrash)
  }

  /** `RK45_integration`: the tolerances and the step size carried from one
      physics step to the next. */
  class RK45Integration {
    const atol: real
    const rtol: real
    var timestep: real

    constructor(atol: real, rtol: real, initialDt: real)
      ensures this.atol == atol && this.rtol == rtol && timestep == initialDt
      ensures Tol(atol, rtol).Valid() && 0.0 < initialDt ==> Valid()
    {
      this.atol := atol;
      this.rtol := rtol;
      timestep := initialDt;
    }

    /** This integrator's tolerances are valid. */
    predicate TolValid() {
      Tol(atol, rtol).Valid()
    }

    /** Valid tolerances and a positive step size. */
    predicate Valid()
      reads this
    {
      TolValid() && 0.0 < timestep
    }

    /** The controller inputs of a call: `RK45_substep` with this integrator's
        tolerances. */
    function ProblemOf(deriv: (Mat43, real, real) -> Mat43, m1: real, m2: real, lib: Libm, totalDt: real, tol: real): (p: Problem)
      requires TolValid()
      ensures lib.Valid() ==> p.Ok()
    {
      var t: Tolerances := Tol(atol, rtol);
      SubstepErrNonneg(deriv, m1, m2, t, lib);
      Problem((y: Mat43, h: real) => Substep(deriv, y, h, m1, m2, t, lib.sqrt), lib.pow, totalDt, tol)
    }

    /** `RK45_integrate`: substeps from `y` until `totalDt` is covered or
        `CrashRejects` substeps in a row are rejected; at most `fuel`
        substeps are taken and `finished` tells whether the loop ended on its
        own condition. The final step size is kept for the next call. */
    method RK45Integrate(deriv: (Mat43, real, real) -> Mat43, y: Mat43, totalDt: real, tol: real,
                         m1: real, m2: real, lib: Libm, fuel: nat)
      returns (result: IntegrateResult, finished: bool)
      requires Valid() && lib.Valid()
      modifies this
      ensures var c := Run(ProblemOf(deriv, m1, m2, lib, totalDt, tol), Init(y, old(timestep)), fuel);
        && result == Report(c)
        && finished == !Continues(ProblemOf(deriv, m1, m2, lib, totalDt, tol), c)
        && timestep == c.h
      ensures Valid()
    {
      var p := ProblemOf(deriv, m1, m2, lib, totalDt, tol);
      var c;
      c, finished := Control(p, y, timestep, fuel);
      RunFromInit(p, y, timestep, fuel);
      timestep := c.h;
      result := IntegrateResult(c.state, 0.0, c.count, c.accepts, c.rejects, !c.noCrash);
    }

    /** `step`: integrates the back-buffer state over `physicsDt` with
        tolerance 1. The time advance lands on the by-value copy of the
        state only, so the caller's `physicsTime` is not changed. */
    method Step(deriv: (Mat43, real, real) -> Mat43, backbuf: MathState, physicsDt: real, lib: Libm, fuel: nat)
      returns (result: IntegrateResult, finished: bool)
      requires Valid() && lib.Valid()
      modifies this
      ensures var c := Run(ProblemOf(deriv, backbuf.m1, backbuf.m2, lib, physicsDt, StepTol), Init(backbuf.y, old(timestep)), fuel);
        && result == Report(c)
        && finished == !Continues(ProblemOf(deriv, backbuf.m1, backbuf.m2, lib, physicsDt, StepTol), c)
        && timestep == c.h
      ensures Valid()
    {
      var tol := StepTol;
      result, finished := RK45Integrate(deriv, backbuf.y, physicsDt, tol, backbuf.m1, backbuf.m2, lib, fuel);
    }
  }
}
