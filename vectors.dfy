/** Three-component vectors and 4x3 state matrices over the reals, standing in
    for the double-precision glm types `dvec3` and `mat<4, 3, double>`. */
module Vectors {

  datatype Vec3 = Vec3(x: real, y: real, z: real) {
    /** Component j (0, 1, 2), like `v[j]`. */
    function At(j: nat): real
      requires j < 3
    {
      if j == 0 then x else if j == 1 then y else z
    }
  }

  const Zero: Vec3 := Vec3(0.0, 0.0, 0.0)

  function Add(a: Vec3, b: Vec3): Vec3 {
    Vec3(a.x + b.x, a.y + b.y, a.z + b.z)
  }

  function Sub(a: Vec3, b: Vec3): Vec3 {
    Vec3(a.x - b.x, a.y - b.y, a.z - b.z)
  }

  function Neg(a: Vec3): Vec3 {
    Vec3(-a.x, -a.y, -a.z)
  }

  function Scale(k: real, a: Vec3): Vec3 {
    Vec3(k * a.x, k * a.y, k * a.z)
  }

  function Dot(a: Vec3, b: Vec3): real {
    a.x * b.x + a.y * b.y + a.z * b.z
  }

  /** A 4x3 matrix stored as its four rows; in the simulation the rows are
      [pos1, vel1, pos2, vel2]. */
  datatype Mat43 = Mat43(r0: Vec3, r1: Vec3, r2: Vec3, r3: Vec3) {
    /** Row i (0..3), like `y[i]`. */
    function Row(i: nat): Vec3
      requires i < 4
    {
      if i == 0 then r0 else if i == 1 then r1 else if i == 2 then r2 else r3
    }

    /** Entry (i, j), like `y[i][j]`. */
    function At(i: nat, j: nat): real
      requires i < 4 && j < 3
    {
      Row(i).At(j)
    }
  }

  const MZero: Mat43 := Mat43(Zero, Zero, Zero, Zero)

  function MAdd(a: Mat43, b: Mat43): Mat43 {
    Mat43(Add(a.r0, b.r0), Add(a.r1, b.r1), Add(a.r2, b.r2), Add(a.r3, b.r3))
  }

  function MScale(k: real, a: Mat43): Mat43 {
    Mat43(Scale(k, a.r0), Scale(k, a.r1), Scale(k, a.r2), Scale(k, a.r3))
  }

  lemma ScaleNeg(k: real, a: Vec3)
    ensures Scale(k, Neg(a)) == Neg(Scale(k, a))
  {
  }

  lemma AddNeg(a: Vec3, b: Vec3)
    ensures Add(Neg(a), Neg(b)) == Neg(Add(a, b))
  {
  }

  lemma DotNeg(a: Vec3, b: Vec3)
    ensures Dot(Neg(a), Neg(b)) == Dot(a, b)
  {
  }

  lemma DotScale(k: real, a: Vec3)
    ensures Dot(Scale(k, a), Scale(k, a)) == k * k * Dot(a, a)
  {
    calc {
      Dot(Scale(k, a), Scale(k, a));
      (k * a.x) * (k * a.x) + (k * a.y) * (k * a.y) + (k * a.z) * (k * a.z);
      k * k * (a.x * a.x) + k * k * (a.y * a.y) + k * k * (a.z * a.z);
    }
  }

  lemma MScaleDistrib(a: real, b: real, k: Mat43)
    ensures MAdd(MScale(a, k), MScale(b, k)) == MScale(a + b, k)
  {
    forall v: Vec3 ensures Add(Scale(a, v), Scale(b, v)) == Scale(a + b, v) {
      assert a * v.x + b * v.x == (a + b) * v.x;
      assert a * v.y + b * v.y == (a + b) * v.y;
      assert a * v.z + b * v.z == (a + b) * v.z;
    }
  }

  lemma MScaleOne(a: Mat43)
    ensures MScale(1.0, a) == a
  {
  }

  lemma MScaleVec(a: real, b: real, v: Vec3)
    ensures Scale(a, Scale(b, v)) == Scale(a * b, v)
  {
    assert a * (b * v.x) == (a * b) * v.x;
    assert a * (b * v.y) == (a * b) * v.y;
    assert a * (b * v.z) == (a * b) * v.z;
  }

  lemma DotScaleRight(a: Vec3, k: real, b: Vec3)
    ensures Dot(a, Scale(k, b)) == k * Dot(a, b)
  {
  }
}
