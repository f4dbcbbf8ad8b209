/** `celestial_body`: one of the two bodies as the renderer sees it, with the
    sphere radius derived from its mass. */
module Bodies {
  import opened Vectors
  import opened MathLib
  import Formulae

  /** One Earth mass in solar masses; lighter bodies are drawn at the
      minimum radius. */
  const EarthMass: real := 3.003e-6
  /** The density constant of the radius rule. */
  const Density: real := 9247304.0
  /** The smallest drawn radius. */
  const MinRadius: real := 0.5
  /** The scale of the radius rule, written `10e2` in the source. */
  const RadiusScale: real := 1000.0

  /** `calcSphereRadius`: the minimum radius up to one Earth mass, and above
      it the minimum plus `1000 cbrt(3 (M - M_earth) / (4 pi rho))`. */
  function SphereRadius(m: real, cbrt: real -> real): real {
    if m > EarthMass then
      RadiusScale * cbrt((3.0 * (m - EarthMass)) / (4.0 * Formulae.PI * Density)) + MinRadius
    else
      MinRadius
  }

  /** With a `cbrt` that is positive on positives, the radius is exactly the
      minimum up to one Earth mass and strictly larger above it. */
  lemma SphereRadiusRule(m: real, lib: Libm)
    requires lib.Valid()
    ensures MinRadius <= SphereRadius(m, lib.cbrt)
    ensures SphereRadius(m, lib.cbrt) == MinRadius <==> m <= EarthMass
  {
    if m > EarthMass {
      var den := 4.0 * Formulae.PI * Density;
      assert 0.0 < den;
      var x := (3.0 * (m - EarthMass)) / den;
      assert x * den == 3.0 * (m - EarthMass);
      SignOfScaled(x, den, 3.0 * (m - EarthMass));
      assert 0.0 < lib.cbrt(x);
    }
  }

  /** A body: position, velocity, mass and the radius drawn for it. */
  class CelestialBody {
    var pos: Vec3
    var vel: Vec3
    var mass: real
    var radius: real

    /** The radius is initialised from the raw argument `m` before the body
        of the constructor replaces a non-positive mass with 1. */
    constructor(position: Vec3, velocity: Vec3, m: real, cbrt: real -> real)
      ensures pos == position && vel == velocity
      ensures 0.0 < m ==> mass == m
      ensures m <= 0.0 ==> mass == 1.0
      ensures radius == SphereRadius(m, cbrt)
    {
      pos := position;
      vel := velocity;
      mass := m;
      radius := SphereRadius(m, cbrt);
      if m <= 0.0 {
        mass := 1.0;
      }
    }

    /** `setPos` */
    method SetPos(p: Vec3)
      modifies this
      ensures pos == p
      ensures vel == old(vel) && mass == old(mass) && radius == old(radius)
    {
      pos := p;
    }

    /** `setVel` */
    method SetVel(v: Vec3)
      modifies this
      ensures vel == v
      ensures pos == old(pos) && mass == old(mass) && radius == old(radius)
    {
      vel := v;
    }

    /** `setMass`: no positivity check; the radius follows the new mass. */
    method SetMass(m: real, cbrt: real -> real)
      modifies this
      ensures mass == m && radius == SphereRadius(m, cbrt)
      ensures pos == old(pos) && vel == old(vel)
    {
      mass := m;
      radius := SphereRadius(m, cbrt);
    }
  }

  /** A body made from a non-positive mass gets mass 1 but keeps the
      minimum radius of its raw mass argument, which is smaller than the
      radius of a body of mass 1. */
  lemma ConstructorRadiusOfRawMass(m: real, lib: Libm)
    requires lib.Valid() && m <= 0.0
    ensures SphereRadius(m, lib.cbrt) == MinRadius
    ensures SphereRadius(m, lib.cbrt) < SphereRadius(1.0, lib.cbrt)
  {
    SphereRadiusRule(m, lib);
    SphereRadiusRule(1.0, lib);
  }
}
