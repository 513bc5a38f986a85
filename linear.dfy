/**
 * lib/linear/linear.ts: the degree/radian factors `π/180` and `180/π` of the
 * linear-algebra library.
 */
module Linear {
  import opened Numerics
  import GlslHelpers

  /** `_toRad`: radians per degree. */
  const TO_RAD: real := PI / 180.0

  /** `_toDeg`: degrees per radian. */
  const TO_DEG: real := 180.0 / PI

  /** `Linear.toRad`: degrees times `π/180`. */
  function ToRad(deg: real): (rad: real)
    ensures deg == 180.0 ==> rad == PI
  {
    deg * TO_RAD
  }

  /** `Linear.toDeg`: radians times `180/π`. */
  function ToDeg(rad: real): (deg: real)
    ensures rad == PI ==> deg == 180.0
  {
    rad * TO_DEG
  }

  /** The two factors are reciprocal. */
  lemma FactorsReciprocal()
    ensures TO_RAD * TO_DEG == 1.0
  {
  }

  lemma ToDegOfToRad(x: real)
    ensures ToDeg(ToRad(x)) == x
  {
    FactorsReciprocal();
    assert x * TO_RAD * TO_DEG == x * (TO_RAD * TO_DEG);
  }

  lemma ToRadOfToDeg(x: real)
    ensures ToRad(ToDeg(x)) == x
  {
    FactorsReciprocal();
    assert x * TO_DEG * TO_RAD == x * (TO_RAD * TO_DEG);
  }

  /** `toRad` is additive. */
  lemma ToRadAdditive(a: real, b: real)
    ensures ToRad(a + b) == ToRad(a) + ToRad(b)
  {
    assert (a + b) * TO_RAD == a * TO_RAD + b * TO_RAD;
  }

  /** The library's conversion agrees with the one of lib/glsl/helpers.ts. */
  lemma AgreesWithHelpers(x: real)
    ensures ToRad(x) == GlslHelpers.ToRad(x)
    ensures ToDeg(x) == GlslHelpers.ToDeg(x)
  {
    assert TO_DEG == 1.0 / GlslHelpers.ANGLE_CONV;
    assert x * TO_DEG == x / GlslHelpers.ANGLE_CONV;
  }
}
