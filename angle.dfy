/**
 * Unit conversion between degrees and radians, as the localizer uses it:
 * set_pose converts an incoming heading with voss::to_radians, and
 * get_orientation_deg converts the stored heading back with 180 * M_1_PI.
 *
 * The header that defines voss::to_radians is not part of this model; it is
 * taken here to be the usual deg * pi / 180. Floating point is not modelled:
 * everything is over `real`, and pi is an abstract constant known only to lie
 * between 3.14159 and 3.14160.
 */
module Angle {

  /** The reals that may stand for pi. */
  type PiRange = r: real | 3.14159 < r < 3.14160 witness 3.141595

  /** pi, left abstract apart from its bounds. */
  const PI: PiRange

  /** M_1_PI, the constant 1 / pi. */
  const ONE_OVER_PI: real := 1.0 / PI

  /** voss::to_radians: a heading in degrees, expressed in radians. */
  function ToRadians(deg: real): real
  {
    deg * PI / 180.0
  }

  /** The conversion get_orientation_deg applies: rad * 180 * M_1_PI. */
  function ToDegrees(rad: real): real
  {
    rad * 180.0 * ONE_OVER_PI
  }

  /** Converting degrees to radians and back gives the same degrees. */
  lemma DegreesOfRadians(deg: real)
    ensures ToDegrees(ToRadians(deg)) == deg
  {
  }

  /** Converting radians to degrees and back gives the same radians. */
  lemma RadiansOfDegrees(rad: real)
    ensures ToRadians(ToDegrees(rad)) == rad
  {
  }

  /**
   * A number means the same in degrees as in radians only when it is zero:
   * reading a radian value as degrees changes every non-zero heading.
   */
  lemma ToRadiansFixedOnlyAtZero(t: real)
    ensures ToRadians(t) == t <==> t == 0.0
  {
  }
}
