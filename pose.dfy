/** The value types the localizer reads and returns. */
module Geometry {
  import opened Wrappers

  /**
   * voss::Pose: a position and an optional heading. What unit the heading is
   * in depends on who reads it: set_pose takes degrees, get_pose returns
   * radians.
   */
  datatype Pose = Pose(x: real, y: real, theta: Option<real>)

  /** voss::Point: a position without a heading. */
  datatype Point = Point(x: real, y: real)
}
