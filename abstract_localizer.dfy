/**
 * The pose store of voss::localizer::AbstractLocalizer.
 *
 * The localizer owns one record of three fields: x, y and the heading theta,
 * kept in radians. Every public method takes the localizer's mutex for its
 * whole body and does one read or one write of that record, so here each call
 * is one atomic step on the class's three fields.
 */
module Localizer {
  import opened Wrappers
  import opened Angle
  import opened Geometry

  /** voss::AtomicPose: the stored record; theta is in radians and always present. */
  datatype AtomicPose = AtomicPose(x: real, y: real, theta: real)

  /** The record a freshly constructed localizer holds. */
  const Initial: AtomicPose := AtomicPose(0.0, 0.0, 0.0)

  /**
   * The record set_pose(pose) leaves behind when it finds `s` stored: the new
   * position, and the heading converted from degrees, or the old heading when
   * none is given.
   */
  function SetPoseOn(s: AtomicPose, pose: Pose): AtomicPose
  {
    if pose.theta.Some? then AtomicPose(pose.x, pose.y, ToRadians(pose.theta.value))
    else AtomicPose(pose.x, pose.y, s.theta)
  }

  /** What get_pose returns when `s` is stored: the heading is in radians. */
  function PoseOf(s: AtomicPose): Pose
  {
    Pose(s.x, s.y, Some(s.theta))
  }

  class AbstractLocalizer {
    var x: real
    var y: real
    var theta: real

    /** The record the three fields make up. */
    function Stored(): AtomicPose
      reads this
    {
      AtomicPose(x, y, theta)
    }

    /** A new localizer stands at the origin, heading 0. */
    constructor ()
      ensures Stored() == Initial
    {
      x, y, theta := 0.0, 0.0, 0.0;
    }

    /**
     * set_pose(Pose): stores the position as given. A heading that is present
     * is read as degrees and stored in radians; an absent one keeps the stored
     * heading, read under the same lock as the write.
     */
    method SetPose(pose: Pose)
      modifies this
      ensures x == pose.x && y == pose.y
      ensures pose.theta.Some? ==> theta == ToRadians(pose.theta.value)
      ensures pose.theta.None? ==> theta == old(theta)
      ensures Stored() == SetPoseOn(old(Stored()), pose)
    {
      if pose.theta.Some? {
        x, y, theta := pose.x, pose.y, ToRadians(pose.theta.value);
      } else {
        var h := theta;
        x, y, theta := pose.x, pose.y, h;
      }
    }

    /** set_pose(x, y, theta): the same as set_pose with the heading present. */
    method SetPoseComponents(newX: real, newY: real, headingDeg: real)
      modifies this
      ensures Stored() == SetPoseOn(old(Stored()), Pose(newX, newY, Some(headingDeg)))
      ensures Stored() == AtomicPose(newX, newY, ToRadians(headingDeg))
    {
      SetPose(Pose(newX, newY, Some(headingDeg)));
    }

    /** get_pose: the stored record, with the heading present and in radians. */
    method GetPose() returns (r: Pose)
      ensures r.x == x && r.y == y && r.theta == Some(theta)
      ensures r == PoseOf(Stored())
    {
      r := Pose(x, y, Some(theta));
    }

    /** get_x: the x that get_pose would report. */
    method GetX() returns (r: real)
      ensures r == x
      ensures r == PoseOf(Stored()).x
    {
      r := x;
    }

    /** get_y: the y that get_pose would report. */
    method GetY() returns (r: real)
      ensures r == y
      ensures r == PoseOf(Stored()).y
    {
      r := y;
    }

    /** get_orientation_rad: the heading get_pose would report, in radians. */
    method GetOrientationRad() returns (r: real)
      ensures r == theta
      ensures Some(r) == PoseOf(Stored()).theta
    {
      r := theta;
    }

    /**
     * get_orientation_deg: the stored heading in degrees, theta * 180 / pi;
     * converting it back to radians gives the stored heading.
     */
    method GetOrientationDeg() returns (r: real)
      ensures r == ToDegrees(theta)
      ensures ToRadians(r) == theta
    {
      r := theta * 180.0 * ONE_OVER_PI;
    }

    /** get_position: the position get_pose would report, without the heading. */
    method GetPosition() returns (r: Point)
      ensures r == Point(x, y)
      ensures r.x == PoseOf(Stored()).x && r.y == PoseOf(Stored()).y
    {
      r := Point(x, y);
    }
  }

  /**
   * With a heading present, set_pose replaces all three fields: the result
   * does not depend on what was stored before.
   */
  lemma SetPoseWithHeadingForgets(s1: AtomicPose, s2: AtomicPose, pose: Pose)
    requires pose.theta.Some?
    ensures SetPoseOn(s1, pose) == SetPoseOn(s2, pose)
    ensures SetPoseOn(s1, pose) == AtomicPose(pose.x, pose.y, ToRadians(pose.theta.value))
  {
  }

  /** Without a heading, set_pose moves the position and keeps the heading. */
  lemma SetPoseWithoutHeadingKeepsTheta(s: AtomicPose, pose: Pose)
    requires pose.theta.None?
    ensures SetPoseOn(s, pose) == AtomicPose(pose.x, pose.y, s.theta)
  {
  }

  /** Setting a heading of d degrees and reading it back in degrees gives d. */
  lemma SetThenReadDegrees(s: AtomicPose, px: real, py: real, d: real)
    ensures ToDegrees(SetPoseOn(s, Pose(px, py, Some(d))).theta) == d
  {
  }

  /**
   * Feeding get_pose back into set_pose keeps the position but reads the
   * radian heading as degrees, so it changes the record exactly when the
   * heading is not zero.
   */
  lemma SetPoseOfGetPose(s: AtomicPose)
    ensures SetPoseOn(s, PoseOf(s)) == AtomicPose(s.x, s.y, ToRadians(s.theta))
    ensures SetPoseOn(s, PoseOf(s)) == s <==> s.theta == 0.0
  {
  }

  /**
   * The calls that reach the stored record, one after another: the localizer's
   * public methods, and one tick of the background task, whose update() (under
   * the same mutex) replaces the record with whatever its sensor fusion
   * computes, here the arbitrary record `next`.
   */
  datatype Call =
    | SetPoseCall(pose: Pose)
    | SetPoseComponentsCall(px: real, py: real, headingDeg: real)
    | GetPoseCall
    | GetXCall
    | GetYCall
    | GetOrientationRadCall
    | GetOrientationDegCall
    | GetPositionCall
    | UpdateCall(next: AtomicPose)
  {
    /** The two set_pose overloads. */
    predicate IsSetPose()
    {
      SetPoseCall? || SetPoseComponentsCall?
    }

    /** set_pose and update() write; every other call only reads. */
    predicate IsWrite()
    {
      IsSetPose() || UpdateCall?
    }

    /** The pose a set_pose call hands to set_pose(Pose). */
    function Written(): Pose
      requires IsSetPose()
    {
      if SetPoseCall? then pose else Pose(px, py, Some(headingDeg))
    }

    /** The position a write stores. */
    function WrittenPosition(): Point
      requires IsWrite()
    {
      if UpdateCall? then Point(next.x, next.y) else Point(Written().x, Written().y)
    }
  }

  /** The effect of one call on the stored record. */
  function Apply(s: AtomicPose, c: Call): AtomicPose
  {
    if c.UpdateCall? then c.next
    else if c.IsSetPose() then SetPoseOn(s, c.Written())
    else s
  }

  /**
   * Makes the call `c` on the localizer `l`, one method call per kind, so
   * that `Apply` is the effect of the class's own methods.
   */
  method Perform(l: AbstractLocalizer, c: Call)
    modifies l
    ensures l.Stored() == Apply(old(l.Stored()), c)
  {
    match c
    case SetPoseCall(pose) => l.SetPose(pose);
    case SetPoseComponentsCall(px, py, headingDeg) => l.SetPoseComponents(px, py, headingDeg);
    case GetPoseCall => var _ := l.GetPose();
    case GetXCall => var _ := l.GetX();
    case GetYCall => var _ := l.GetY();
    case GetOrientationRadCall => var _ := l.GetOrientationRad();
    case GetOrientationDegCall => var _ := l.GetOrientationDeg();
    case GetPositionCall => var _ := l.GetPosition();
    case UpdateCall(next) =>
      // update() belongs to the subclasses; it assigns the whole record.
      l.x, l.y, l.theta := next.x, next.y, next.theta;
  }

  /** The record stored after the calls `cs`, made one after another from `s`. */
  function Run(s: AtomicPose, cs: seq<Call>): AtomicPose
    decreases |cs|
  {
    if cs == [] then s else Apply(Run(s, cs[..|cs| - 1]), cs[|cs| - 1])
  }

  /** The writing calls (set_pose and update) among `cs`. */
  function Writes(cs: seq<Call>): (ws: seq<Call>)
    ensures forall i :: 0 <= i < |ws| ==> ws[i].IsWrite()
    ensures forall c :: c in ws <==> c in cs && c.IsWrite()
    ensures |ws| <= |cs|
    decreases |cs|
  {
    if cs == [] then []
    else Writes(cs[..|cs| - 1]) + (if cs[|cs| - 1].IsWrite() then [cs[|cs| - 1]] else [])
  }

  /**
   * The headings, in radians, that the writes among `cs` store: to_radians of
   * a heading a set_pose supplies, and the heading of each update.
   */
  function Headings(cs: seq<Call>): seq<real>
    decreases |cs|
  {
    if cs == [] then []
    else
      var c := cs[|cs| - 1];
      Headings(cs[..|cs| - 1])
        + (if c.UpdateCall? then [c.next.theta]
           else if c.IsSetPose() && c.Written().theta.Some? then [ToRadians(c.Written().theta.value)]
           else [])
  }

  /** Reads leave no trace: a run ends where the run of its writes alone ends. */
  lemma {:induction false} RunIgnoresReads(s: AtomicPose, cs: seq<Call>)
    ensures Run(s, cs) == Run(s, Writes(cs))
    decreases |cs|
  {
    if cs != [] {
      var init, c := cs[..|cs| - 1], cs[|cs| - 1];
      RunIgnoresReads(s, init);
      if c.IsWrite() {
        var w := Writes(init) + [c];
        assert w[..|w| - 1] == Writes(init);
      } else {
        assert Writes(cs) == Writes(init);
      }
    }
  }

  /**
   * After at least one write, the position is the one the last write gave:
   * the last set_pose's, provided no update follows it.
   */
  lemma {:induction false} RunPositionIsLastWrite(s: AtomicPose, cs: seq<Call>)
    requires Writes(cs) != []
    ensures Point(Run(s, cs).x, Run(s, cs).y) == Writes(cs)[|Writes(cs)| - 1].WrittenPosition()
    decreases |cs|
  {
    var init, c := cs[..|cs| - 1], cs[|cs| - 1];
    if !c.IsWrite() {
      assert Writes(cs) == Writes(init);
      RunPositionIsLastWrite(s, init);
    }
  }

  /**
   * The heading is the last one any write stored: to_radians of the last
   * heading a set_pose supplied, provided no update follows it, or the
   * starting heading if no write supplied one.
   */
  lemma {:induction false} RunHeadingIsLastHeading(s: AtomicPose, cs: seq<Call>)
    ensures var hs := Headings(cs);
            Run(s, cs).theta == if hs == [] then s.theta else hs[|hs| - 1]
    decreases |cs|
  {
    if cs != [] {
      var init, c := cs[..|cs| - 1], cs[|cs| - 1];
      RunHeadingIsLastHeading(s, init);
      if !(c.UpdateCall? || (c.IsSetPose() && c.Written().theta.Some?)) {
        assert Headings(cs) == Headings(init);
      }
    }
  }
}
