/** The Euler angles computeAngles reads off the filter's quaternion
    (Madgwick.kt), and their meaning: the roll, pitch and yaw of the rotated
    frame, read from the rotation of the three axes. */
module MadgwickAngles {
  import opened KotlinMath
  import opened Quaternions

  /** Roll, pitch and yaw in radians, as computeAngles stores them. */
  datatype Euler = Euler(roll: real, pitch: real, yaw: real)

  const XAxis: Vec3 := Vec3(1.0, 0.0, 0.0)
  const YAxis: Vec3 := Vec3(0.0, 1.0, 0.0)
  const ZAxis: Vec3 := Vec3(0.0, 0.0, 1.0)

  /** The arguments computeAngles passes to atan2 and asin. */
  function RollSin(q: Quat): real {
    q.q0 * q.q1 + q.q2 * q.q3
  }

  function RollCos(q: Quat): real {
    0.5 - q.q1 * q.q1 - q.q2 * q.q2
  }

  function PitchSin(q: Quat): real {
    -2.0 * (q.q1 * q.q3 - q.q0 * q.q2)
  }

  function YawSin(q: Quat): real {
    q.q1 * q.q2 + q.q0 * q.q3
  }

  function YawCos(q: Quat): real {
    0.5 - q.q2 * q.q2 - q.q3 * q.q3
  }

  /** computeAngles: roll, pitch and yaw of q. */
  function EulerOf(math: Math, q: Quat): Euler {
    Euler(math.atan2(RollSin(q), RollCos(q)),
          math.asin(PitchSin(q)),
          math.atan2(YawSin(q), YawCos(q)))
  }

  /** The Z-Y-X (yaw, pitch, roll) angles of a frame given by the images ex, ey,
      ez of the three axes: roll from the vertical parts of ey and ez, pitch
      from the vertical part of ex, yaw from the horizontal part of ex. Both
      arguments of each atan2 are halved, as computeAngles halves them. */
  function FrameAngles(math: Math, ex: Vec3, ey: Vec3, ez: Vec3): Euler {
    Euler(math.atan2(0.5 * ey.z, 0.5 * ez.z),
          math.asin(-ex.z),
          math.atan2(0.5 * ex.y, 0.5 * ex.x))
  }

  /** The image of the x axis under a unit q, component by component. */
  lemma RotatedXAxis(q: Quat, e: Vec3)
    requires NormSq(q) == 1.0 && e == XAxis
    ensures PitchSin(q) == -Rotate(q, e).z
    ensures YawSin(q) == 0.5 * Rotate(q, e).y
    ensures YawCos(q) == 0.5 * Rotate(q, e).x
  {
  }

  /** The vertical part of the image of the y axis. */
  lemma RotatedYAxis(q: Quat, e: Vec3)
    requires e == YAxis
    ensures RollSin(q) == 0.5 * Rotate(q, e).z
  {
  }

  /** The vertical part of the image of the z axis under a unit q. */
  lemma RotatedZAxis(q: Quat, e: Vec3)
    requires NormSq(q) == 1.0 && e == ZAxis
    ensures RollCos(q) == 0.5 * Rotate(q, e).z
  {
  }

  /** For a unit q, computeAngles returns the Z-Y-X angles of the frame q
      rotates the axes to. */
  lemma EulerOfReadsRotation(math: Math, q: Quat)
    requires NormSq(q) == 1.0
    ensures EulerOf(math, q) == FrameAngles(math, Rotate(q, XAxis), Rotate(q, YAxis), Rotate(q, ZAxis))
  {
    RotatedXAxis(q, XAxis);
    RotatedYAxis(q, YAxis);
    RotatedZAxis(q, ZAxis);
  }

  /** For a unit q the argument computeAngles passes to asin lies in [-1, 1],
      so the pitch is defined although the source does not clamp it. */
  lemma PitchArgumentInRange(q: Quat)
    requires NormSq(q) == 1.0
    ensures -1.0 <= PitchSin(q) <= 1.0
  {
    SquareNonNeg(q.q1 - q.q3);
    SquareNonNeg(q.q0 + q.q2);
    SquareNonNeg(q.q1 + q.q3);
    SquareNonNeg(q.q0 - q.q2);
  }
}
