/** The Madgwick filter object of Madgwick.kt: the orientation quaternion, the
    gain and the sample period it updates in place, and the Euler angles it
    caches until the next update. */
module MadgwickAhrs {
  import opened KotlinMath
  import opened Functions
  import opened Quaternions
  import opened MadgwickSpec
  import opened MadgwickStep
  import opened MadgwickAngles
  import opened MadgwickUpdate

  class Madgwick {
    /** The square root, atan2 and asin of kotlin.math the filter calls. */
    const math: Math

    var beta: real
    var q0: real
    var q1: real
    var q2: real
    var q3: real
    var invSampleFreq: real
    var roll: real
    var pitch: real
    var yaw: real
    var anglesComputed: int

    /** The orientation the four fields q0..q3 hold. */
    function Q(): Quat
      reads this
    {
      Quat(q0, q1, q2, q3)
    }

    /** The cached angles, in radians. */
    function Angles(): Euler
      reads this
    {
      Euler(roll, pitch, yaw)
    }

    /** The square root behaves as one, and the angle cache is fresh whenever
        the flag says it is: a non-zero anglesComputed means roll, pitch and
        yaw are the angles of the current quaternion. */
    ghost predicate Valid()
      reads this
    {
      math.Valid() && (anglesComputed != 0 ==> Angles() == EulerOf(math, Q()))
    }

    /** The field initialisers (identity orientation, beta 0.1, 512 Hz), then
        the init block, which computes the angles once. */
    constructor(math: Math)
      requires math.Valid()
      ensures this.math == math
      ensures Q() == Identity && beta == 0.1 && invSampleFreq == 1.0 / 512.0
      ensures anglesComputed == 1 && Angles() == EulerOf(math, Identity)
      ensures Valid()
    {
      this.math := math;
      beta := 0.1;
      q0 := 1.0;
      q1 := 0.0;
      q2 := 0.0;
      q3 := 0.0;
      invSampleFreq := 1.0 / 512.0;
      roll := 0.0;
      pitch := 0.0;
      yaw := 0.0;
      anglesComputed := 0;
      new;
      ComputeAngles();
    }

    /** begin: the sample period is the reciprocal of the sample frequency. */
    method Begin(sampleFrequency: real)
      requires sampleFrequency != 0.0
      modifies this
      ensures invSampleFreq * sampleFrequency == 1.0
      ensures Q() == old(Q()) && beta == old(beta)
      ensures Angles() == old(Angles()) && anglesComputed == old(anglesComputed)
    {
      invSampleFreq := 1.0 / sampleFrequency;
    }

    /** update: one step of the filter from the gyroscope (degrees per second),
        the accelerometer and the magnetometer. With a magnetometer reading of
        (0, 0, 0) it first calls updateIMU and then, as the source has no
        return there, runs its own body on the result. */
    method Update(gxInDeg: real, gyInDeg: real, gzInDeg: real, axVal: real, ayVal: real, azVal: real,
                  mxVal: real, myVal: real, mzVal: real)
      requires math.Valid()
      requires UpdateDefined(math, Q(), beta, invSampleFreq, Vec3(gxInDeg, gyInDeg, gzInDeg), Vec3(axVal, ayVal, azVal),
                             Vec3(mxVal, myVal, mzVal))
      modifies this
      ensures Q() == UpdateStep(math, old(Q()), old(beta), old(invSampleFreq), Vec3(gxInDeg, gyInDeg, gzInDeg),
                                Vec3(axVal, ayVal, azVal), Vec3(mxVal, myVal, mzVal))
      ensures NormSq(Q()) == 1.0
      ensures beta == old(beta) && invSampleFreq == old(invSampleFreq)
      ensures Angles() == old(Angles()) && anglesComputed == 0
      ensures Valid()
    {
      if mxVal == 0.0 && myVal == 0.0 && mzVal == 0.0 {
        UpdateIMU(gxInDeg, gyInDeg, gzInDeg, axVal, ayVal, azVal);
      }
      q0, q1, q2, q3 := MargUpdate(math, beta, invSampleFreq, Q(), gxInDeg, gyInDeg, gzInDeg,
                                   axVal, ayVal, azVal, mxVal, myVal, mzVal);
      anglesComputed := 0;
    }

    /** updateIMU: one step of the filter from the gyroscope (degrees per
        second) and the accelerometer. The new quaternion is ImuStep of the
        old one; the angle cache is marked stale. */
    method UpdateIMU(gxInDeg: real, gyInDeg: real, gzInDeg: real, axVal: real, ayVal: real, azVal: real)
      requires math.Valid()
      requires ImuDefined(math, Q(), beta, invSampleFreq, Vec3(gxInDeg, gyInDeg, gzInDeg), Vec3(axVal, ayVal, azVal))
      modifies this
      ensures Q() == ImuStep(math, old(Q()), old(beta), old(invSampleFreq), Vec3(gxInDeg, gyInDeg, gzInDeg), Vec3(axVal, ayVal, azVal))
      ensures NormSq(Q()) == 1.0
      ensures beta == old(beta) && invSampleFreq == old(invSampleFreq)
      ensures Angles() == old(Angles()) && anglesComputed == 0
      ensures Valid()
    {
      q0, q1, q2, q3 := ImuUpdate(math, beta, invSampleFreq, Q(), gxInDeg, gyInDeg, gzInDeg, axVal, ayVal, azVal);
      anglesComputed := 0;
    }

    /** computeAngles: refresh the cached angles from the quaternion. */
    method ComputeAngles()
      modifies this
      ensures Angles() == EulerOf(math, Q()) && anglesComputed == 1
      ensures Q() == old(Q()) && beta == old(beta) && invSampleFreq == old(invSampleFreq)
      ensures math.Valid() ==> Valid()
    {
      roll := math.atan2(RollSin(Q()), RollCos(Q()));
      pitch := math.asin(PitchSin(Q()));
      yaw := math.atan2(YawSin(Q()), YawCos(Q()));
      anglesComputed := 1;
    }
    /** getRoll: the roll in degrees, computing the angles first if the cache
        is stale. */
    method GetRoll() returns (r: real)
      requires Valid()
      modifies this
      ensures r == EulerOf(math, Q()).roll * RadToDeg
      ensures Valid()
      ensures old(anglesComputed) == 0 ==> anglesComputed == 1
      ensures old(anglesComputed) != 0 ==> anglesComputed == old(anglesComputed) && Angles() == old(Angles())
      ensures Q() == old(Q()) && beta == old(beta) && invSampleFreq == old(invSampleFreq)
    {
      if anglesComputed == 0 {
        ComputeAngles();
      }
      r := roll * RadToDeg;
    }

    /** getPitch: the pitch in degrees. */
    method GetPitch() returns (r: real)
      requires Valid()
      modifies this
      ensures r == EulerOf(math, Q()).pitch * RadToDeg
      ensures Valid()
      ensures old(anglesComputed) == 0 ==> anglesComputed == 1
      ensures old(anglesComputed) != 0 ==> anglesComputed == old(anglesComputed) && Angles() == old(Angles())
      ensures Q() == old(Q()) && beta == old(beta) && invSampleFreq == old(invSampleFreq)
    {
      if anglesComputed == 0 {
        ComputeAngles();
      }
      r := pitch * RadToDeg;
    }

    /** getYaw: the yaw in degrees, shifted by 180 degrees. */
    method GetYaw() returns (r: real)
      requires Valid()
      modifies this
      ensures r == EulerOf(math, Q()).yaw * RadToDeg + 180.0
      ensures Valid()
      ensures old(anglesComputed) == 0 ==> anglesComputed == 1
      ensures old(anglesComputed) != 0 ==> anglesComputed == old(anglesComputed) && Angles() == old(Angles())
      ensures Q() == old(Q()) && beta == old(beta) && invSampleFreq == old(invSampleFreq)
    {
      if anglesComputed == 0 {
        ComputeAngles();
      }
      r := yaw * RadToDeg + 180.0;
    }

    /** getRollRadians: the roll in radians. */
    method GetRollRadians() returns (r: real)
      requires Valid()
      modifies this
      ensures r == EulerOf(math, Q()).roll
      ensures Valid()
      ensures old(anglesComputed) == 0 ==> anglesComputed == 1
      ensures old(anglesComputed) != 0 ==> anglesComputed == old(anglesComputed) && Angles() == old(Angles())
      ensures Q() == old(Q()) && beta == old(beta) && invSampleFreq == old(invSampleFreq)
    {
      if anglesComputed == 0 {
        ComputeAngles();
      }
      r := roll;
    }

    /** getPitchRadians: the pitch in radians. */
    method GetPitchRadians() returns (r: real)
      requires Valid()
      modifies this
      ensures r == EulerOf(math, Q()).pitch
      ensures Valid()
      ensures old(anglesComputed) == 0 ==> anglesComputed == 1
      ensures old(anglesComputed) != 0 ==> anglesComputed == old(anglesComputed) && Angles() == old(Angles())
      ensures Q() == old(Q()) && beta == old(beta) && invSampleFreq == old(invSampleFreq)
    {
      if anglesComputed == 0 {
        ComputeAngles();
      }
      r := pitch;
    }

    /** getYawRadians: the yaw in radians. */
    method GetYawRadians() returns (r: real)
      requires Valid()
      modifies this
      ensures r == EulerOf(math, Q()).yaw
      ensures Valid()
      ensures old(anglesComputed) == 0 ==> anglesComputed == 1
      ensures old(anglesComputed) != 0 ==> anglesComputed == old(anglesComputed) && Angles() == old(Angles())
      ensures Q() == old(Q()) && beta == old(beta) && invSampleFreq == old(invSampleFreq)
    {
      if anglesComputed == 0 {
        ComputeAngles();
      }
      r := yaw;
    }
  }
}
