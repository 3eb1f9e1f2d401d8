/** The update step of the Madgwick filter (Madgwick.kt) as functions of the
    state before the step and the sensor readings, with the reference
    definitions each step is proved against. */
module MadgwickSpec {
  import opened KotlinMath
  import opened Functions
  import opened Quaternions

  /** Degrees to radians, the literal the filter multiplies gyroscope rates by. */
  const DegToRad: real := 0.0174533

  /** Radians to degrees, the literal the angle getters multiply by. */
  const RadToDeg: real := 57.29578

  /** The gyroscope reading converted from degrees per second to radians per second. */
  function ToRadians(g: Vec3): Vec3 {
    Vec3(g.x * DegToRad, g.y * DegToRad, g.z * DegToRad)
  }

  /** Rate of change of the orientation from the gyroscope alone (g in rad/s):
      half the Hamilton product of q with the pure quaternion (0, g). It is
      orthogonal to q, so pure gyroscope integration never shrinks |q|. */
  function GyroDerivative(q: Quat, g: Vec3): (d: Quat)
    ensures d == Scale(0.5, Mul(q, Pure(g)))
    ensures Dot(q, d) == 0.0
  {
    Quat(0.5 * (-q.q1 * g.x - q.q2 * g.y - q.q3 * g.z),
         0.5 * (q.q0 * g.x + q.q2 * g.z - q.q3 * g.y),
         0.5 * (q.q0 * g.y - q.q1 * g.z + q.q3 * g.x),
         0.5 * (q.q0 * g.z + q.q1 * g.y - q.q2 * g.x))
  }

  // ---------------------------------------------------------------------------
  // Objective functions and their gradients

  /** Error between the direction of gravity seen from the sensor frame of q and
      the (normalised) accelerometer reading: the objective the IMU step descends.
      Each component is written as the bracketed factor of the source's s0..s3 in
      update (with `_2q0q2 = 2 q0 q2` and the integer literal 1). */
  function GravityErrorX(q: Quat, a: Vec3): real {
    2.0 * (q.q1 * q.q3) - 2.0 * q.q0 * q.q2 - a.x
  }

  function GravityErrorY(q: Quat, a: Vec3): real {
    2.0 * (q.q0 * q.q1) + 2.0 * q.q2 * q.q3 - a.y
  }

  function GravityErrorZ(q: Quat, a: Vec3): real {
    1.0 - 2.0 * (q.q1 * q.q1) - 2.0 * (q.q2 * q.q2) - a.z
  }

  function GravityError(q: Quat, a: Vec3): Vec3 {
    Vec3(GravityErrorX(q, a), GravityErrorY(q, a), GravityErrorZ(q, a))
  }

  /** The transpose of the Jacobian of GravityError with respect to q, applied to
      f, one component at a time; the coefficients are the source's `_2q2`,
      `4.0f * q1`, ... */
  function GravityGradient0(q: Quat, f: Vec3): real {
    -(2.0 * q.q2) * f.x + (2.0 * q.q1) * f.y
  }

  function GravityGradient1(q: Quat, f: Vec3): real {
    (2.0 * q.q3) * f.x + (2.0 * q.q0) * f.y - (4.0 * q.q1) * f.z
  }

  function GravityGradient2(q: Quat, f: Vec3): real {
    -(2.0 * q.q0) * f.x + (2.0 * q.q3) * f.y - (4.0 * q.q2) * f.z
  }

  function GravityGradient3(q: Quat, f: Vec3): real {
    (2.0 * q.q1) * f.x + (2.0 * q.q2) * f.y
  }

  /** The transpose of the Jacobian of GravityError with respect to q, applied to f. */
  function GravityGradient(q: Quat, f: Vec3): Quat {
    Quat(GravityGradient0(q, f), GravityGradient1(q, f), GravityGradient2(q, f), GravityGradient3(q, f))
  }

  /** For a unit quaternion the first term of GravityError is gravity (0, 0, 1)
      rotated into the sensor frame. */
  lemma GravityErrorIsRotatedGravity(q: Quat, a: Vec3)
    requires NormSq(q) == 1.0
    ensures var g := Rotate(Conj(q), Vec3(0.0, 0.0, 1.0));
            GravityError(q, a) == Vec3(g.x - a.x, g.y - a.y, g.z - a.z)
  {
    var g := Rotate(Conj(q), Vec3(0.0, 0.0, 1.0));
    assert g.x == 2.0 * (q.q1 * q.q3) - 2.0 * q.q0 * q.q2;
    assert g.y == 2.0 * (q.q0 * q.q1) + 2.0 * q.q2 * q.q3;
    assert g.z == q.q0 * q.q0 - q.q1 * q.q1 - q.q2 * q.q2 + q.q3 * q.q3;
  }

  /** The components s0..s3 of the corrective step of updateIMU, with the source's
      auxiliary products (`_4q0 * q2q2`, ...) written out. */
  function ImuS0(q: Quat, a: Vec3): real {
    4.0 * q.q0 * (q.q2 * q.q2) + 2.0 * q.q2 * a.x + 4.0 * q.q0 * (q.q1 * q.q1) - 2.0 * q.q1 * a.y
  }

  function ImuS1(q: Quat, a: Vec3): real {
    4.0 * q.q1 * (q.q3 * q.q3) - 2.0 * q.q3 * a.x + 4.0 * (q.q0 * q.q0) * q.q1 - 2.0 * q.q0 * a.y
      - 4.0 * q.q1 + 8.0 * q.q1 * (q.q1 * q.q1) + 8.0 * q.q1 * (q.q2 * q.q2) + 4.0 * q.q1 * a.z
  }

  function ImuS2(q: Quat, a: Vec3): real {
    4.0 * (q.q0 * q.q0) * q.q2 + 2.0 * q.q0 * a.x + 4.0 * q.q2 * (q.q3 * q.q3) - 2.0 * q.q3 * a.y
      - 4.0 * q.q2 + 8.0 * q.q2 * (q.q1 * q.q1) + 8.0 * q.q2 * (q.q2 * q.q2) + 4.0 * q.q2 * a.z
  }

  function ImuS3(q: Quat, a: Vec3): real {
    4.0 * (q.q1 * q.q1) * q.q3 - 2.0 * q.q1 * a.x + 4.0 * (q.q2 * q.q2) * q.q3 - 2.0 * q.q2 * a.y
  }

  /** The corrective step (s0, s1, s2, s3) of updateIMU, before normalisation. */
  function ImuGradient(q: Quat, a: Vec3): Quat {
    Quat(ImuS0(q, a), ImuS1(q, a), ImuS2(q, a), ImuS3(q, a))
  }

  /** At the identity orientation with a reading that has no horizontal part
      (a sensor lying level, at rest) the gravity error is orthogonal to every
      direction q can move in: the corrective step is zero. */
  lemma LevelGradientVanishes(az: real)
    ensures ImuGradient(Identity, Vec3(0.0, 0.0, az)) == ZeroQuat
  {
  }

  // ---------------------------------------------------------------------------
  // The magnetometer part of update

  /** The magnetometer reading rotated into the Earth frame, with the source's
      auxiliary variables: the source's hx, hy and its `_2bz`. */
  function EarthField(q: Quat, m: Vec3): Vec3 {
    Vec3(m.x * (q.q0 * q.q0) - (2.0 * q.q0 * m.y) * q.q3 + (2.0 * q.q0 * m.z) * q.q2 + m.x * (q.q1 * q.q1)
           + (2.0 * q.q1) * m.y * q.q2 + (2.0 * q.q1) * m.z * q.q3 - m.x * (q.q2 * q.q2) - m.x * (q.q3 * q.q3),
         (2.0 * q.q0 * m.x) * q.q3 + m.y * (q.q0 * q.q0) - (2.0 * q.q0 * m.z) * q.q1 + (2.0 * q.q1 * m.x) * q.q2
           - m.y * (q.q1 * q.q1) + m.y * (q.q2 * q.q2) + (2.0 * q.q2) * m.z * q.q3 - m.y * (q.q3 * q.q3),
         -(2.0 * q.q0 * m.x) * q.q2 + (2.0 * q.q0 * m.y) * q.q1 + m.z * (q.q0 * q.q0) + (2.0 * q.q1 * m.x) * q.q3
           - m.z * (q.q1 * q.q1) + (2.0 * q.q2) * m.y * q.q3 - m.z * (q.q2 * q.q2) + m.z * (q.q3 * q.q3))
  }

  /** hx, hy and `_2bz` are the three components of q ⊗ (0, m) ⊗ q*. */
  lemma EarthFieldIsRotation(q: Quat, m: Vec3)
    ensures EarthField(q, m) == Rotate(q, m)
  {
  }

  /** The Earth's field reference the source builds from the rotated reading:
      `_2bx` (the horizontal magnitude) and `_2bz` (the vertical component). */
  datatype FieldReference = FieldReference(twoBx: real, twoBz: real)

  function HorizontalSq(h: Vec3): real {
    h.x * h.x + h.y * h.y
  }

  lemma HorizontalSqNonNeg(h: Vec3)
    ensures 0.0 <= HorizontalSq(h)
  {
    calc {
      HorizontalSq(h);
      h.x * h.x + h.y * h.y + 0.0 * 0.0 + 0.0 * 0.0;
    >= { SumOfFourSquaresNonNeg(h.x, h.y, 0.0, 0.0); }
      0.0;
    }
  }

  /** `_2bx = sqrt(hx² + hy²)` and `_2bz`, from the reading rotated into the
      Earth frame (hx, hy and `_2bz` are the three components of EarthField). */
  function ReferenceField(math: Math, q: Quat, m: Vec3): FieldReference {
    var h := EarthField(q, m);
    FieldReference(math.sqrt(HorizontalSq(h)), h.z)
  }

  /** The reference field is the reading rotated into the Earth frame with its
      horizontal part turned onto the x axis: `_2bx` is the non-negative length
      of the horizontal part and `_2bz` the vertical component. */
  lemma ReferenceFieldIsRotatedReading(math: Math, q: Quat, m: Vec3)
    requires math.Valid()
    ensures 0.0 <= ReferenceField(math, q, m).twoBx
    ensures ReferenceField(math, q, m).twoBx * ReferenceField(math, q, m).twoBx
         == Rotate(q, m).x * Rotate(q, m).x + Rotate(q, m).y * Rotate(q, m).y
    ensures ReferenceField(math, q, m).twoBz == Rotate(q, m).z
  {
    var h := EarthField(q, m);
    EarthFieldIsRotation(q, m);
    HorizontalSqNonNeg(h);
  }

  /** Error between the reference field seen from the sensor frame of q and the
      (normalised) magnetometer reading, with the source's `_2bx`, `_2bz`: each
      component is the bracketed factor of the source's s0..s3 in update. */
  function FieldErrorX(q: Quat, b: FieldReference, m: Vec3): real {
    b.twoBx * (0.5 - q.q2 * q.q2 - q.q3 * q.q3) + b.twoBz * (q.q1 * q.q3 - q.q0 * q.q2) - m.x
  }

  function FieldErrorY(q: Quat, b: FieldReference, m: Vec3): real {
    b.twoBx * (q.q1 * q.q2 - q.q0 * q.q3) + b.twoBz * (q.q0 * q.q1 + q.q2 * q.q3) - m.y
  }

  function FieldErrorZ(q: Quat, b: FieldReference, m: Vec3): real {
    b.twoBx * (q.q0 * q.q2 + q.q1 * q.q3) + b.twoBz * (0.5 - q.q1 * q.q1 - q.q2 * q.q2) - m.z
  }

  function FieldError(q: Quat, b: FieldReference, m: Vec3): Vec3 {
    Vec3(FieldErrorX(q, b, m), FieldErrorY(q, b, m), FieldErrorZ(q, b, m))
  }

  /** The transpose of the Jacobian of FieldError with respect to q, applied to f,
      one component at a time (the coefficients are the source's `_2bx * q2`,
      `_4bz * q1`, ... with `_4bx`, `_4bz` written as twice `_2bx`, `_2bz`). */
  function FieldGradient0(q: Quat, b: FieldReference, f: Vec3): real {
    -(b.twoBz * q.q2) * f.x + (-b.twoBx * q.q3 + b.twoBz * q.q1) * f.y + (b.twoBx * q.q2) * f.z
  }

  function FieldGradient1(q: Quat, b: FieldReference, f: Vec3): real {
    (b.twoBz * q.q3) * f.x + (b.twoBx * q.q2 + b.twoBz * q.q0) * f.y + (b.twoBx * q.q3 - (2.0 * b.twoBz) * q.q1) * f.z
  }

  function FieldGradient2(q: Quat, b: FieldReference, f: Vec3): real {
    (-(2.0 * b.twoBx) * q.q2 - b.twoBz * q.q0) * f.x + (b.twoBx * q.q1 + b.twoBz * q.q3) * f.y
      + (b.twoBx * q.q0 - (2.0 * b.twoBz) * q.q2) * f.z
  }

  function FieldGradient3(q: Quat, b: FieldReference, f: Vec3): real {
    (-(2.0 * b.twoBx) * q.q3 + b.twoBz * q.q1) * f.x + (-b.twoBx * q.q0 + b.twoBz * q.q2) * f.y
      + (b.twoBx * q.q1) * f.z
  }

  /** The transpose of the Jacobian of FieldError with respect to q, applied to f. */
  function FieldGradient(q: Quat, b: FieldReference, f: Vec3): Quat {
    Quat(FieldGradient0(q, b, f), FieldGradient1(q, b, f), FieldGradient2(q, b, f), FieldGradient3(q, b, f))
  }

  /** The components s0..s3 of the corrective step of update: the source's
      coefficients (`-_2q2`, `_2bz * q2`, `_4bz = 2 _2bz`, ...) times its bracketed
      error terms, which are the components of GravityError and FieldError. */
  function MargS0(q: Quat, a: Vec3, m: Vec3, b: FieldReference): real {
    -(2.0 * q.q2) * GravityErrorX(q, a) + (2.0 * q.q1) * GravityErrorY(q, a)
    - b.twoBz * q.q2 * FieldErrorX(q, b, m) + (-b.twoBx * q.q3 + b.twoBz * q.q1) * FieldErrorY(q, b, m)
    + b.twoBx * q.q2 * FieldErrorZ(q, b, m)
  }

  function MargS1(q: Quat, a: Vec3, m: Vec3, b: FieldReference): real {
    (2.0 * q.q3) * GravityErrorX(q, a) + (2.0 * q.q0) * GravityErrorY(q, a) - 4.0 * q.q1 * GravityErrorZ(q, a)
    + b.twoBz * q.q3 * FieldErrorX(q, b, m) + (b.twoBx * q.q2 + b.twoBz * q.q0) * FieldErrorY(q, b, m)
    + (b.twoBx * q.q3 - (2.0 * b.twoBz) * q.q1) * FieldErrorZ(q, b, m)
  }

  function MargS2(q: Quat, a: Vec3, m: Vec3, b: FieldReference): real {
    -(2.0 * q.q0) * GravityErrorX(q, a) + (2.0 * q.q3) * GravityErrorY(q, a) - 4.0 * q.q2 * GravityErrorZ(q, a)
    + (-(2.0 * b.twoBx) * q.q2 - b.twoBz * q.q0) * FieldErrorX(q, b, m)
    + (b.twoBx * q.q1 + b.twoBz * q.q3) * FieldErrorY(q, b, m)
    + (b.twoBx * q.q0 - (2.0 * b.twoBz) * q.q2) * FieldErrorZ(q, b, m)
  }

  function MargS3(q: Quat, a: Vec3, m: Vec3, b: FieldReference): real {
    (2.0 * q.q1) * GravityErrorX(q, a) + (2.0 * q.q2) * GravityErrorY(q, a)
    + (-(2.0 * b.twoBx) * q.q3 + b.twoBz * q.q1) * FieldErrorX(q, b, m)
    + (-b.twoBx * q.q0 + b.twoBz * q.q2) * FieldErrorY(q, b, m)
    + b.twoBx * q.q1 * FieldErrorZ(q, b, m)
  }

  /** The corrective step (s0, s1, s2, s3) of update, before normalisation. */
  function MargGradient(q: Quat, a: Vec3, m: Vec3, b: FieldReference): Quat {
    Quat(MargS0(q, a, m, b), MargS1(q, a, m, b), MargS2(q, a, m, b), MargS3(q, a, m, b))
  }

}
