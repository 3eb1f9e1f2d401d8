/** The blocks of update and updateIMU (Madgwick.kt) as the source writes them,
    with its auxiliary variables, each tied to the function of MadgwickSpec or
    MadgwickStep it computes. The statement sequences of MadgwickUpdate call
    these with their own locals as arguments. */
module MadgwickBlocks {
  import opened KotlinMath
  import opened Functions
  import opened Quaternions
  import opened MadgwickSpec
  import opened MadgwickStep

  /** The gyroscope rates converted to radians per second and the rate of change
      `qDot1..qDot4` of the quaternion they give. */
  lemma GyroRateTerms(q0: real, q1: real, q2: real, q3: real,
                      gxInDeg: real, gyInDeg: real, gzInDeg: real, gx: real, gy: real, gz: real,
                      qDot1: real, qDot2: real, qDot3: real, qDot4: real)
    requires gx == gxInDeg * DegToRad && gy == gyInDeg * DegToRad && gz == gzInDeg * DegToRad
    requires qDot1 == 0.5 * (-q1 * gx - q2 * gy - q3 * gz)
    requires qDot2 == 0.5 * (q0 * gx + q2 * gz - q3 * gy)
    requires qDot3 == 0.5 * (q0 * gy - q1 * gz + q3 * gx)
    requires qDot4 == 0.5 * (q0 * gz + q1 * gy - q2 * gx)
    ensures Quat(qDot1, qDot2, qDot3, qDot4)
         == GyroDerivative(Quat(q0, q1, q2, q3), ToRadians(Vec3(gxInDeg, gyInDeg, gzInDeg)))
  {
  }

  /** `recipNorm = invSqrt(x * x + y * y + z * z)` and `x *= recipNorm`, ... */
  lemma NormalizedVecTerms(math: Math, x: real, y: real, z: real, recipNorm: real, nx: real, ny: real, nz: real)
    requires math.Valid() && 0.0 < NormSq3(Vec3(x, y, z))
    requires recipNorm == InvSqrt(math, NormSq3(Vec3(x, y, z)))
    requires nx == x * recipNorm && ny == y * recipNorm && nz == z * recipNorm
    ensures !IsZero(Vec3(x, y, z)) && Vec3(nx, ny, nz) == NormalizeVec(math, Vec3(x, y, z))
  {
  }

  /** `recipNorm = invSqrt(x0 * x0 + x1 * x1 + x2 * x2 + x3 * x3)` and `x0 *= recipNorm`, ... */
  lemma NormalizedQuatTerms(math: Math, x0: real, x1: real, x2: real, x3: real, recipNorm: real,
                            n0: real, n1: real, n2: real, n3: real)
    requires math.Valid() && Quat(x0, x1, x2, x3) != ZeroQuat && 0.0 < NormSq(Quat(x0, x1, x2, x3))
    requires recipNorm == InvSqrt(math, NormSq(Quat(x0, x1, x2, x3)))
    requires n0 == x0 * recipNorm && n1 == x1 * recipNorm && n2 == x2 * recipNorm && n3 == x3 * recipNorm
    ensures Quat(n0, n1, n2, n3) == Normalize(math, Quat(x0, x1, x2, x3))
  {
  }

  /** The reference direction of the Earth's field: `_2bx = sqrt(hx * hx + hy * hy)`
      and `_2bz`, from the reading h rotated into the Earth frame. */
  lemma ReferenceFieldTerms(math: Math, q: Quat, m: Vec3, h: Vec3, hx: real, hy: real, twoBx: real, twoBz: real)
    requires h == EarthField(q, m)
    requires hx == h.x && hy == h.y && twoBz == h.z
    requires twoBx == math.sqrt(hx * hx + hy * hy)
    ensures FieldReference(twoBx, twoBz) == ReferenceField(math, q, m)
  {
    HorizontalTerms(math, h, hx, hy);
  }

  /** Proof glue with no meaning of its own: HorizontalSq unfolded once, kept
      apart from ReferenceFieldTerms because that is cheaper for the solver. */
  lemma HorizontalTerms(math: Math, h: Vec3, hx: real, hy: real)
    requires hx == h.x && hy == h.y
    ensures math.sqrt(hx * hx + hy * hy) == math.sqrt(HorizontalSq(h))
  {
    assert HorizontalSq(h) == hx * hx + hy * hy;
  }

  /** `qDot1 -= beta * s0`, ... */
  lemma FeedbackTerms(qDot1: real, qDot2: real, qDot3: real, qDot4: real, beta: real,
                      s0: real, s1: real, s2: real, s3: real, n1: real, n2: real, n3: real, n4: real)
    requires n1 == qDot1 - beta * s0 && n2 == qDot2 - beta * s1
    requires n3 == qDot3 - beta * s2 && n4 == qDot4 - beta * s3
    ensures Quat(n1, n2, n3, n4) == Feedback(Quat(qDot1, qDot2, qDot3, qDot4), beta, Quat(s0, s1, s2, s3))
  {
  }

  /** `q0 += qDot1 * invSampleFreq`, ... */
  lemma IntegrateTerms(q0: real, q1: real, q2: real, q3: real, qDot1: real, qDot2: real, qDot3: real, qDot4: real,
                       dt: real, n0: real, n1: real, n2: real, n3: real)
    requires n0 == q0 + qDot1 * dt && n1 == q1 + qDot2 * dt
    requires n2 == q2 + qDot3 * dt && n3 == q3 + qDot4 * dt
    ensures Quat(n0, n1, n2, n3) == Integrate(Quat(q0, q1, q2, q3), dt, Quat(qDot1, qDot2, qDot3, qDot4))
  {
  }
}
