/** Quaternions and 3-vectors over the reals: the algebra in which the filter's
    update step is written out, component by component, in Madgwick.kt. */
module Quaternions {

  /** A quaternion q0 + q1 i + q2 j + q3 k (the filter keeps one in q0..q3). */
  datatype Quat = Quat(q0: real, q1: real, q2: real, q3: real)

  /** A sensor triple: gyroscope, accelerometer or magnetometer reading. */
  datatype Vec3 = Vec3(x: real, y: real, z: real)

  const Identity: Quat := Quat(1.0, 0.0, 0.0, 0.0)
  const ZeroQuat: Quat := Quat(0.0, 0.0, 0.0, 0.0)

  /** The test the filter makes before normalising a measurement. */
  predicate IsZero(v: Vec3) {
    v.x == 0.0 && v.y == 0.0 && v.z == 0.0
  }

  function Add(p: Quat, q: Quat): Quat {
    Quat(p.q0 + q.q0, p.q1 + q.q1, p.q2 + q.q2, p.q3 + q.q3)
  }

  function Sub(p: Quat, q: Quat): Quat {
    Quat(p.q0 - q.q0, p.q1 - q.q1, p.q2 - q.q2, p.q3 - q.q3)
  }

  /** q scaled by k, written as the filter writes it (`q0 *= recipNorm`). */
  function Scale(k: real, q: Quat): Quat {
    Quat(q.q0 * k, q.q1 * k, q.q2 * k, q.q3 * k)
  }

  /** v scaled by k (`ax *= recipNorm`). */
  function ScaleVec(k: real, v: Vec3): Vec3 {
    Vec3(v.x * k, v.y * k, v.z * k)
  }

  /** Hamilton product p ⊗ q. */
  function Mul(p: Quat, q: Quat): Quat {
    Quat(p.q0 * q.q0 - p.q1 * q.q1 - p.q2 * q.q2 - p.q3 * q.q3,
         p.q0 * q.q1 + p.q1 * q.q0 + p.q2 * q.q3 - p.q3 * q.q2,
         p.q0 * q.q2 - p.q1 * q.q3 + p.q2 * q.q0 + p.q3 * q.q1,
         p.q0 * q.q3 + p.q1 * q.q2 - p.q2 * q.q1 + p.q3 * q.q0)
  }

  function Conj(q: Quat): Quat {
    Quat(q.q0, -q.q1, -q.q2, -q.q3)
  }

  /** The pure quaternion (0, v). */
  function Pure(v: Vec3): Quat {
    Quat(0.0, v.x, v.y, v.z)
  }

  /** The vector part of a quaternion. */
  function VectorPart(q: Quat): Vec3 {
    Vec3(q.q1, q.q2, q.q3)
  }

  /** v rotated by q: the vector part of q ⊗ (0, v) ⊗ q*. */
  function Rotate(q: Quat, v: Vec3): Vec3 {
    VectorPart(Mul(Mul(q, Pure(v)), Conj(q)))
  }

  function Dot(p: Quat, q: Quat): real {
    p.q0 * q.q0 + p.q1 * q.q1 + p.q2 * q.q2 + p.q3 * q.q3
  }

  /** |q|², summed in the order the filter sums it before normalising. */
  function NormSq(q: Quat): real {
    q.q0 * q.q0 + q.q1 * q.q1 + q.q2 * q.q2 + q.q3 * q.q3
  }

  /** |v|², summed in the order the filter sums a sensor triple. */
  function NormSq3(v: Vec3): real {
    v.x * v.x + v.y * v.y + v.z * v.z
  }

  /** Quaternions are equal when their components are. */
  lemma QuatExt(p: Quat, r: Quat)
    requires p.q0 == r.q0 && p.q1 == r.q1 && p.q2 == r.q2 && p.q3 == r.q3
    ensures p == r
  {
  }

  lemma SquarePos(r: real)
    requires r != 0.0
    ensures 0.0 < r * r
  {
    if r < 0.0 {
      assert r * r == (-r) * (-r);
    }
  }

  lemma SquareNonNeg(r: real)
    ensures 0.0 <= r * r
  {
    if r < 0.0 {
      assert r * r == (-r) * (-r);
    }
  }

  lemma SumOfThreeSquaresPos(a: real, b: real, c: real)
    requires a != 0.0 || b != 0.0 || c != 0.0
    ensures 0.0 < a * a + b * b + c * c
  {
    if a != 0.0 {
      SquarePos(a);
    } else if b != 0.0 {
      SquarePos(b);
    } else {
      SquarePos(c);
    }
  }

  lemma SumOfFourSquaresPos(a: real, b: real, c: real, d: real)
    requires a != 0.0 || b != 0.0 || c != 0.0 || d != 0.0
    ensures 0.0 < a * a + b * b + c * c + d * d
  {
    if a != 0.0 {
      SquarePos(a);
    } else if b != 0.0 {
      SquarePos(b);
    } else if c != 0.0 {
      SquarePos(c);
    } else {
      SquarePos(d);
    }
  }

  lemma SumOfFourSquaresNonNeg(a: real, b: real, c: real, d: real)
    ensures 0.0 <= a * a + b * b + c * c + d * d
  {
    SquareNonNeg(a);
    SquareNonNeg(b);
    SquareNonNeg(c);
    SquareNonNeg(d);
  }

  /** A sensor triple that fails the all-zero test has a positive squared norm,
      so its normalisation divides by a non-zero root. */
  lemma NormSq3Positive(v: Vec3)
    requires !IsZero(v)
    ensures 0.0 < NormSq3(v)
  {
    calc {
      NormSq3(v);
      v.x * v.x + v.y * v.y + v.z * v.z;
    > { SumOfThreeSquaresPos(v.x, v.y, v.z); }
      0.0;
    }
  }

  lemma NormSqNonNeg(q: Quat)
    ensures 0.0 <= NormSq(q)
  {
    calc {
      NormSq(q);
      q.q0 * q.q0 + q.q1 * q.q1 + q.q2 * q.q2 + q.q3 * q.q3;
    >= { SumOfFourSquaresNonNeg(q.q0, q.q1, q.q2, q.q3); }
      0.0;
    }
  }

  lemma NormSqPositive(q: Quat)
    requires q != ZeroQuat
    ensures 0.0 < NormSq(q)
  {
    calc {
      NormSq(q);
      q.q0 * q.q0 + q.q1 * q.q1 + q.q2 * q.q2 + q.q3 * q.q3;
    > { SumOfFourSquaresPos(q.q0, q.q1, q.q2, q.q3); }
      0.0;
    }
  }

  /** The squared norm vanishes exactly at the zero quaternion: the
      normalisation at the end of each update is defined exactly when the
      integrated quaternion is not zero. */
  lemma NormSqZeroIff(q: Quat)
    ensures NormSq(q) == 0.0 <==> q == ZeroQuat
  {
    if q != ZeroQuat {
      NormSqPositive(q);
    }
  }

  lemma NormSqScale(k: real, q: Quat)
    ensures NormSq(Scale(k, q)) == k * k * NormSq(q)
  {
  }

  lemma NormSq3Scale(k: real, v: Vec3)
    ensures NormSq3(ScaleVec(k, v)) == k * k * NormSq3(v)
  {
  }

  /** t² n is never negative when n is not. */
  lemma SquareTimesNonNeg(t: real, n: real)
    requires 0.0 <= n
    ensures 0.0 <= t * t * n
  {
    SquareNonNeg(t);
  }

  /** Expanding |p + t·d|². */
  lemma NormSqAddScaled(p: Quat, t: real, d: Quat)
    ensures NormSq(Add(p, Scale(t, d))) == NormSq(p) + 2.0 * t * Dot(p, d) + t * t * NormSq(d)
  {
  }
}
