/** Proofs that the corrective steps of update and updateIMU (Madgwick.kt) are
    gradients: Jᵀ f for the error functions of MadgwickSpec. Each identity is
    proved one component at a time, over the components of the error as atoms,
    so that the arithmetic left to the solver is linear over monomials. */
module MadgwickGradients {
  import opened Quaternions
  import opened MadgwickSpec

  /** The four components of ImuGradient, expanded as updateIMU writes them, against
      Jᵀ f for any f equal to the gravity error. Proof glue: it repeats the
      polynomials of ImuS0..ImuS3 over plain reals so that the component lemmas
      below stay cheap for the solver; it says nothing new about the filter. */
  lemma ImuGradientExpanded(q0: real, q1: real, q2: real, q3: real, ax: real, ay: real, az: real,
                            fx: real, fy: real, fz: real)
    requires fx == 2.0 * (q1 * q3) - 2.0 * q0 * q2 - ax
    requires fy == 2.0 * (q0 * q1) + 2.0 * q2 * q3 - ay
    requires fz == 1.0 - 2.0 * (q1 * q1) - 2.0 * (q2 * q2) - az
    ensures 4.0 * q0 * (q2 * q2) + 2.0 * q2 * ax + 4.0 * q0 * (q1 * q1) - 2.0 * q1 * ay
         == -(2.0 * q2) * fx + (2.0 * q1) * fy
    ensures 4.0 * q1 * (q3 * q3) - 2.0 * q3 * ax + 4.0 * (q0 * q0) * q1 - 2.0 * q0 * ay - 4.0 * q1
              + 8.0 * q1 * (q1 * q1) + 8.0 * q1 * (q2 * q2) + 4.0 * q1 * az
         == (2.0 * q3) * fx + (2.0 * q0) * fy - (4.0 * q1) * fz
    ensures 4.0 * (q0 * q0) * q2 + 2.0 * q0 * ax + 4.0 * q2 * (q3 * q3) - 2.0 * q3 * ay - 4.0 * q2
              + 8.0 * q2 * (q1 * q1) + 8.0 * q2 * (q2 * q2) + 4.0 * q2 * az
         == -(2.0 * q0) * fx + (2.0 * q3) * fy - (4.0 * q2) * fz
    ensures 4.0 * (q1 * q1) * q3 - 2.0 * q1 * ax + 4.0 * (q2 * q2) * q3 - 2.0 * q2 * ay
         == (2.0 * q1) * fx + (2.0 * q2) * fy
  {
  }

  lemma ImuGradientComponent0(q: Quat, a: Vec3)
    ensures ImuS0(q, a) == GravityGradient(q, GravityError(q, a)).q0
  {
    ImuGradientExpanded(q.q0, q.q1, q.q2, q.q3, a.x, a.y, a.z,
                        GravityErrorX(q, a), GravityErrorY(q, a), GravityErrorZ(q, a));
  }

  lemma ImuGradientComponent1(q: Quat, a: Vec3)
    ensures ImuS1(q, a) == GravityGradient(q, GravityError(q, a)).q1
  {
    ImuGradientExpanded(q.q0, q.q1, q.q2, q.q3, a.x, a.y, a.z,
                        GravityErrorX(q, a), GravityErrorY(q, a), GravityErrorZ(q, a));
  }

  lemma ImuGradientComponent2(q: Quat, a: Vec3)
    ensures ImuS2(q, a) == GravityGradient(q, GravityError(q, a)).q2
  {
    ImuGradientExpanded(q.q0, q.q1, q.q2, q.q3, a.x, a.y, a.z,
                        GravityErrorX(q, a), GravityErrorY(q, a), GravityErrorZ(q, a));
  }

  lemma ImuGradientComponent3(q: Quat, a: Vec3)
    ensures ImuS3(q, a) == GravityGradient(q, GravityError(q, a)).q3
  {
    ImuGradientExpanded(q.q0, q.q1, q.q2, q.q3, a.x, a.y, a.z,
                        GravityErrorX(q, a), GravityErrorY(q, a), GravityErrorZ(q, a));
  }

  /** The corrective step of updateIMU is the gradient Jᵀ f of ½|f|² for the
      gravity objective f = GravityError(q, a), for every q and a (unit or not). */
  lemma ImuGradientIsJacobianTranspose(q: Quat, a: Vec3)
    ensures ImuGradient(q, a) == GravityGradient(q, GravityError(q, a))
  {
    ImuGradientComponent0(q, a);
    ImuGradientComponent1(q, a);
    ImuGradientComponent2(q, a);
    ImuGradientComponent3(q, a);
    QuatExt(ImuGradient(q, a), GravityGradient(q, GravityError(q, a)));
  }

  lemma MargGradientComponent0(q: Quat, a: Vec3, m: Vec3, b: FieldReference)
    ensures MargS0(q, a, m, b)
         == GravityGradient(q, GravityError(q, a)).q0 + FieldGradient(q, b, FieldError(q, b, m)).q0
  {
  }

  lemma MargGradientComponent1(q: Quat, a: Vec3, m: Vec3, b: FieldReference)
    ensures MargS1(q, a, m, b)
         == GravityGradient(q, GravityError(q, a)).q1 + FieldGradient(q, b, FieldError(q, b, m)).q1
  {
  }

  lemma MargGradientComponent2(q: Quat, a: Vec3, m: Vec3, b: FieldReference)
    ensures MargS2(q, a, m, b)
         == GravityGradient(q, GravityError(q, a)).q2 + FieldGradient(q, b, FieldError(q, b, m)).q2
  {
  }

  lemma MargGradientComponent3(q: Quat, a: Vec3, m: Vec3, b: FieldReference)
    ensures MargS3(q, a, m, b)
         == GravityGradient(q, GravityError(q, a)).q3 + FieldGradient(q, b, FieldError(q, b, m)).q3
  {
  }

  /** The corrective step of update is the gradient of ½(|f_g|² + |f_b|²): the
      sum of Jᵀ f for the gravity objective and for the field objective. */
  lemma MargGradientIsJacobianTranspose(q: Quat, a: Vec3, m: Vec3, b: FieldReference)
    ensures MargGradient(q, a, m, b)
         == Add(GravityGradient(q, GravityError(q, a)), FieldGradient(q, b, FieldError(q, b, m)))
  {
    MargGradientComponent0(q, a, m, b);
    MargGradientComponent1(q, a, m, b);
    MargGradientComponent2(q, a, m, b);
    MargGradientComponent3(q, a, m, b);
    QuatExt(MargGradient(q, a, m, b),
            Add(GravityGradient(q, GravityError(q, a)), FieldGradient(q, b, FieldError(q, b, m))));
  }
}
