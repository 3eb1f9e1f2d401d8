/** One call of updateIMU and of update (Madgwick.kt) as functions of the state
    before the call and the readings: normalisation, the feedback step, the
    integration and the final renormalisation, with the conditions under which
    no invSqrt in the step sees zero. */
module MadgwickStep {
  import opened KotlinMath
  import opened Functions
  import opened Quaternions
  import opened MadgwickSpec

  // ---------------------------------------------------------------------------
  // Building blocks

  /** A sensor triple scaled by invSqrt of its squared norm (`ax *= recipNorm`):
      the unit vector pointing the same way. */
  function NormalizeVec(math: Math, v: Vec3): (r: Vec3)
    requires math.Valid() && !IsZero(v)
    ensures NormSq3(r) == 1.0
    ensures exists k :: 0.0 < k && r == ScaleVec(k, v)
  {
    NormSq3Positive(v);
    var k := InvSqrt(math, NormSq3(v));
    NormSq3Scale(k, v);
    ScaleVec(k, v)
  }

  /** A quaternion scaled by invSqrt of its squared norm (`q0 *= recipNorm`,
      `s0 *= recipNorm`): the unit quaternion pointing the same way. */
  function Normalize(math: Math, q: Quat): (r: Quat)
    requires math.Valid() && q != ZeroQuat
    ensures NormSq(r) == 1.0
    ensures exists k :: 0.0 < k && r == Scale(k, q)
  {
    NormSqPositive(q);
    var k := InvSqrt(math, NormSq(q));
    NormSqScale(k, q);
    Scale(k, q)
  }

  /** Normalising a unit quaternion leaves it unchanged. */
  lemma NormalizeUnit(math: Math, q: Quat)
    requires math.Valid() && NormSq(q) == 1.0
    ensures q != ZeroQuat && Normalize(math, q) == q
  {
    NormSqZeroIff(q);
    InvSqrtOne(math);
    assert Scale(1.0, q) == q;
  }

  /** The feedback step `qDot1 -= beta * s0`, ... */
  function Feedback(d: Quat, beta: real, s: Quat): Quat {
    Quat(d.q0 - beta * s.q0, d.q1 - beta * s.q1, d.q2 - beta * s.q2, d.q3 - beta * s.q3)
  }

  /** The integration `q0 += qDot1 * invSampleFreq`, ... */
  function Integrate(q: Quat, dt: real, d: Quat): Quat {
    Add(q, Scale(dt, d))
  }

  /** A unit corrective direction moves the rate of change by exactly beta. */
  lemma FeedbackMovesByBeta(d: Quat, beta: real, s: Quat)
    requires NormSq(s) == 1.0
    ensures NormSq(Sub(d, Feedback(d, beta, s))) == beta * beta
  {
    assert Sub(d, Feedback(d, beta, s)) == Scale(beta, s);
    NormSqScale(beta, s);
  }

  /** Integrating the gyroscope rate alone never shortens q: the rate is
      orthogonal to q, so |q + dt·q̇|² = |q|² + dt²|q̇|². */
  lemma GyroIntegrationKeepsNonZero(q: Quat, dt: real, g: Vec3)
    requires q != ZeroQuat
    ensures NormSq(q) <= NormSq(Integrate(q, dt, GyroDerivative(q, g)))
    ensures Integrate(q, dt, GyroDerivative(q, g)) != ZeroQuat
  {
    var d := GyroDerivative(q, g);
    var r := Integrate(q, dt, d);
    assert Dot(q, d) == 0.0;
    NormSqAddScaled(q, dt, d);
    assert NormSq(r) == NormSq(q) + dt * dt * NormSq(d);
    NormSqNonNeg(d);
    SquareTimesNonNeg(dt, NormSq(d));
    NormSqPositive(q);
    assert 0.0 < NormSq(r);
    NormSqZeroIff(r);
  }

  // ---------------------------------------------------------------------------
  // Pure gyroscope integration

  /** The step both update and updateIMU take when the accelerometer reads
      (0, 0, 0): integrate the gyroscope rate and renormalise. */
  function GyroStep(math: Math, q: Quat, dt: real, g: Vec3): (r: Quat)
    requires math.Valid() && q != ZeroQuat
    ensures NormSq(r) == 1.0
  {
    GyroIntegrationKeepsNonZero(q, dt, ToRadians(g));
    Normalize(math, Integrate(q, dt, GyroDerivative(q, ToRadians(g))))
  }

  /** With a zero gyroscope reading as well, the step only rescales q to unit
      length; a unit q stays where it is. */
  lemma ZeroMotionOnlyRescales(math: Math, q: Quat, dt: real)
    requires math.Valid() && q != ZeroQuat
    ensures GyroStep(math, q, dt, Vec3(0.0, 0.0, 0.0)) == Normalize(math, q)
    ensures NormSq(q) == 1.0 ==> GyroStep(math, q, dt, Vec3(0.0, 0.0, 0.0)) == q
  {
    assert ToRadians(Vec3(0.0, 0.0, 0.0)) == Vec3(0.0, 0.0, 0.0);
    assert GyroDerivative(q, Vec3(0.0, 0.0, 0.0)) == ZeroQuat;
    assert Integrate(q, dt, ZeroQuat) == q;
    if NormSq(q) == 1.0 {
      NormalizeUnit(math, q);
    }
  }

  // ---------------------------------------------------------------------------
  // updateIMU

  /** The feedback step of updateIMU is defined: either it is skipped (zero
      accelerometer) or the corrective step it normalises is not zero. */
  predicate ImuFeedbackDefined(math: Math, q: Quat, a: Vec3)
    requires math.Valid()
  {
    !IsZero(a) ==> ImuGradient(q, NormalizeVec(math, a)) != ZeroQuat
  }

  /** The rate of change updateIMU integrates: the gyroscope rate, minus
      beta times the normalised corrective step unless the accelerometer reads
      (0, 0, 0). */
  function ImuDerivative(math: Math, q: Quat, beta: real, g: Vec3, a: Vec3): Quat
    requires math.Valid() && ImuFeedbackDefined(math, q, a)
  {
    var d := GyroDerivative(q, ToRadians(g));
    if IsZero(a) then d
    else Feedback(d, beta, Normalize(math, ImuGradient(q, NormalizeVec(math, a))))
  }

  /** Every invSqrt of updateIMU sees a positive argument. */
  predicate ImuDefined(math: Math, q: Quat, beta: real, dt: real, g: Vec3, a: Vec3)
    requires math.Valid()
  {
    ImuFeedbackDefined(math, q, a) && Integrate(q, dt, ImuDerivative(math, q, beta, g, a)) != ZeroQuat
  }

  /** The quaternion after updateIMU(g, a) from q, with gain beta and sample
      period dt: always of unit length. */
  function ImuStep(math: Math, q: Quat, beta: real, dt: real, g: Vec3, a: Vec3): (r: Quat)
    requires math.Valid() && ImuDefined(math, q, beta, dt, g, a)
    ensures NormSq(r) == 1.0
  {
    Normalize(math, Integrate(q, dt, ImuDerivative(math, q, beta, g, a)))
  }

  /** With the accelerometer reading (0, 0, 0), updateIMU is pure gyroscope
      integration: always defined for a non-zero q, and beta is not used. */
  lemma ImuZeroAccelerationIsGyroStep(math: Math, q: Quat, beta: real, dt: real, g: Vec3)
    requires math.Valid() && q != ZeroQuat
    ensures ImuDefined(math, q, beta, dt, g, Vec3(0.0, 0.0, 0.0))
    ensures ImuStep(math, q, beta, dt, g, Vec3(0.0, 0.0, 0.0)) == GyroStep(math, q, dt, g)
  {
    GyroIntegrationKeepsNonZero(q, dt, ToRadians(g));
  }

  /** With a non-zero accelerometer reading the feedback moves the gyroscope
      rate by exactly beta (the corrective step has unit length). */
  lemma ImuFeedbackMovesByBeta(math: Math, q: Quat, beta: real, g: Vec3, a: Vec3)
    requires math.Valid() && !IsZero(a) && ImuFeedbackDefined(math, q, a)
    ensures NormSq(Sub(GyroDerivative(q, ToRadians(g)), ImuDerivative(math, q, beta, g, a))) == beta * beta
  {
    FeedbackMovesByBeta(GyroDerivative(q, ToRadians(g)), beta,
                        Normalize(math, ImuGradient(q, NormalizeVec(math, a))));
  }

  // ---------------------------------------------------------------------------
  // update

  /** The feedback step of update is defined: either it is skipped (zero
      accelerometer), or the magnetometer is not zero and the corrective step
      is not zero. */
  predicate MargFeedbackDefined(math: Math, q: Quat, a: Vec3, m: Vec3)
    requires math.Valid()
  {
    !IsZero(a) ==>
      !IsZero(m) &&
      var mn := NormalizeVec(math, m);
      MargGradient(q, NormalizeVec(math, a), mn, ReferenceField(math, q, mn)) != ZeroQuat
  }

  /** The rate of change the body of update integrates. */
  function MargDerivative(math: Math, q: Quat, beta: real, g: Vec3, a: Vec3, m: Vec3): Quat
    requires math.Valid() && MargFeedbackDefined(math, q, a, m)
  {
    var d := GyroDerivative(q, ToRadians(g));
    if IsZero(a) then d
    else
      var mn := NormalizeVec(math, m);
      var s := MargGradient(q, NormalizeVec(math, a), mn, ReferenceField(math, q, mn));
      Feedback(d, beta, Normalize(math, s))
  }

  /** Every invSqrt in the body of update (after the magnetometer test) sees a
      positive argument. */
  predicate MargDefined(math: Math, q: Quat, beta: real, dt: real, g: Vec3, a: Vec3, m: Vec3)
    requires math.Valid()
  {
    MargFeedbackDefined(math, q, a, m) && Integrate(q, dt, MargDerivative(math, q, beta, g, a, m)) != ZeroQuat
  }

  /** The quaternion after the body of update (after the magnetometer test). */
  function MargStep(math: Math, q: Quat, beta: real, dt: real, g: Vec3, a: Vec3, m: Vec3): (r: Quat)
    requires math.Valid() && MargDefined(math, q, beta, dt, g, a, m)
    ensures NormSq(r) == 1.0
  {
    Normalize(math, Integrate(q, dt, MargDerivative(math, q, beta, g, a, m)))
  }

  /** With the accelerometer reading (0, 0, 0), the body of update is pure
      gyroscope integration, whatever the magnetometer reads. */
  lemma MargZeroAccelerationIsGyroStep(math: Math, q: Quat, beta: real, dt: real, g: Vec3, m: Vec3)
    requires math.Valid() && q != ZeroQuat
    ensures MargDefined(math, q, beta, dt, g, Vec3(0.0, 0.0, 0.0), m)
    ensures MargStep(math, q, beta, dt, g, Vec3(0.0, 0.0, 0.0), m) == GyroStep(math, q, dt, g)
  {
    GyroIntegrationKeepsNonZero(q, dt, ToRadians(g));
  }

  /** With a non-zero accelerometer reading the feedback of update moves the
      gyroscope rate by exactly beta. */
  lemma MargFeedbackMovesByBeta(math: Math, q: Quat, beta: real, g: Vec3, a: Vec3, m: Vec3)
    requires math.Valid() && !IsZero(a) && MargFeedbackDefined(math, q, a, m)
    ensures NormSq(Sub(GyroDerivative(q, ToRadians(g)), MargDerivative(math, q, beta, g, a, m))) == beta * beta
  {
    var mn := NormalizeVec(math, m);
    var s := MargGradient(q, NormalizeVec(math, a), mn, ReferenceField(math, q, mn));
    FeedbackMovesByBeta(GyroDerivative(q, ToRadians(g)), beta, Normalize(math, s));
  }

  /** update as written: when the magnetometer reads (0, 0, 0) it calls
      updateIMU and then, with no return, runs its own body on the result. */
  predicate UpdateDefined(math: Math, q: Quat, beta: real, dt: real, g: Vec3, a: Vec3, m: Vec3)
    requires math.Valid()
  {
    if IsZero(m) then
      ImuDefined(math, q, beta, dt, g, a) && MargDefined(math, ImuStep(math, q, beta, dt, g, a), beta, dt, g, a, m)
    else
      MargDefined(math, q, beta, dt, g, a, m)
  }

  function UpdateStep(math: Math, q: Quat, beta: real, dt: real, g: Vec3, a: Vec3, m: Vec3): (r: Quat)
    requires math.Valid() && UpdateDefined(math, q, beta, dt, g, a, m)
    ensures NormSq(r) == 1.0
  {
    if IsZero(m) then MargStep(math, ImuStep(math, q, beta, dt, g, a), beta, dt, g, a, m)
    else MargStep(math, q, beta, dt, g, a, m)
  }

  /** With a non-zero magnetometer reading update is its body alone. */
  lemma UpdateWithFieldIsMargStep(math: Math, q: Quat, beta: real, dt: real, g: Vec3, a: Vec3, m: Vec3)
    requires math.Valid() && !IsZero(m)
    ensures UpdateDefined(math, q, beta, dt, g, a, m) <==> MargDefined(math, q, beta, dt, g, a, m)
    ensures UpdateDefined(math, q, beta, dt, g, a, m) ==>
              UpdateStep(math, q, beta, dt, g, a, m) == MargStep(math, q, beta, dt, g, a, m)
  {
  }

  /** The fall-through: with the magnetometer reading (0, 0, 0) the body of
      update normalises the zero magnetometer reading unless the accelerometer
      reads (0, 0, 0) too, so update is defined only for a zero accelerometer. */
  lemma ZeroFieldUpdateNeedsZeroAcceleration(math: Math, q: Quat, beta: real, dt: real, g: Vec3, a: Vec3, m: Vec3)
    requires math.Valid() && IsZero(m) && UpdateDefined(math, q, beta, dt, g, a, m)
    ensures IsZero(a)
  {
  }

  /** The fall-through: with both the magnetometer and the accelerometer reading
      (0, 0, 0), update integrates the gyroscope twice. */
  lemma ZeroReadingsUpdateIntegratesTwice(math: Math, q: Quat, beta: real, dt: real, g: Vec3)
    requires math.Valid() && q != ZeroQuat
    ensures UpdateDefined(math, q, beta, dt, g, Vec3(0.0, 0.0, 0.0), Vec3(0.0, 0.0, 0.0))
    ensures UpdateStep(math, q, beta, dt, g, Vec3(0.0, 0.0, 0.0), Vec3(0.0, 0.0, 0.0))
         == GyroStep(math, GyroStep(math, q, dt, g), dt, g)
  {
    var z := Vec3(0.0, 0.0, 0.0);
    ImuZeroAccelerationIsGyroStep(math, q, beta, dt, g);
    var q1 := ImuStep(math, q, beta, dt, g, z);
    NormSqZeroIff(q1);
    MargZeroAccelerationIsGyroStep(math, q1, beta, dt, g, z);
  }

  /** One gyroscope-only step from the identity about the x axis, written out:
      a positive multiple k·(1, v, 0, 0) with v = dt·ω/2. */
  lemma GyroStepFromIdentity(math: Math, q: Quat, dt: real, g: Vec3) returns (k: real, w: real, v: real)
    requires math.Valid() && q == Identity && g.y == 0.0 && g.z == 0.0
    ensures 0.0 < k && w == g.x * DegToRad && v == dt * (0.5 * w)
    ensures ToRadians(g) == Vec3(w, 0.0, 0.0)
    ensures GyroStep(math, q, dt, g) == Quat(k, k * v, 0.0, 0.0)
  {
    w := g.x * DegToRad;
    v := dt * (0.5 * w);
    assert ToRadians(g) == Vec3(w, 0.0, 0.0);
    var x := Integrate(q, dt, GyroDerivative(q, Vec3(w, 0.0, 0.0)));
    assert x == Quat(1.0, v, 0.0, 0.0);
    var r := Normalize(math, x);
    k :| 0.0 < k && r == Scale(k, x);
  }

  /** k2·k·(1 - v², 2v, 0, 0) is not k·(1, v, 0, 0) for positive k, k2 and
      non-zero v: the cross term of the two is k² k2 v (1 + v²). */
  lemma NotParallel(k: real, k2: real, v: real)
    requires 0.0 < k && 0.0 < k2 && v != 0.0
    ensures Scale(k2, Quat(k * (1.0 - v * v), 2.0 * k * v, 0.0, 0.0)) != Quat(k, k * v, 0.0, 0.0)
  {
    var r := Scale(k2, Quat(k * (1.0 - v * v), 2.0 * k * v, 0.0, 0.0));
    var c := k * r.q1 - (k * v) * r.q0;
    assert c == (k * k * k2) * (v * (1.0 + v * v));
    SquarePos(k);
    ProductNonZero(k * k, k2);
    SquareNonNeg(v);
    ProductNonZero(v, 1.0 + v * v);
    ProductNonZero(k * k * k2, v * (1.0 + v * v));
  }

  /** The gyroscope integration from k·(1, v, 0, 0) about x with v = dt·ω/2,
      written out: k·(1 - v², 2v, 0, 0). */
  lemma IntegrateAboutX(k: real, dt: real, w: real, v: real)
    requires v == dt * (0.5 * w)
    ensures Integrate(Quat(k, k * v, 0.0, 0.0), dt, GyroDerivative(Quat(k, k * v, 0.0, 0.0), Vec3(w, 0.0, 0.0)))
         == Quat(k * (1.0 - v * v), 2.0 * k * v, 0.0, 0.0)
  {
    var q1 := Quat(k, k * v, 0.0, 0.0);
    var x := Integrate(q1, dt, GyroDerivative(q1, Vec3(w, 0.0, 0.0)));
    assert x.q0 == k + 0.5 * (-(k * v) * w) * dt;
    assert x.q1 == k * v + 0.5 * (k * w) * dt;
  }

  /** A second gyroscope-only step about the same axis from k·(1, v, 0, 0)
      moves when v is not zero: it lands on a positive multiple of
      (1 - v², 2v, 0, 0), which is not parallel to (1, v, 0, 0). */
  lemma SecondGyroStepMoves(math: Math, dt: real, g: Vec3, w: real, v: real, k: real, q1: Quat)
    requires math.Valid() && 0.0 < k && v != 0.0
    requires ToRadians(g) == Vec3(w, 0.0, 0.0) && v == dt * (0.5 * w)
    requires q1 == Quat(k, k * v, 0.0, 0.0)
    ensures GyroStep(math, q1, dt, g) != q1
  {
    var x := Integrate(q1, dt, GyroDerivative(q1, Vec3(w, 0.0, 0.0)));
    IntegrateAboutX(k, dt, w, v);
    var r := Normalize(math, x);
    var k2 :| 0.0 < k2 && r == Scale(k2, x);
    NotParallel(k, k2, v);
  }

  /** Finding (as written): with the magnetometer and accelerometer reading
      (0, 0, 0) and the gyroscope turning about x, update from the identity does
      not give what updateIMU gives, because it falls through to its own body. */
  lemma ZeroFieldUpdateDiffersFromUpdateImu(math: Math, q: Quat, beta: real, dt: real, g: Vec3, z: Vec3)
    requires math.Valid() && q == Identity && z == Vec3(0.0, 0.0, 0.0)
    requires dt != 0.0 && g.x != 0.0 && g.y == 0.0 && g.z == 0.0
    ensures UpdateDefined(math, q, beta, dt, g, z, z) && ImuDefined(math, q, beta, dt, g, z)
    ensures UpdateStep(math, q, beta, dt, g, z, z) != ImuStep(math, q, beta, dt, g, z)
  {
    ZeroReadingsUpdateIntegratesTwice(math, q, beta, dt, g);
    ImuZeroAccelerationIsGyroStep(math, q, beta, dt, g);
    var k, w, v := GyroStepFromIdentity(math, q, dt, g);
    ProductNonZero(g.x, DegToRad);
    ProductNonZero(0.5, w);
    ProductNonZero(dt, 0.5 * w);
    SecondGyroStepMoves(math, dt, g, w, v, k, Quat(k, k * v, 0.0, 0.0));
  }

  /** update as evidently intended: with the magnetometer reading (0, 0, 0) it
      is updateIMU and nothing else. */
  predicate IntendedUpdateDefined(math: Math, q: Quat, beta: real, dt: real, g: Vec3, a: Vec3, m: Vec3)
    requires math.Valid()
  {
    if IsZero(m) then ImuDefined(math, q, beta, dt, g, a) else MargDefined(math, q, beta, dt, g, a, m)
  }

  function IntendedUpdateStep(math: Math, q: Quat, beta: real, dt: real, g: Vec3, a: Vec3, m: Vec3): (r: Quat)
    requires math.Valid() && IntendedUpdateDefined(math, q, beta, dt, g, a, m)
    ensures NormSq(r) == 1.0
  {
    if IsZero(m) then ImuStep(math, q, beta, dt, g, a) else MargStep(math, q, beta, dt, g, a, m)
  }

  /** Finding (corrected): with all readings but the gyroscope zero, the intended
      update integrates once, exactly as updateIMU does; with a magnetometer
      reading it agrees with update as written. */
  lemma IntendedUpdateIntegratesOnce(math: Math, q: Quat, beta: real, dt: real, g: Vec3, m: Vec3)
    requires math.Valid() && q != ZeroQuat
    ensures IntendedUpdateDefined(math, q, beta, dt, g, Vec3(0.0, 0.0, 0.0), m)
    ensures IntendedUpdateStep(math, q, beta, dt, g, Vec3(0.0, 0.0, 0.0), m) == GyroStep(math, q, dt, g)
  {
    ImuZeroAccelerationIsGyroStep(math, q, beta, dt, g);
    MargZeroAccelerationIsGyroStep(math, q, beta, dt, g, m);
  }

  lemma IntendedAgreesWithField(math: Math, q: Quat, beta: real, dt: real, g: Vec3, a: Vec3, m: Vec3)
    requires math.Valid() && !IsZero(m)
    ensures IntendedUpdateDefined(math, q, beta, dt, g, a, m) <==> UpdateDefined(math, q, beta, dt, g, a, m)
    ensures IntendedUpdateDefined(math, q, beta, dt, g, a, m) ==>
              IntendedUpdateStep(math, q, beta, dt, g, a, m) == UpdateStep(math, q, beta, dt, g, a, m)
  {
  }

  // ---------------------------------------------------------------------------
  // A zero corrective step

  /** Finding (as written): at the identity, with an accelerometer reading that
      has no horizontal part (a level sensor at rest), the corrective step of
      updateIMU is zero and its normalisation divides by zero, whatever the
      gyroscope reads. */
  lemma LevelSensorAtIdentityUndefined(math: Math, beta: real, dt: real, g: Vec3, az: real)
    requires math.Valid() && az != 0.0
    ensures !ImuFeedbackDefined(math, Identity, Vec3(0.0, 0.0, az))
    ensures !ImuDefined(math, Identity, beta, dt, g, Vec3(0.0, 0.0, az))
  {
    var a := Vec3(0.0, 0.0, az);
    var an := NormalizeVec(math, a);
    var k :| 0.0 < k && an == ScaleVec(k, a);
    assert an == Vec3(0.0, 0.0, az * k);
    LevelGradientVanishes(az * k);
  }

  /** updateIMU with the feedback skipped when the corrective step is zero:
      what the C original computes, where invSqrt(0) is finite and s·invSqrt(0)
      is zero. */
  function GuardedImuDerivative(math: Math, q: Quat, beta: real, g: Vec3, a: Vec3): Quat
    requires math.Valid()
  {
    var d := GyroDerivative(q, ToRadians(g));
    if IsZero(a) then d
    else
      var s := ImuGradient(q, NormalizeVec(math, a));
      if s == ZeroQuat then d else Feedback(d, beta, Normalize(math, s))
  }

  predicate GuardedImuDefined(math: Math, q: Quat, beta: real, dt: real, g: Vec3, a: Vec3)
    requires math.Valid()
  {
    Integrate(q, dt, GuardedImuDerivative(math, q, beta, g, a)) != ZeroQuat
  }

  function GuardedImuStep(math: Math, q: Quat, beta: real, dt: real, g: Vec3, a: Vec3): (r: Quat)
    requires math.Valid() && GuardedImuDefined(math, q, beta, dt, g, a)
    ensures NormSq(r) == 1.0
  {
    Normalize(math, Integrate(q, dt, GuardedImuDerivative(math, q, beta, g, a)))
  }

  /** Finding (corrected): wherever updateIMU as written is defined, the guarded
      step is defined and equal to it. */
  lemma GuardedAgreesWhereDefined(math: Math, q: Quat, beta: real, dt: real, g: Vec3, a: Vec3)
    requires math.Valid() && ImuDefined(math, q, beta, dt, g, a)
    ensures GuardedImuDefined(math, q, beta, dt, g, a)
    ensures GuardedImuStep(math, q, beta, dt, g, a) == ImuStep(math, q, beta, dt, g, a)
  {
    assert GuardedImuDerivative(math, q, beta, g, a) == ImuDerivative(math, q, beta, g, a);
  }

  /** Where the corrective step is zero, the guarded rate of change is the
      gyroscope rate alone. */
  lemma GuardedZeroStepIsGyroRate(math: Math, q: Quat, beta: real, g: Vec3, a: Vec3)
    requires math.Valid() && !IsZero(a) && ImuGradient(q, NormalizeVec(math, a)) == ZeroQuat
    ensures GuardedImuDerivative(math, q, beta, g, a) == GyroDerivative(q, ToRadians(g))
  {
  }

  /** A unit quaternion whose guarded rate of change is zero stays where it is. */
  lemma GuardedStillStays(math: Math, q: Quat, beta: real, dt: real, g: Vec3, a: Vec3)
    requires math.Valid() && NormSq(q) == 1.0 && GuardedImuDerivative(math, q, beta, g, a) == ZeroQuat
    ensures GuardedImuDefined(math, q, beta, dt, g, a)
    ensures GuardedImuStep(math, q, beta, dt, g, a) == q
  {
    assert Integrate(q, dt, ZeroQuat) == q;
    NormalizeUnit(math, q);
  }

  /** At the identity with the gyroscope reading (0, 0, 0) and a level
      accelerometer reading, the guarded rate of change is zero. */
  lemma GuardedLevelAtRestIsStill(math: Math, beta: real, az: real)
    requires math.Valid() && az != 0.0
    ensures GuardedImuDerivative(math, Identity, beta, Vec3(0.0, 0.0, 0.0), Vec3(0.0, 0.0, az)) == ZeroQuat
  {
    var z := Vec3(0.0, 0.0, 0.0);
    LevelSensorAtIdentityUndefined(math, beta, 0.0, z, az);
    GuardedZeroStepIsGyroRate(math, Identity, beta, z, Vec3(0.0, 0.0, az));
    assert ToRadians(z) == z;
    assert GyroDerivative(Identity, z) == ZeroQuat;
  }

  /** Finding (corrected): a level sensor at rest at the identity stays at the
      identity. */
  lemma GuardedLevelAtRestStaysIdentity(math: Math, q: Quat, beta: real, dt: real, az: real)
    requires math.Valid() && q == Identity && az != 0.0
    ensures GuardedImuDefined(math, q, beta, dt, Vec3(0.0, 0.0, 0.0), Vec3(0.0, 0.0, az))
    ensures GuardedImuStep(math, q, beta, dt, Vec3(0.0, 0.0, 0.0), Vec3(0.0, 0.0, az)) == q
  {
    GuardedLevelAtRestIsStill(math, beta, az);
    assert NormSq(q) == 1.0;
    GuardedStillStays(math, q, beta, dt, Vec3(0.0, 0.0, 0.0), Vec3(0.0, 0.0, az));
  }
}
