/** The statements of updateIMU and of the body of update (Madgwick.kt), one
    by one, on the values of the filter's fields: each method takes the
    quaternion, the gain and the sample period, and returns the four new
    components of the quaternion, which the filter object then stores. */
module MadgwickUpdate {
  import opened KotlinMath
  import opened Functions
  import opened Quaternions
  import opened MadgwickSpec
  import opened MadgwickStep
  import opened MadgwickBlocks

  /** updateIMU: gyroscope rate, accelerometer feedback, integration and
      normalisation. The result is ImuStep of the quaternion it starts from. */
  method ImuUpdate(math: Math, beta: real, invSampleFreq: real, q: Quat,
                   gxInDeg: real, gyInDeg: real, gzInDeg: real, axVal: real, ayVal: real, azVal: real)
      returns (q0: real, q1: real, q2: real, q3: real)
    requires math.Valid()
    requires ImuDefined(math, q, beta, invSampleFreq, Vec3(gxInDeg, gyInDeg, gzInDeg), Vec3(axVal, ayVal, azVal))
    ensures Quat(q0, q1, q2, q3) == ImuStep(math, q, beta, invSampleFreq, Vec3(gxInDeg, gyInDeg, gzInDeg), Vec3(axVal, ayVal, azVal))
  {
    q0, q1, q2, q3 := q.q0, q.q1, q.q2, q.q3;
    var gx := gxInDeg * DegToRad;
    var gy := gyInDeg * DegToRad;
    var gz := gzInDeg * DegToRad;
    var ax := axVal;
    var ay := ayVal;
    var az := azVal;
    var recipNorm: real;

    var qDot1 := 0.5 * (-q1 * gx - q2 * gy - q3 * gz);
    var qDot2 := 0.5 * (q0 * gx + q2 * gz - q3 * gy);
    var qDot3 := 0.5 * (q0 * gy - q1 * gz + q3 * gx);
    var qDot4 := 0.5 * (q0 * gz + q1 * gy - q2 * gx);
    GyroRateTerms(q0, q1, q2, q3, gxInDeg, gyInDeg, gzInDeg, gx, gy, gz, qDot1, qDot2, qDot3, qDot4);

    if !(ax == 0.0 && ay == 0.0 && az == 0.0) {
      NormSq3Positive(Vec3(ax, ay, az));
      recipNorm := InvSqrt(math, NormSq3(Vec3(ax, ay, az)));
      ax := ax * recipNorm;
      ay := ay * recipNorm;
      az := az * recipNorm;
      NormalizedVecTerms(math, axVal, ayVal, azVal, recipNorm, ax, ay, az);

      var s0 := ImuS0(Quat(q0, q1, q2, q3), Vec3(ax, ay, az));
      var s1 := ImuS1(Quat(q0, q1, q2, q3), Vec3(ax, ay, az));
      var s2 := ImuS2(Quat(q0, q1, q2, q3), Vec3(ax, ay, az));
      var s3 := ImuS3(Quat(q0, q1, q2, q3), Vec3(ax, ay, az));
      ghost var t0, t1, t2, t3 := s0, s1, s2, s3;
      NormSqPositive(Quat(s0, s1, s2, s3));
      recipNorm := InvSqrt(math, NormSq(Quat(s0, s1, s2, s3)));
      s0 := s0 * recipNorm;
      s1 := s1 * recipNorm;
      s2 := s2 * recipNorm;
      s3 := s3 * recipNorm;
      NormalizedQuatTerms(math, t0, t1, t2, t3, recipNorm, s0, s1, s2, s3);

      ghost var d1, d2, d3, d4 := qDot1, qDot2, qDot3, qDot4;
      qDot1 := qDot1 - beta * s0;
      qDot2 := qDot2 - beta * s1;
      qDot3 := qDot3 - beta * s2;
      qDot4 := qDot4 - beta * s3;
      FeedbackTerms(d1, d2, d3, d4, beta, s0, s1, s2, s3, qDot1, qDot2, qDot3, qDot4);
    }

    ghost var p0, p1, p2, p3 := q0, q1, q2, q3;
    q0 := q0 + qDot1 * invSampleFreq;
    q1 := q1 + qDot2 * invSampleFreq;
    q2 := q2 + qDot3 * invSampleFreq;
    q3 := q3 + qDot4 * invSampleFreq;
    IntegrateTerms(p0, p1, p2, p3, qDot1, qDot2, qDot3, qDot4, invSampleFreq, q0, q1, q2, q3);

    ghost var i0, i1, i2, i3 := q0, q1, q2, q3;
    NormSqPositive(Quat(q0, q1, q2, q3));
    recipNorm := InvSqrt(math, NormSq(Quat(q0, q1, q2, q3)));
    q0 := q0 * recipNorm;
    q1 := q1 * recipNorm;
    q2 := q2 * recipNorm;
    q3 := q3 * recipNorm;
    NormalizedQuatTerms(math, i0, i1, i2, i3, recipNorm, q0, q1, q2, q3);
  }

  /** The body of update after its magnetometer test: gyroscope rate,
      accelerometer and magnetometer feedback, integration and normalisation.
      The result is MargStep of the quaternion it starts from. */
  method MargUpdate(math: Math, beta: real, invSampleFreq: real, q: Quat,
                    gxInDeg: real, gyInDeg: real, gzInDeg: real, axVal: real, ayVal: real, azVal: real,
                    mxVal: real, myVal: real, mzVal: real)
      returns (q0: real, q1: real, q2: real, q3: real)
    requires math.Valid()
    requires MargDefined(math, q, beta, invSampleFreq, Vec3(gxInDeg, gyInDeg, gzInDeg), Vec3(axVal, ayVal, azVal),
                         Vec3(mxVal, myVal, mzVal))
    ensures Quat(q0, q1, q2, q3) == MargStep(math, q, beta, invSampleFreq, Vec3(gxInDeg, gyInDeg, gzInDeg),
                                             Vec3(axVal, ayVal, azVal), Vec3(mxVal, myVal, mzVal))
  {
    q0, q1, q2, q3 := q.q0, q.q1, q.q2, q.q3;
    var gx := gxInDeg * DegToRad;
    var gy := gyInDeg * DegToRad;
    var gz := gzInDeg * DegToRad;
    var ax := axVal;
    var ay := ayVal;
    var az := azVal;
    var mx := mxVal;
    var my := myVal;
    var mz := mzVal;

    var qDot1 := 0.5 * (-q1 * gx - q2 * gy - q3 * gz);
    var qDot2 := 0.5 * (q0 * gx + q2 * gz - q3 * gy);
    var qDot3 := 0.5 * (q0 * gy - q1 * gz + q3 * gx);
    var qDot4 := 0.5 * (q0 * gz + q1 * gy - q2 * gx);
    GyroRateTerms(q0, q1, q2, q3, gxInDeg, gyInDeg, gzInDeg, gx, gy, gz, qDot1, qDot2, qDot3, qDot4);

    var recipNorm: real;

    if !(ax == 0.0 && ay == 0.0 && az == 0.0) {
      NormSq3Positive(Vec3(ax, ay, az));
      recipNorm := InvSqrt(math, NormSq3(Vec3(ax, ay, az)));
      ax := ax * recipNorm;
      ay := ay * recipNorm;
      az := az * recipNorm;
      NormalizedVecTerms(math, axVal, ayVal, azVal, recipNorm, ax, ay, az);

      NormSq3Positive(Vec3(mx, my, mz));
      recipNorm := InvSqrt(math, NormSq3(Vec3(mx, my, mz)));
      mx := mx * recipNorm;
      my := my * recipNorm;
      mz := mz * recipNorm;
      NormalizedVecTerms(math, mxVal, myVal, mzVal, recipNorm, mx, my, mz);

      var h := EarthField(Quat(q0, q1, q2, q3), Vec3(mx, my, mz));
      var hx := h.x;
      var hy := h.y;
      var twoBx := math.sqrt(hx * hx + hy * hy);
      var twoBz := h.z;
      ReferenceFieldTerms(math, Quat(q0, q1, q2, q3), Vec3(mx, my, mz), h, hx, hy, twoBx, twoBz);

      var s0 := MargS0(Quat(q0, q1, q2, q3), Vec3(ax, ay, az), Vec3(mx, my, mz), FieldReference(twoBx, twoBz));
      var s1 := MargS1(Quat(q0, q1, q2, q3), Vec3(ax, ay, az), Vec3(mx, my, mz), FieldReference(twoBx, twoBz));
      var s2 := MargS2(Quat(q0, q1, q2, q3), Vec3(ax, ay, az), Vec3(mx, my, mz), FieldReference(twoBx, twoBz));
      var s3 := MargS3(Quat(q0, q1, q2, q3), Vec3(ax, ay, az), Vec3(mx, my, mz), FieldReference(twoBx, twoBz));
      ghost var t0, t1, t2, t3 := s0, s1, s2, s3;
      NormSqPositive(Quat(s0, s1, s2, s3));
      recipNorm := InvSqrt(math, NormSq(Quat(s0, s1, s2, s3)));
      s0 := s0 * recipNorm;
      s1 := s1 * recipNorm;
      s2 := s2 * recipNorm;
      s3 := s3 * recipNorm;
      NormalizedQuatTerms(math, t0, t1, t2, t3, recipNorm, s0, s1, s2, s3);

      ghost var d1, d2, d3, d4 := qDot1, qDot2, qDot3, qDot4;
      qDot1 := qDot1 - beta * s0;
      qDot2 := qDot2 - beta * s1;
      qDot3 := qDot3 - beta * s2;
      qDot4 := qDot4 - beta * s3;
      FeedbackTerms(d1, d2, d3, d4, beta, s0, s1, s2, s3, qDot1, qDot2, qDot3, qDot4);
    }

    ghost var p0, p1, p2, p3 := q0, q1, q2, q3;
    q0 := q0 + qDot1 * invSampleFreq;
    q1 := q1 + qDot2 * invSampleFreq;
    q2 := q2 + qDot3 * invSampleFreq;
    q3 := q3 + qDot4 * invSampleFreq;
    IntegrateTerms(p0, p1, p2, p3, qDot1, qDot2, qDot3, qDot4, invSampleFreq, q0, q1, q2, q3);

    ghost var i0, i1, i2, i3 := q0, q1, q2, q3;
    NormSqPositive(Quat(q0, q1, q2, q3));
    recipNorm := InvSqrt(math, NormSq(Quat(q0, q1, q2, q3)));
    q0 := q0 * recipNorm;
    q1 := q1 * recipNorm;
    q2 := q2 * recipNorm;
    q3 := q3 * recipNorm;
    NormalizedQuatTerms(math, i0, i1, i2, i3, recipNorm, q0, q1, q2, q3);
  }
}
