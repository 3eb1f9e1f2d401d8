# Madgwick orientation filter (imukt), in Dafny

This project models the Madgwick attitude and heading filter of imukt, a Kotlin
port of the Arduino MadgwickAHRS library. It also models the small helpers the
filter's package ships. The filter keeps the sensor's orientation as a
quaternion `q0..q3`. Each call of `updateIMU` (gyroscope and accelerometer) or
`update` (gyroscope, accelerometer and magnetometer) does four things:

- it turns the gyroscope rate into a rate of change of the quaternion;
- it subtracts `beta` times a normalised gradient-descent step, unless the
  accelerometer reads exactly (0, 0, 0);
- it integrates over the sample period `invSampleFreq`;
- it renormalises the quaternion.

The Euler angles are computed lazily: a flag, `anglesComputed`, marks the cache
stale after each update, and the six getters refresh it on demand.

Modules:

- `KotlinMath`: `sqrt`, `atan2` and `asin` as functions the filter is given.
  The square root is constrained to be the non-negative root; the two inverse
  trigonometric functions stay uninterpreted.
- `Functions`: `zeros(x)` and `zeros(row, col)` as methods with loops over
  arrays. `invSqrt` as `1 / sqrt(x)`.
- `Quaternions`: the quaternion and sensor-triple algebra (Hamilton product,
  rotation, squared norms).
- `MadgwickSpec`: the pieces of a step as functions, with their reference
  definitions:
  - the gyroscope rate `½ q ⊗ (0, g)`;
  - the gravity and magnetic-field objectives and their Jacobian-transpose
    gradients;
  - the source's corrective-step terms `s0..s3`;
  - the Earth-frame field reference `_2bx`, `_2bz`.
- `MadgwickGradients`: proofs that the source's `s0..s3` are those gradients.
- `MadgwickStep`: one call of `updateIMU`, of the body of `update`, and of
  `update` as written, as functions of the state and the readings:
  - `ImuStep`, `MargStep` and `UpdateStep`;
  - the predicates `ImuDefined`, `MargDefined` and `UpdateDefined`, which say
    that no `invSqrt` in the step sees zero;
  - their properties, and both findings below.
- `MadgwickAngles`: `computeAngles` and what its angles mean.
- `MadgwickBlocks`: the source's statement blocks, with their auxiliary
  variables, each tied to the function it computes.
- `MadgwickUpdate`: the statements of `updateIMU` and of the body of `update`,
  as methods over the values of the fields.
- `MadgwickAhrs`: the `Madgwick` class. It has the source's fields and methods,
  and `Valid()`: whenever the flag is non-zero, the cached angles are those of
  the current quaternion.

The model follows the code as written, including these points where it
departs from the textbook form of the algorithm:

- **Zero magnetometer.** With a magnetometer reading of (0, 0, 0), `update`
  calls `updateIMU` and then, having no `return`, runs its own body as well.
  It is not a plain hand-over to `updateIMU` (see Findings).
- **Angle formulas.** `computeAngles` passes halved arguments to `atan2`,
  e.g. `q0*q1 + q2*q3` and `0.5 - q1*q1 - q2*q2`.
- **Pitch.** `computeAngles` does not clamp the argument of `asin`.
  `MadgwickAngles.PitchArgumentInRange` shows that no clamp is needed for a
  unit quaternion over the reals.
- **Conversion constants.** The code uses the literals 0.0174533 and 57.29578,
  not π/180 and 180/π.
- **`invSqrt`.** It is `1 / sqrt(x)`, not the bit-level approximation, which is
  commented out.

## Model

| member | source | states |
|---|---|---|
| Functions.InclusiveRangeLength | src/main/kotlin/com/thepyprogrammer/imukt/util/Functions.kt:10 | no contract; the body transcribes the length of the inclusive Kotlin range `0..x`: x + 1 elements, none when x < 0. Zeros and Zeros2D state their sizes with it |
| Functions.Zeros | src/main/kotlin/com/thepyprogrammer/imukt/util/Functions.kt:8-14 | returns a fresh array with one element per member of the inclusive range `0..x` (x + 1 elements, none when x < 0), every element 0.0 |
| Functions.Zeros2D | src/main/kotlin/com/thepyprogrammer/imukt/util/Functions.kt:19-25 | returns a fresh array of `row + 1` rows (none when row < 0); each row is a fresh, distinct array of `col + 1` zeros built by `zeros(col)` |
| Functions.InvSqrt | src/main/kotlin/com/thepyprogrammer/imukt/util/Functions.kt:27-37 | for x > 0, `1 / sqrt(x)` is positive and its square times x is 1; x = 0 is excluded by the precondition, where the source divides by zero |
| Functions.InvSqrtOne | src/main/kotlin/com/thepyprogrammer/imukt/util/Functions.kt:36 | invSqrt(1) = 1, so renormalising a unit quaternion leaves it unchanged |
| Quaternions.NormSq3Positive | src/main/kotlin/com/thepyprogrammer/imukt/Madgwick.kt:154-157 | a sensor triple that fails the all-zero test has a positive squared norm, so the invSqrt after the test sees a positive argument |
| Quaternions.NormSqZeroIff | src/main/kotlin/com/thepyprogrammer/imukt/Madgwick.kt:202 | the squared norm of a quaternion is zero exactly when the quaternion is (0, 0, 0, 0), the one case where the final invSqrt has no value |
| MadgwickSpec.GyroDerivative | src/main/kotlin/com/thepyprogrammer/imukt/Madgwick.kt:148-151 | the four qDot terms are half the Hamilton product q ⊗ (0, g), and this rate is orthogonal to q |
| MadgwickSpec.ToRadians | src/main/kotlin/com/thepyprogrammer/imukt/Madgwick.kt:137-139 | no contract; the body transcribes the conversion of the three gyroscope rates by the literal 0.0174533, as at lines 37-39 of update |
| MadgwickSpec.GravityErrorIsRotatedGravity | src/main/kotlin/com/thepyprogrammer/imukt/Madgwick.kt:103-106 | for a unit q the accelerometer error bracket of s0..s3 is gravity (0, 0, 1) rotated into the sensor frame minus the reading |
| MadgwickSpec.LevelGradientVanishes | src/main/kotlin/com/thepyprogrammer/imukt/Madgwick.kt:178-181 | at the identity, with an accelerometer reading (0, 0, az), the four terms s0..s3 of updateIMU are all zero |
| MadgwickSpec.ImuS0 | src/main/kotlin/com/thepyprogrammer/imukt/Madgwick.kt:178 | no contract; the body transcribes s0 of updateIMU with the auxiliary products inlined. MadgwickGradients.ImuGradientComponent0 states what it is |
| MadgwickSpec.ImuS1 | src/main/kotlin/com/thepyprogrammer/imukt/Madgwick.kt:179 | no contract; the body transcribes s1 of updateIMU. MadgwickGradients.ImuGradientComponent1 states what it is |
| MadgwickSpec.ImuS2 | src/main/kotlin/com/thepyprogrammer/imukt/Madgwick.kt:180 | no contract; the body transcribes s2 of updateIMU. MadgwickGradients.ImuGradientComponent2 states what it is |
| MadgwickSpec.ImuS3 | src/main/kotlin/com/thepyprogrammer/imukt/Madgwick.kt:181 | no contract; the body transcribes s3 of updateIMU. MadgwickGradients.ImuGradientComponent3 states what it is |
| MadgwickSpec.ImuGradient | src/main/kotlin/com/thepyprogrammer/imukt/Madgwick.kt:178-181 | no contract; the body assembles s0..s3 of updateIMU. MadgwickGradients.ImuGradientIsJacobianTranspose states what it is |
| MadgwickSpec.EarthField | src/main/kotlin/com/thepyprogrammer/imukt/Madgwick.kt:95-98 | no contract; the body transcribes hx (line 95), hy (line 96) and `_2bz` (line 98) with the auxiliary variables inlined. EarthFieldIsRotation states what they are |
| MadgwickSpec.EarthFieldIsRotation | src/main/kotlin/com/thepyprogrammer/imukt/Madgwick.kt:95-98 | `hx`, `hy` and `_2bz` are the three components of the magnetometer reading rotated by q (q ⊗ (0, m) ⊗ q*) |
| MadgwickSpec.HorizontalSqNonNeg | src/main/kotlin/com/thepyprogrammer/imukt/Madgwick.kt:97 | the argument `hx * hx + hy * hy` of sqrt is never negative |
| MadgwickSpec.ReferenceField | src/main/kotlin/com/thepyprogrammer/imukt/Madgwick.kt:97-98 | no contract; the body transcribes `_2bx = sqrt(hx * hx + hy * hy)` and `_2bz`. ReferenceFieldIsRotatedReading states what they are |
| MadgwickSpec.ReferenceFieldIsRotatedReading | src/main/kotlin/com/thepyprogrammer/imukt/Madgwick.kt:95-98 | `_2bx` is the non-negative length of the horizontal part of the rotated reading and `_2bz` its vertical part |
| MadgwickSpec.MargS0 | src/main/kotlin/com/thepyprogrammer/imukt/Madgwick.kt:103 | no contract; the body transcribes s0 of update: the source's coefficients times its bracketed error terms. MadgwickGradients.MargGradientComponent0 states what it is |
| MadgwickSpec.MargS1 | src/main/kotlin/com/thepyprogrammer/imukt/Madgwick.kt:104 | no contract; the body transcribes s1 of update. MadgwickGradients.MargGradientComponent1 states what it is |
| MadgwickSpec.MargS2 | src/main/kotlin/com/thepyprogrammer/imukt/Madgwick.kt:105 | no contract; the body transcribes s2 of update. MadgwickGradients.MargGradientComponent2 states what it is |
| MadgwickSpec.MargS3 | src/main/kotlin/com/thepyprogrammer/imukt/Madgwick.kt:106 | no contract; the body transcribes s3 of update. MadgwickGradients.MargGradientComponent3 states what it is |
| MadgwickSpec.MargGradient | src/main/kotlin/com/thepyprogrammer/imukt/Madgwick.kt:103-106 | no contract; the body assembles s0..s3 of update. MadgwickGradients.MargGradientIsJacobianTranspose states what it is |
| MadgwickGradients.ImuGradientExpanded | src/main/kotlin/com/thepyprogrammer/imukt/Madgwick.kt:178-181 | the expanded s0..s3 of updateIMU equal the products of the Jacobian transpose with the three error terms |
| MadgwickGradients.ImuGradientComponent0 | src/main/kotlin/com/thepyprogrammer/imukt/Madgwick.kt:178 | s0 of updateIMU is the first component of Jᵀ f for the gravity error f |
| MadgwickGradients.ImuGradientComponent1 | src/main/kotlin/com/thepyprogrammer/imukt/Madgwick.kt:179 | s1 of updateIMU is the second component of Jᵀ f |
| MadgwickGradients.ImuGradientComponent2 | src/main/kotlin/com/thepyprogrammer/imukt/Madgwick.kt:180 | s2 of updateIMU is the third component of Jᵀ f |
| MadgwickGradients.ImuGradientComponent3 | src/main/kotlin/com/thepyprogrammer/imukt/Madgwick.kt:181 | s3 of updateIMU is the fourth component of Jᵀ f |
| MadgwickGradients.ImuGradientIsJacobianTranspose | src/main/kotlin/com/thepyprogrammer/imukt/Madgwick.kt:177-181 | the corrective step of updateIMU is the gradient Jᵀ f of the gravity objective ½ abs(f)² |
| MadgwickGradients.MargGradientComponent0 | src/main/kotlin/com/thepyprogrammer/imukt/Madgwick.kt:103 | s0 of update is the first component of the gravity gradient plus the field gradient |
| MadgwickGradients.MargGradientComponent1 | src/main/kotlin/com/thepyprogrammer/imukt/Madgwick.kt:104 | s1 of update is the second component of that sum |
| MadgwickGradients.MargGradientComponent2 | src/main/kotlin/com/thepyprogrammer/imukt/Madgwick.kt:105 | s2 of update is the third component of that sum |
| MadgwickGradients.MargGradientComponent3 | src/main/kotlin/com/thepyprogrammer/imukt/Madgwick.kt:106 | s3 of update is the fourth component of that sum |
| MadgwickGradients.MargGradientIsJacobianTranspose | src/main/kotlin/com/thepyprogrammer/imukt/Madgwick.kt:102-106 | the corrective step of update is the sum of Jᵀ f for the gravity objective and for the magnetic-field objective |
| MadgwickStep.NormalizeVec | src/main/kotlin/com/thepyprogrammer/imukt/Madgwick.kt:61-70 | normalising a non-zero sensor triple gives a unit vector that is a positive multiple of the reading |
| MadgwickStep.Normalize | src/main/kotlin/com/thepyprogrammer/imukt/Madgwick.kt:127-131 | normalising a non-zero quaternion gives a unit quaternion that is a positive multiple of it |
| MadgwickStep.NormalizeUnit | src/main/kotlin/com/thepyprogrammer/imukt/Madgwick.kt:202-206 | renormalising a unit quaternion leaves it unchanged |
| MadgwickStep.Feedback | src/main/kotlin/com/thepyprogrammer/imukt/Madgwick.kt:189-192 | no contract; the body transcribes the four `qDot -= beta * s` statements, as at lines 114-117 of update. FeedbackMovesByBeta states their effect |
| MadgwickStep.Integrate | src/main/kotlin/com/thepyprogrammer/imukt/Madgwick.kt:196-199 | no contract; the body transcribes the four `q += qDot * invSampleFreq` statements, as at lines 121-124 of update. GyroIntegrationKeepsNonZero states their effect on abs(q) |
| MadgwickStep.FeedbackMovesByBeta | src/main/kotlin/com/thepyprogrammer/imukt/Madgwick.kt:189-192 | subtracting beta times a unit step moves the rate of change by exactly beta |
| MadgwickStep.GyroIntegrationKeepsNonZero | src/main/kotlin/com/thepyprogrammer/imukt/Madgwick.kt:196-199 | integrating the gyroscope rate never shrinks abs(q), so the final invSqrt of a pure gyroscope step sees a positive argument |
| MadgwickStep.GyroStep | src/main/kotlin/com/thepyprogrammer/imukt/Madgwick.kt:196-206 | a pure gyroscope step (integrate, then renormalise) ends at a unit quaternion |
| MadgwickStep.ZeroMotionOnlyRescales | src/main/kotlin/com/thepyprogrammer/imukt/Madgwick.kt:196-206 | with the gyroscope reading (0, 0, 0) the step only rescales q to q / abs(q), and leaves a unit q unchanged |
| MadgwickStep.ImuFeedbackDefined | src/main/kotlin/com/thepyprogrammer/imukt/Madgwick.kt:154-182 | no contract; the feedback of updateIMU has no invSqrt(0): either the accelerometer reads (0, 0, 0) and the feedback is skipped, or the corrective step normalised at line 182 is non-zero (the invSqrt at line 157 is always positive after the test at line 154) |
| MadgwickStep.ImuDerivative | src/main/kotlin/com/thepyprogrammer/imukt/Madgwick.kt:148-193 | no contract; the body transcribes the rate updateIMU integrates: the gyroscope rate, minus beta times the normalised corrective step unless the accelerometer reads (0, 0, 0). ImuZeroAccelerationIsGyroStep and ImuFeedbackMovesByBeta state its two cases |
| MadgwickStep.ImuDefined | src/main/kotlin/com/thepyprogrammer/imukt/Madgwick.kt:202 | no contract; ImuFeedbackDefined holds and the integrated quaternion is non-zero, so the invSqrt at line 202 also sees a positive argument |
| MadgwickStep.ImuStep | src/main/kotlin/com/thepyprogrammer/imukt/Madgwick.kt:135-207 | the quaternion after updateIMU has unit length |
| MadgwickStep.ImuZeroAccelerationIsGyroStep | src/main/kotlin/com/thepyprogrammer/imukt/Madgwick.kt:154 | with the accelerometer reading (0, 0, 0) updateIMU is defined for every non-zero q and is the pure gyroscope step; beta is not used |
| MadgwickStep.ImuFeedbackMovesByBeta | src/main/kotlin/com/thepyprogrammer/imukt/Madgwick.kt:182-192 | with a non-zero accelerometer reading the feedback of updateIMU moves the gyroscope rate by exactly beta |
| MadgwickStep.MargFeedbackDefined | src/main/kotlin/com/thepyprogrammer/imukt/Madgwick.kt:58-107 | no contract; the feedback of update has no invSqrt(0): either the accelerometer reads (0, 0, 0), or the magnetometer normalised at line 67 and the corrective step normalised at line 107 are both non-zero |
| MadgwickStep.MargDerivative | src/main/kotlin/com/thepyprogrammer/imukt/Madgwick.kt:50-118 | no contract; the body transcribes the rate the body of update integrates: the gyroscope rate, minus beta times the normalised corrective step unless the accelerometer reads (0, 0, 0). MargZeroAccelerationIsGyroStep and MargFeedbackMovesByBeta state its two cases |
| MadgwickStep.MargDefined | src/main/kotlin/com/thepyprogrammer/imukt/Madgwick.kt:127 | no contract; MargFeedbackDefined holds and the integrated quaternion is non-zero, so the invSqrt at line 127 also sees a positive argument |
| MadgwickStep.MargStep | src/main/kotlin/com/thepyprogrammer/imukt/Madgwick.kt:37-132 | the quaternion after the body of update has unit length |
| MadgwickStep.MargZeroAccelerationIsGyroStep | src/main/kotlin/com/thepyprogrammer/imukt/Madgwick.kt:58 | with the accelerometer reading (0, 0, 0) the body of update is the pure gyroscope step, whatever the magnetometer reads |
| MadgwickStep.MargFeedbackMovesByBeta | src/main/kotlin/com/thepyprogrammer/imukt/Madgwick.kt:107-117 | with a non-zero accelerometer reading the feedback of update moves the gyroscope rate by exactly beta |
| MadgwickStep.UpdateDefined | src/main/kotlin/com/thepyprogrammer/imukt/Madgwick.kt:31-133 | no contract; update as written has no invSqrt(0): with a zero magnetometer, updateIMU and then the body of update on its result; otherwise the body alone. UpdateWithFieldIsMargStep and ZeroFieldUpdateNeedsZeroAcceleration state its cases |
| MadgwickStep.UpdateStep | src/main/kotlin/com/thepyprogrammer/imukt/Madgwick.kt:31-133 | the quaternion after update, as written, has unit length |
| MadgwickStep.UpdateWithFieldIsMargStep | src/main/kotlin/com/thepyprogrammer/imukt/Madgwick.kt:32-34 | with a non-zero magnetometer reading update is defined exactly when its body is, and is its body alone |
| MadgwickStep.ZeroFieldUpdateNeedsZeroAcceleration | src/main/kotlin/com/thepyprogrammer/imukt/Madgwick.kt:32-34 | with the magnetometer reading (0, 0, 0) update is defined only if the accelerometer also reads (0, 0, 0), because the fall-through normalises the zero magnetometer reading |
| MadgwickStep.ZeroReadingsUpdateIntegratesTwice | src/main/kotlin/com/thepyprogrammer/imukt/Madgwick.kt:32-34 | with both accelerometer and magnetometer reading (0, 0, 0), update performs two pure gyroscope steps |
| MadgwickStep.GyroStepFromIdentity | src/main/kotlin/com/thepyprogrammer/imukt/Madgwick.kt:148-151 | from the identity, a gyroscope step about the x axis gives a positive multiple of (1, v, 0, 0), with v = dt · ½ · gx in radians |
| MadgwickStep.IntegrateAboutX | src/main/kotlin/com/thepyprogrammer/imukt/Madgwick.kt:196-199 | integrating a rotation about x from (k, k·v, 0, 0) gives (k(1 − v²), 2kv, 0, 0) |
| MadgwickStep.SecondGyroStepMoves | src/main/kotlin/com/thepyprogrammer/imukt/Madgwick.kt:196-206 | a second gyroscope step about x with non-zero v moves the quaternion |
| MadgwickStep.ZeroFieldUpdateDiffersFromUpdateImu | src/main/kotlin/com/thepyprogrammer/imukt/Madgwick.kt:32-34 | from the identity, with a non-zero x rate, non-zero dt and all other readings zero, update and updateIMU are both defined and give different quaternions |
| MadgwickStep.IntendedUpdateStep | src/main/kotlin/com/thepyprogrammer/imukt/Madgwick.kt:32-34 | update with a return after updateIMU ends at a unit quaternion |
| MadgwickStep.IntendedUpdateIntegratesOnce | src/main/kotlin/com/thepyprogrammer/imukt/Madgwick.kt:32-34 | update with a return after updateIMU, with zero accelerometer and magnetometer readings, is a single gyroscope step, whatever the magnetometer reads |
| MadgwickStep.IntendedAgreesWithField | src/main/kotlin/com/thepyprogrammer/imukt/Madgwick.kt:32-34 | with a non-zero magnetometer reading the corrected update is defined exactly when update is, and agrees with it |
| MadgwickStep.LevelSensorAtIdentityUndefined | src/main/kotlin/com/thepyprogrammer/imukt/Madgwick.kt:178-182 | at the identity with a level accelerometer reading (0, 0, az), az ≠ 0, updateIMU reaches invSqrt(0) whatever the gyroscope reads |
| MadgwickStep.GuardedImuStep | src/main/kotlin/com/thepyprogrammer/imukt/Madgwick.kt:182-186 | updateIMU that skips the feedback when s0..s3 are all zero ends at a unit quaternion |
| MadgwickStep.GuardedAgreesWhereDefined | src/main/kotlin/com/thepyprogrammer/imukt/Madgwick.kt:182-186 | wherever updateIMU is defined as written, the guarded step is defined and gives the same quaternion |
| MadgwickStep.GuardedZeroStepIsGyroRate | src/main/kotlin/com/thepyprogrammer/imukt/Madgwick.kt:182-192 | where the corrective step is zero, the guarded rate of change is the gyroscope rate alone |
| MadgwickStep.GuardedStillStays | src/main/kotlin/com/thepyprogrammer/imukt/Madgwick.kt:196-206 | a unit quaternion whose guarded rate of change is zero does not move |
| MadgwickStep.GuardedLevelAtRestIsStill | src/main/kotlin/com/thepyprogrammer/imukt/Madgwick.kt:178-192 | at the identity with zero rotation and a level accelerometer reading, the guarded rate of change is zero |
| MadgwickStep.GuardedLevelAtRestStaysIdentity | src/main/kotlin/com/thepyprogrammer/imukt/Madgwick.kt:178-206 | at the identity with zero rotation and a level accelerometer reading, the guarded step stays at the identity |
| MadgwickAngles.RotatedXAxis | src/main/kotlin/com/thepyprogrammer/imukt/Madgwick.kt:213-214 | for a unit q, the pitch argument is minus the vertical part of the rotated x axis, and the yaw arguments are half its horizontal parts |
| MadgwickAngles.RotatedYAxis | src/main/kotlin/com/thepyprogrammer/imukt/Madgwick.kt:212 | the first roll argument is half the vertical part of the rotated y axis |
| MadgwickAngles.RotatedZAxis | src/main/kotlin/com/thepyprogrammer/imukt/Madgwick.kt:212 | for a unit q, the second roll argument is half the vertical part of the rotated z axis |
| MadgwickAngles.EulerOf | src/main/kotlin/com/thepyprogrammer/imukt/Madgwick.kt:211-214 | no contract; the body transcribes the atan2, asin and atan2 calls of computeAngles. EulerOfReadsRotation states what the angles are |
| MadgwickAngles.EulerOfReadsRotation | src/main/kotlin/com/thepyprogrammer/imukt/Madgwick.kt:211-216 | for a unit q, computeAngles returns the Z-Y-X angles of the frame that q rotates the three axes to |
| MadgwickAngles.PitchArgumentInRange | src/main/kotlin/com/thepyprogrammer/imukt/Madgwick.kt:213 | for a unit q the argument of asin lies in [-1, 1] |
| MadgwickBlocks.GyroRateTerms | src/main/kotlin/com/thepyprogrammer/imukt/Madgwick.kt:137-151 | the degree conversion and the four qDot assignments compute the gyroscope rate of change of q |
| MadgwickBlocks.NormalizedVecTerms | src/main/kotlin/com/thepyprogrammer/imukt/Madgwick.kt:157-160 | the invSqrt of the squared norm followed by the three `*= recipNorm` statements normalises a non-zero sensor triple |
| MadgwickBlocks.NormalizedQuatTerms | src/main/kotlin/com/thepyprogrammer/imukt/Madgwick.kt:202-206 | the invSqrt of the squared norm followed by the four `*= recipNorm` statements normalises a non-zero quaternion |
| MadgwickBlocks.ReferenceFieldTerms | src/main/kotlin/com/thepyprogrammer/imukt/Madgwick.kt:95-98 | `_2bx = sqrt(hx * hx + hy * hy)` and `_2bz` give the reference field of the reading |
| MadgwickBlocks.FeedbackTerms | src/main/kotlin/com/thepyprogrammer/imukt/Madgwick.kt:189-192 | the four `qDot -= beta * s` statements apply the feedback step |
| MadgwickBlocks.IntegrateTerms | src/main/kotlin/com/thepyprogrammer/imukt/Madgwick.kt:196-199 | the four `q += qDot * invSampleFreq` statements integrate the rate of change |
| MadgwickUpdate.ImuUpdate | src/main/kotlin/com/thepyprogrammer/imukt/Madgwick.kt:135-206 | the statements of updateIMU compute ImuStep of the quaternion they start from |
| MadgwickUpdate.MargUpdate | src/main/kotlin/com/thepyprogrammer/imukt/Madgwick.kt:37-131 | the statements of the body of update compute MargStep of the quaternion they start from |
| MadgwickAhrs.Madgwick.constructor | src/main/kotlin/com/thepyprogrammer/imukt/Madgwick.kt:9-25 | a new filter is at the identity with beta 0.1 and sample period 1/512, and its angle cache holds the angles of the identity with the flag set to 1 |
| MadgwickAhrs.Madgwick.Begin | src/main/kotlin/com/thepyprogrammer/imukt/Madgwick.kt:27-29 | the sample period becomes the reciprocal of the sample frequency; no other field changes |
| MadgwickAhrs.Madgwick.Update | src/main/kotlin/com/thepyprogrammer/imukt/Madgwick.kt:31-133 | the new quaternion is UpdateStep of the old one (a unit quaternion); beta, the sample period and the cached angles are unchanged; the cache is marked stale |
| MadgwickAhrs.Madgwick.UpdateIMU | src/main/kotlin/com/thepyprogrammer/imukt/Madgwick.kt:135-208 | the new quaternion is ImuStep of the old one (a unit quaternion); beta, the sample period and the cached angles are unchanged; the cache is marked stale |
| MadgwickAhrs.Madgwick.ComputeAngles | src/main/kotlin/com/thepyprogrammer/imukt/Madgwick.kt:211-216 | the cached angles become the roll, pitch and yaw of the current quaternion and the flag becomes 1; the quaternion, beta and the sample period are unchanged |
| MadgwickAhrs.Madgwick.GetRoll | src/main/kotlin/com/thepyprogrammer/imukt/Madgwick.kt:218-221 | returns the roll of the current quaternion times 57.29578, with no offset; recomputes only when the flag is 0; the quaternion is unchanged |
| MadgwickAhrs.Madgwick.GetPitch | src/main/kotlin/com/thepyprogrammer/imukt/Madgwick.kt:223-226 | returns the pitch of the current quaternion times 57.29578, with no offset; recomputes only when the flag is 0 |
| MadgwickAhrs.Madgwick.GetYaw | src/main/kotlin/com/thepyprogrammer/imukt/Madgwick.kt:228-231 | returns the yaw of the current quaternion times 57.29578 plus 180; recomputes only when the flag is 0 |
| MadgwickAhrs.Madgwick.GetRollRadians | src/main/kotlin/com/thepyprogrammer/imukt/Madgwick.kt:233-236 | returns the roll of the current quaternion in radians; recomputes only when the flag is 0 |
| MadgwickAhrs.Madgwick.GetPitchRadians | src/main/kotlin/com/thepyprogrammer/imukt/Madgwick.kt:238-241 | returns the pitch of the current quaternion in radians; recomputes only when the flag is 0 |
| MadgwickAhrs.Madgwick.GetYawRadians | src/main/kotlin/com/thepyprogrammer/imukt/Madgwick.kt:243-246 | returns the yaw of the current quaternion in radians, with no offset; recomputes only when the flag is 0 |

## Left out

- Floating point: the model works over `real`. Rounding, drift over many
  cycles, and NaN or infinity propagation are not modelled. Each `invSqrt(0)`
  that would produce them becomes a precondition.
- `sqrt`, `atan2` and `asin` are the fields of a `KotlinMath.Math` value the
  filter is built with. Only `sqrt`'s defining property is assumed. No
  trigonometric fact is used or proved; the angle lemmas are about the
  arguments the source passes to these functions.
- The bit-level fast inverse square root in `Functions.kt` is commented-out
  code and is not modelled.
- Thread safety of the shared filter object is not modelled.
- The auxiliary variables of `update` and `updateIMU` (`_2q0`, `q0q0`, `_4bx`,
  ...) are inlined, parenthesised as the source groups them, in
  `MadgwickSpec.ImuS0`..`ImuS3`, `MargS0`..`MargS3` and `EarthField`.
- MadgwickAhrs.Madgwick.Update: requires `UpdateDefined`, i.e. that every
  `invSqrt` it reaches sees a positive argument. Where the source divides by
  zero and continues with NaN, the model has no behaviour.
- MadgwickAhrs.Madgwick.UpdateIMU: requires `ImuDefined`, for the same reason.
- MadgwickAhrs.Madgwick.Update and MadgwickAhrs.Madgwick.UpdateIMU: the
  arithmetic runs on local copies of `q0..q3` in `MadgwickUpdate`, and the four
  fields are written once at the end. The source writes each field twice: after
  integration and after normalisation. No other code runs between those
  writes, so the final state is the same.
- MadgwickAhrs.Madgwick.Begin: requires a non-zero frequency. Kotlin would
  store an infinite sample period instead.
- MadgwickAhrs.Madgwick.GetRoll and the other five getters require `Valid()`.
  The fields are public in Kotlin, so a caller could write `q0..q3` without
  clearing `anglesComputed`. The getters would then return stale angles; the
  model does not cover that case.
- Functions.Zeros and Functions.Zeros2D: the elements are `real` 0.0 rather
  than boxed `Double`.

## Findings

| source | as written | input that shows it | evidently intended | confidence | as-written member | corrected member |
|---|---|---|---|---|---|---|
| src/main/kotlin/com/thepyprogrammer/imukt/Madgwick.kt:32-34 | With the magnetometer reading (0, 0, 0), `update` calls `updateIMU` and then, with no `return`, runs its own body on the result: it integrates twice and normalises the zero magnetometer reading whenever the accelerometer is non-zero | q the identity, gyroscope (gx, 0, 0) with gx ≠ 0, a non-zero sample period, accelerometer and magnetometer (0, 0, 0): `update` and `updateIMU` give different quaternions | return right after `updateIMU`, as the Arduino MadgwickAHRS library does | not executed | MadgwickStep.ZeroFieldUpdateDiffersFromUpdateImu | MadgwickStep.IntendedUpdateIntegratesOnce |
| src/main/kotlin/com/thepyprogrammer/imukt/Madgwick.kt:178-186 | `updateIMU` normalises the corrective step with `invSqrt` even when s0..s3 are all zero. With `invSqrt(x) = 1 / sqrt(x)` (Functions.kt:36), that is a division by zero, and `0 * Infinity` is NaN | q the identity (the state after construction) and a level sensor at rest, accelerometer (0, 0, az) with az ≠ 0, any gyroscope reading | skip the feedback when the step is zero. A finite invSqrt(0), which the bit-level inverse square root of the Arduino library gives, makes the normalised step zero and has that effect; the level sensor at rest then stays at the identity | not executed | MadgwickStep.LevelSensorAtIdentityUndefined | MadgwickStep.GuardedLevelAtRestStaysIdentity |
