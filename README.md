# Rotation maths of "Rediscovering Quaternions"

This project models the closed-form rotation maths behind the blog post's p5.js sketches and
its offline Python scan, and proves properties of it in Dafny.

- **Quaternion algebra** (`utils.js`): the Hamilton product and rotation of a vector by the
  double-cross-product formula.
- **Converters** (`utils.js`): Z-Y-X Euler angles to and from a quaternion, and axis-angle to
  and from a quaternion. The second direction has a near-identity guard and folds the angle
  into [0, pi].
- **Slerp** (`utils.js`): the shorter-arc sign fix, and the normalised lerp used above a dot
  product of 0.9995.
- **Pseudo-random generators**: the two of `utils.js` and the repeating one of the
  `all_rp2_representations` sketch.
- **Disk-to-hemisphere patch**: shared by the `all_rp2_representations` and `disk_to_sphere`
  sketches. It covers `spherePoint`, the angle grid of `drawSphere` and the `min(t, PI)` clamp
  of `draw2DSpace`.
- **Phases of `draw`** (`disk_to_sphere`): where each copy of the disk sits and how it is drawn.
- **Tetrahedral projection** (`random_4_Euler_angles`): `TETRA_AXES` and
  `quaternionToTetrahedralAngles`.
- **The Python scan** (`explore_singularities/singulartities.py`): `vector_to_quaternion`,
  `quaternion_to_euler` and the grid filter loop of `main`.

All numbers are `real`. The functions sin, cos, asin, acos, atan2, sqrt and the constant pi
are the fields of a value `tr: RealMath.Trig` that every operation takes.
`RealMath.Lawful(tr)` collects the facts the proofs use:
- sin² + cos² = 1;
- sin is positive on (0, pi);
- sqrt is the non-negative root;
- acos maps [-1, 1] into [0, pi], is strictly decreasing there, and inverts cos on [0, pi];
- asin maps [-1, 1] into [-pi/2, pi/2];
- sin vanishes only at the multiples k pi, and cos only at the odd multiples (k + 1/2) pi;
- 3.14 < pi < 3.15, and the values sin 0 = 0, cos 0 = 1, cos pi = -1, acos 1 = 0
  and acos 0 = pi/2.

Where JavaScript would divide by zero and produce NaN, the model returns `None` instead.
This covers the generators, the lerp branch of slerp and the standard branch of slerp. For the
inputs the sketches use, none of them reaches that case: the proofs show each is defined.

The pure parts are functions and lemmas. The loop of the Python `main` is imperative:
- `Singularities.Scan`, `ScanPlane` and `ScanRow` are the outer, middle and inner `for` loops;
- `Singularities.Probe` is the body of the inner loop.

Each method is proved against a specification function (`Hits`, `LinesUpTo`, `CellsUpTo`,
`Kept`). Lemmas then state what the accumulated list holds.

Modules:
- `RealMath`: `Trig`, `Lawful`, Min/Max.
- `Optional`: `Option`.
- `Geometry`: `Vec3`, `Quat`, dot, cross, norms.
- `QuatAlgebra`.
- `Converters`.
- `Normalization`.
- `Interpolation`.
- `Generators`.
- `SpherePatch`.
- `DiskToSphere`.
- `Tetrahedral`.
- `Singularities`.

To verify, run this from the project directory:

    dafny verify --resource-limit 2000000 --verification-time-limit 0 --warn-contradictory-assumptions *.dfy

Plain `dafny verify *.dfy` also goes through. Each proof obligation stays well under the
resource limit.

## Model

| member | source | states |
|---|---|---|
| QuatAlgebra.MultiplyIdentity | utils.js:412-419 | (1,0,0,0) is a left and a right identity of multiplyQuaternions |
| QuatAlgebra.NormMultiplicative | utils.js:412-419 | the squared norm of a product is the product of the squared norms, so unit times unit is unit |
| QuatAlgebra.MultiplyAssociative | utils.js:412-419 | the Hamilton product is associative |
| QuatAlgebra.ConjugateOfProduct | utils.js:412-419 | the conjugate of a b is conj(b) conj(a) |
| QuatAlgebra.RotateByIdentity | utils.js:397-409 | rotateVectorByQuaternion with the identity returns v unchanged |
| QuatAlgebra.RotateIsSandwich | utils.js:397-409 | for a unit q the double-cross-product formula equals the sandwich q (0, v) conj(q) |
| QuatAlgebra.RotatePreservesLength | utils.js:397-409 | rotation by a unit quaternion keeps the squared length of v |
| QuatAlgebra.RotateCompose | utils.js:397-419 | rotating by q1 then by q2 is rotating by multiplyQuaternions(q2, q1), for unit q1 and q2 |
| Converters.EulerZeroIsIdentity | utils.js:1-15 | eulerToQuaternion(0, 0, 0) is the identity |
| Converters.EulerToQuaternionIsUnit | utils.js:1-15 | every Euler triple gives a unit quaternion |
| Converters.ClampUnit | utils.js:24-26 | the clamped t2 lies in [-1, 1]; it is t2 inside that range, 1 above it and -1 below it |
| Converters.PitchInRange | utils.js:17-34 | asin only receives a clamped argument, so the pitch of quaternionToEuler lies in [-pi/2, pi/2] |
| Converters.AxisAngleZeroIsIdentity | utils.js:105-113 | axisAngleToQuaternion(axis, 0) is the identity for every axis |
| Converters.AxisAngleToQuaternionIsUnit | utils.js:105-113 | a unit axis gives a unit quaternion for every angle |
| Converters.AxisAngleNearIdentity | utils.js:116-118 | when abs(w) > 0.9999 the result is axis (1, 0, 0) with angle 0 |
| Converters.SmallSUnreachable | utils.js:116-125 | past the guard, s = sqrt(1 - w²) > 0.0001, so the early return with the raw vector part never happens |
| Converters.AxisAngleMainBranch | utils.js:120-136 | past the guard the result is the fold of (vector part / s, 2 acos w) |
| Converters.FoldInRange | utils.js:129-134 | the fold maps an angle of [0, 2 pi] into [0, pi] and keeps the axis length |
| Converters.AcosAboveHalfPi | utils.js:120-129 | 2 acos(w) > pi holds exactly when w < 0 |
| Converters.AxisAngleFolded | utils.js:115-136 | past the guard the angle lies in [0, pi], and the axis is negated and the angle becomes 2 pi - angle exactly when w < 0 |
| Converters.AxisAngleAxisIsUnit | utils.js:115-136 | for a unit quaternion the returned axis is a unit vector, in both branches of the guard |
| Converters.ShrinkIsUnit | utils.js:127 | dividing a vector by a positive root of its squared length gives a unit vector |
| Converters.AxisAngleRoundTrip | utils.js:105-136 | axis-angle to quaternion and back gives the same rotation folded into [0, pi], for a unit axis and an angle the guard does not collapse |
| Normalization.NormalizeDefined | utils.js:148-149 | dividing by the magnitude is defined exactly when the squared magnitude is positive |
| Normalization.NormalizeIsUnit | utils.js:148-149 | a defined normalisation is a unit quaternion |
| Normalization.NormalizeUnit | utils.js:61-67 | a unit quaternion normalises to itself |
| Interpolation.ShorterArc | utils.js:38-49 | after the sign fix the working dot product is non-negative and is the dot product of q1 with the working q2 |
| Interpolation.ShorterArcFlips | utils.js:41-49 | q2 and the dot product are negated exactly when the original dot product is negative; otherwise both are kept |
| Interpolation.StandardBranchDefined | utils.js:70-84 | in the standard branch sin(theta_0) > 0, so slerp never divides by zero there |
| Interpolation.LerpBranchIsUnit | utils.js:51-68 | for unit q1, q2 and 0 <= t <= 1 the lerp branch is always defined and returns a unit quaternion |
| Interpolation.LerpNonzero | utils.js:55-61 | the lerp of two unit quaternions with a positive dot product has a positive squared magnitude, so mag is never 0 |
| Interpolation.SlerpSelf | utils.js:36-85 | slerp(q, q, t) = q for a unit q, for every t |
| Interpolation.SlerpStart | utils.js:36-85 | slerp(q1, q2, 0) = q1 for a unit q1, in both branches |
| Interpolation.SlerpEnd | utils.js:36-85 | slerp(q1, q2, 1) is the working q2, q2 or -q2, for a unit q2, in both branches |
| Generators.Normalised | utils.js:140-162 | a generator's result is defined exactly when the raw magnitude is positive, and it is then a unit quaternion |
| Generators.PseudoRandomQuaternionIsUnit | utils.js:140-150 | for every t the raw magnitude of pseudoRandomQuaternion is positive, so the result is always defined and is a unit quaternion |
| Generators.PseudoRandom2DQuaternionIsUnit | utils.js:152-162 | for every t the raw magnitude of pseudoRandom2DQuaternion is positive, so the result is always defined, is a unit quaternion and has x = 0 |
| Generators.PseudoRepeatingRandomQuaternionIsUnit | all_rp2_representations/sketch.js:255-265 | for every t the raw magnitude of pseudoRepeatingRandomQuaternion is positive, so the result is always defined, is a unit quaternion and has x = 0 |
| Generators.OneApart | utils.js:143-144 | cos a and sin(a + 1) are never both zero, so y = cos(0.2 t + 1) and z = sin(0.2 t + 2) never vanish together |
| Generators.TripledMinusOne | all_rp2_representations/sketch.js:259-260 | cos a and sin(3 a - 1) are never both zero, so y = cos(t + 1) and z = sin(3 t + 2) never vanish together |
| Generators.SomeSquarePositive | utils.js:146 | a raw quaternion with y or z nonzero has a positive squared magnitude |
| SpherePatch.P5MapEnds | all_rp2_representations/sketch.js:175-180 | map takes the ends of the first range to the ends of the second |
| SpherePatch.SpherePointPlanar | all_rp2_representations/sketch.js:202-207 | x and y of spherePoint depend on theta and phi only, never on t or dir |
| SpherePatch.SpherePointFlat | disk_to_sphere/sketch.js:163-168 | spherePoint has z = 0 when t = 0 or dir = 0 |
| SpherePatch.SpherePointHalfTurn | all_rp2_representations/sketch.js:205 | at t = pi the lift z is -dir r cos(theta) |
| SpherePatch.SpherePointOnSphere | all_rp2_representations/sketch.js:202-207 | at t = pi with dir = 1 or -1 the point lies on the sphere of radius 50 |
| SpherePatch.ClampToPi | disk_to_sphere/sketch.js:126-130 | min(t, PI) is at most pi, is t when t <= pi and pi otherwise |
| SpherePatch.PatchClosedAfterPi | all_rp2_representations/sketch.js:165-169 | for t >= pi the drawn patch is the t = pi patch, on the sphere |
| SpherePatch.GridStep | disk_to_sphere/sketch.js:134-142 | consecutive grid angles map(i, 0, n, 0, span) increase and stay within [0, span] |
| SpherePatch.DrawSphereAngles | all_rp2_representations/sketch.js:173-181 | 0 <= theta1 < theta2 <= pi/2 and 0 <= phi1 < phi2 <= 2 pi for every quad of drawSphere |
| DiskToSphere.PhaseMirrored | disk_to_sphere/sketch.js:51-95 | one copy at x = 0 before t = 1, two copies placed symmetrically about x = 0 until t = 100, none afterwards |
| DiskToSphere.MergeOffsets | disk_to_sphere/sketch.js:87-91 | the offsets of the last phase are map(t, 12, 15, -3, 0) = t - 15 and map(t, 12, 15, 3, 0) = 15 - t |
| DiskToSphere.PhaseSettled | disk_to_sphere/sketch.js:85-95 | from t = 15 on both hemispheres sit at x = 0 |
| DiskToSphere.PhaseCopies | disk_to_sphere/sketch.js:51-95 | every copy turns by an angle in [0, pi] and has dir 0, 1 or -1; dir is 0 exactly when draw2DSpace gets no t |
| DiskToSphere.FlatCopies | disk_to_sphere/sketch.js:52-71 | the copies drawn with draw2DSpace(0) are flat, z = 0 |
| Tetrahedral.NormalizeVecLength | random_4_Euler_angles/sketch.js:35 | a nonzero vector normalises to a unit vector; the zero vector is left as it is |
| Tetrahedral.TetraAxesAreUnit | random_4_Euler_angles/sketch.js:2-7 | each TETRA_AXES entry is a unit vector |
| Tetrahedral.TetraAxesScaled | random_4_Euler_angles/sketch.js:2-7 | each TETRA_AXES entry is its corner of the cube scaled by 1 / sqrt 3 |
| Tetrahedral.TetraAxesSumToZero | random_4_Euler_angles/sketch.js:2-7 | the four axes sum to the zero vector |
| Tetrahedral.TetraAnglesSumToZero | random_4_Euler_angles/sketch.js:33-43 | alpha + beta + gamma + delta = 0 for every quaternion |
| Tetrahedral.TurnAngleRange | random_4_Euler_angles/sketch.js:34 | angle = 2 acos(w) lies in [0, 2 pi] for w in [-1, 1] |
| Tetrahedral.TetraAnglesBounded | random_4_Euler_angles/sketch.js:34-42 | each of the four outputs has absolute value at most angle |
| Tetrahedral.CauchySchwarz | random_4_Euler_angles/sketch.js:38-41 | (a . b)² <= abs(a)² abs(b)², behind the bound on each projection |
| Tetrahedral.TetraIdentity | random_4_Euler_angles/sketch.js:34-42 | w = 1 gives all four angles 0 |
| Tetrahedral.TetraScaleInvariant | random_4_Euler_angles/sketch.js:35 | scaling (x, y, z) by a positive factor leaves the four angles unchanged |
| Tetrahedral.NormalizeVecScale | random_4_Euler_angles/sketch.js:35 | normalize(c v) = normalize(v) for c > 0 |
| Singularities.VectorZeroIsIdentity | explore_singularities/singulartities.py:11-13 | the zero vector gives (1, 0, 0, 0) |
| Singularities.VectorIsAxisAngle | explore_singularities/singulartities.py:11-23 | a nonzero vector v gives axisAngleToQuaternion(v / abs(v), abs(v)), and v / abs(v) is a unit axis |
| Singularities.VectorToQuaternionIsUnit | explore_singularities/singulartities.py:5-23 | every vector gives a unit quaternion |
| Singularities.PyClampIsClampUnit | explore_singularities/singulartities.py:40 | max(min(t2, 1), -1) agrees with the clamp of quaternionToEuler on every input |
| Singularities.PyQuaternionToEulerAgrees | explore_singularities/singulartities.py:26-47 | quaternion_to_euler computes what quaternionToEuler of utils.js computes, so its pitch lies in [-pi/2, pi/2] |
| Singularities.GridCoordinateBounds | explore_singularities/singulartities.py:56-65 | (i - half_grid) / half_grid lies in [-1, 1] for 0 <= i < n, and is -1 at i = 0 and 1 at i = n - 1 |
| Singularities.Probe | explore_singularities/singulartities.py:67-75 | the loop body keeps (x, y, z) exactly when it lies in the unit ball and its pitch is within tol of +-pi/2 |
| Singularities.ScanRow | explore_singularities/singulartities.py:64-75 | the innermost loop appends exactly the kept points of its grid line, in order of k |
| Singularities.ScanPlane | explore_singularities/singulartities.py:62-75 | the middle loop appends exactly the kept points of its grid plane, in order of j then k |
| Singularities.Scan | explore_singularities/singulartities.py:59-75 | saved_points is the list of kept grid points in order of i, j, k |
| Singularities.CollectSound | explore_singularities/singulartities.py:59-75 | a point of the joined parts comes from one of the parts |
| Singularities.CollectComplete | explore_singularities/singulartities.py:59-75 | a point of any part is in the joined parts |
| Singularities.HitsSound | explore_singularities/singulartities.py:67-75 | every saved point lies in the unit ball, has coordinates in [-1, 1] and a pitch within tol of +-pi/2 |
| Singularities.HitsComplete | explore_singularities/singulartities.py:59-75 | every grid point that passes both filters is saved |
| Singularities.Explore | explore_singularities/singulartities.py:50-78 | main with cube_res = 80 and tol = 0.06 yields cube_res and a one-element list holding all the saved points, each of which passes both filters |

## Left out

- Floating point: rounding, overflow and NaN are not modelled. Every quantity is a real number.
  A JavaScript division by zero producing NaN becomes `None`.
- The transcendental functions are fields of `Trig`, constrained only by the facts in `Lawful`.
  The Euler round trip through atan2 and asin needs trigonometric identities beyond these, so
  it is not proved. Only the pitch range of `quaternionToEuler` is.
- `Tetrahedral.TurnAngleRange`, `Tetrahedral.TetraAnglesBounded`: these assume -1 <= w <= 1.
  Outside that range `Math.acos` returns NaN, which the model does not represent.
- `Converters.AxisAngleRoundTrip`: this assumes a unit axis and an angle in [0, 2 pi] away from
  the guard. The near-identity guard collapses the remaining angles to angle 0 (see
  `Converters.AxisAngleNearIdentity`).
- `DiskToSphere.FlatCopies`: this proves z = 0 for every real parameter, which is weaker than
  what draw2DSpace(0) in `disk_to_sphere/sketch.js` does. That call passes no t, so JavaScript
  computes min(undefined, PI) = NaN and a z of 0 * NaN. The model carries no parameter for
  these copies (`param` is `None`).
- `Interpolation.LerpBranchIsUnit`: only the lerp branch (dot > 0.9995, utils.js:51-68) is
  proved to return a unit quaternion. The standard branch (utils.js:70-84) is not, because that
  needs the sine addition formulas, which `Lawful` does not state.
  `Interpolation.StandardBranchDefined` proves only that this branch returns `Some`.
- `SpherePatch.P5Map`: this requires start1 != stop1, which every call in the sketches meets.
- `Singularities.GridCoordinate`: the scan is over any grid of n >= 2 points, and `Explore`
  fixes n = 80. A grid of one point would divide by zero in half_grid.
- The redundant 4-angle gimbal solver is not part of this model.
- Rendering is left out: every `draw*` function, the vertex emission in `drawSphere` and
  `draw2DSpace`, `setup`, `preload`, `keyPressed`, the camera, lights and sliders. The angle
  grid, the min(t, PI) clamp and the phase offsets they use are modelled.
- `applyQuaternion` (utils.js:87-103) is left out: its only effect is a p5 `rotate` call.
- The frame clock (`t += ...`) and the `rotation_history` display list are left out; the phases
  of `draw` are modelled as a function of t.
- The JSON file write of `main` (explore_singularities/singulartities.py:81-82) is left out:
  `Singularities.Explore` returns the document instead of writing it.
- `Singularities.Probe`: the loop body of `main` is a method of its own, and its `continue`
  is a `return false`.
