/** The angle conversions of utils.js: Z-Y-X Euler angles to and from a quaternion, and
    axis-angle to and from a quaternion. */
module Converters {
  import opened RealMath
  import opened Geometry

  /** Yaw about z, pitch about y, roll about x, in radians. */
  datatype Euler = Euler(yaw: real, pitch: real, roll: real)

  datatype AxisAngle = AxisAngle(axis: Vec3, angle: real)

  /** eulerToQuaternion(yaw, pitch, roll). */
  function EulerToQuaternion(tr: Trig, yaw: real, pitch: real, roll: real): Quat {
    var cy, sy := tr.cos(yaw * 0.5), tr.sin(yaw * 0.5);
    var cp, sp := tr.cos(pitch * 0.5), tr.sin(pitch * 0.5);
    var cr, sr := tr.cos(roll * 0.5), tr.sin(roll * 0.5);
    Quat(cy * cp * cr + sy * sp * sr,
         cy * cp * sr - sy * sp * cr,
         sy * cp * sr + cy * sp * cr,
         sy * cp * cr - cy * sp * sr)
  }

  /** Zero angles give the identity rotation. */
  lemma EulerZeroIsIdentity(tr: Trig)
    requires Lawful(tr)
    ensures EulerToQuaternion(tr, 0.0, 0.0, 0.0) == Identity
  {
    assert 0.0 * 0.5 == 0.0;
    var q := EulerToQuaternion(tr, 0.0, 0.0, 0.0);
    assert q == Quat(1.0 * 1.0 * 1.0 + 0.0 * 0.0 * 0.0, 1.0 * 1.0 * 0.0 - 0.0 * 0.0 * 1.0,
                     0.0 * 1.0 * 0.0 + 1.0 * 0.0 * 1.0, 0.0 * 1.0 * 1.0 - 1.0 * 0.0 * 0.0);
  }

  /** Every Euler triple gives a unit quaternion. */
  lemma EulerToQuaternionIsUnit(tr: Trig, yaw: real, pitch: real, roll: real)
    requires Lawful(tr)
    ensures IsUnit(EulerToQuaternion(tr, yaw, pitch, roll))
  {
    EulerFacts(tr, yaw, pitch, roll);
    EulerProductIsUnit(tr, yaw, pitch, roll, EulerToQuaternion(tr, yaw, pitch, roll));
  }

  lemma EulerProductIsUnit(tr: Trig, yaw: real, pitch: real, roll: real, q: Quat)
    requires Lawful(tr)
    requires EulerProduct(tr.cos(yaw * 0.5), tr.sin(yaw * 0.5), tr.cos(pitch * 0.5), tr.sin(pitch * 0.5),
                          tr.cos(roll * 0.5), tr.sin(roll * 0.5), q.w, q.x, q.y, q.z)
    ensures IsUnit(q)
  {
    SinCosSquares(tr, yaw * 0.5);
    SinCosSquares(tr, pitch * 0.5);
    SinCosSquares(tr, roll * 0.5);
    EulerUnitKernel(tr.cos(yaw * 0.5), tr.sin(yaw * 0.5), tr.cos(pitch * 0.5), tr.sin(pitch * 0.5),
                    tr.cos(roll * 0.5), tr.sin(roll * 0.5), q.w, q.x, q.y, q.z);
  }

  /** The components of the Euler product of (cy, sy), (cp, sp) and (cr, sr). */
  predicate EulerProduct(cy: real, sy: real, cp: real, sp: real, cr: real, sr: real, w: real, x: real, y: real, z: real) {
    && w == cy * cp * cr + sy * sp * sr
    && x == cy * cp * sr - sy * sp * cr
    && y == sy * cp * sr + cy * sp * cr
    && z == sy * cp * cr - cy * sp * sr
  }

  lemma EulerFacts(tr: Trig, yaw: real, pitch: real, roll: real)
    ensures var q := EulerToQuaternion(tr, yaw, pitch, roll);
            EulerProduct(tr.cos(yaw * 0.5), tr.sin(yaw * 0.5), tr.cos(pitch * 0.5), tr.sin(pitch * 0.5),
                         tr.cos(roll * 0.5), tr.sin(roll * 0.5), q.w, q.x, q.y, q.z)
  {
  }

  /** The Euler product of three points of the unit circle is a unit quaternion. */
  lemma EulerUnitKernel(cy: real, sy: real, cp: real, sp: real, cr: real, sr: real, w: real, x: real, y: real, z: real)
    requires sy * sy + cy * cy == 1.0 && sp * sp + cp * cp == 1.0 && sr * sr + cr * cr == 1.0
    requires EulerProduct(cy, sy, cp, sp, cr, sr, w, x, y, z)
    ensures w * w + x * x + y * y + z * z == 1.0
  {
    EulerNormKernel(cy, sy, cp, sp, cr, sr, w, x, y, z);
  }

  /** The squared norm of the Euler product is the product of the three s^2 + c^2. */
  lemma EulerNormKernel(cy: real, sy: real, cp: real, sp: real, cr: real, sr: real, w: real, x: real, y: real, z: real)
    requires EulerProduct(cy, sy, cp, sp, cr, sr, w, x, y, z)
    ensures w * w + x * x + y * y + z * z == (sy * sy + cy * cy) * (sp * sp + cp * cp) * (sr * sr + cr * cr)
  {
  }

  /** The clamp of t2 in quaternionToEuler: t2 > 1 becomes 1, then t2 < -1 becomes -1. */
  function ClampUnit(t: real): (r: real)
    ensures -1.0 <= r <= 1.0
    ensures -1.0 <= t <= 1.0 ==> r == t
    ensures t > 1.0 ==> r == 1.0
    ensures t < -1.0 ==> r == -1.0
  {
    var s := if t > 1.0 then 1.0 else t;
    if s < -1.0 then -1.0 else s
  }

  /** The arguments t0 .. t4 of atan2 and asin in quaternionToEuler. */
  function RollSine(q: Quat): real { 2.0 * (q.w * q.x + q.y * q.z) }
  function RollCosine(q: Quat): real { 1.0 - 2.0 * (q.x * q.x + q.y * q.y) }
  function PitchSine(q: Quat): real { 2.0 * (q.w * q.y - q.z * q.x) }
  function YawSine(q: Quat): real { 2.0 * (q.w * q.z + q.x * q.y) }
  function YawCosine(q: Quat): real { 1.0 - 2.0 * (q.y * q.y + q.z * q.z) }

  /** quaternionToEuler(q). */
  function QuaternionToEuler(tr: Trig, q: Quat): Euler {
    var roll := tr.atan2(RollSine(q), RollCosine(q));
    var pitch := tr.asin(ClampUnit(PitchSine(q)));
    var yaw := tr.atan2(YawSine(q), YawCosine(q));
    Euler(yaw, pitch, roll)
  }

  /** asin only ever receives an argument in its domain, so the pitch lies in [-pi/2, pi/2]. */
  lemma PitchInRange(tr: Trig, q: Quat)
    requires Lawful(tr)
    ensures -tr.pi / 2.0 <= QuaternionToEuler(tr, q).pitch <= tr.pi / 2.0
  {
    AsinBounds(tr, ClampUnit(PitchSine(q)));
  }

  /** axisAngleToQuaternion(axis, angle). */
  function AxisAngleToQuaternion(tr: Trig, axis: Vec3, angle: real): Quat {
    var half := angle / 2.0;
    Quat(tr.cos(half), axis.x * tr.sin(half), axis.y * tr.sin(half), axis.z * tr.sin(half))
  }

  /** A zero angle gives the identity, whatever the axis. */
  lemma AxisAngleZeroIsIdentity(tr: Trig, axis: Vec3)
    requires Lawful(tr)
    ensures AxisAngleToQuaternion(tr, axis, 0.0) == Identity
  {
    assert 0.0 / 2.0 == 0.0;
    assert axis.x * 0.0 == 0.0 && axis.y * 0.0 == 0.0 && axis.z * 0.0 == 0.0;
  }

  /** A unit axis gives a unit quaternion, for every angle. */
  lemma AxisAngleToQuaternionIsUnit(tr: Trig, axis: Vec3, angle: real)
    requires Lawful(tr) && Norm2(axis) == 1.0
    ensures IsUnit(AxisAngleToQuaternion(tr, axis, angle))
  {
    SinCosSquares(tr, angle / 2.0);
    ScaledAxisIsUnit(tr.cos(angle / 2.0), tr.sin(angle / 2.0), axis, AxisAngleToQuaternion(tr, axis, angle));
  }

  lemma ScaledAxisIsUnit(c: real, s: real, axis: Vec3, q: Quat)
    requires s * s + c * c == 1.0 && Norm2(axis) == 1.0
    requires q == Quat(c, axis.x * s, axis.y * s, axis.z * s)
    ensures IsUnit(q)
  {
    ScaledNormKernel(axis.x, axis.y, axis.z, s, q.x, q.y, q.z);
  }

  /** |s a|^2 = s^2 |a|^2. */
  lemma ScaledNormKernel(ax: real, ay: real, az: real, s: real, x: real, y: real, z: real)
    requires x == ax * s && y == ay * s && z == az * s
    ensures x * x + y * y + z * z == s * s * (ax * ax + ay * ay + az * az)
  {
  }

  /** The guard on |w| in quaternionToAxisAngle. */
  const NearIdentity: real := 0.9999

  /** The guard on s in quaternionToAxisAngle. */
  const SmallS: real := 0.0001

  function Abs(a: real): (r: real)
    ensures r >= 0.0 && (r == a || r == -a)
  {
    if a < 0.0 then -a else a
  }

  function Negate(a: Vec3): Vec3 {
    Vec3(-a.x, -a.y, -a.z)
  }

  /** The vector a / s. */
  function Shrink(a: Vec3, s: real): Vec3
    requires s != 0.0
  {
    Vec3(a.x / s, a.y / s, a.z / s)
  }

  /** quaternionToAxisAngle(q): near the identity the axis is x and the angle 0; otherwise the
      axis is the vector part divided by s = sqrt(1 - w^2) and the angle 2 acos(w), folded. */
  function QuaternionToAxisAngle(tr: Trig, q: Quat): AxisAngle {
    if Abs(q.w) > NearIdentity then
      AxisAngle(Vec3(1.0, 0.0, 0.0), 0.0)
    else
      var angle := 2.0 * tr.acos(q.w);
      var s := tr.sqrt(OneMinusSquare(q.w));
      if s < SmallS then
        AxisAngle(VectorPart(q), angle)
      else
        Fold(tr, Shrink(VectorPart(q), s), angle)
  }

  /** The last step of quaternionToAxisAngle: an angle above pi becomes 2 pi - angle about the
      negated axis, the same rotation. */
  function Fold(tr: Trig, axis: Vec3, angle: real): AxisAngle {
    if angle > tr.pi then AxisAngle(Negate(axis), 2.0 * tr.pi - angle) else AxisAngle(axis, angle)
  }

  /** Folding maps [0, 2 pi] into [0, pi] and keeps the length of the axis. */
  lemma FoldInRange(tr: Trig, axis: Vec3, angle: real)
    requires 0.0 <= angle <= 2.0 * tr.pi
    ensures 0.0 <= Fold(tr, axis, angle).angle <= tr.pi
    ensures Norm2(Fold(tr, axis, angle).axis) == Norm2(axis)
  {
    assert Norm2(Negate(axis)) == Norm2(axis);
  }

  /** Near the identity the result is the x axis with angle 0. */
  lemma AxisAngleNearIdentity(tr: Trig, q: Quat)
    requires Abs(q.w) > NearIdentity
    ensures QuaternionToAxisAngle(tr, q) == AxisAngle(Vec3(1.0, 0.0, 0.0), 0.0)
  {
  }

  /** Past the guard 1 - w^2 > 0.0001^2, so s > 0.0001 and the unnormalised branch is dead. */
  lemma SmallSUnreachable(tr: Trig, q: Quat)
    requires Lawful(tr) && Abs(q.w) <= NearIdentity
    ensures tr.sqrt(OneMinusSquare(q.w)) > SmallS
  {
    GuardGap(q.w);
    SqrtUnique(tr, SmallS * SmallS, SmallS);
    SqrtLess(tr, SmallS * SmallS, OneMinusSquare(q.w));
  }

  lemma GuardGap(w: real)
    requires Abs(w) <= NearIdentity
    ensures OneMinusSquare(w) > SmallS * SmallS
  {
    var a := Abs(w);
    assert a * a == w * w;
    assert a * a <= a * 0.9999 <= 0.9999 * 0.9999;
  }

  /** Past the guard the result is the folded normalised vector part and 2 acos(w). */
  lemma AxisAngleMainBranch(tr: Trig, q: Quat)
    requires Lawful(tr) && Abs(q.w) <= NearIdentity
    ensures var s := tr.sqrt(OneMinusSquare(q.w));
            s > SmallS && QuaternionToAxisAngle(tr, q) == Fold(tr, Shrink(VectorPart(q), s), 2.0 * tr.acos(q.w))
  {
    SmallSUnreachable(tr, q);
  }

  /** 2 acos(w) > pi exactly when w < 0, for w in [-1, 1]. */
  lemma AcosAboveHalfPi(tr: Trig, w: real)
    requires Lawful(tr) && -1.0 <= w <= 1.0
    ensures 2.0 * tr.acos(w) > tr.pi <==> w < 0.0
  {
    if w < 0.0 {
      AcosLess(tr, w, 0.0);
    } else if w > 0.0 {
      AcosLess(tr, 0.0, w);
    }
  }

  /** Past the guard the angle lies in [0, pi], and the axis is negated exactly when w < 0. */
  lemma AxisAngleFolded(tr: Trig, q: Quat)
    requires Lawful(tr) && Abs(q.w) <= NearIdentity
    ensures 0.0 <= QuaternionToAxisAngle(tr, q).angle <= tr.pi
    ensures var s := tr.sqrt(OneMinusSquare(q.w));
            s > SmallS &&
            var axis := Shrink(VectorPart(q), s);
            QuaternionToAxisAngle(tr, q) ==
              if q.w < 0.0 then AxisAngle(Negate(axis), 2.0 * tr.pi - 2.0 * tr.acos(q.w))
              else AxisAngle(axis, 2.0 * tr.acos(q.w))
  {
    var s := tr.sqrt(OneMinusSquare(q.w));
    AxisAngleMainBranch(tr, q);
    AcosBounds(tr, q.w);
    AcosAboveHalfPi(tr, q.w);
    FoldInRange(tr, Shrink(VectorPart(q), s), 2.0 * tr.acos(q.w));
  }

  /** For a unit q the returned axis is a unit vector. */
  lemma AxisAngleAxisIsUnit(tr: Trig, q: Quat)
    requires Lawful(tr) && IsUnit(q)
    ensures Norm2(QuaternionToAxisAngle(tr, q).axis) == 1.0
  {
    if Abs(q.w) <= NearIdentity {
      var s := tr.sqrt(OneMinusSquare(q.w));
      SmallSUnreachable(tr, q);
      SqrtSquare(tr, OneMinusSquare(q.w));
      DividedAxisIsUnit(q, s);
      AxisAngleMainBranch(tr, q);
      AcosBounds(tr, q.w);
      FoldInRange(tr, Shrink(VectorPart(q), s), 2.0 * tr.acos(q.w));
    }
  }

  lemma DividedAxisIsUnit(q: Quat, s: real)
    requires IsUnit(q) && s > 0.0 && s * s == OneMinusSquare(q.w)
    ensures Norm2(Shrink(VectorPart(q), s)) == 1.0
  {
    ShrinkIsUnit(VectorPart(q), s);
  }

  /** Dividing a vector by a positive root of its squared length gives a unit vector. */
  lemma ShrinkIsUnit(a: Vec3, s: real)
    requires s > 0.0 && s * s == Norm2(a)
    ensures Norm2(Shrink(a, s)) == 1.0
  {
    var r := Shrink(a, s);
    var k := 1.0 / s;
    assert r.x == a.x * k && r.y == a.y * k && r.z == a.z * k && k * s == 1.0;
    InverseKernel(0.0, r.x, r.y, r.z, 0.0, a.x, a.y, a.z, k, s);
  }

  /** Converting a unit-axis rotation to a quaternion and back recovers it, up to the double
      cover: an angle above pi comes back as 2 pi - angle about the negated axis. The angles
      left out, where |cos(angle/2)| > 0.9999, are the ones the guard collapses to angle 0. */
  lemma AxisAngleRoundTrip(tr: Trig, axis: Vec3, angle: real)
    requires Lawful(tr) && Norm2(axis) == 1.0
    requires 0.0 <= angle <= 2.0 * tr.pi && Abs(tr.cos(angle / 2.0)) <= NearIdentity
    ensures QuaternionToAxisAngle(tr, AxisAngleToQuaternion(tr, axis, angle)) == Fold(tr, axis, angle)
  {
    var half := angle / 2.0;
    HalfAngleFacts(tr, half);
    RoundTripFromFacts(tr, axis, half, tr.cos(half), tr.sin(half), AxisAngleToQuaternion(tr, axis, angle));
  }

  /** What the round trip needs about the half angle, which lies strictly inside (0, pi). */
  lemma HalfAngleFacts(tr: Trig, half: real)
    requires Lawful(tr) && 0.0 <= half <= tr.pi && Abs(tr.cos(half)) <= NearIdentity
    ensures tr.sin(half) > 0.0 && tr.acos(tr.cos(half)) == half
    ensures tr.sqrt(OneMinusSquare(tr.cos(half))) == tr.sin(half)
  {
    assert half != 0.0 && half != tr.pi;
    SinPositiveOn(tr, half);
    AcosCos(tr, half);
    SqrtOneMinusCosSquared(tr, half);
  }

  lemma RoundTripFromFacts(tr: Trig, axis: Vec3, half: real, c: real, s: real, q: Quat)
    requires Lawful(tr) && Abs(c) <= NearIdentity
    requires s > 0.0 && tr.acos(c) == half && tr.sqrt(OneMinusSquare(c)) == s
    requires q == Quat(c, axis.x * s, axis.y * s, axis.z * s)
    ensures QuaternionToAxisAngle(tr, q) == Fold(tr, axis, 2.0 * half)
  {
    assert q.w == c;
    AxisAngleMainBranch(tr, q);
    RecoverAxis(axis, s, q);
  }

  lemma RecoverAxis(axis: Vec3, s: real, q: Quat)
    requires s > 0.0 && q.x == axis.x * s && q.y == axis.y * s && q.z == axis.z * s
    ensures Shrink(VectorPart(q), s) == axis
  {
    assert q.x / s == axis.x && q.y / s == axis.y && q.z / s == axis.z;
  }
}
