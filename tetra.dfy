/** quaternionToTetrahedralAngles of the random_4_Euler_angles sketch: the rotation angle
    2 acos(w) spread over four rings whose axes point at the corners of a regular tetrahedron,
    each ring taking the angle times the cosine between its axis and the rotation axis. */
module Tetrahedral {
  import opened RealMath
  import opened Geometry
  import opened Converters

  /** p5.Vector.normalize: multiply by 1 / |v|, leaving the zero vector as it is. */
  function NormalizeVec(tr: Trig, v: Vec3): Vec3 {
    var len := tr.sqrt(Norm2(v));
    if len != 0.0 then Scale(1.0 / len, v) else v
  }

  /** The four TETRA_AXES: (1, 1, 1), (-1, -1, 1), (-1, 1, -1) and (1, -1, -1), normalised. */
  function TetraAxes(tr: Trig): seq<Vec3> {
    [NormalizeVec(tr, Vec3(1.0, 1.0, 1.0)),
     NormalizeVec(tr, Vec3(-1.0, -1.0, 1.0)),
     NormalizeVec(tr, Vec3(-1.0, 1.0, -1.0)),
     NormalizeVec(tr, Vec3(1.0, -1.0, -1.0))]
  }

  datatype Tetra = Tetra(alpha: real, beta: real, gamma: real, delta: real)

  /** The rotation angle 2 acos(w). */
  function TurnAngle(tr: Trig, q: Quat): real {
    2.0 * tr.acos(q.w)
  }

  /** quaternionToTetrahedralAngles(q). */
  function TetrahedralAngles(tr: Trig, q: Quat): Tetra {
    var axes := TetraAxes(tr);
    Project(TurnAngle(tr, q), NormalizeVec(tr, VectorPart(q)), axes[0], axes[1], axes[2], axes[3])
  }

  /** The angle times the projection of the axis onto each of the four ring axes. */
  function Project(angle: real, axis: Vec3, b0: Vec3, b1: Vec3, b2: Vec3, b3: Vec3): Tetra {
    Tetra(Ring(angle, axis, b0), Ring(angle, axis, b1), Ring(angle, axis, b2), Ring(angle, axis, b3))
  }

  /** angle * axis.dot(b): the turn of the ring about b. */
  function Ring(angle: real, axis: Vec3, b: Vec3): real {
    angle * Dot(axis, b)
  }

  /** A nonzero vector normalises to a unit vector; the zero vector stays zero. */
  lemma NormalizeVecLength(tr: Trig, v: Vec3)
    requires Lawful(tr)
    ensures Norm2(v) > 0.0 ==> Norm2(NormalizeVec(tr, v)) == 1.0
    ensures Norm2(v) == 0.0 ==> NormalizeVec(tr, v) == v && Norm2(v) == 0.0
  {
    Norm2NonNegative(v);
    SqrtZero(tr, Norm2(v));
    if Norm2(v) > 0.0 {
      SqrtSquare(tr, Norm2(v));
      var len := tr.sqrt(Norm2(v));
      var r := NormalizeVec(tr, v);
      var k := 1.0 / len;
      assert r.x == v.x * k && r.y == v.y * k && r.z == v.z * k && k * len == 1.0;
      InverseKernel(0.0, r.x, r.y, r.z, 0.0, v.x, v.y, v.z, k, len);
    }
  }

  /** Every TETRA_AXES entry is a unit vector. */
  lemma TetraAxesAreUnit(tr: Trig, i: int)
    requires Lawful(tr) && 0 <= i < 4
    ensures Norm2(TetraAxes(tr)[i]) == 1.0
  {
    var v := [Vec3(1.0, 1.0, 1.0), Vec3(-1.0, -1.0, 1.0), Vec3(-1.0, 1.0, -1.0), Vec3(1.0, -1.0, -1.0)][i];
    assert Norm2(v) == 3.0;
    NormalizeVecLength(tr, v);
  }

  /** All four corners have squared length 3, so each axis is its corner times k = 1 / sqrt(3). */
  lemma TetraAxesScaled(tr: Trig)
    requires Lawful(tr)
    ensures tr.sqrt(3.0) > 0.0
    ensures var k := 1.0 / tr.sqrt(3.0); var axes := TetraAxes(tr);
            axes[0] == Scale(k, Vec3(1.0, 1.0, 1.0)) && axes[1] == Scale(k, Vec3(-1.0, -1.0, 1.0)) &&
            axes[2] == Scale(k, Vec3(-1.0, 1.0, -1.0)) && axes[3] == Scale(k, Vec3(1.0, -1.0, -1.0))
  {
    SqrtSquare(tr, 3.0);
    SqrtZero(tr, 3.0);
    assert Norm2(Vec3(1.0, 1.0, 1.0)) == 3.0 && Norm2(Vec3(-1.0, -1.0, 1.0)) == 3.0;
    assert Norm2(Vec3(-1.0, 1.0, -1.0)) == 3.0 && Norm2(Vec3(1.0, -1.0, -1.0)) == 3.0;
  }

  /** The four axes sum to the zero vector. */
  lemma TetraAxesSumToZero(tr: Trig)
    requires Lawful(tr)
    ensures var axes := TetraAxes(tr); Add(Add(Add(axes[0], axes[1]), axes[2]), axes[3]) == Vec3(0.0, 0.0, 0.0)
  {
    TetraAxesScaled(tr);
  }

  /** The four ring angles always add up to zero. */
  lemma TetraAnglesSumToZero(tr: Trig, q: Quat)
    requires Lawful(tr)
    ensures var r := TetrahedralAngles(tr, q); r.alpha + r.beta + r.gamma + r.delta == 0.0
  {
    TetraAxesScaled(tr);
    var a := NormalizeVec(tr, VectorPart(q));
    SumKernel(TurnAngle(tr, q), 1.0 / tr.sqrt(3.0), a.x, a.y, a.z, TetrahedralAngles(tr, q));
  }

  lemma SumKernel(angle: real, k: real, x: real, y: real, z: real, r: Tetra)
    requires r.alpha == angle * (x * (k * 1.0) + y * (k * 1.0) + z * (k * 1.0))
    requires r.beta == angle * (x * (k * -1.0) + y * (k * -1.0) + z * (k * 1.0))
    requires r.gamma == angle * (x * (k * -1.0) + y * (k * 1.0) + z * (k * -1.0))
    requires r.delta == angle * (x * (k * 1.0) + y * (k * -1.0) + z * (k * -1.0))
    ensures r.alpha + r.beta + r.gamma + r.delta == 0.0
  {
  }

  /** For |w| <= 1 the rotation angle lies in [0, 2 pi]. */
  lemma TurnAngleRange(tr: Trig, q: Quat)
    requires Lawful(tr) && -1.0 <= q.w <= 1.0
    ensures 0.0 <= TurnAngle(tr, q) <= 2.0 * tr.pi
  {
    AcosBounds(tr, q.w);
  }

  /** No ring turns by more than the rotation angle. */
  lemma TetraAnglesBounded(tr: Trig, q: Quat)
    requires Lawful(tr) && -1.0 <= q.w <= 1.0
    ensures var r := TetrahedralAngles(tr, q); var angle := TurnAngle(tr, q);
            Abs(r.alpha) <= angle && Abs(r.beta) <= angle && Abs(r.gamma) <= angle && Abs(r.delta) <= angle
  {
    var axes := TetraAxes(tr);
    var a := NormalizeVec(tr, VectorPart(q));
    TurnAngleRange(tr, q);
    NormalizeVecLength(tr, VectorPart(q));
    Norm2NonNegative(VectorPart(q));
    TetraAxesAreUnit(tr, 0);
    TetraAxesAreUnit(tr, 1);
    TetraAxesAreUnit(tr, 2);
    TetraAxesAreUnit(tr, 3);
    ProjectBounded(TurnAngle(tr, q), a, axes[0], axes[1], axes[2], axes[3]);
  }

  /** Projecting onto unit axes an axis of length at most 1 scales the angle by at most 1. */
  lemma ProjectBounded(angle: real, a: Vec3, b0: Vec3, b1: Vec3, b2: Vec3, b3: Vec3)
    requires angle >= 0.0 && 0.0 <= Norm2(a) <= 1.0
    requires Norm2(b0) == 1.0 && Norm2(b1) == 1.0 && Norm2(b2) == 1.0 && Norm2(b3) == 1.0
    ensures var r := Project(angle, a, b0, b1, b2, b3);
            Abs(r.alpha) <= angle && Abs(r.beta) <= angle && Abs(r.gamma) <= angle && Abs(r.delta) <= angle
  {
    ProjectionBounded(angle, a, b0);
    ProjectionBounded(angle, a, b1);
    ProjectionBounded(angle, a, b2);
    ProjectionBounded(angle, a, b3);
  }

  /** |angle (a . b)| <= angle for angle >= 0, |a| <= 1 and |b| = 1. */
  lemma ProjectionBounded(angle: real, a: Vec3, b: Vec3)
    requires angle >= 0.0 && 0.0 <= Norm2(a) <= 1.0 && Norm2(b) == 1.0
    ensures Abs(Ring(angle, a, b)) <= angle
  {
    CauchySchwarz(a, b);
    var d := Dot(a, b);
    assert d * d <= Norm2(a) * Norm2(b) <= 1.0;
    UnitBound(d);
    ScaledBound(angle, d);
  }

  /** (a . b)^2 <= |a|^2 |b|^2, by Lagrange's identity. */
  lemma CauchySchwarz(a: Vec3, b: Vec3)
    ensures Dot(a, b) * Dot(a, b) <= Norm2(a) * Norm2(b)
  {
    LagrangeKernel(a.x, a.y, a.z, b.x, b.y, b.z, Dot(a, b), Norm2(a), Norm2(b), Cross(a, b));
    Norm2NonNegative(Cross(a, b));
  }

  lemma LagrangeKernel(ax: real, ay: real, az: real, bx: real, b_y: real, bz: real, d: real, na: real, nb: real, c: Vec3)
    requires d == ax * bx + ay * b_y + az * bz
    requires na == ax * ax + ay * ay + az * az && nb == bx * bx + b_y * b_y + bz * bz
    requires c == Vec3(ay * bz - az * b_y, az * bx - ax * bz, ax * b_y - ay * bx)
    ensures na * nb - d * d == Norm2(c)
  {
  }

  lemma ScaledBound(angle: real, d: real)
    requires angle >= 0.0 && -1.0 <= d <= 1.0
    ensures Abs(angle * d) <= angle
  {
    assert angle * d <= angle * 1.0;
    assert angle * d >= angle * -1.0;
  }

  /** w = 1, the identity, turns no ring at all. */
  lemma TetraIdentity(tr: Trig, q: Quat)
    requires Lawful(tr) && q.w == 1.0
    ensures TetrahedralAngles(tr, q) == Tetra(0.0, 0.0, 0.0, 0.0)
  {
    assert TurnAngle(tr, q) == 0.0;
  }

  /** The vector part scaled by c. */
  function ScaleVectorPart(q: Quat, c: real): Quat {
    Quat(q.w, c * q.x, c * q.y, c * q.z)
  }

  /** Only the direction of (x, y, z) matters: scaling it by c > 0 leaves the output unchanged. */
  lemma TetraScaleInvariant(tr: Trig, q: Quat, c: real)
    requires Lawful(tr) && c > 0.0
    ensures TetrahedralAngles(tr, ScaleVectorPart(q, c)) == TetrahedralAngles(tr, q)
  {
    var p := ScaleVectorPart(q, c);
    assert VectorPart(p) == Scale(c, VectorPart(q)) && TurnAngle(tr, p) == TurnAngle(tr, q);
    NormalizeVecScale(tr, VectorPart(q), c);
  }

  /** normalize(c v) = normalize(v) for c > 0. */
  lemma NormalizeVecScale(tr: Trig, v: Vec3, c: real)
    requires Lawful(tr) && c > 0.0
    ensures NormalizeVec(tr, Scale(c, v)) == NormalizeVec(tr, v)
  {
    var len := tr.sqrt(Norm2(v));
    ScaledLength(tr, v, c);
    if len != 0.0 {
      ScaledDirection(v, c, len);
    } else {
      ScaledZero(tr, v, c);
    }
  }

  /** |c v| = c |v| for c > 0. */
  lemma ScaledLength(tr: Trig, v: Vec3, c: real)
    requires Lawful(tr) && c > 0.0
    ensures tr.sqrt(Norm2(Scale(c, v))) == c * tr.sqrt(Norm2(v))
  {
    Norm2NonNegative(v);
    ScaledNormKernel(v.x, v.y, v.z, c, c * v.x, c * v.y, c * v.z);
    SqrtScale(tr, c, Norm2(v), Norm2(Scale(c, v)));
  }

  /** Dividing c v by c s is dividing v by s. */
  lemma ScaledDirection(v: Vec3, c: real, s: real)
    requires c > 0.0 && s != 0.0
    ensures c * s != 0.0 && Scale(1.0 / (c * s), Scale(c, v)) == Scale(1.0 / s, v)
  {
    InverseScaled(c, s, v.x);
    InverseScaled(c, s, v.y);
    InverseScaled(c, s, v.z);
  }

  /** A vector of length 0 is the zero vector, and so is every multiple of it. */
  lemma ScaledZero(tr: Trig, v: Vec3, c: real)
    requires Lawful(tr) && tr.sqrt(Norm2(v)) == 0.0
    ensures c * tr.sqrt(Norm2(v)) == 0.0 && Scale(c, v) == v
  {
    Norm2NonNegative(v);
    SqrtZero(tr, Norm2(v));
    ZeroScaled(v, c);
    ZeroProduct(c, tr.sqrt(Norm2(v)));
  }

  lemma ZeroScaled(v: Vec3, c: real)
    requires Norm2(v) == 0.0
    ensures Scale(c, v) == v
  {
    ZeroVector(v);
    ScaleZero(c);
  }

  lemma ScaleZero(c: real)
    ensures Scale(c, Vec3(0.0, 0.0, 0.0)) == Vec3(0.0, 0.0, 0.0)
  {
  }

  lemma ZeroProduct(c: real, s: real)
    requires s == 0.0
    ensures c * s == 0.0
  {
  }

  /** (1 / (c s)) (c x) = (1 / s) x. */
  lemma InverseScaled(c: real, s: real, x: real)
    requires c > 0.0 && s != 0.0
    ensures 1.0 / (c * s) * (c * x) == 1.0 / s * x
  {
  }

  lemma ZeroVector(v: Vec3)
    requires Norm2(v) == 0.0
    ensures v == Vec3(0.0, 0.0, 0.0)
  {
    assert v.x * v.x >= 0.0 && v.y * v.y >= 0.0 && v.z * v.z >= 0.0;
    SquareZero(v.x);
    SquareZero(v.y);
    SquareZero(v.z);
  }
}
