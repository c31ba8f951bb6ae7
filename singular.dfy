/** The offline scan of explore_singularities/singulartities.py: every point of a cube grid
    inside the unit ball, read as a rotation vector scaled by pi, is kept when the pitch of its
    rotation is within a tolerance of +-pi/2, the gimbal-lock singularity of Z-Y-X Euler angles. */
module Singularities {
  import opened RealMath
  import opened Geometry
  import opened Converters

  /** vector_to_quaternion(v): the rotation about v / |v| by the angle |v|; the zero vector
      gives the identity. */
  function VectorToQuaternion(tr: Trig, v: Vec3): Quat {
    var mag := tr.sqrt(Norm2(v));
    if mag == 0.0 then
      Identity
    else
      var axis := Shrink(v, mag);
      var halfAngle := mag / 2.0;
      var sinHalf := tr.sin(halfAngle);
      Quat(tr.cos(halfAngle), axis.x * sinHalf, axis.y * sinHalf, axis.z * sinHalf)
  }

  /** The zero vector is the identity rotation. */
  lemma VectorZeroIsIdentity(tr: Trig, v: Vec3)
    requires Lawful(tr) && Norm2(v) == 0.0
    ensures VectorToQuaternion(tr, v) == Identity
  {
    SqrtZero(tr, Norm2(v));
  }

  /** A nonzero vector goes through axisAngleToQuaternion with the unit axis v / |v| and the
      angle |v|. */
  lemma VectorIsAxisAngle(tr: Trig, v: Vec3)
    requires Lawful(tr) && Norm2(v) > 0.0
    ensures tr.sqrt(Norm2(v)) > 0.0
    ensures var mag := tr.sqrt(Norm2(v));
            Norm2(Shrink(v, mag)) == 1.0 &&
            VectorToQuaternion(tr, v) == AxisAngleToQuaternion(tr, Shrink(v, mag), mag)
  {
    SqrtSquare(tr, Norm2(v));
    SqrtZero(tr, Norm2(v));
    ShrinkIsUnit(v, tr.sqrt(Norm2(v)));
  }

  /** Every vector gives a unit quaternion. */
  lemma VectorToQuaternionIsUnit(tr: Trig, v: Vec3)
    requires Lawful(tr)
    ensures IsUnit(VectorToQuaternion(tr, v))
  {
    Norm2NonNegative(v);
    if Norm2(v) == 0.0 {
      VectorZeroIsIdentity(tr, v);
    } else {
      VectorIsAxisAngle(tr, v);
      var mag := tr.sqrt(Norm2(v));
      AxisAngleToQuaternionIsUnit(tr, Shrink(v, mag), mag);
    }
  }

  /** The clamp of t2 in quaternion_to_euler: max(min(t2, 1), -1). */
  function PyClamp(t: real): real {
    Max(Min(t, 1.0), -1.0)
  }

  /** It agrees with the clamp of quaternionToEuler in utils.js on every input. */
  lemma PyClampIsClampUnit(t: real)
    ensures PyClamp(t) == ClampUnit(t)
  {
  }

  /** quaternion_to_euler(q). */
  function PyQuaternionToEuler(tr: Trig, q: Quat): Euler {
    var ysqr := q.y * q.y;
    var t0 := 2.0 * (q.w * q.x + q.y * q.z);
    var t1 := 1.0 - 2.0 * (q.x * q.x + ysqr);
    var roll := tr.atan2(t0, t1);
    var t2 := PyClamp(2.0 * (q.w * q.y - q.z * q.x));
    var pitch := tr.asin(t2);
    var t3 := 2.0 * (q.w * q.z + q.x * q.y);
    var t4 := 1.0 - 2.0 * (ysqr + q.z * q.z);
    var yaw := tr.atan2(t3, t4);
    Euler(yaw, pitch, roll)
  }

  /** The Python converter computes exactly what quaternionToEuler of utils.js computes, so its
      pitch lies in [-pi/2, pi/2]. */
  lemma PyQuaternionToEulerAgrees(tr: Trig, q: Quat)
    requires Lawful(tr)
    ensures PyQuaternionToEuler(tr, q) == QuaternionToEuler(tr, q)
    ensures -tr.pi / 2.0 <= PyQuaternionToEuler(tr, q).pitch <= tr.pi / 2.0
  {
    PyClampIsClampUnit(PitchSine(q));
    PitchInRange(tr, q);
  }

  /** half_grid = (cube_res - 1) / 2. */
  function HalfGrid(n: nat): real {
    (n as real - 1.0) / 2.0
  }

  /** The coordinate (i - half_grid) / half_grid of grid index i. A grid of one point would
      divide by zero; the script uses 80. */
  function GridCoordinate(i: int, n: nat): real
    requires n >= 2
  {
    (i as real - HalfGrid(n)) / HalfGrid(n)
  }

  /** Indices 0 .. n - 1 map into [-1, 1], the first to -1 and the last to 1. */
  lemma GridCoordinateBounds(i: int, n: nat)
    requires n >= 2 && 0 <= i < n
    ensures -1.0 <= GridCoordinate(i, n) <= 1.0
    ensures i == 0 ==> GridCoordinate(i, n) == -1.0
    ensures i == n - 1 ==> GridCoordinate(i, n) == 1.0
  {
    var h := HalfGrid(n);
    var x := GridCoordinate(i, n);
    assert h > 0.0 && x * h == i as real - h;
    assert i as real <= 2.0 * h;
    CoordinateKernel(x, h, i as real);
  }

  lemma CoordinateKernel(x: real, h: real, a: real)
    requires h > 0.0 && x * h == a - h && 0.0 <= a <= 2.0 * h
    ensures -1.0 <= x <= 1.0
    ensures a == 0.0 ==> x == -1.0
    ensures a == 2.0 * h ==> x == 1.0
  {
    assert (x + 1.0) * h == a;
    assert (1.0 - x) * h == 2.0 * h - a;
    if a == 0.0 {
      assert (x + 1.0) * h == 0.0;
    }
    if a == 2.0 * h {
      assert (1.0 - x) * h == 0.0;
    }
  }

  /** The grid point (x, y, z) of indices (i, j, k). */
  function GridPoint(n: nat, i: int, j: int, k: int): Vec3
    requires n >= 2
  {
    Vec3(GridCoordinate(i, n), GridCoordinate(j, n), GridCoordinate(k, n))
  }

  /** The pitch of the rotation vector pi (x, y, z), through vector_to_quaternion and
      quaternion_to_euler. */
  function Pitch(tr: Trig, x: real, y: real, z: real): real {
    PyQuaternionToEuler(tr, VectorToQuaternion(tr, Scale(tr.pi, Vec3(x, y, z)))).pitch
  }

  /** The test of the innermost loop: (x, y, z) is inside the unit ball and the pitch of its
      rotation vector is within tol of +-pi/2. */
  predicate Kept(tr: Trig, tol: real, x: real, y: real, z: real) {
    !(x * x + y * y + z * z > 1.0) && Abs(Abs(Pitch(tr, x, y, z)) - tr.pi / 2.0) < tol
  }

  /** part(0) + part(1) + ... + part(end - 1). */
  function Collect(part: int -> seq<Vec3>, end: nat): seq<Vec3> {
    if end == 0 then [] else Collect(part, end - 1) + part(end - 1)
  }

  /** A point is collected exactly when one of the parts holds it. */
  lemma {:induction false} CollectSound(part: int -> seq<Vec3>, end: nat, p: Vec3)
    requires p in Collect(part, end)
    ensures exists m :: 0 <= m < end && p in part(m)
  {
    if p in Collect(part, end - 1) {
      CollectSound(part, end - 1, p);
    } else {
      assert p in part(end - 1);
    }
  }

  lemma {:induction false} CollectComplete(part: int -> seq<Vec3>, end: nat, m: int, p: Vec3)
    requires 0 <= m < end && p in part(m)
    ensures p in Collect(part, end)
  {
    if m < end - 1 {
      CollectComplete(part, end - 1, m, p);
    }
  }

  /** The body of the innermost loop: grid point (i, j, k) if the scan keeps it. */
  function Cell(tr: Trig, n: nat, tol: real, i: int, j: int, k: int): seq<Vec3>
    requires n >= 2
  {
    var p := GridPoint(n, i, j, k);
    if Kept(tr, tol, p.x, p.y, p.z) then [p] else []
  }

  /** The points saved by the innermost loop after k < kEnd. */
  function CellsUpTo(tr: Trig, n: nat, tol: real, i: int, j: int, kEnd: nat): seq<Vec3>
    requires n >= 2
  {
    Collect(k => Cell(tr, n, tol, i, j, k), kEnd)
  }

  /** The points saved by the middle loop after j < jEnd. */
  function LinesUpTo(tr: Trig, n: nat, tol: real, i: int, jEnd: nat): seq<Vec3>
    requires n >= 2
  {
    Collect(j => CellsUpTo(tr, n, tol, i, j, n), jEnd)
  }

  /** The points saved by the outer loop after i < iEnd. */
  function PlanesUpTo(tr: Trig, n: nat, tol: real, iEnd: nat): seq<Vec3>
    requires n >= 2
  {
    Collect(i => LinesUpTo(tr, n, tol, i, n), iEnd)
  }

  /** saved_points after the whole scan. */
  function Hits(tr: Trig, n: nat, tol: real): seq<Vec3>
    requires n >= 2
  {
    PlanesUpTo(tr, n, tol, n)
  }

  /** The triple loop of main over an n^3 grid; ScanPlane is the middle loop. */
  method Scan(tr: Trig, n: nat, tol: real) returns (saved: seq<Vec3>)
    requires n >= 2
    ensures saved == Hits(tr, n, tol)
  {
    saved := [];
    var i := 0;
    while i < n
      invariant 0 <= i <= n && saved == PlanesUpTo(tr, n, tol, i)
    {
      var x := GridCoordinate(i, n);
      saved := ScanPlane(tr, n, tol, i, x, saved);
      PlaneStep(tr, n, tol, i);
      i := i + 1;
    }
  }

  /** The middle loop of main for the grid plane i, at coordinate x; ScanRow is the innermost
      loop. */
  method ScanPlane(tr: Trig, n: nat, tol: real, i: int, x: real, before: seq<Vec3>) returns (saved: seq<Vec3>)
    requires n >= 2 && x == GridCoordinate(i, n)
    ensures saved == before + LinesUpTo(tr, n, tol, i, n)
  {
    saved := before;
    var j := 0;
    while j < n
      invariant 0 <= j <= n && saved == before + LinesUpTo(tr, n, tol, i, j)
    {
      var y := GridCoordinate(j, n);
      saved := ScanRow(tr, n, tol, i, j, x, y, saved);
      LineStep(tr, n, tol, i, j);
      AppendAssociative(before, LinesUpTo(tr, n, tol, i, j), CellsUpTo(tr, n, tol, i, j, n));
      j := j + 1;
    }
  }

  /** The innermost loop of main for the grid line (i, j), at coordinates x and y: it appends
      the row's kept points to saved_points. */
  method ScanRow(tr: Trig, n: nat, tol: real, i: int, j: int, x: real, y: real, before: seq<Vec3>)
    returns (saved: seq<Vec3>)
    requires n >= 2 && x == GridCoordinate(i, n) && y == GridCoordinate(j, n)
    ensures saved == before + CellsUpTo(tr, n, tol, i, j, n)
  {
    saved := before;
    var k := 0;
    while k < n
      invariant 0 <= k <= n && saved == before + CellsUpTo(tr, n, tol, i, j, k)
    {
      var z := GridCoordinate(k, n);
      var kept := Probe(tr, tol, x, y, z);
      CellStep(tr, n, tol, i, j, k, kept);
      AppendAssociative(before, CellsUpTo(tr, n, tol, i, j, k), Cell(tr, n, tol, i, j, k));
      if kept {
        saved := saved + [Vec3(x, y, z)];
      }
      k := k + 1;
    }
  }

  /** One pass of the innermost loop appends the grid point when the probe keeps it. */
  lemma CellStep(tr: Trig, n: nat, tol: real, i: int, j: int, k: nat, kept: bool)
    requires n >= 2 && kept == Kept(tr, tol, GridCoordinate(i, n), GridCoordinate(j, n), GridCoordinate(k, n))
    ensures CellsUpTo(tr, n, tol, i, j, k + 1) == CellsUpTo(tr, n, tol, i, j, k) + Cell(tr, n, tol, i, j, k)
    ensures Cell(tr, n, tol, i, j, k) == if kept then [Vec3(GridCoordinate(i, n), GridCoordinate(j, n), GridCoordinate(k, n))] else []
  {
  }

  lemma LineStep(tr: Trig, n: nat, tol: real, i: int, j: nat)
    requires n >= 2
    ensures LinesUpTo(tr, n, tol, i, j + 1) == LinesUpTo(tr, n, tol, i, j) + CellsUpTo(tr, n, tol, i, j, n)
  {
  }

  lemma PlaneStep(tr: Trig, n: nat, tol: real, i: nat)
    requires n >= 2
    ensures PlanesUpTo(tr, n, tol, i + 1) == PlanesUpTo(tr, n, tol, i) + LinesUpTo(tr, n, tol, i, n)
  {
  }

  /** The body of the innermost loop: skip a point outside the unit ball, otherwise keep it when
      the pitch of its rotation vector is within tol of +-pi/2. */
  method Probe(tr: Trig, tol: real, x: real, y: real, z: real) returns (kept: bool)
    ensures kept == Kept(tr, tol, x, y, z)
  {
    if x * x + y * y + z * z > 1.0 {
      return false;
    }
    var vector := Scale(tr.pi, Vec3(x, y, z));
    var q := VectorToQuaternion(tr, vector);
    var euler := PyQuaternionToEuler(tr, q);
    var pitch := euler.pitch;
    kept := Abs(Abs(pitch) - tr.pi / 2.0) < tol;
  }

  lemma AppendAssociative(a: seq<Vec3>, b: seq<Vec3>, c: seq<Vec3>)
    ensures (a + b) + c == a + (b + c)
  {
  }

  /** Every saved point is inside the unit ball and near the singularity. */
  lemma HitsSound(tr: Trig, n: nat, tol: real, p: Vec3)
    requires n >= 2 && p in Hits(tr, n, tol)
    ensures Kept(tr, tol, p.x, p.y, p.z)
    ensures -1.0 <= p.x <= 1.0 && -1.0 <= p.y <= 1.0 && -1.0 <= p.z <= 1.0
  {
    CollectSound(i => LinesUpTo(tr, n, tol, i, n), n, p);
    var i :| 0 <= i < n && p in LinesUpTo(tr, n, tol, i, n);
    CollectSound(j => CellsUpTo(tr, n, tol, i, j, n), n, p);
    var j :| 0 <= j < n && p in CellsUpTo(tr, n, tol, i, j, n);
    CollectSound(k => Cell(tr, n, tol, i, j, k), n, p);
    var k :| 0 <= k < n && p in Cell(tr, n, tol, i, j, k);
    KeptInBall(tr, tol, p.x, p.y, p.z);
  }

  /** A kept point has every coordinate in [-1, 1]. */
  lemma KeptInBall(tr: Trig, tol: real, x: real, y: real, z: real)
    requires Kept(tr, tol, x, y, z)
    ensures -1.0 <= x <= 1.0 && -1.0 <= y <= 1.0 && -1.0 <= z <= 1.0
  {
    BallKernel(x, y, z);
  }

  /** A point of the unit ball has every coordinate in [-1, 1]. */
  lemma BallKernel(x: real, y: real, z: real)
    requires x * x + y * y + z * z <= 1.0
    ensures -1.0 <= x <= 1.0 && -1.0 <= y <= 1.0 && -1.0 <= z <= 1.0
  {
    assert x * x >= 0.0 && y * y >= 0.0 && z * z >= 0.0;
    UnitBound(x);
    UnitBound(y);
    UnitBound(z);
  }

  /** Every grid point near the singularity is saved. */
  lemma HitsComplete(tr: Trig, n: nat, tol: real, i: int, j: int, k: int)
    requires n >= 2 && 0 <= i < n && 0 <= j < n && 0 <= k < n
    requires var p := GridPoint(n, i, j, k); Kept(tr, tol, p.x, p.y, p.z)
    ensures GridPoint(n, i, j, k) in Hits(tr, n, tol)
  {
    var p := GridPoint(n, i, j, k);
    assert p in Cell(tr, n, tol, i, j, k);
    CollectComplete(k => Cell(tr, n, tol, i, j, k), n, k, p);
    CollectComplete(j => CellsUpTo(tr, n, tol, i, j, n), n, j, p);
    CollectComplete(i => LinesUpTo(tr, n, tol, i, n), n, i, p);
  }

  /** The grid resolution and the tolerance, in radians, of main. */
  const CubeRes: nat := 80
  const Tol: real := 0.06

  /** The JSON document main writes: the resolution and a one-element list holding the saved
      points. */
  datatype Output = Output(cubeRes: nat, points: seq<seq<Vec3>>)

  /** main without the file write. */
  method Explore(tr: Trig) returns (out: Output)
    ensures out.cubeRes == CubeRes && out.points == [Hits(tr, CubeRes, Tol)]
    ensures forall p :: p in out.points[0] ==> Kept(tr, Tol, p.x, p.y, p.z)
  {
    var saved := Scan(tr, CubeRes, Tol);
    out := Output(CubeRes, [saved]);
    forall p | p in out.points[0]
      ensures Kept(tr, Tol, p.x, p.y, p.z)
    {
      HitsSound(tr, CubeRes, Tol, p);
    }
  }
}
