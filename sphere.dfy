/** The disk-to-hemisphere patch shared by the all_rp2_representations and disk_to_sphere
    sketches: spherePoint, the angle grid of drawSphere and the clamp of the animation parameter
    in draw2DSpace. */
module SpherePatch {
  import opened RealMath
  import opened Geometry

  const SphereRadius: real := 50.0
  const LatSegments: nat := 10
  const LonSegments: nat := 20

  /** p5's map(v, start1, stop1, start2, stop2): the affine map taking start1 to start2 and
      stop1 to stop2. Every call in the sketches has start1 != stop1. */
  function P5Map(v: real, start1: real, stop1: real, start2: real, stop2: real): real
    requires start1 != stop1
  {
    (v - start1) / (stop1 - start1) * (stop2 - start2) + start2
  }

  /** map takes the ends of the first range to the ends of the second. */
  lemma P5MapEnds(start1: real, stop1: real, start2: real, stop2: real)
    requires start1 != stop1
    ensures P5Map(start1, start1, stop1, start2, stop2) == start2
    ensures P5Map(stop1, start1, stop1, start2, stop2) == stop2
  {
    var d := stop1 - start1;
    assert d / d == 1.0;
    assert 0.0 / d == 0.0;
  }

  /** spherePoint(theta, phi, t, dir): a point of the disk of radius 50 lifted by
      z = r cos(theta) dir (cos t - 1) / 2, flat at t = 0 and a hemisphere at t = pi. */
  function SpherePoint(tr: Trig, theta: real, phi: real, t: real, dir: real): Vec3 {
    Vec3(SphereRadius * tr.sin(theta) * tr.cos(phi),
         SphereRadius * tr.sin(theta) * tr.sin(phi),
         SphereRadius * tr.cos(theta) * dir * (tr.cos(t) - 1.0) / 2.0)
  }

  /** x and y depend only on theta and phi; the animation moves the point along z alone. */
  lemma SpherePointPlanar(tr: Trig, theta: real, phi: real, t1: real, dir1: real, t2: real, dir2: real)
    ensures SpherePoint(tr, theta, phi, t1, dir1).x == SpherePoint(tr, theta, phi, t2, dir2).x
    ensures SpherePoint(tr, theta, phi, t1, dir1).y == SpherePoint(tr, theta, phi, t2, dir2).y
  {
  }

  /** At t = 0, or with dir = 0, the patch is the flat disk z = 0. */
  lemma SpherePointFlat(tr: Trig, theta: real, phi: real, t: real, dir: real)
    requires Lawful(tr) && (t == 0.0 || dir == 0.0)
    ensures SpherePoint(tr, theta, phi, t, dir).z == 0.0
  {
    var c := SphereRadius * tr.cos(theta);
    if t == 0.0 {
      assert tr.cos(t) - 1.0 == 0.0;
    }
    assert c * dir * (tr.cos(t) - 1.0) == 0.0;
  }

  /** At t = pi the lift is -dir r cos(theta). */
  lemma SpherePointHalfTurn(tr: Trig, theta: real, phi: real, dir: real)
    requires Lawful(tr)
    ensures SpherePoint(tr, theta, phi, tr.pi, dir).z == -dir * SphereRadius * tr.cos(theta)
  {
    assert tr.cos(tr.pi) - 1.0 == -2.0;
  }

  /** At t = pi with dir = 1 or -1 the point lies on the sphere of radius 50. */
  lemma SpherePointOnSphere(tr: Trig, theta: real, phi: real, dir: real)
    requires Lawful(tr) && (dir == 1.0 || dir == -1.0)
    ensures Norm2(SpherePoint(tr, theta, phi, tr.pi, dir)) == SphereRadius * SphereRadius
  {
    var p := SpherePoint(tr, theta, phi, tr.pi, dir);
    SpherePointHalfTurn(tr, theta, phi, dir);
    SinCosSquares(tr, theta);
    SinCosSquares(tr, phi);
    OnSphereKernel(SphereRadius, tr.sin(theta), tr.cos(theta), tr.sin(phi), tr.cos(phi), dir, p.x, p.y, p.z);
  }

  /** (r st cp)^2 + (r st sp)^2 + (d r ct)^2 = r^2 on the unit circles, for d = +-1. */
  lemma OnSphereKernel(r: real, st: real, ct: real, sp: real, cp: real, d: real, x: real, y: real, z: real)
    requires st * st + ct * ct == 1.0 && sp * sp + cp * cp == 1.0 && d * d == 1.0
    requires x == r * st * cp && y == r * st * sp && z == -d * r * ct
    ensures x * x + y * y + z * z == r * r
  {
  }

  /** min(t, PI): the parameter draw2DSpace hands to spherePoint. */
  function ClampToPi(tr: Trig, t: real): (r: real)
    ensures r <= tr.pi && (r == t || r == tr.pi)
    ensures t <= tr.pi ==> r == t
  {
    if t < tr.pi then t else tr.pi
  }

  /** A point of the patch as draw2DSpace(dir, t) draws it. */
  function PatchPoint(tr: Trig, theta: real, phi: real, t: real, dir: real): Vec3 {
    SpherePoint(tr, theta, phi, ClampToPi(tr, t), dir)
  }

  /** Once the animation passes pi the patch stays the closed hemisphere: with dir = 1 or -1
      every drawn point lies on the sphere. */
  lemma PatchClosedAfterPi(tr: Trig, theta: real, phi: real, t: real, dir: real)
    requires Lawful(tr) && t >= tr.pi && (dir == 1.0 || dir == -1.0)
    ensures PatchPoint(tr, theta, phi, t, dir) == SpherePoint(tr, theta, phi, tr.pi, dir)
    ensures Norm2(PatchPoint(tr, theta, phi, t, dir)) == SphereRadius * SphereRadius
  {
    SpherePointOnSphere(tr, theta, phi, dir);
  }

  /** The angle of grid line i out of n spanning [0, span]: map(i, 0, n, 0, span). */
  function GridAngle(i: int, n: nat, span: real): real
    requires n > 0
  {
    P5Map(i as real, 0.0, n as real, 0.0, span)
  }

  /** For 0 <= i < n consecutive grid angles are increasing and stay within [0, span]. */
  lemma GridStep(i: int, n: nat, span: real)
    requires n > 0 && 0 <= i < n && span > 0.0
    ensures 0.0 <= GridAngle(i, n, span) < GridAngle(i + 1, n, span) <= span
  {
    var a := i as real;
    var m := n as real;
    var u := a / m;
    var v := (a + 1.0) / m;
    assert GridAngle(i, n, span) == u * span;
    assert GridAngle(i + 1, n, span) == v * span;
    assert 0.0 <= u < v <= 1.0 by {
      assert u * m == a && v * m == a + 1.0;
    }
    ScaleOrdered(u, v, span);
  }

  lemma ScaleOrdered(u: real, v: real, s: real)
    requires 0.0 <= u < v <= 1.0 && s > 0.0
    ensures 0.0 <= u * s < v * s <= s
  {
  }

  /** drawSphere's quad (lat, lon): 0 <= theta1 < theta2 <= pi/2 and 0 <= phi1 < phi2 <= 2 pi. */
  lemma DrawSphereAngles(tr: Trig, lat: int, lon: int)
    requires Lawful(tr) && 0 <= lat < LatSegments && 0 <= lon < LonSegments
    ensures 0.0 <= GridAngle(lat, LatSegments, tr.pi / 2.0) < GridAngle(lat + 1, LatSegments, tr.pi / 2.0) <= tr.pi / 2.0
    ensures 0.0 <= GridAngle(lon, LonSegments, 2.0 * tr.pi) < GridAngle(lon + 1, LonSegments, 2.0 * tr.pi) <= 2.0 * tr.pi
  {
    GridStep(lat, LatSegments, tr.pi / 2.0);
    GridStep(lon, LonSegments, 2.0 * tr.pi);
  }
}
