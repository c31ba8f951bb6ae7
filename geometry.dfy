/** Plain 3-vectors (p5.Vector used as a value) and scalar-first quaternions `{w, x, y, z}`. */
module Geometry {

  datatype Vec3 = Vec3(x: real, y: real, z: real)

  datatype Quat = Quat(w: real, x: real, y: real, z: real)

  function Add(a: Vec3, b: Vec3): Vec3 {
    Vec3(a.x + b.x, a.y + b.y, a.z + b.z)
  }

  function Scale(k: real, a: Vec3): Vec3 {
    Vec3(k * a.x, k * a.y, k * a.z)
  }

  function Dot(a: Vec3, b: Vec3): real {
    a.x * b.x + a.y * b.y + a.z * b.z
  }

  /** p5.Vector.cross. */
  function Cross(a: Vec3, b: Vec3): Vec3 {
    Vec3(a.y * b.z - a.z * b.y, a.z * b.x - a.x * b.z, a.x * b.y - a.y * b.x)
  }

  /** Squared length of a 3-vector. */
  function Norm2(a: Vec3): real {
    a.x * a.x + a.y * a.y + a.z * a.z
  }

  /** The four-component dot product. */
  function QDot(p: Quat, q: Quat): real {
    p.w * q.w + p.x * q.x + p.y * q.y + p.z * q.z
  }

  /** Squared magnitude of a quaternion. */
  function QNorm2(q: Quat): real {
    q.w * q.w + q.x * q.x + q.y * q.y + q.z * q.z
  }

  function QNeg(q: Quat): Quat {
    Quat(-q.w, -q.x, -q.y, -q.z)
  }

  /** The vector part (x, y, z). */
  function VectorPart(q: Quat): Vec3 {
    Vec3(q.x, q.y, q.z)
  }

  const Identity: Quat := Quat(1.0, 0.0, 0.0, 0.0)

  predicate IsUnit(q: Quat) {
    q.w * q.w + q.x * q.x + q.y * q.y + q.z * q.z == 1.0
  }

  lemma Norm2NonNegative(a: Vec3)
    ensures Norm2(a) >= 0.0
  {
    assert a.x * a.x >= 0.0 && a.y * a.y >= 0.0 && a.z * a.z >= 0.0;
  }

  lemma QNorm2NonNegative(q: Quat)
    ensures QNorm2(q) >= 0.0
  {
    assert q.w * q.w >= 0.0 && q.x * q.x >= 0.0 && q.y * q.y >= 0.0 && q.z * q.z >= 0.0;
  }

  /** Multiplying a quaternion (or, with w = 0, a vector) of squared magnitude m^2 by 1 / m
      gives one of magnitude 1. */
  lemma InverseKernel(rw: real, rx: real, ry: real, rz: real, qw: real, qx: real, qy: real, qz: real, k: real, m: real)
    requires rw == qw * k && rx == qx * k && ry == qy * k && rz == qz * k && k * m == 1.0
    requires qw * qw + qx * qx + qy * qy + qz * qz == m * m
    ensures rw * rw + rx * rx + ry * ry + rz * rz == 1.0
  {
  }
}
