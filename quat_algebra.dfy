/** Hamilton product and vector rotation (utils.js, multiplyQuaternions and
    rotateVectorByQuaternion), with the algebra that relates them. */
module QuatAlgebra {
  import opened Geometry

  /** multiplyQuaternions(q1, q2): the Hamilton product q1 q2, not normalised. */
  function Multiply(p: Quat, q: Quat): Quat {
    Quat(p.w * q.w - p.x * q.x - p.y * q.y - p.z * q.z,
         p.w * q.x + p.x * q.w + p.y * q.z - p.z * q.y,
         p.w * q.y - p.x * q.z + p.y * q.w + p.z * q.x,
         p.w * q.z + p.x * q.y - p.y * q.x + p.z * q.w)
  }

  /** rotateVectorByQuaternion(v, q): v + 2w (u x v) + 2 u x (u x v), u the vector part of q. */
  function Rotate(v: Vec3, q: Quat): Vec3 {
    var u := VectorPart(q);
    var uv := Cross(u, v);
    var uuv := Cross(u, uv);
    Add(v, Add(Scale(2.0 * q.w, uv), Scale(2.0, uuv)))
  }

  function Conjugate(q: Quat): Quat {
    Quat(q.w, -q.x, -q.y, -q.z)
  }

  /** The quaternion (0, v). */
  function Pure(v: Vec3): Quat {
    Quat(0.0, v.x, v.y, v.z)
  }

  /** (1, 0, 0, 0) is a left and a right identity of the product. */
  lemma MultiplyIdentity(q: Quat)
    ensures Multiply(Identity, q) == q && Multiply(q, Identity) == q
  {
  }

  /** Rotating by the identity quaternion leaves every vector unchanged. */
  lemma RotateByIdentity(v: Vec3)
    ensures Rotate(v, Quat(1.0, 0.0, 0.0, 0.0)) == v
  {
    var zero := Vec3(0.0, 0.0, 0.0);
    var u := VectorPart(Quat(1.0, 0.0, 0.0, 0.0));
    assert u == zero;
    assert Cross(u, v) == zero;
    assert Cross(u, Cross(u, v)) == zero;
    assert Scale(2.0 * 1.0, zero) == zero;
    assert Scale(2.0, zero) == zero;
  }

  /** |a b|^2 = |a|^2 |b|^2, so the product of unit quaternions is a unit quaternion. */
  lemma NormMultiplicative(a: Quat, b: Quat)
    ensures QNorm2(Multiply(a, b)) == QNorm2(a) * QNorm2(b)
  {
    ProductFacts(a, b);
    NormFromFacts(a, b, Multiply(a, b));
  }

  lemma MultiplyAssociative(a: Quat, b: Quat, c: Quat)
    ensures Multiply(Multiply(a, b), c) == Multiply(a, Multiply(b, c))
  {
    var p, s := Multiply(a, b), Multiply(b, c);
    ProductFacts(a, b);
    ProductFacts(b, c);
    ProductFacts(p, c);
    ProductFacts(a, s);
    AssociativeFromFacts(a, b, c, p, s, Multiply(p, c), Multiply(a, s));
  }

  lemma ConjugateOfProduct(a: Quat, b: Quat)
    ensures Conjugate(Multiply(a, b)) == Multiply(Conjugate(b), Conjugate(a))
  {
    ProductFacts(a, b);
    ProductFacts(Conjugate(b), Conjugate(a));
    ConjugateFromFacts(a, b, Multiply(a, b), Multiply(Conjugate(b), Conjugate(a)));
  }

  /** For a unit q the double-cross-product formula is the sandwich q (0, v) q*. */
  lemma RotateIsSandwich(v: Vec3, q: Quat)
    requires IsUnit(q)
    ensures Multiply(Multiply(q, Pure(v)), Conjugate(q)) == Pure(Rotate(v, q))
  {
    var u := VectorPart(q);
    var p := Multiply(q, Pure(v));
    var c := Cross(u, v);
    ProductFacts(q, Pure(v));
    ProductFacts(p, Conjugate(q));
    CrossFacts(u, v);
    CrossFacts(u, c);
    RotateFacts(v, q);
    SandwichFromFacts(v, q, Pure(v), Conjugate(q), p, Multiply(p, Conjugate(q)), c, Cross(u, c), Rotate(v, q));
  }

  /** Rotation by a unit quaternion preserves length. */
  lemma RotatePreservesLength(v: Vec3, q: Quat)
    requires IsUnit(q)
    ensures Norm2(Rotate(v, q)) == Norm2(v)
  {
    RotateIsSandwich(v, q);
    NormMultiplicative(q, Pure(v));
    NormMultiplicative(Multiply(q, Pure(v)), Conjugate(q));
    assert QNorm2(Conjugate(q)) == 1.0;
    assert QNorm2(Pure(Rotate(v, q))) == Norm2(Rotate(v, q));
  }

  /** Rotating by q1 and then by q2 is rotating by the product q2 q1. */
  lemma RotateCompose(v: Vec3, q1: Quat, q2: Quat)
    requires IsUnit(q1) && IsUnit(q2)
    ensures Rotate(Rotate(v, q1), q2) == Rotate(v, Multiply(q2, q1))
  {
    var p, q := Pure(v), Multiply(q2, q1);
    NormMultiplicative(q2, q1);
    assert IsUnit(q);
    RotateIsSandwich(v, q1);
    RotateIsSandwich(Rotate(v, q1), q2);
    RotateIsSandwich(v, q);
    calc {
      Pure(Rotate(Rotate(v, q1), q2));
      Multiply(Multiply(q2, Multiply(Multiply(q1, p), Conjugate(q1))), Conjugate(q2));
      { MultiplyAssociative(q2, Multiply(q1, p), Conjugate(q1)); }
      Multiply(Multiply(Multiply(q2, Multiply(q1, p)), Conjugate(q1)), Conjugate(q2));
      { MultiplyAssociative(q2, q1, p); }
      Multiply(Multiply(Multiply(q, p), Conjugate(q1)), Conjugate(q2));
      { MultiplyAssociative(Multiply(q, p), Conjugate(q1), Conjugate(q2)); }
      Multiply(Multiply(q, p), Multiply(Conjugate(q1), Conjugate(q2)));
      { ConjugateOfProduct(q2, q1); }
      Multiply(Multiply(q, p), Conjugate(q));
      Pure(Rotate(v, q));
    }
  }

  // The polynomial identities behind the lemmas above. Each component equation is a predicate
  // on reals, so that a fact about quaternions is passed on to a kernel by matching whole
  // predicates, and the arithmetic is met only in the kernels, where every value is a variable.
  // Every kernel, however many arguments it takes, is a lemma the verifier proves: its requires
  // define the named values, and its ensures is a polynomial identity in them, not an axiom.

  /** r is the w component of the Hamilton product (a0, a1, a2, a3) (b0, b1, b2, b3); likewise X, Y, Z. */
  predicate HamW(a0: real, a1: real, a2: real, a3: real, b0: real, b1: real, b2: real, b3: real, r: real) {
    r == a0 * b0 - a1 * b1 - a2 * b2 - a3 * b3
  }

  predicate HamX(a0: real, a1: real, a2: real, a3: real, b0: real, b1: real, b2: real, b3: real, r: real) {
    r == a0 * b1 + a1 * b0 + a2 * b3 - a3 * b2
  }

  predicate HamY(a0: real, a1: real, a2: real, a3: real, b0: real, b1: real, b2: real, b3: real, r: real) {
    r == a0 * b2 - a1 * b3 + a2 * b0 + a3 * b1
  }

  predicate HamZ(a0: real, a1: real, a2: real, a3: real, b0: real, b1: real, b2: real, b3: real, r: real) {
    r == a0 * b3 + a1 * b2 - a2 * b1 + a3 * b0
  }

  predicate IsProduct(p: Quat, q: Quat, r: Quat) {
    && HamW(p.w, p.x, p.y, p.z, q.w, q.x, q.y, q.z, r.w)
    && HamX(p.w, p.x, p.y, p.z, q.w, q.x, q.y, q.z, r.x)
    && HamY(p.w, p.x, p.y, p.z, q.w, q.x, q.y, q.z, r.y)
    && HamZ(p.w, p.x, p.y, p.z, q.w, q.x, q.y, q.z, r.z)
  }

  lemma ProductFacts(p: Quat, q: Quat)
    ensures IsProduct(p, q, Multiply(p, q))
  {
  }

  /** r = a d - b c, one component of a cross product. */
  predicate Det(a: real, b: real, c: real, d: real, r: real) {
    r == a * d - b * c
  }

  predicate IsCross(a: Vec3, b: Vec3, c: Vec3) {
    Det(a.y, a.z, b.y, b.z, c.x) && Det(a.z, a.x, b.z, b.x, c.y) && Det(a.x, a.y, b.x, b.y, c.z)
  }

  lemma CrossFacts(a: Vec3, b: Vec3)
    ensures IsCross(a, b, Cross(a, b))
  {
  }

  /** r = v + (2 w c + 2 d), one component of the rotation formula. */
  predicate RotSum(v: real, w: real, c: real, d: real, r: real) {
    r == v + (2.0 * w * c + 2.0 * d)
  }

  predicate IsRotationSum(v: Vec3, w: real, c: Vec3, d: Vec3, r: Vec3) {
    RotSum(v.x, w, c.x, d.x, r.x) && RotSum(v.y, w, c.y, d.y, r.y) && RotSum(v.z, w, c.z, d.z, r.z)
  }

  lemma RotateFacts(v: Vec3, q: Quat)
    ensures IsRotationSum(v, q.w, Cross(VectorPart(q), v), Cross(VectorPart(q), Cross(VectorPart(q), v)), Rotate(v, q))
  {
    var c := Cross(VectorPart(q), v);
    SumFacts(v, q.w, c, Cross(VectorPart(q), c));
  }

  lemma SumFacts(v: Vec3, w: real, c: Vec3, d: Vec3)
    ensures IsRotationSum(v, w, c, d, Add(v, Add(Scale(2.0 * w, c), Scale(2.0, d))))
  {
  }

  predicate UnitSum(w: real, x: real, y: real, z: real) {
    w * w + x * x + y * y + z * z == 1.0
  }

  lemma AssociativeFromFacts(a: Quat, b: Quat, c: Quat, p: Quat, s: Quat, l: Quat, r: Quat)
    requires IsProduct(a, b, p) && IsProduct(b, c, s) && IsProduct(p, c, l) && IsProduct(a, s, r)
    ensures l == r
  {
    AssociativeKernel(a.w, a.x, a.y, a.z, b.w, b.x, b.y, b.z, c.w, c.x, c.y, c.z,
                      p.w, p.x, p.y, p.z, s.w, s.x, s.y, s.z, l.w, l.x, l.y, l.z, r.w, r.x, r.y, r.z);
  }

  lemma ConjugateFromFacts(a: Quat, b: Quat, p: Quat, r: Quat)
    requires IsProduct(a, b, p) && IsProduct(Conjugate(b), Conjugate(a), r)
    ensures Conjugate(p) == r
  {
    var ka, kb := Conjugate(a), Conjugate(b);
    ConjugateKernel(a.w, a.x, a.y, a.z, b.w, b.x, b.y, b.z, ka.w, ka.x, ka.y, ka.z, kb.w, kb.x, kb.y, kb.z,
                    p.w, p.x, p.y, p.z, r.w, r.x, r.y, r.z);
  }

  lemma SandwichFromFacts(v: Vec3, q: Quat, e: Quat, k: Quat, p: Quat, l: Quat, c: Vec3, d: Vec3, r: Vec3)
    requires UnitSum(q.w, q.x, q.y, q.z)
    requires e.w == 0.0 && e.x == v.x && e.y == v.y && e.z == v.z
    requires k.w == q.w && k.x == -q.x && k.y == -q.y && k.z == -q.z
    requires IsProduct(q, e, p) && IsProduct(p, k, l)
    requires IsCross(VectorPart(q), v, c) && IsCross(VectorPart(q), c, d)
    requires IsRotationSum(v, q.w, c, d, r)
    ensures l.w == 0.0 && l.x == r.x && l.y == r.y && l.z == r.z
  {
    SandwichKernel(q.w, q.x, q.y, q.z, v.x, v.y, v.z, e.w, e.x, e.y, e.z, k.w, k.x, k.y, k.z, p.w, p.x, p.y, p.z,
                   l.w, l.x, l.y, l.z, c.x, c.y, c.z, d.x, d.y, d.z, r.x, r.y, r.z);
  }

  /** (a b) c = a (b c), with p = a b, s = b c, l = p c and r = a s. */
  lemma AssociativeKernel(aw: real, ax: real, ay: real, az: real, bw: real, bx: real, b_y: real, bz: real, cw: real, cx: real, cy: real, cz: real, p0: real, p1: real, p2: real, p3: real, s0: real, s1: real, s2: real, s3: real, l0: real, l1: real, l2: real, l3: real, r0: real, r1: real, r2: real, r3: real)
    requires HamW(aw, ax, ay, az, bw, bx, b_y, bz, p0) && HamX(aw, ax, ay, az, bw, bx, b_y, bz, p1)
    requires HamY(aw, ax, ay, az, bw, bx, b_y, bz, p2) && HamZ(aw, ax, ay, az, bw, bx, b_y, bz, p3)
    requires HamW(bw, bx, b_y, bz, cw, cx, cy, cz, s0) && HamX(bw, bx, b_y, bz, cw, cx, cy, cz, s1)
    requires HamY(bw, bx, b_y, bz, cw, cx, cy, cz, s2) && HamZ(bw, bx, b_y, bz, cw, cx, cy, cz, s3)
    requires HamW(p0, p1, p2, p3, cw, cx, cy, cz, l0) && HamX(p0, p1, p2, p3, cw, cx, cy, cz, l1)
    requires HamY(p0, p1, p2, p3, cw, cx, cy, cz, l2) && HamZ(p0, p1, p2, p3, cw, cx, cy, cz, l3)
    requires HamW(aw, ax, ay, az, s0, s1, s2, s3, r0) && HamX(aw, ax, ay, az, s0, s1, s2, s3, r1)
    requires HamY(aw, ax, ay, az, s0, s1, s2, s3, r2) && HamZ(aw, ax, ay, az, s0, s1, s2, s3, r3)
    ensures l0 == r0 && l1 == r1 && l2 == r2 && l3 == r3
  {
  }

  /** (a b)* = b* a*, with p = a b, ka = a*, kb = b* and r = kb ka. */
  lemma ConjugateKernel(aw: real, ax: real, ay: real, az: real, bw: real, bx: real, b_y: real, bz: real, ka0: real, ka1: real, ka2: real, ka3: real, kb0: real, kb1: real, kb2: real, kb3: real, p0: real, p1: real, p2: real, p3: real, r0: real, r1: real, r2: real, r3: real)
    requires HamW(aw, ax, ay, az, bw, bx, b_y, bz, p0) && HamX(aw, ax, ay, az, bw, bx, b_y, bz, p1)
    requires HamY(aw, ax, ay, az, bw, bx, b_y, bz, p2) && HamZ(aw, ax, ay, az, bw, bx, b_y, bz, p3)
    requires ka0 == aw && ka1 == -ax && ka2 == -ay && ka3 == -az
    requires kb0 == bw && kb1 == -bx && kb2 == -b_y && kb3 == -bz
    requires HamW(kb0, kb1, kb2, kb3, ka0, ka1, ka2, ka3, r0) && HamX(kb0, kb1, kb2, kb3, ka0, ka1, ka2, ka3, r1)
    requires HamY(kb0, kb1, kb2, kb3, ka0, ka1, ka2, ka3, r2) && HamZ(kb0, kb1, kb2, kb3, ka0, ka1, ka2, ka3, r3)
    ensures p0 == r0 && -p1 == r1 && -p2 == r2 && -p3 == r3
  {
  }

  /** For a unit q = (w, u) and e = (0, v): with k = q*, p = q e, l = p k, c = u x v, d = u x c and r = v + 2w c + 2d, l = (0, r). */
  lemma SandwichKernel(w: real, x: real, y: real, z: real, vx: real, vy: real, vz: real, e0: real, e1: real, e2: real, e3: real, k0: real, k1: real, k2: real, k3: real, p0: real, p1: real, p2: real, p3: real, l0: real, l1: real, l2: real, l3: real, c0: real, c1: real, c2: real, d0: real, d1: real, d2: real, r0: real, r1: real, r2: real)
    requires UnitSum(w, x, y, z)
    requires e0 == 0.0 && e1 == vx && e2 == vy && e3 == vz
    requires k0 == w && k1 == -x && k2 == -y && k3 == -z
    requires HamW(w, x, y, z, e0, e1, e2, e3, p0) && HamX(w, x, y, z, e0, e1, e2, e3, p1)
    requires HamY(w, x, y, z, e0, e1, e2, e3, p2) && HamZ(w, x, y, z, e0, e1, e2, e3, p3)
    requires HamW(p0, p1, p2, p3, k0, k1, k2, k3, l0) && HamX(p0, p1, p2, p3, k0, k1, k2, k3, l1)
    requires HamY(p0, p1, p2, p3, k0, k1, k2, k3, l2) && HamZ(p0, p1, p2, p3, k0, k1, k2, k3, l3)
    requires Det(y, z, vy, vz, c0) && Det(z, x, vz, vx, c1) && Det(x, y, vx, vy, c2)
    requires Det(y, z, c1, c2, d0) && Det(z, x, c2, c0, d1) && Det(x, y, c0, c1, d2)
    requires RotSum(vx, w, c0, d0, r0) && RotSum(vy, w, c1, d1, r1) && RotSum(vz, w, c2, d2, r2)
    ensures l0 == 0.0 && l1 == r0 && l2 == r1 && l3 == r2
  {
    var m := w * w + x * x + y * y + z * z - 1.0;
    SandwichW(w, x, y, z, vx, vy, vz, e0, e1, e2, e3, k0, k1, k2, k3, p0, p1, p2, p3, l0);
    SandwichX(w, x, y, z, vx, vy, vz, e0, e1, e2, e3, k0, k1, k2, k3, p0, p1, p2, p3, l1, c0, c1, c2, d0, r0, m);
    SandwichY(w, x, y, z, vx, vy, vz, e0, e1, e2, e3, k0, k1, k2, k3, p0, p1, p2, p3, l2, c0, c1, c2, d1, r1, m);
    SandwichZ(w, x, y, z, vx, vy, vz, e0, e1, e2, e3, k0, k1, k2, k3, p0, p1, p2, p3, l3, c0, c1, c2, d2, r2, m);
    assert m == 0.0;
  }

  // The four components of q (0, v) q* = (0, r + (|q|^2 - 1) v) for any q, unit or not: each is
  // a polynomial identity in the atoms it names.

  lemma SandwichW(w: real, x: real, y: real, z: real, vx: real, vy: real, vz: real, e0: real, e1: real, e2: real, e3: real, k0: real, k1: real, k2: real, k3: real, p0: real, p1: real, p2: real, p3: real, l0: real)
    requires e0 == 0.0 && e1 == vx && e2 == vy && e3 == vz
    requires k0 == w && k1 == -x && k2 == -y && k3 == -z
    requires HamW(w, x, y, z, e0, e1, e2, e3, p0) && HamX(w, x, y, z, e0, e1, e2, e3, p1)
    requires HamY(w, x, y, z, e0, e1, e2, e3, p2) && HamZ(w, x, y, z, e0, e1, e2, e3, p3)
    requires HamW(p0, p1, p2, p3, k0, k1, k2, k3, l0)
    ensures l0 == 0.0
  {
  }

  lemma SandwichX(w: real, x: real, y: real, z: real, vx: real, vy: real, vz: real, e0: real, e1: real, e2: real, e3: real, k0: real, k1: real, k2: real, k3: real, p0: real, p1: real, p2: real, p3: real, l1: real, c0: real, c1: real, c2: real, d0: real, r0: real, m: real)
    requires e0 == 0.0 && e1 == vx && e2 == vy && e3 == vz
    requires k0 == w && k1 == -x && k2 == -y && k3 == -z
    requires HamW(w, x, y, z, e0, e1, e2, e3, p0) && HamX(w, x, y, z, e0, e1, e2, e3, p1)
    requires HamY(w, x, y, z, e0, e1, e2, e3, p2) && HamZ(w, x, y, z, e0, e1, e2, e3, p3)
    requires HamX(p0, p1, p2, p3, k0, k1, k2, k3, l1)
    requires Det(y, z, vy, vz, c0) && Det(z, x, vz, vx, c1) && Det(x, y, vx, vy, c2)
    requires Det(y, z, c1, c2, d0) && RotSum(vx, w, c0, d0, r0)
    requires m == w * w + x * x + y * y + z * z - 1.0
    ensures l1 == r0 + m * vx
  {
  }

  lemma SandwichY(w: real, x: real, y: real, z: real, vx: real, vy: real, vz: real, e0: real, e1: real, e2: real, e3: real, k0: real, k1: real, k2: real, k3: real, p0: real, p1: real, p2: real, p3: real, l2: real, c0: real, c1: real, c2: real, d1: real, r1: real, m: real)
    requires e0 == 0.0 && e1 == vx && e2 == vy && e3 == vz
    requires k0 == w && k1 == -x && k2 == -y && k3 == -z
    requires HamW(w, x, y, z, e0, e1, e2, e3, p0) && HamX(w, x, y, z, e0, e1, e2, e3, p1)
    requires HamY(w, x, y, z, e0, e1, e2, e3, p2) && HamZ(w, x, y, z, e0, e1, e2, e3, p3)
    requires HamY(p0, p1, p2, p3, k0, k1, k2, k3, l2)
    requires Det(y, z, vy, vz, c0) && Det(z, x, vz, vx, c1) && Det(x, y, vx, vy, c2)
    requires Det(z, x, c2, c0, d1) && RotSum(vy, w, c1, d1, r1)
    requires m == w * w + x * x + y * y + z * z - 1.0
    ensures l2 == r1 + m * vy
  {
  }

  lemma SandwichZ(w: real, x: real, y: real, z: real, vx: real, vy: real, vz: real, e0: real, e1: real, e2: real, e3: real, k0: real, k1: real, k2: real, k3: real, p0: real, p1: real, p2: real, p3: real, l3: real, c0: real, c1: real, c2: real, d2: real, r2: real, m: real)
    requires e0 == 0.0 && e1 == vx && e2 == vy && e3 == vz
    requires k0 == w && k1 == -x && k2 == -y && k3 == -z
    requires HamW(w, x, y, z, e0, e1, e2, e3, p0) && HamX(w, x, y, z, e0, e1, e2, e3, p1)
    requires HamY(w, x, y, z, e0, e1, e2, e3, p2) && HamZ(w, x, y, z, e0, e1, e2, e3, p3)
    requires HamZ(p0, p1, p2, p3, k0, k1, k2, k3, l3)
    requires Det(y, z, vy, vz, c0) && Det(z, x, vz, vx, c1) && Det(x, y, vx, vy, c2)
    requires Det(x, y, c0, c1, d2) && RotSum(vz, w, c2, d2, r2)
    requires m == w * w + x * x + y * y + z * z - 1.0
    ensures l3 == r2 + m * vz
  {
  }

  /** |a b|^2 = |a|^2 |b|^2, with r = a b. */
  lemma NormFromFacts(a: Quat, b: Quat, r: Quat)
    requires IsProduct(a, b, r)
    ensures QNorm2(r) == QNorm2(a) * QNorm2(b)
  {
    FourSquares(a.w, a.x, a.y, a.z, b.w, b.x, b.y, b.z, r.w, r.x, r.y, r.z);
  }

  /** Euler's four-square identity, in the components of the Hamilton product. */
  lemma FourSquares(aw: real, ax: real, ay: real, az: real, bw: real, bx: real, b_y: real, bz: real, r0: real, r1: real, r2: real, r3: real)
    requires HamW(aw, ax, ay, az, bw, bx, b_y, bz, r0) && HamX(aw, ax, ay, az, bw, bx, b_y, bz, r1)
    requires HamY(aw, ax, ay, az, bw, bx, b_y, bz, r2) && HamZ(aw, ax, ay, az, bw, bx, b_y, bz, r3)
    ensures r0 * r0 + r1 * r1 + r2 * r2 + r3 * r3 == (aw * aw + ax * ax + ay * ay + az * az) * (bw * bw + bx * bx + b_y * b_y + bz * bz)
  {
  }
}
