/** Dividing a quaternion by its magnitude, as the generators and the lerp branch of slerp in
    utils.js do. */
module Normalization {
  import opened RealMath
  import opened Geometry
  import opened Optional

  /** q / sqrt(|q|^2). A zero magnitude makes every component 0 / 0, which is `None`. */
  function Normalize(tr: Trig, q: Quat): Option<Quat> {
    var mag := tr.sqrt(QNorm2(q));
    if mag == 0.0 then None else Some(Divide(q, mag))
  }

  /** Each component divided by m. */
  function Divide(q: Quat, m: real): Quat
    requires m != 0.0
  {
    Quat(q.w / m, q.x / m, q.y / m, q.z / m)
  }

  /** The result is defined exactly when the magnitude is positive. */
  lemma NormalizeDefined(tr: Trig, q: Quat)
    requires Lawful(tr)
    ensures Normalize(tr, q).Some? <==> QNorm2(q) > 0.0
  {
    QNorm2NonNegative(q);
    SqrtZero(tr, QNorm2(q));
  }

  /** A defined result is a unit quaternion. */
  lemma NormalizeIsUnit(tr: Trig, q: Quat)
    requires Lawful(tr) && QNorm2(q) > 0.0
    ensures Normalize(tr, q).Some? && IsUnit(Normalize(tr, q).value)
  {
    NormalizeDefined(tr, q);
    SqrtSquare(tr, QNorm2(q));
    DivideByRoot(q, tr.sqrt(QNorm2(q)));
  }

  /** Dividing by a positive root of the squared magnitude gives a unit quaternion. */
  lemma DivideByRoot(q: Quat, m: real)
    requires m > 0.0 && m * m == QNorm2(q)
    ensures IsUnit(Divide(q, m))
  {
    var r := Divide(q, m);
    DivideIsProduct(q, m);
    InverseKernel(r.w, r.x, r.y, r.z, q.w, q.x, q.y, q.z, 1.0 / m, m);
  }

  /** Dividing by m is multiplying by 1 / m. */
  lemma DivideIsProduct(q: Quat, m: real)
    requires m != 0.0
    ensures var k := 1.0 / m; var r := Divide(q, m);
            r.w == q.w * k && r.x == q.x * k && r.y == q.y * k && r.z == q.z * k && k * m == 1.0
  {
  }

  /** A unit quaternion is its own normalisation. */
  lemma NormalizeUnit(tr: Trig, q: Quat)
    requires Lawful(tr) && IsUnit(q)
    ensures Normalize(tr, q) == Some(q)
  {
    SqrtOne(tr);
    assert QNorm2(q) == 1.0;
  }
}
