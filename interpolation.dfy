/** slerp(q1, q2, t) of utils.js: spherical linear interpolation along the shorter arc, with a
    normalised linear interpolation when the two quaternions are almost equal. */
module Interpolation {
  import opened RealMath
  import opened Geometry
  import opened Optional
  import opened Normalization

  /** The working copy of q2 and the dot product after the shorter-arc sign fix. */
  datatype Aligned = Aligned(q2: Quat, dot: real)

  /** q2 is negated when the dot product is negative, so that the working dot is never negative
      and is the dot product of q1 with the working q2. */
  function ShorterArc(q1: Quat, q2: Quat): (r: Aligned)
    ensures r.dot >= 0.0 && r.dot == QDot(q1, r.q2)
  {
    var dot := QDot(q1, q2);
    if dot < 0.0 then Aligned(QNeg(q2), -dot) else Aligned(q2, dot)
  }

  /** The sign fix happens exactly when the original dot product is negative. */
  lemma ShorterArcFlips(q1: Quat, q2: Quat)
    ensures QDot(q1, q2) < 0.0 ==> ShorterArc(q1, q2) == Aligned(QNeg(q2), -QDot(q1, q2))
    ensures QDot(q1, q2) >= 0.0 ==> ShorterArc(q1, q2) == Aligned(q2, QDot(q1, q2))
  {
  }

  /** Above this working dot product slerp falls back to a normalised lerp. */
  const Threshold: real := 0.9995

  /** q1 + t (q2 - q1), componentwise. */
  function Lerp(q1: Quat, q2: Quat, t: real): Quat {
    Quat(q1.w + t * (q2.w - q1.w), q1.x + t * (q2.x - q1.x), q1.y + t * (q2.y - q1.y), q1.z + t * (q2.z - q1.z))
  }

  /** a q1 + b q2, componentwise. */
  function Blend(a: real, q1: Quat, b: real, q2: Quat): Quat {
    Quat(a * q1.w + b * q2.w, a * q1.x + b * q2.x, a * q1.y + b * q2.y, a * q1.z + b * q2.z)
  }

  /** slerp(q1, q2, t). `None` stands for a division by zero: by sin(theta_0) in the standard
      branch, or by a zero magnitude in the lerp branch. */
  function Slerp(tr: Trig, q1: Quat, q2: Quat, t: real): Option<Quat> {
    var a := ShorterArc(q1, q2);
    if a.dot > Threshold then
      Normalize(tr, Lerp(q1, a.q2, t))
    else
      var theta := tr.acos(a.dot);
      var st := tr.sin(theta);
      if st == 0.0 then None
      else Some(Blend(tr.sin((1.0 - t) * theta) / st, q1, tr.sin(t * theta) / st, a.q2))
  }

  /** In the standard branch 0 <= dot <= 0.9995, so theta_0 lies in (0, pi/2] and
      sin(theta_0) > 0: that branch never divides by zero, whatever the inputs. */
  lemma StandardBranchDefined(tr: Trig, q1: Quat, q2: Quat, t: real)
    requires Lawful(tr) && ShorterArc(q1, q2).dot <= Threshold
    ensures tr.sin(tr.acos(ShorterArc(q1, q2).dot)) > 0.0
    ensures Slerp(tr, q1, q2, t).Some?
  {
    AngleOfSmallDot(tr, ShorterArc(q1, q2).dot);
  }

  lemma AngleOfSmallDot(tr: Trig, d: real)
    requires Lawful(tr) && 0.0 <= d <= Threshold
    ensures 0.0 < tr.acos(d) <= tr.pi / 2.0 && tr.sin(tr.acos(d)) > 0.0
  {
    AcosLess(tr, d, 1.0);
    if d > 0.0 {
      AcosLess(tr, 0.0, d);
    }
    SinPositiveOn(tr, tr.acos(d));
  }

  /** For unit inputs and t in [0, 1] the lerp branch is always defined and gives a unit
      quaternion: |lerp|^2 = (1 - t)^2 + t^2 + 2 t (1 - t) dot >= 1/2 when dot > 0. */
  lemma LerpBranchIsUnit(tr: Trig, q1: Quat, q2: Quat, t: real)
    requires Lawful(tr) && IsUnit(q1) && IsUnit(q2) && 0.0 <= t <= 1.0
    requires ShorterArc(q1, q2).dot > Threshold
    ensures Slerp(tr, q1, q2, t).Some? && IsUnit(Slerp(tr, q1, q2, t).value)
  {
    var a := ShorterArc(q1, q2);
    NegatedIsUnit(q2);
    var l := Lerp(q1, a.q2, t);
    LerpNonzero(q1, a.q2, t);
    NormalizeDefined(tr, l);
    NormalizeIsUnit(tr, l);
  }

  /** The lerp of two unit quaternions with a positive dot product is never 0. */
  lemma LerpNonzero(p: Quat, q: Quat, t: real)
    requires IsUnit(p) && IsUnit(q) && 0.0 <= t <= 1.0 && QDot(p, q) > 0.0
    ensures QNorm2(Lerp(p, q, t)) > 0.0
  {
    LerpFacts(p, q, t);
    LerpNonzeroFromFacts(p, q, t, Lerp(p, q, t));
  }

  /** r = a + t (b - a), one component of a lerp. */
  predicate LerpAt(a: real, b: real, t: real, r: real) {
    r == a + t * (b - a)
  }

  predicate IsLerp(p: Quat, q: Quat, t: real, l: Quat) {
    LerpAt(p.w, q.w, t, l.w) && LerpAt(p.x, q.x, t, l.x) && LerpAt(p.y, q.y, t, l.y) && LerpAt(p.z, q.z, t, l.z)
  }

  lemma LerpFacts(p: Quat, q: Quat, t: real)
    ensures IsLerp(p, q, t, Lerp(p, q, t))
  {
  }

  lemma LerpNonzeroFromFacts(p: Quat, q: Quat, t: real, l: Quat)
    requires IsUnit(p) && IsUnit(q) && 0.0 <= t <= 1.0 && QDot(p, q) > 0.0 && IsLerp(p, q, t, l)
    ensures QNorm2(l) > 0.0
  {
    var u := 1.0 - t;
    var w := t * u;
    LerpNorm(p, q, t, l, u, w);
    LerpWeightsPositive(p, q, l, t, u, w);
  }

  /** |l|^2 = u^2 |p|^2 + t^2 |q|^2 + 2 w (p . q) for l = p + t (q - p), u = 1 - t, w = t u. */
  lemma LerpNorm(p: Quat, q: Quat, t: real, l: Quat, u: real, w: real)
    requires IsLerp(p, q, t, l) && u == 1.0 - t && w == t * u
    ensures QNorm2(l) == u * u * QNorm2(p) + t * t * QNorm2(q) + 2.0 * w * QDot(p, q)
  {
    LerpNormKernel(p.w, p.x, p.y, p.z, q.w, q.x, q.y, q.z, t, l.w, l.x, l.y, l.z, u, w);
  }

  /** |a + t (b - a)|^2 = u^2 |a|^2 + t^2 |b|^2 + 2 p (a . b), with u = 1 - t and p = t u. */
  lemma LerpNormKernel(a0: real, a1: real, a2: real, a3: real, b0: real, b1: real, b2: real, b3: real, t: real,
                       l0: real, l1: real, l2: real, l3: real, u: real, p: real)
    requires LerpAt(a0, b0, t, l0) && LerpAt(a1, b1, t, l1) && LerpAt(a2, b2, t, l2) && LerpAt(a3, b3, t, l3)
    requires u == 1.0 - t && p == t * u
    ensures l0 * l0 + l1 * l1 + l2 * l2 + l3 * l3
         == u * u * (a0 * a0 + a1 * a1 + a2 * a2 + a3 * a3) + t * t * (b0 * b0 + b1 * b1 + b2 * b2 + b3 * b3)
            + 2.0 * p * (a0 * b0 + a1 * b1 + a2 * b2 + a3 * b3)
  {
    LerpComponent(a0, b0, t, u, p, l0);
    LerpComponent(a1, b1, t, u, p, l1);
    LerpComponent(a2, b2, t, u, p, l2);
    LerpComponent(a3, b3, t, u, p, l3);
  }

  lemma LerpComponent(a: real, b: real, t: real, u: real, p: real, l: real)
    requires LerpAt(a, b, t, l) && u == 1.0 - t && p == t * u
    ensures l * l == u * u * (a * a) + t * t * (b * b) + 2.0 * p * (a * b)
  {
  }

  /** With |p| = |q| = 1, u + t = 1 and u, t >= 0, u^2 + t^2 >= 1/2, and the cross term
      2 w (p . q) is not negative. */
  lemma LerpWeightsPositive(p: Quat, q: Quat, l: Quat, t: real, u: real, w: real)
    requires IsUnit(p) && IsUnit(q) && QDot(p, q) > 0.0
    requires 0.0 <= t <= 1.0 && u == 1.0 - t && w == t * u
    requires QNorm2(l) == u * u * QNorm2(p) + t * t * QNorm2(q) + 2.0 * w * QDot(p, q)
    ensures QNorm2(l) > 0.0
  {
    ProductNonNegative(t, u);
    ProductNonNegative(w, QDot(p, q));
    var e := u - t;
    assert e * e >= 0.0;
    assert u * u + t * t >= 0.5;
  }

  lemma ProductNonNegative(a: real, b: real)
    requires a >= 0.0 && b >= 0.0
    ensures a * b >= 0.0
  {
  }

  /** Interpolating a unit quaternion with itself gives it back: the dot product is 1, so the
      lerp branch is taken and lerp(q, q, t) = q. */
  lemma SlerpSelf(tr: Trig, q: Quat, t: real)
    requires Lawful(tr) && IsUnit(q)
    ensures Slerp(tr, q, q, t) == Some(q)
  {
    assert QDot(q, q) == 1.0;
    LerpSame(q, t);
    NormalizeUnit(tr, q);
  }

  lemma LerpSame(q: Quat, t: real)
    ensures Lerp(q, q, t) == q
  {
    assert t * (q.w - q.w) == 0.0 && t * (q.x - q.x) == 0.0;
    assert t * (q.y - q.y) == 0.0 && t * (q.z - q.z) == 0.0;
  }

  /** At t = 0 the result is q1, in both branches. */
  lemma SlerpStart(tr: Trig, q1: Quat, q2: Quat)
    requires Lawful(tr) && IsUnit(q1)
    ensures Slerp(tr, q1, q2, 0.0) == Some(q1)
  {
    var a := ShorterArc(q1, q2);
    if a.dot > Threshold {
      LerpStart(q1, a.q2);
      NormalizeUnit(tr, q1);
    } else {
      var theta := tr.acos(a.dot);
      AngleOfSmallDot(tr, a.dot);
      StandardStart(tr, q1, a.q2, theta);
    }
  }

  lemma LerpStart(q1: Quat, q2: Quat)
    ensures Lerp(q1, q2, 0.0) == q1
  {
  }

  /** With weights sin(theta) / sin(theta) = 1 and sin(0) / sin(theta) = 0 the blend is q1. */
  lemma StandardStart(tr: Trig, q1: Quat, q2: Quat, theta: real)
    requires Lawful(tr) && tr.sin(theta) > 0.0
    ensures Blend(tr.sin((1.0 - 0.0) * theta) / tr.sin(theta), q1, tr.sin(0.0 * theta) / tr.sin(theta), q2) == q1
  {
    assert (1.0 - 0.0) * theta == theta && 0.0 * theta == 0.0;
    BlendUnitWeights(q1, q2);
  }

  lemma BlendUnitWeights(q1: Quat, q2: Quat)
    ensures Blend(1.0, q1, 0.0, q2) == q1 && Blend(0.0, q1, 1.0, q2) == q2
  {
  }

  /** At t = 1 the result is the working q2, that is q2 or -q2, in both branches. */
  lemma SlerpEnd(tr: Trig, q1: Quat, q2: Quat)
    requires Lawful(tr) && IsUnit(q2)
    ensures Slerp(tr, q1, q2, 1.0) == Some(ShorterArc(q1, q2).q2)
  {
    var a := ShorterArc(q1, q2);
    NegatedIsUnit(q2);
    if a.dot > Threshold {
      LerpEnd(q1, a.q2);
      NormalizeUnit(tr, a.q2);
    } else {
      var theta := tr.acos(a.dot);
      AngleOfSmallDot(tr, a.dot);
      StandardEnd(tr, q1, a.q2, theta);
    }
  }

  lemma LerpEnd(q1: Quat, q2: Quat)
    ensures Lerp(q1, q2, 1.0) == q2
  {
  }

  /** With weights sin(0) / sin(theta) = 0 and sin(theta) / sin(theta) = 1 the blend is q2. */
  lemma StandardEnd(tr: Trig, q1: Quat, q2: Quat, theta: real)
    requires Lawful(tr) && tr.sin(theta) > 0.0
    ensures Blend(tr.sin((1.0 - 1.0) * theta) / tr.sin(theta), q1, tr.sin(1.0 * theta) / tr.sin(theta), q2) == q2
  {
    assert (1.0 - 1.0) * theta == 0.0 && 1.0 * theta == theta;
    BlendUnitWeights(q1, q2);
  }

  lemma NegatedIsUnit(q: Quat)
    requires IsUnit(q)
    ensures IsUnit(QNeg(q))
  {
    assert (-q.w) * (-q.w) == q.w * q.w && (-q.x) * (-q.x) == q.x * q.x;
    assert (-q.y) * (-q.y) == q.y * q.y && (-q.z) * (-q.z) == q.z * q.z;
  }
}
