/** The smooth pseudo-random quaternion generators: pseudoRandomQuaternion and
    pseudoRandom2DQuaternion of utils.js, and pseudoRepeatingRandomQuaternion of the
    all_rp2_representations sketch. Each builds four trigonometric components from the clock t
    and divides them by their magnitude. */
module Generators {
  import opened RealMath
  import opened Geometry
  import opened Optional
  import opened Normalization

  /** The components of pseudoRandomQuaternion(t) before normalisation. */
  function RandomRaw(tr: Trig, t: real): Quat {
    Quat(tr.cos(-t * 0.5 + 1.0), tr.sin(-t * 0.3), tr.cos(t * 0.2 + 1.0), tr.sin(t * 0.2 + 2.0))
  }

  function PseudoRandomQuaternion(tr: Trig, t: real): Option<Quat> {
    Normalize(tr, RandomRaw(tr, t))
  }

  /** The components of pseudoRandom2DQuaternion(t) before normalisation: x is 0. */
  function Random2DRaw(tr: Trig, t: real): Quat {
    Quat(tr.cos(-t * 0.5 + 1.0), 0.0, tr.cos(t * 0.2 + 1.0), tr.sin(t * 0.2 + 2.0))
  }

  function PseudoRandom2DQuaternion(tr: Trig, t: real): Option<Quat> {
    Normalize(tr, Random2DRaw(tr, t))
  }

  /** The components of pseudoRepeatingRandomQuaternion(t) before normalisation: x is 0. */
  function RepeatingRaw(tr: Trig, t: real): Quat {
    Quat(tr.cos(-t * 3.0 + 1.0), 0.0, tr.cos(t * 1.0 + 1.0), tr.sin(t * 3.0 + 2.0))
  }

  function PseudoRepeatingRandomQuaternion(tr: Trig, t: real): Option<Quat> {
    Normalize(tr, RepeatingRaw(tr, t))
  }

  /** What every generator promises about its normalised result n of the raw components r:
      it is defined exactly when |r| > 0, and then it is a unit quaternion. */
  predicate NormalisedFrom(r: Quat, n: Option<Quat>) {
    (n.Some? <==> QNorm2(r) > 0.0) && (n.Some? ==> IsUnit(n.value))
  }

  lemma Normalised(tr: Trig, r: Quat)
    requires Lawful(tr)
    ensures NormalisedFrom(r, Normalize(tr, r))
  {
    NormalizeDefined(tr, r);
    if QNorm2(r) > 0.0 {
      NormalizeIsUnit(tr, r);
    }
  }

  /** With the chosen constants the magnitude never reaches zero: the y and z components
      cos(0.2 t + 1) and sin(0.2 t + 2) are never both zero, so the result is always defined. */
  lemma PseudoRandomQuaternionIsUnit(tr: Trig, t: real)
    requires Lawful(tr)
    ensures NormalisedFrom(RandomRaw(tr, t), PseudoRandomQuaternion(tr, t))
    ensures QNorm2(RandomRaw(tr, t)) > 0.0
    ensures PseudoRandomQuaternion(tr, t).Some? && IsUnit(PseudoRandomQuaternion(tr, t).value)
  {
    OneApart(tr, t * 0.2 + 1.0, t * 0.2 + 2.0);
    SomeSquarePositive(RandomRaw(tr, t));
    Normalised(tr, RandomRaw(tr, t));
  }

  /** The 2D generator gives a unit quaternion about axes in the y-z plane: x stays 0. Its y and
      z components are those of pseudoRandomQuaternion, so it is always defined too. */
  lemma PseudoRandom2DQuaternionIsUnit(tr: Trig, t: real)
    requires Lawful(tr)
    ensures NormalisedFrom(Random2DRaw(tr, t), PseudoRandom2DQuaternion(tr, t))
    ensures QNorm2(Random2DRaw(tr, t)) > 0.0
    ensures PseudoRandom2DQuaternion(tr, t).Some? && IsUnit(PseudoRandom2DQuaternion(tr, t).value)
    ensures PseudoRandom2DQuaternion(tr, t).value.x == 0.0
  {
    OneApart(tr, t * 0.2 + 1.0, t * 0.2 + 2.0);
    SomeSquarePositive(Random2DRaw(tr, t));
    Normalised(tr, Random2DRaw(tr, t));
  }

  /** The repeating generator is always defined as well: cos(t + 1) and sin(3 t + 2) are never
      both zero. */
  lemma PseudoRepeatingRandomQuaternionIsUnit(tr: Trig, t: real)
    requires Lawful(tr)
    ensures NormalisedFrom(RepeatingRaw(tr, t), PseudoRepeatingRandomQuaternion(tr, t))
    ensures QNorm2(RepeatingRaw(tr, t)) > 0.0
    ensures PseudoRepeatingRandomQuaternion(tr, t).Some? && IsUnit(PseudoRepeatingRandomQuaternion(tr, t).value)
    ensures PseudoRepeatingRandomQuaternion(tr, t).value.x == 0.0
  {
    TripledMinusOne(tr, t * 1.0 + 1.0, t * 3.0 + 2.0);
    SomeSquarePositive(RepeatingRaw(tr, t));
    Normalised(tr, RepeatingRaw(tr, t));
  }

  /** cos a and sin (a + 1) are never both zero: that would make 1 an odd multiple of pi/2. */
  lemma OneApart(tr: Trig, a: real, b: real)
    requires Lawful(tr) && b == a + 1.0
    ensures tr.cos(a) != 0.0 || tr.sin(b) != 0.0
  {
    if tr.cos(a) == 0.0 {
      var j := CosZeroAt(tr, a);
      forall k: int
        ensures Turns(tr, k) != b
      {
        OddHalfTurnsNotOne(tr, k - j - 1);
        assert OddHalfTurns(tr, k - j - 1) == Turns(tr, k) - OddHalfTurns(tr, j);
      }
      assert SinZeros(tr, b);
    }
  }

  /** cos a and sin (3 a - 1) are never both zero: that would make 1 an odd multiple of pi/2. */
  lemma TripledMinusOne(tr: Trig, a: real, b: real)
    requires Lawful(tr) && b == 3.0 * a - 1.0
    ensures tr.cos(a) != 0.0 || tr.sin(b) != 0.0
  {
    if tr.cos(a) == 0.0 {
      var j := CosZeroAt(tr, a);
      forall k: int
        ensures Turns(tr, k) != b
      {
        OddHalfTurnsNotOne(tr, 3 * j + 1 - k);
        assert OddHalfTurns(tr, 3 * j + 1 - k) == 3.0 * OddHalfTurns(tr, j) - Turns(tr, k);
      }
      assert SinZeros(tr, b);
    }
  }

  /** A quaternion with a nonzero y or z component has a positive magnitude. */
  lemma SomeSquarePositive(q: Quat)
    requires q.y != 0.0 || q.z != 0.0
    ensures QNorm2(q) > 0.0
  {
    SumOfSquaresPositive(q.w, q.x, q.y, q.z, QNorm2(q));
  }

  /** The sum is non-negative, and it is not 0 because y or z is not. */
  lemma SumOfSquaresPositive(w: real, x: real, y: real, z: real, n: real)
    requires y != 0.0 || z != 0.0
    requires n == w * w + x * x + y * y + z * z
    ensures n > 0.0
  {
    assert w * w >= 0.0 && x * x >= 0.0 && y * y >= 0.0 && z * z >= 0.0;
    assert n >= y * y && n >= z * z;
    if n == 0.0 {
      SquareZero(y);
      SquareZero(z);
    }
  }
}
