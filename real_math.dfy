/** The transcendental functions the sketches call (JavaScript's `Math`, p5's `sin`/`cos`/`sqrt`
    wrappers and Python's `math`), passed to every operation as values, together with the few
    facts about them that the proofs use. */
module RealMath {

  /** sin, cos, asin, acos, atan2(y, x), sqrt and the constant PI. */
  datatype Trig = Trig(
    sin: real -> real,
    cos: real -> real,
    asin: real -> real,
    acos: real -> real,
    atan2: (real, real) -> real,
    sqrt: real -> real,
    pi: real)

  /** Each conjunct is a true statement about the real functions, so some `tr` satisfies it.
      Every quantified fact is wrapped in a predicate of its own, so that it is used only where
      a proof asks for it through the lemma below that states it. */
  ghost predicate Lawful(tr: Trig) {
    && 3.14 < tr.pi < 3.15
    && tr.sin(0.0) == 0.0
    && tr.cos(0.0) == 1.0
    && tr.cos(tr.pi) == -1.0
    && tr.acos(1.0) == 0.0
    && tr.acos(0.0) == tr.pi / 2.0
    && (forall a :: Pythagorean(tr, a))
    && (forall a :: SinPositive(tr, a))
    && (forall a :: SqrtAt(tr, a))
    && (forall c :: AcosRange(tr, c))
    && (forall c, d :: AcosDecreasing(tr, c, d))
    && (forall a :: AcosOfCos(tr, a))
    && (forall c :: AsinRange(tr, c))
    && (forall a :: SinZeros(tr, a))
    && (forall a :: CosZeros(tr, a))
  }

  /** k pi, a zero of sin. */
  function Turns(tr: Trig, k: int): real {
    k as real * tr.pi
  }

  /** (k + 1/2) pi, a zero of cos. */
  function OddHalfTurns(tr: Trig, k: int): real {
    (k as real + 0.5) * tr.pi
  }

  /** sin^2 a + cos^2 a = 1. */
  ghost predicate Pythagorean(tr: Trig, a: real) {
    tr.sin(a) * tr.sin(a) + tr.cos(a) * tr.cos(a) == 1.0
  }

  /** sin is positive on (0, pi). */
  ghost predicate SinPositive(tr: Trig, a: real) {
    0.0 < a < tr.pi ==> tr.sin(a) > 0.0
  }

  /** sqrt(a) is the non-negative square root of a, for a >= 0. */
  ghost predicate SqrtAt(tr: Trig, a: real) {
    0.0 <= a ==> tr.sqrt(a) >= 0.0 && tr.sqrt(a) * tr.sqrt(a) == a
  }

  /** acos maps [-1, 1] into [0, pi]. */
  ghost predicate AcosRange(tr: Trig, c: real) {
    -1.0 <= c <= 1.0 ==> 0.0 <= tr.acos(c) <= tr.pi
  }

  /** acos is strictly decreasing on [-1, 1]. */
  ghost predicate AcosDecreasing(tr: Trig, c: real, d: real) {
    -1.0 <= c < d <= 1.0 ==> tr.acos(d) < tr.acos(c)
  }

  /** acos inverts cos on [0, pi]. */
  ghost predicate AcosOfCos(tr: Trig, a: real) {
    0.0 <= a <= tr.pi ==> tr.acos(tr.cos(a)) == a
  }

  /** asin maps [-1, 1] into [-pi/2, pi/2]. */
  ghost predicate AsinRange(tr: Trig, c: real) {
    -1.0 <= c <= 1.0 ==> -tr.pi / 2.0 <= tr.asin(c) <= tr.pi / 2.0
  }

  /** sin vanishes only at the multiples of pi. */
  ghost predicate SinZeros(tr: Trig, a: real) {
    tr.sin(a) == 0.0 ==> exists k: int :: Turns(tr, k) == a
  }

  /** cos vanishes only at the odd multiples of pi/2. */
  ghost predicate CosZeros(tr: Trig, a: real) {
    tr.cos(a) == 0.0 ==> exists k: int :: OddHalfTurns(tr, k) == a
  }

  lemma SinCosSquares(tr: Trig, a: real)
    requires Lawful(tr)
    ensures tr.sin(a) * tr.sin(a) + tr.cos(a) * tr.cos(a) == 1.0
  {
    assert Pythagorean(tr, a);
  }

  lemma SinPositiveOn(tr: Trig, a: real)
    requires Lawful(tr) && 0.0 < a < tr.pi
    ensures tr.sin(a) > 0.0
  {
    assert SinPositive(tr, a);
  }

  lemma SqrtSquare(tr: Trig, a: real)
    requires Lawful(tr) && a >= 0.0
    ensures tr.sqrt(a) >= 0.0 && tr.sqrt(a) * tr.sqrt(a) == a
  {
    assert SqrtAt(tr, a);
  }

  lemma AcosBounds(tr: Trig, c: real)
    requires Lawful(tr) && -1.0 <= c <= 1.0
    ensures 0.0 <= tr.acos(c) <= tr.pi
  {
    assert AcosRange(tr, c);
  }

  lemma AcosLess(tr: Trig, c: real, d: real)
    requires Lawful(tr) && -1.0 <= c < d <= 1.0
    ensures tr.acos(d) < tr.acos(c)
  {
    assert AcosDecreasing(tr, c, d);
  }

  lemma AcosCos(tr: Trig, a: real)
    requires Lawful(tr) && 0.0 <= a <= tr.pi
    ensures tr.acos(tr.cos(a)) == a
  {
    assert AcosOfCos(tr, a);
  }

  lemma AsinBounds(tr: Trig, c: real)
    requires Lawful(tr) && -1.0 <= c <= 1.0
    ensures -tr.pi / 2.0 <= tr.asin(c) <= tr.pi / 2.0
  {
    assert AsinRange(tr, c);
  }

  lemma SinZeroAt(tr: Trig, a: real) returns (k: int)
    requires Lawful(tr) && tr.sin(a) == 0.0
    ensures Turns(tr, k) == a
  {
    assert SinZeros(tr, a);
    k :| Turns(tr, k) == a;
  }

  lemma CosZeroAt(tr: Trig, a: real) returns (k: int)
    requires Lawful(tr) && tr.cos(a) == 0.0
    ensures OddHalfTurns(tr, k) == a
  {
    assert CosZeros(tr, a);
    k :| OddHalfTurns(tr, k) == a;
  }

  /** No odd multiple of pi/2 is 1, since pi/2 > 1. */
  lemma OddHalfTurnsNotOne(tr: Trig, m: int)
    requires Lawful(tr)
    ensures OddHalfTurns(tr, m) != 1.0
  {
    var h := m as real + 0.5;
    if m >= 0 {
      assert h >= 0.5;
      assert h * tr.pi >= 0.5 * tr.pi;
    } else {
      assert h <= -0.5;
      assert h * tr.pi <= -0.5 * tr.pi;
    }
  }

  /** A non-negative square root is unique. */
  lemma SqrtUnique(tr: Trig, a: real, r: real)
    requires Lawful(tr)
    requires a >= 0.0 && r >= 0.0 && r * r == a
    ensures tr.sqrt(a) == r
  {
    SqrtSquare(tr, a);
    SquareRootsAgree(tr.sqrt(a), r, a);
  }

  /** Only 0 squares to 0. */
  lemma SquareZero(x: real)
    requires x * x == 0.0
    ensures x == 0.0
  {
    if x >= 0.0 {
      SquareRootsAgree(x, 0.0, 0.0);
    } else {
      SquareRootsAgree(-x, 0.0, 0.0);
    }
  }

  /** Two non-negative roots of the same square are equal. */
  lemma SquareRootsAgree(s: real, r: real, a: real)
    requires s >= 0.0 && r >= 0.0 && s * s == a && r * r == a
    ensures s == r
  {
    assert (s - r) * (s + r) == 0.0;
    if s + r == 0.0 {
      assert s == 0.0 && r == 0.0;
    } else {
      assert s - r == (s - r) * (s + r) / (s + r);
    }
  }

  /** sqrt(x) is zero exactly at zero, for x >= 0. */
  lemma SqrtZero(tr: Trig, a: real)
    requires Lawful(tr) && a >= 0.0
    ensures tr.sqrt(a) == 0.0 <==> a == 0.0
  {
    SqrtSquare(tr, a);
    if a == 0.0 {
      SqrtUnique(tr, 0.0, 0.0);
    }
  }

  /** sqrt(1) = 1. */
  lemma SqrtOne(tr: Trig)
    requires Lawful(tr)
    ensures tr.sqrt(1.0) == 1.0
  {
    SqrtUnique(tr, 1.0, 1.0);
  }

  /** sqrt is strictly increasing on the non-negative reals. */
  lemma SqrtLess(tr: Trig, a: real, b: real)
    requires Lawful(tr) && 0.0 <= a < b
    ensures tr.sqrt(a) < tr.sqrt(b)
  {
    SqrtSquare(tr, a);
    SqrtSquare(tr, b);
    RootsOrdered(tr.sqrt(a), tr.sqrt(b), a, b);
  }

  /** Non-negative roots are ordered like their squares. */
  lemma RootsOrdered(sa: real, sb: real, a: real, b: real)
    requires sa >= 0.0 && sb >= 0.0 && sa * sa == a && sb * sb == b && a < b
    ensures sa < sb
  {
    assert (sb - sa) * (sb + sa) == b - a > 0.0;
    assert sb + sa >= 0.0;
  }

  /** sqrt(k * k * a) = k * sqrt(a) for k >= 0. */
  lemma SqrtScale(tr: Trig, k: real, a: real, b: real)
    requires Lawful(tr) && k >= 0.0 && a >= 0.0 && b == k * k * a
    ensures tr.sqrt(b) == k * tr.sqrt(a)
  {
    var s := tr.sqrt(a);
    SqrtSquare(tr, a);
    assert (k * s) * (k * s) == k * k * (s * s);
    SqrtUnique(tr, b, k * s);
  }

  /** |cos a| <= 1 and |sin a| <= 1. */
  lemma SinCosBounded(tr: Trig, a: real)
    requires Lawful(tr)
    ensures -1.0 <= tr.cos(a) <= 1.0 && -1.0 <= tr.sin(a) <= 1.0
  {
    SinCosSquares(tr, a);
    UnitCircleBounded(tr.sin(a), tr.cos(a));
  }

  /** A point of the unit circle has both coordinates in [-1, 1]. */
  lemma UnitCircleBounded(s: real, c: real)
    requires s * s + c * c == 1.0
    ensures -1.0 <= c <= 1.0 && -1.0 <= s <= 1.0
  {
    assert s * s >= 0.0 && c * c >= 0.0;
    assert c * c <= 1.0 && s * s <= 1.0;
  }

  /** A number whose square is at most 1 lies in [-1, 1]. */
  lemma UnitBound(d: real)
    requires d * d <= 1.0
    ensures -1.0 <= d <= 1.0
  {
  }

  function OneMinusSquare(c: real): real { 1.0 - c * c }

  /** min(a, b) and max(a, b) of JavaScript's Math and of Python. */
  function Min(a: real, b: real): (r: real)
    ensures r <= a && r <= b && (r == a || r == b)
  {
    if b < a then b else a
  }

  function Max(a: real, b: real): (r: real)
    ensures r >= a && r >= b && (r == a || r == b)
  {
    if b > a then b else a
  }

  /** sqrt(1 - cos^2 a) = sin a when sin a >= 0. */
  lemma SqrtOneMinusCosSquared(tr: Trig, a: real)
    requires Lawful(tr) && tr.sin(a) >= 0.0
    ensures tr.sqrt(OneMinusSquare(tr.cos(a))) == tr.sin(a)
  {
    SinCosSquares(tr, a);
    SqrtUnique(tr, OneMinusSquare(tr.cos(a)), tr.sin(a));
  }
}

/** The usual Option wrapper. `None` stands for a result the source computes as NaN or
    infinity because it divides by zero. */
module Optional {
  datatype Option<+T> = None | Some(value: T)
}
