// Values of the type float: binary32 of section 3.6 of IEEE 754-2008, each operation rounded to a
// nearest value, as in the quotients (float)size / parts of get_part_size and of the hashing code
// (src/libtools/network/misc.hxx:120, src/libtools/files/file.cc:39, 106).
//
// A float is counted in units of 2^-149, the smallest positive one: the integer q stands for the
// value q / UNIT.
module Binary32 {
  import opened Modular
  import opened Parts

  const PRECISION: nat := 0x100_0000     // 2^24

  function Unit(): (r: nat)
    ensures r > 0
  {
    IntPow2(149)
  }

  // m * 2^e units
  function Scaled(m: nat, e: nat): nat { m * IntPow2(e) }

  // The non-negative finite floats.
  ghost predicate IsFloat(q: nat) {
    exists m: nat, e: nat :: m < PRECISION && e <= 253 && q == Scaled(m, e)
  }

  // How far a / b is from q, times b and UNIT.
  function Distance(a: nat, b: nat, q: nat): nat {
    if a * Unit() < b * q then b * q - a * Unit() else a * Unit() - b * q
  }

  // q is a float nearest to a / b; which one, if two are, does not matter here.
  ghost predicate Nearest(a: nat, b: nat, q: nat) {
    b > 0 && IsFloat(q) && forall r: nat :: IsFloat(r) ==> Distance(a, b, q) <= Distance(a, b, r)
  }

  // std::ceil
  predicate IsCeil(q: nat, c: nat) {
    q <= c * Unit() && (c > 0 ==> (c - 1) * Unit() < q)
  }

  // c is ceil((float)size / parts): both operands are rounded, then their quotient.
  ghost predicate FloatCeil(size: nat, parts: nat, c: nat) {
    exists s: nat, p: nat, q: nat :: Rounded(size, parts, s, p, q) && IsCeil(q, c)
  }

  ghost predicate Rounded(size: nat, parts: nat, s: nat, p: nat, q: nat) {
    Nearest(size, 1, s) && Nearest(parts, 1, p) && Nearest(s, p, q)
  }

  // ---- Powers of two ----

  lemma PowNumbers()
    ensures IntPow2(23) == 0x80_0000 && IntPow2(24) == PRECISION && IntPow2(32) == 0x1_0000_0000
  {
    assert IntPow2(8) == 0x100;
    assert IntPow2(16) == 0x1_0000;
    assert IntPow2(24) == PRECISION;
  }

  lemma {:induction false} PowMono(a: nat, b: nat)
    requires IntPow2(a) < IntPow2(b)
    ensures a < b
  {
    if b == 0 || a == 0 {
    } else {
      PowMono(a - 1, b - 1);
    }
  }

  lemma {:induction false} PowLe(a: nat, b: nat)
    requires a <= b
    ensures IntPow2(a) <= IntPow2(b)
  {
    if a == b {
    } else {
      PowLe(a, b - 1);
    }
  }

  // The exponent of k.
  lemma {:induction false} Exponent(k: nat) returns (e: nat)
    requires k > 0
    ensures IntPow2(e) <= k < 2 * IntPow2(e)
  {
    if k == 1 {
      e := 0;
    } else {
      e := Exponent(k / 2);
      e := e + 1;
    }
  }

  lemma BigUnit()
    ensures Unit() > 0x2_0000_0000
  {
    PowSplit(117, 32);
    PowNumbers();
    PowLe(2, 117);
    MulMono(4, IntPow2(117), 0x1_0000_0000);
  }

  // ---- Products ----

  lemma Shuffle(x: nat, y: nat, u: nat)
    ensures x * (y * u) == y * x * u == x * y * u
  {
  }

  lemma Spread(x: nat, y: nat, u: nat)
    ensures (x + y) * u == x * u + y * u
    ensures x >= y ==> (x - y) * u == x * u - y * u
  {
  }

  // ---- Rounding ----

  lemma FloatIs(m: nat, e: nat)
    requires m < PRECISION && e <= 253
    ensures IsFloat(m * IntPow2(e))
  {
    assert m * IntPow2(e) == Scaled(m, e);
  }

  lemma IntIsFloat(n: nat)
    requires n <= PRECISION
    ensures IsFloat(n * Unit())
  {
    if n < PRECISION {
      FloatIs(n, 149);
    } else {
      PowNumbers();
      PowSplit(1, 149);
      assert n * Unit() == 0x80_0000 * (2 * IntPow2(149));
      FloatIs(0x80_0000, 150);
    }
  }

  lemma NearestBetween(a: nat, b: nat, q: nat, lo: nat, hi: nat)
    requires Nearest(a, b, q) && IsFloat(lo) && IsFloat(hi) && b * lo <= a * Unit() <= b * hi
    ensures lo <= q <= hi
  {
    assert Distance(a, b, q) <= Distance(a, b, lo) && Distance(a, b, q) <= Distance(a, b, hi);
    MulStrict(q, lo, b);
    MulStrict(hi, q, b);
  }

  lemma NearestSelf(a: nat, b: nat, q: nat, r: nat)
    requires Nearest(a, b, q) && IsFloat(r) && b * r == a * Unit()
    ensures q == r
  {
    NearestBetween(a, b, q, r, r);
  }

  // Whole numbers up to 2^24 are floats, so they are not rounded.
  lemma SmallIsExact(n: nat, q: nat)
    requires n <= PRECISION && Nearest(n, 1, q)
    ensures q == n * Unit()
  {
    IntIsFloat(n);
    NearestSelf(n, 1, q, n * Unit());
  }

  // A common factor of the operands does not matter.
  lemma NearestReduced(a: nat, b: nat, u: nat, q: nat)
    requires u > 0 && b > 0 && Nearest(a * u, b * u, q)
    ensures Nearest(a, b, q)
  {
    forall r: nat | IsFloat(r) ensures Distance(a, b, q) <= Distance(a, b, r) {
      DistanceScaled(a, b, u, q);
      DistanceScaled(a, b, u, r);
      MulStrict(Distance(a, b, r), Distance(a, b, q), u);
    }
  }

  lemma DistanceScaled(a: nat, b: nat, u: nat, q: nat)
    ensures Distance(a * u, b * u, q) == Distance(a, b, q) * u
  {
    var x, y := a * Unit(), b * q;
    assert a * u * Unit() == x * u && b * u * q == y * u;
    MulMono(x, y, u);
    MulMono(y, x, u);
    if x < y { assert (y - x) * u == y * u - x * u; } else { assert (x - y) * u == x * u - y * u; }
  }

  // ---- Quotients of numbers below 2^24 ----

  // The float after k is half a unit in the last place closer to a / b than k is, at least.
  lemma NotRoundedDown(a: nat, b: nat, k: nat, q: nat)
    requires 0 < k && k * b < a < PRECISION && Nearest(a, b, q)
    ensures q != k * Unit()
  {
    if b == 1 {
      SmallIsExact(a, q);
      MulStrict(k, a, Unit());
    } else {
      var e := Exponent(k);
      ExponentFits(k, b, e);
      NextFloat(k, e);
      StepIsShort(b, e);
      var ulp := IntPow2(126 + e);
      Closer(a, b, k, ulp);
      assert Distance(a, b, q) <= Distance(a, b, k * Unit() + ulp);
    }
  }

  lemma ExponentFits(k: nat, b: nat, e: nat)
    requires IntPow2(e) <= k && k * b < PRECISION && b >= 2
    ensures e < 23 && IntPow2(e) * b < PRECISION
  {
    PowNumbers();
    MulMono(IntPow2(e), k, b);
    MulMono(2, b, IntPow2(e));
    PowMono(e, 23);
  }

  // k + 2^(e - 23), counted in units.
  lemma NextFloat(k: nat, e: nat)
    requires k < 2 * IntPow2(e) && e < 23
    ensures IsFloat(Scaled(k, 149) + IntPow2(126 + e))
  {
    var p, ulp := IntPow2(23 - e), IntPow2(126 + e);
    PowSplit(23 - e, 126 + e);
    MantissaFits(k, e);
    Shuffle(k, p, ulp);
    Spread(k * p, 1, ulp);
    FloatIs(k * p + 1, 126 + e);
  }

  lemma MantissaFits(k: nat, e: nat)
    requires k < 2 * IntPow2(e) && e < 23
    ensures k * IntPow2(23 - e) + 1 < PRECISION
  {
    var p := IntPow2(23 - e);
    PowSplit(e, 23 - e);
    PowNumbers();
    MulStrict(k, 2 * IntPow2(e), p);
    assert IntPow2(23 - e) == 2 * IntPow2(22 - e);
    Shuffle(2, IntPow2(e), p);
  }

  // b units in the last place are less than twice the value 1.
  lemma StepIsShort(b: nat, e: nat)
    requires IntPow2(e) * b < PRECISION
    ensures b * IntPow2(126 + e) < 2 * Unit()
  {
    PowSplit(e, 126);
    PowSplit(24, 126);
    PowNumbers();
    StepProduct(b, IntPow2(e), IntPow2(126));
    TwiceUnit();
  }

  lemma StepProduct(b: nat, p: nat, x: nat)
    requires p * b < PRECISION && x > 0
    ensures b * (p * x) < PRECISION * x
  {
    Shuffle(b, p, x);
    MulStrict(p * b, PRECISION, x);
  }

  lemma TwiceUnit()
    ensures IntPow2(150) == 2 * Unit()
  {
  }

  lemma Closer(a: nat, b: nat, k: nat, ulp: nat)
    requires k * b < a && 0 < b * ulp < 2 * Unit()
    ensures Distance(a, b, k * Unit() + ulp) < Distance(a, b, k * Unit())
  {
    var u := Unit();
    MulStrict(k * b, a, u);
    assert b * (k * u) == k * b * u;
    assert b * (k * u + ulp) == k * b * u + b * ulp;
  }

  // A positive quotient does not round to zero.
  lemma NotRoundedToZero(a: nat, b: nat, q: nat)
    requires a > 0 && b < 2 * (a * Unit()) && Nearest(a, b, q)
    ensures q > 0
  {
    FloatIs(1, 0);
    assert IntPow2(0) == 1;
    assert Distance(a, b, q) <= Distance(a, b, 1);
  }

  lemma SmallQuotient(a: nat, b: nat, q: nat, c: nat)
    requires a < PRECISION && 0 < b <= PRECISION && Nearest(a, b, q) && IsCeil(q, c)
    ensures RoundedUp(c, a, b)
  {
    var k := FloorOf(a, b);
    BetweenWholes(a, b, k, q);
    if a == k * b { WholeResult(a, b, k, q, c); } else { BrokenResult(a, b, k, q, c); }
    UpTo(a, b, k);
  }

  lemma FloorOf(a: nat, b: nat) returns (k: nat)
    requires b > 0
    ensures k * b <= a < k * b + b && k <= a
  {
    k := a / b;
    DivRange(a, b);
    MulMono(1, b, k);
  }

  lemma WholeResult(a: nat, b: nat, k: nat, q: nat, c: nat)
    requires a == k * b && Nearest(a, b, q) && IsCeil(q, c) && IsFloat(k * Unit())
    ensures c == k
  {
    Shuffle(b, k, Unit());
    NearestSelf(a, b, q, k * Unit());
    if k > 0 { Spread(k, 1, Unit()); }
    CeilIs(q, c, k);
  }

  lemma BrokenResult(a: nat, b: nat, k: nat, q: nat, c: nat)
    requires k * b < a < PRECISION && b <= PRECISION && Nearest(a, b, q) && IsCeil(q, c)
    requires k * Unit() <= q <= (k + 1) * Unit()
    ensures c == k + 1
  {
    if k == 0 {
      BigUnit();
      MulMono(1, a, Unit());
      NotRoundedToZero(a, b, q);
    } else {
      NotRoundedDown(a, b, k, q);
    }
    CeilIs(q, c, k + 1);
  }

  lemma BetweenWholes(a: nat, b: nat, k: nat, q: nat)
    requires k * b <= a < k * b + b && k < PRECISION && Nearest(a, b, q)
    ensures k * Unit() <= q <= (k + 1) * Unit() && IsFloat(k * Unit())
  {
    IntIsFloat(k);
    IntIsFloat(k + 1);
    WholeBounds(a, b, k, Unit());
    NearestBetween(a, b, q, k * Unit(), (k + 1) * Unit());
  }

  lemma WholeBounds(a: nat, b: nat, k: nat, u: nat)
    requires k * b <= a < k * b + b
    ensures b * (k * u) <= a * u <= b * ((k + 1) * u)
  {
    MulMono(k * b, a, u);
    MulMono(a, k * b + b, u);
    Shuffle(b, k, u);
    Shuffle(b, k + 1, u);
    assert b * (k + 1) == k * b + b;
  }

  lemma CeilIs(q: nat, c: nat, k: nat)
    requires IsCeil(q, c) && q <= k * Unit() && (k > 0 ==> (k - 1) * Unit() < q)
    ensures c == k
  {
    if c < k { MulMono(c, k - 1, Unit()); }
    if k < c { MulMono(k, c - 1, Unit()); }
  }

  lemma UpTo(a: nat, b: nat, k: nat)
    requires k * b <= a < k * b + b
    ensures RoundedUp(if a == k * b then k else k + 1, a, b)
  {
    Spread(k, 1, b);
  }

  // More parts than 2^24: the quotient rounds to something in (0, 1].
  lemma LargeDivisor(a: nat, p: nat, q: nat, c: nat)
    requires 0 < a < PRECISION && PRECISION * Unit() <= p <= 0x1_0000_0000 * Unit()
    requires Nearest(a * Unit(), p, q) && IsCeil(q, c)
    ensures c == 1
  {
    IntIsFloat(0);
    IntIsFloat(1);
    LargeProducts(a, p);
    NearestBetween(a * Unit(), p, q, 0, 1 * Unit());
    NotRoundedToZero(a * Unit(), p, q);
    CeilIs(q, c, 1);
  }

  lemma LargeProducts(a: nat, p: nat)
    requires 0 < a < PRECISION && PRECISION * Unit() <= p <= 0x1_0000_0000 * Unit()
    ensures p * 0 <= a * Unit() * Unit() <= p * (1 * Unit()) && p < 2 * (a * Unit() * Unit()) && a * Unit() > 0
  {
    BigUnit();
    LargeProductsOf(a, p, Unit());
  }

  lemma LargeProductsOf(a: nat, p: nat, u: nat)
    requires 0 < a < PRECISION && PRECISION * u <= p <= 0x1_0000_0000 * u && u > 0x1_0000_0000
    ensures p * 0 <= a * u * u <= p * (1 * u) && p < 2 * (a * u * u) && a * u > 0
  {
    MulMono(a, PRECISION, u);
    MulMono(a * u, p, u);
    MulMono(1, a, u);
    MulMono(u, a * u, u);
    MulStrict(0x1_0000_0000, u, u);
  }

  // The code's quotient, rounded up, is the exact one for every size below 2^24.
  lemma SmallSizesAreExact(size: nat, parts: nat, c: nat)
    requires size < PRECISION && 0 < parts < 0x1_0000_0000 && FloatCeil(size, parts, c)
    ensures RoundedUp(c, size, parts)
  {
    var s: nat, p: nat, q: nat :| Rounded(size, parts, s, p, q) && IsCeil(q, c);
    SmallSize(size, parts, s, p, q, c);
  }

  lemma SmallSize(size: nat, parts: nat, s: nat, p: nat, q: nat, c: nat)
    requires size < PRECISION && 0 < parts < 0x1_0000_0000
    requires Nearest(size, 1, s) && Nearest(parts, 1, p) && Nearest(s, p, q) && IsCeil(q, c)
    ensures RoundedUp(c, size, parts)
  {
    SmallIsExact(size, s);
    if parts <= PRECISION {
      SmallIsExact(parts, p);
      NearestReduced(size, parts, Unit(), q);
      SmallQuotient(size, parts, q, c);
    } else if size == 0 {
      ZeroQuotient(p, q, c);
    } else {
      LargeDivisorRange(parts, p);
      LargeDivisor(size, p, q, c);
    }
  }

  lemma ZeroQuotient(p: nat, q: nat, c: nat)
    requires Nearest(0, p, q) && IsCeil(q, c)
    ensures c == 0
  {
    IntIsFloat(0);
    NearestSelf(0, p, q, 0);
    CeilIs(q, c, 0);
  }

  lemma LargeDivisorRange(parts: nat, p: nat)
    requires PRECISION < parts < 0x1_0000_0000 && Nearest(parts, 1, p)
    ensures PRECISION * Unit() <= p <= 0x1_0000_0000 * Unit()
  {
    var u := Unit();
    IntIsFloat(PRECISION);
    PowSplit(32, 149);
    PowNumbers();
    FloatIs(1, 181);
    assert 1 * IntPow2(181) == 0x1_0000_0000 * u;
    MulMono(PRECISION, parts, u);
    MulMono(parts, 0x1_0000_0000, u);
    NearestBetween(parts, 1, p, PRECISION * u, 0x1_0000_0000 * u);
  }

  // ---- Every quotient has a value ----

  lemma {:induction false} Nearer(a: nat, b: nat, start: nat) returns (q: nat)
    requires b > 0 && IsFloat(start)
    ensures Nearest(a, b, q)
    decreases Distance(a, b, start)
  {
    if r: nat :| IsFloat(r) && Distance(a, b, r) < Distance(a, b, start) {
      q := Nearer(a, b, r);
    } else {
      q := start;
    }
  }

  lemma NearestExists(a: nat, b: nat) returns (q: nat)
    requires b > 0
    ensures Nearest(a, b, q)
  {
    IntIsFloat(0);
    q := Nearer(a, b, 0);
  }

  lemma CeilExists(q: nat) returns (c: nat)
    ensures IsCeil(q, c)
  {
    var k := FloorOf(q, Unit());
    c := if q == k * Unit() then k else k + 1;
    Spread(k, 1, Unit());
  }

  // The code's quotient, rounded up, exists for all operands.
  lemma FloatCeilExists(size: nat, parts: nat) returns (c: nat)
    requires parts > 0
    ensures FloatCeil(size, parts, c)
  {
    var s := NearestExists(size, 1);
    var p := NearestExists(parts, 1);
    MulMono(1, parts, Unit());
    BigUnit();
    NotRoundedToZero(parts, 1, p);
    var q := NearestExists(s, p);
    c := CeilExists(q);
    assert Rounded(size, parts, s, p, q);
  }

  // ---- Beyond 2^24 ----

  // From 2^25 on, floats are multiples of 4.
  lemma FloatsAreSparse(r: nat, n: nat)
    requires IsFloat(r) && r > 4 * n * Unit() && 4 * n >= 0x200_0000
    ensures r >= (4 * n + 4) * Unit()
  {
    var m: nat, e: nat :| m < PRECISION && e <= 253 && r == Scaled(m, e);
    if e <= 150 {
      SmallExponent(m, e);
      MulMono(0x200_0000, 4 * n, Unit());
    } else {
      var z := LargeExponent(m, e);
      NextMultiple(z, n, Unit());
    }
  }

  lemma LargeExponent(m: nat, e: nat) returns (z: nat)
    requires e >= 151
    ensures Scaled(m, e) == z * (4 * Unit())
  {
    z := m * IntPow2(e - 151);
    PowSplit(e - 151, 151);
    PowSplit(2, 149);
    assert IntPow2(2) == 4;
    Shuffle(m, IntPow2(e - 151), 4 * Unit());
  }

  lemma NextMultiple(z: nat, n: nat, u: nat)
    requires z * (4 * u) > 4 * n * u
    ensures z * (4 * u) >= (4 * n + 4) * u
  {
    assert 4 * n * u == n * (4 * u);
    assert (4 * n + 4) * u == (n + 1) * (4 * u);
    MulMono(z, n, 4 * u);
    MulMono(n + 1, z, 4 * u);
  }

  lemma SmallExponent(m: nat, e: nat)
    requires m < PRECISION && e <= 150
    ensures Scaled(m, e) <= 0x200_0000 * Unit()
  {
    PowAtMost(e);
    ProductAtMost(m, IntPow2(e), Unit());
  }

  lemma PowAtMost(e: nat)
    requires e <= 150
    ensures IntPow2(e) <= 2 * Unit()
  {
    PowLe(e, 150);
    TwiceUnit();
  }

  lemma ProductAtMost(m: nat, p: nat, u: nat)
    requires m < PRECISION && p <= 2 * u
    ensures m * p <= 0x200_0000 * u
  {
    MulMono(m, PRECISION, p);
    MulMono(p, 2 * u, PRECISION);
  }

  lemma MultipleIsFloat(n: nat)
    requires n < PRECISION
    ensures IsFloat(4 * n * Unit())
  {
    PowSplit(2, 149);
    assert IntPow2(2) == 4;
    Shuffle(n, 4, Unit());
    FloatIs(n, 151);
  }

  // So the number after a multiple of 4 rounds down to it.
  lemma RoundsDown(n: nat, q: nat)
    requires Nearest(4 * n + 1, 1, q) && 4 * n >= 0x200_0000 && n < PRECISION
    ensures q == 4 * n * Unit()
  {
    MultipleIsFloat(n);
    if q > 4 * n * Unit() { FloatsAreSparse(q, n); }
    CloserBelow(4 * n, q, Unit());
  }

  lemma CloserBelow(n: nat, q: nat, u: nat)
    requires u == Unit() && Nearest(n + 1, 1, q) && IsFloat(n * u) && (q > n * u ==> q >= (n + 4) * u)
    ensures q == n * u
  {
    Spread(n, 1, u);
    Spread(n, 4, u);
    assert Distance(n + 1, 1, q) <= Distance(n + 1, 1, n * u);
  }

  // The ceiling of a quotient that is a whole number below 2^25.
  lemma WholeQuotient(n: nat, parts: nat, k: nat, size: nat, c: nat)
    requires FloatCeil(size, parts, c) && 0 < parts <= PRECISION && size == 4 * n + 1
    requires 4 * n >= 0x200_0000 && n < PRECISION && parts * k == 4 * n && IsFloat(k * Unit())
    ensures c == k
  {
    var s: nat, p: nat, q: nat :| Rounded(size, parts, s, p, q) && IsCeil(q, c);
    RoundsDown(n, s);
    SmallIsExact(parts, p);
    NearestReduced(4 * n, parts, Unit(), q);
    WholeResult(4 * n, parts, k, q, c);
  }

  // A file of 2^25 + 1 bytes sent as a single part: the quotient is 2^25, and no other, so the part is
  // one byte short.
  lemma OnePartTooShort() returns (c: nat)
    ensures FloatCeil(33554433, 1, c) && forall d: nat :: FloatCeil(33554433, 1, d) ==> d == c
    ensures c == 33554432 && !Clean(33554433, 1, c) && !Covers(33554433, 0, 1, c, 33554432)
  {
    c := FloatCeilExists(33554433, 1);
    forall d: nat | FloatCeil(33554433, 1, d) ensures d == 33554432 { RoundedPart(d); }
  }

  // 33554433 / 1
  lemma RoundedPart(c: nat)
    requires FloatCeil(33554433, 1, c)
    ensures c == 33554432
  {
    MultipleIsFloat(8388608);
    WholeQuotient(8388608, 1, 33554432, 33554433, c);
  }

  // 64640001 / 64
  lemma ChunksTooShort(c: nat)
    requires FloatCeil(64640001, 64, c)
    ensures c == 1010000
  {
    IntIsFloat(1010000);
    WholeQuotient(16160000, 64, 1010000, 64640001, c);
  }

  // 2000000500000 / 2000000: the floats around the size are 2^17 apart, those around the quotient 2^-4.
  lemma ChunksTooLong(c: nat)
    requires FloatCeil(2000000500000, 2000000, c)
    ensures c == 1000001
  {
    var s: nat, p: nat, q: nat :| Rounded(2000000500000, 2000000, s, p, q) && IsCeil(q, c);
    SizeAround(s);
    SmallIsExact(2000000, p);
    NearestOfUnits(s, 2000000, q);
    CeilIs(q, c, 1000001);
  }

  lemma SizeAround(s: nat)
    requires Nearest(2000000500000, 1, s)
    ensures 2000000385024 * Unit() <= s <= 2000000516096 * Unit()
  {
    BigMultipleIsFloat(15258792);
    BigMultipleIsFloat(15258793);
    MulMono(2000000385024, 2000000500000, Unit());
    MulMono(2000000500000, 2000000516096, Unit());
    NearestBetween(2000000500000, 1, s, 2000000385024 * Unit(), 2000000516096 * Unit());
  }

  lemma BigMultipleIsFloat(m: nat)
    requires m < PRECISION
    ensures IsFloat(131072 * m * Unit())
  {
    BigPower();
    Shuffle(m, 131072, Unit());
    FloatIs(m, 166);
  }

  lemma BigPower()
    ensures IntPow2(166) == 131072 * Unit()
  {
    PowSplit(17, 149);
    SmallPowers();
  }

  lemma SmallPowers()
    ensures IntPow2(17) == 131072
  {
    assert IntPow2(8) == 0x100;
    assert IntPow2(16) == 0x1_0000;
  }

  // Both operands in units of 2^-149.
  lemma NearestOfUnits(s: nat, parts: nat, q: nat)
    requires parts == 2000000 && Nearest(s, parts * Unit(), q) && 2000000385024 * Unit() <= s <= 2000000516096 * Unit()
    ensures 1000000 * Unit() < q <= 1000001 * Unit()
  {
    var v := IntPow2(145);
    PowSplit(4, 145);
    assert IntPow2(4) == 16 && Unit() == 16 * v;
    FloatIs(16000001, 145);
    IntIsFloat(1000001);
    QuotientProducts(s, v, Unit());
    NearestBetween(s, parts * Unit(), q, 16000001 * v, 1000001 * Unit());
  }

  lemma QuotientProducts(s: nat, v: nat, u: nat)
    requires v > 0 && u == 16 * v && 2000000385024 * u <= s <= 2000000516096 * u
    ensures 2000000 * u * (16000001 * v) <= s * u <= 2000000 * u * (1000001 * u) && 1000000 * u < 16000001 * v
  {
    assert 2000000 * u * (16000001 * v) == 32000002000000 * (v * u);
    assert 2000000385024 * u * u == 32000006160384 * (v * u);
    MulMono(2000000385024 * u, s, u);
    MulMono(32000002000000, 32000006160384, v * u);
    assert 2000000 * u * (1000001 * u) == 2000002000000 * u * u;
    MulMono(s, 2000002000000 * u, u);
  }

  // ---- What the rounding means for a file ----

  // A file of less than 16 MiB is cut cleanly exactly when its parts are equal, or it is one byte
  // in two parts.
  lemma SmallFilesCutCleanly(size: nat, parts: nat, c: nat)
    requires size < PRECISION && 0 < parts < 0x1_0000_0000 && FloatCeil(size, parts, c)
    ensures Clean(size, parts, c) <==> size % parts == 0 || (size == 1 && parts == 2)
  {
    SmallSizesAreExact(size, parts, c);
    ExactQuotient(size, parts, c);
  }

  lemma ExactIsNearest(a: nat, b: nat, q: nat)
    requires b > 0 && IsFloat(q) && b * q == a * Unit()
    ensures Nearest(a, b, q)
  {
    assert Distance(a, b, q) == 0;
  }

  lemma ScaledProduct(x: nat, y: nat, u: nat)
    ensures x * u * (y * u) == x * y * u * u && (x > 0 && u > 0 ==> x * u > 0)
  {
    assert x * u * (y * u) == x * (u * (y * u));
    assert u * (y * u) == y * u * u;
    MulMono(1, x, u);
  }

  // A division without remainder below 2^24 is computed exactly.
  lemma ExactDivision(k: nat, parts: nat)
    requires 0 < parts && parts * k <= PRECISION && parts <= PRECISION && k <= PRECISION
    ensures FloatCeil(parts * k, parts, k)
  {
    var u := Unit();
    IntIsFloat(parts * k);
    IntIsFloat(parts);
    IntIsFloat(k);
    ExactIsNearest(parts * k, 1, parts * k * u);
    ExactIsNearest(parts, 1, parts * u);
    ScaledProduct(parts, k, u);
    ExactIsNearest(parts * k * u, parts * u, k * u);
    if k > 0 { Spread(k, 1, u); }
    assert Rounded(parts * k, parts, parts * k * u, parts * u, k * u) && IsCeil(k * u, k);
  }
}
