// Arithmetic modulo a ring size, as the circular indexes and the hash table use it, and powers of two.
module Modular {

  function One(b: bool): nat { if b then 1 else 0 }

  lemma MultipleStep(m: int, d: int)
    requires m > 0
    ensures d == 0 || m * d >= m || m * d <= -m
  {
    if d >= 1 { assert m * d >= m * 1; }
    if d <= -1 { assert m * d <= m * -1; }
  }

  lemma ModShift(p: int, k: int, m: int)
    requires 0 <= p < m
    ensures (p + m * k) % m == p
  {
    var r := (p + m * k) % m;
    var q := (p + m * k) / m;
    assert m * (q - k) == p - r;
    MultipleStep(m, q - k);
  }

  // Reducing one summand first changes nothing.
  lemma ModAdd(x: int, y: int, m: int)
    requires m > 0
    ensures (x % m + y) % m == (x + y) % m
  {
    var r, q := (x + y) % m, (x + y) / m;
    assert x % m + y == r + m * (q - x / m);
    ModShift(r, q - x / m, m);
  }

  // Less than a whole turn apart means different places.
  lemma ModApart(x: int, y: int, m: int)
    requires m > 0 && x < y < x + m
    ensures x % m != y % m
  {
    if x % m == y % m {
      assert m * (y / m - x / m) == y - x;
      MultipleStep(m, y / m - x / m);
    }
  }

  lemma ModTurn(x: int, m: int)
    requires m > 0
    ensures (x + m) % m == x % m
  {
    ModAdd(m, x, m);
  }

  function IntPow2(n: nat): (r: nat)
    ensures r > 0
  {
    if n == 0 then 1 else 2 * IntPow2(n - 1)
  }

  ghost predicate PowerOfTwo(n: nat) { exists e: nat :: n == IntPow2(e) }

  lemma TwicePower(n: nat)
    requires PowerOfTwo(n)
    ensures n > 0 && PowerOfTwo(2 * n)
  {
    var e: nat :| n == IntPow2(e);
    assert 2 * n == IntPow2(e + 1);
  }

  // A power of two that is at most 2^m has an exponent of at most m.
  lemma SmallPower(n: nat, m: nat) returns (e: nat)
    requires PowerOfTwo(n) && n <= IntPow2(m)
    ensures n == IntPow2(e) && e <= m
  {
    e :| n == IntPow2(e);
    if m < e { PowGrows(m, e); }
  }

  lemma {:induction false} PowGrows(a: nat, b: nat)
    requires a < b
    ensures IntPow2(a) < IntPow2(b)
  {
    if a + 1 == b {
    } else {
      PowGrows(a, b - 1);
    }
  }

  lemma {:induction false} PowSplit(a: nat, b: nat)
    ensures IntPow2(a + b) == IntPow2(a) * IntPow2(b)
  {
    if a == 0 {
    } else {
      PowSplit(a - 1, b);
    }
  }
}
