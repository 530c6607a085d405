// Indices in w-bit words: circular_less_than (src/libtools/utils/concurentqueue.hh:314-322) and the
// look-up in the circular block indexes (src/libtools/utils/concurentqueue.hh:1803-1809, 2724-2732).
// The machines of Counters, ImplicitQueue and ExplicitQueue use unbounded indices and the operator
// % on index positions; here is what the words and masks of the code compute.
module Circular {
  import opened Modular
  import opened SubQueue

  function Word(w: nat): nat { IntPow2(w) }

  lemma WordNumbers()
    ensures Word(63) == HALF && Word(64) == 2 * HALF
  {
    assert IntPow2(8) == 0x100;
    assert IntPow2(16) == 0x1_0000;
    assert IntPow2(24) == 0x100_0000;
    assert IntPow2(32) == 0x1_0000_0000;
    PowSplit(31, 32);
  }

  // static_cast<T>(a - b) > 1 << (w - 1)
  predicate CircularLess(a: nat, b: nat, w: nat)
    requires w > 0
  {
    (a - b) % Word(w) > Word(w - 1)
  }

  // Of two words that stand for unbounded indices x and y: less exactly when y is ahead of x by some
  // distance below half the range, modulo the range.
  lemma LessIff(x: nat, y: nat, w: nat)
    requires w > 0
    ensures CircularLess(x % Word(w), y % Word(w), w) <==> 0 < (y - x) % Word(w) < Word(w - 1)
  {
    var W, d := Word(w), (y - x) % Word(w);
    WordDifference(x, y, W);
    Opposite(x, y, W);
  }

  // The difference of the words is the word of the difference.
  lemma WordDifference(x: int, y: int, W: nat)
    requires W > 0
    ensures (x % W - y % W) % W == (x - y) % W
  {
    var q := y / W - x / W;
    assert x % W - y % W == (x - y) + W * q;
    ModAdd(x - y, W * q, W);
    ModShift((x - y) % W, q, W);
  }

  lemma Opposite(x: int, y: int, W: nat)
    requires W > 0
    ensures var d := (y - x) % W; (x - y) % W == if d == 0 then 0 else W - d
  {
    var d, q := (y - x) % W, (y - x) / W;
    if d == 0 {
      ModShift(0, 0 - q, W);
      assert x - y == 0 + W * (0 - q);
    } else {
      ModShift(W - d, 0 - q - 1, W);
      assert x - y == (W - d) + W * (0 - q - 1);
    }
  }

  // It is the true order whenever the indices are less than half the range apart.
  lemma LessIsTrueOrder(x: nat, y: nat, w: nat)
    requires w > 0 && x - y < Word(w - 1) && y - x < Word(w - 1)
    ensures CircularLess(x % Word(w), y % Word(w), w) <==> x < y
  {
    LessIff(x, y, w);
    if x <= y {
      ModShift(y - x, 0, Word(w));
    } else {
      ModShift(y - x + Word(w), -1, Word(w));
    }
  }

  // At a distance of exactly half the range, and beyond it, the order is lost.
  lemma HalfIsTooFar(x: nat, w: nat)
    requires w > 1
    ensures !CircularLess(x % Word(w), (x + Word(w - 1)) % Word(w), w)
    ensures CircularLess((x + Word(w - 1) + 1) % Word(w), x % Word(w), w)
  {
    LessIff(x, x + Word(w - 1), w);
    ModShift(Word(w - 1), 0, Word(w));
    LessIff(x + Word(w - 1) + 1, x, w);
    assert x - (x + Word(w - 1) + 1) == (Word(w - 1) - 1) + Word(w) * (-1);
    ModShift(Word(w - 1) - 1, -1, Word(w));
  }

  // ---- Masks ----

  function And(x: nat, y: nat): nat
    decreases x
  {
    if x == 0 || y == 0 then 0 else (if x % 2 == 1 && y % 2 == 1 then 1 else 0) + 2 * And(x / 2, y / 2)
  }

  lemma HalfMod(x: nat, p: nat)
    requires p > 0
    ensures x % (2 * p) == x % 2 + 2 * (x / 2 % p)
  {
    var r := x % 2 + 2 * (x / 2 % p);
    assert x == r + 2 * p * (x / 2 / p) by { assert x / 2 == p * (x / 2 / p) + x / 2 % p; }
    ModShift(r, x / 2 / p, 2 * p);
  }

  // x & (2^n - 1) == x % 2^n
  lemma {:induction false} MaskIsMod(x: nat, n: nat)
    ensures And(x, IntPow2(n) - 1) == x % IntPow2(n)
    decreases n
  {
    if n == 0 {
    } else {
      var p := IntPow2(n - 1);
      HalfMod(x, p);
      MaskIsMod(x / 2, n - 1);
      assert (2 * p - 1) % 2 == 1 && (2 * p - 1) / 2 == p - 1;
      if x == 0 || p == 1 { AndSmall(x, p); }
    }
  }

  lemma AndSmall(x: nat, p: nat)
    requires p > 0 && (x == 0 || p == 1)
    ensures And(x, 2 * p - 1) == x % 2 + 2 * And(x / 2, p - 1)
  {
  }

  // ---- Look-up in a block index ----

  // The signed reading of the division: the difference as a signed word, divided toward zero, and
  // taken back to a size_t.
  function SignedOffset(base: nat, frontBase: nat, w: nat): nat
    requires w > 0
  {
    var d := (base - frontBase) % Word(w);
    if d < Word(w - 1) then d / BLOCK_SIZE else (0 - (Word(w) - d) / BLOCK_SIZE) % Word(w)
  }

  // The unsigned one: BLOCK_SIZE is a size_t, so the signed word is converted before it is divided.
  function UnsignedOffset(base: nat, frontBase: nat, w: nat): nat
  {
    (base - frontBase) % Word(w) / BLOCK_SIZE
  }

  // Reducing modulo a multiple of n first changes nothing.
  lemma ModOfMod(x: int, n: nat, m: nat)
    requires n > 0 && m > 0
    ensures x % (n * m) % n == x % n
  {
    assert n * m > 0 by { MultipleStep(n, m); }
    var q := x / (n * m);
    assert x % (n * m) == x + n * (-(m * q)) by {
      assert x == n * m * q + x % (n * m);
      assert n * m * q == n * (m * q);
    }
    ModAdd(x, n * (-(m * q)), n);
    ModShift(x % n, -(m * q), n);
  }

  // (front + offset) & (size - 1) is front - k modulo the size, for a size 2^s with 32 * 2^s <= 2^w,
  // however far behind the front, and whichever way the division is read.
  lemma LookupFindsPlace(pos: nat, front: nat, k: nat, w: nat, s: nat)
    requires s + 5 <= w && k <= front
    ensures var base, frontBase, size := (front - k) * BLOCK_SIZE % Word(w), front * BLOCK_SIZE % Word(w), Word(s);
            && And((pos + SignedOffset(base, frontBase, w)) % Word(w), size - 1) == (pos - k) % size
            && And((pos + UnsignedOffset(base, frontBase, w)) % Word(w), size - 1) == (pos - k) % size
  {
    var base, frontBase := (front - k) * BLOCK_SIZE % Word(w), front * BLOCK_SIZE % Word(w);
    var u := BlocksBack(front, k, w);
    Offsets(base, frontBase, u, w);
    MaskedSum(pos, SignedOffset(base, frontBase, w), w, s);
    MaskedSum(pos, UnsignedOffset(base, frontBase, w), w, s);
    PlaceBack(pos, k, u, w, s);
  }

  // From position `pos`, of the entry for `frontBase`, the look-up for `base` in 64-bit words and in a
  // ring of the given size comes to `slot`, whichever way the division is read.
  predicate FindsInWords(pos: nat, base: nat, frontBase: nat, size: nat, slot: int)
    requires size > 0
  {
    && And((pos + SignedOffset(base % Word(64), frontBase % Word(64), 64)) % Word(64), size - 1) == slot
    && And((pos + UnsignedOffset(base % Word(64), frontBase % Word(64), 64)) % Word(64), size - 1) == slot
  }

  lemma WordsFindPlace(pos: nat, front: nat, k: nat, size: nat)
    requires PowerOfTwo(size) && 0 < size <= Word(59) && k <= front
    ensures FindsInWords(pos, (front - k) * BLOCK_SIZE, front * BLOCK_SIZE, size, (pos - k) % size)
  {
    var s := SmallPower(size, 59);
    assert size == Word(s);
    LookupFindsPlace(pos, front, k, 64, s);
  }

  // And that is the slot the machines compute, for the block of base `base`.
  lemma LookupIsExact(pos: nat, front: nat, wanted: nat, base: nat, frontBase: nat, size: nat, slot: int)
    requires PowerOfTwo(size) && 0 < size <= Word(59) && wanted <= front
    requires base == wanted * BLOCK_SIZE && frontBase == front * BLOCK_SIZE
    requires slot == (pos + (base - frontBase) / BLOCK_SIZE) % size
    ensures FindsInWords(pos, base, frontBase, size, slot)
  {
    assert (base - frontBase) / BLOCK_SIZE == wanted - front;
    WordsFindPlace(pos, front, front - wanted, size);
  }

  // There are 2^(w - 5) different bases.
  lemma BasesInWord(w: nat)
    requires w >= 5
    ensures Word(w) == BLOCK_SIZE * Word(w - 5)
  {
    PowSplit(5, w - 5);
    assert Word(5) == BLOCK_SIZE;
  }

  // The difference of the two base words is u blocks, u being -k modulo the number of bases.
  lemma BlocksBack(front: nat, k: nat, w: nat) returns (u: nat)
    requires w >= 5 && k <= front
    ensures u == (0 - k) % Word(w - 5)
    ensures ((front - k) * BLOCK_SIZE % Word(w) - front * BLOCK_SIZE % Word(w)) % Word(w) == u * BLOCK_SIZE < Word(w)
  {
    var M, q := Word(w - 5), (0 - k) / Word(w - 5);
    u := (0 - k) % M;
    BasesInWord(w);
    WordDifference((front - k) * BLOCK_SIZE, front * BLOCK_SIZE, Word(w));
    assert (front - k) * BLOCK_SIZE - front * BLOCK_SIZE == (0 - k) * BLOCK_SIZE;
    assert 0 - k == u + M * q;
    assert (0 - k) * BLOCK_SIZE == u * BLOCK_SIZE + Word(w) * q;
    ModShift(u * BLOCK_SIZE, q, Word(w));
  }

  // The unsigned reading gives u blocks, the signed one the same or 31 * 2^(w - 5) more.
  lemma Offsets(base: nat, frontBase: nat, u: nat, w: nat)
    requires w >= 5 && (base - frontBase) % Word(w) == u * BLOCK_SIZE < Word(w)
    ensures UnsignedOffset(base, frontBase, w) == u
    ensures SignedOffset(base, frontBase, w) == u || SignedOffset(base, frontBase, w) == u + 31 * Word(w - 5)
  {
    var M := Word(w - 5);
    BasesInWord(w);
    assert u < M;
    if u * BLOCK_SIZE >= Word(w - 1) {
      assert (Word(w) - u * BLOCK_SIZE) / BLOCK_SIZE == M - u;
      ModShift(u + 31 * M, -1, Word(w));
    }
  }

  // The sum in a word, masked, is the sum modulo the size.
  lemma MaskedSum(pos: nat, offset: nat, w: nat, s: nat)
    requires s <= w
    ensures And((pos + offset) % Word(w), Word(s) - 1) == (pos + offset) % Word(s)
  {
    PowSplit(s, w - s);
    MaskIsMod((pos + offset) % Word(w), s);
    ModOfMod(pos + offset, Word(s), Word(w - s));
  }

  // Either leads to the same place, since the size divides 2^(w - 5).
  lemma PlaceBack(pos: nat, k: nat, u: nat, w: nat, s: nat)
    requires s + 5 <= w && u == (0 - k) % Word(w - 5)
    ensures (pos + u) % Word(s) == (pos + (u + 31 * Word(w - 5))) % Word(s) == (pos - k) % Word(s)
  {
    var q := (0 - k) / Word(w - 5);
    PowSplit(s, w - 5 - s);
    assert 0 - k == u + Word(w - 5) * q;
    TurnsBack(pos, k, u, 0, q, Word(s), Word(w - 5 - s));
    TurnsBack(pos, k, u, 31, q, Word(s), Word(w - 5 - s));
  }

  lemma TurnsBack(pos: nat, k: nat, u: nat, j: nat, q: int, size: nat, m: nat)
    requires size > 0 && 0 - k == u + size * m * q
    ensures (pos + (u + j * (size * m))) % size == (pos - k) % size
  {
    var M := size * m;
    assert pos + (u + j * M) == (pos - k) + M * (j - q) by { assert M * (j - q) == j * M - M * q; }
    Turns(pos - k, j - q, size, m);
  }

  lemma Turns(x: int, q: int, size: nat, m: nat)
    requires size > 0
    ensures (x + size * m * q) % size == x % size
  {
    assert size * m * q == size * (m * q);
    ModAdd(x, size * (m * q), size);
    ModShift(x % size, m * q, size);
  }
}
