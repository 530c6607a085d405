// How a file is cut into parts: get_part_size (src/libtools/network/misc.hxx:113-129) and its use by
// the client (src/client/client.cc:187-206, 255-256, 330-333).  Part n is read at n * (fsize / parts)
// and written back at the same place; its size is c, the quotient rounded up, except that the last
// part gives up what reaches past the end of the file, measured as if part n began at n * c.
module Parts {

  const WORD: nat := 0x1_0000_0000_0000_0000

  function PartSize(fsize: nat, partnum: nat, parts: nat, c: nat): nat {
    var offset := partnum * c % WORD;
    if partnum + 1 == parts && (offset + c) % WORD > fsize then (fsize - offset) % WORD else c
  }

  function Offset(fsize: nat, partnum: nat, parts: nat): nat
    requires parts > 0
  {
    fsize / parts * partnum
  }

  predicate Covers(fsize: nat, n: nat, parts: nat, c: nat, p: nat)
    requires parts > 0
  {
    Offset(fsize, n, parts) <= p < Offset(fsize, n, parts) + PartSize(fsize, n, parts, c)
  }

  predicate Fits(fsize: nat, n: nat, parts: nat, c: nat)
    requires parts > 0
  {
    Offset(fsize, n, parts) + PartSize(fsize, n, parts, c) <= fsize
  }

  // Every part lies inside the file.
  ghost predicate InBounds(fsize: nat, parts: nat, c: nat)
    requires parts > 0
  {
    forall n :: 0 <= n < parts ==> Fits(fsize, n, parts, c)
  }

  ghost predicate Covered(fsize: nat, parts: nat, c: nat, p: nat)
    requires parts > 0
  {
    exists n: nat :: n < parts && Covers(fsize, n, parts, c, p)
  }

  // Every byte lies in some part.
  ghost predicate Complete(fsize: nat, parts: nat, c: nat)
    requires parts > 0
  {
    forall p :: 0 <= p < fsize ==> Covered(fsize, parts, c, p)
  }

  // When cutting works.
  predicate Clean(fsize: nat, parts: nat, c: nat) {
    parts * c == fsize || (parts == 1 && c >= fsize) || (parts == 2 && c == fsize)
  }

  // ---- Arithmetic ----

  lemma MulMono(a: nat, b: nat, k: nat)
    ensures a <= b ==> a * k <= b * k
    ensures k == 0 ==> a * k == 0
  {
  }

  lemma DivRange(fsize: nat, parts: nat)
    requires parts > 0
    ensures fsize / parts * parts <= fsize < fsize / parts * parts + parts
  {
  }

  lemma MulStrict(a: nat, b: nat, k: nat)
    ensures a < b ==> a * k + k <= b * k
  {
    MulMono(a + 1, b, k);
    assert (a + 1) * k == a * k + k;
  }

  lemma DivExact(parts: nat, c: nat)
    requires parts > 0
    ensures parts * c / parts == c
  {
    var q := parts * c / parts;
    DivRange(parts * c, parts);
    MulStrict(q, c, parts);
    MulStrict(c, q, parts);
  }

  lemma Small(n: nat, parts: nat, c: nat)
    requires n < parts && parts * c < WORD
    ensures n * c % WORD == n * c && (n * c + c) % WORD == n * c + c && n * c + c <= parts * c
  {
    MulMono(n + 1, parts, c);
    assert (n + 1) * c == n * c + c;
  }

  // The size of the last part, without the modulus.
  lemma LastSize(fsize: nat, parts: nat, c: nat)
    requires parts > 0 && parts * c < WORD && fsize < WORD
    ensures var s, before := PartSize(fsize, parts - 1, parts, c), (parts - 1) * c;
            && parts * c == before + c
            && (parts * c <= fsize ==> s == c)
            && (before <= fsize < parts * c ==> s == fsize - before)
            && (fsize < before ==> s > fsize)
  {
    Small(parts - 1, parts, c);
    assert parts * c == (parts - 1) * c + c;
  }

  lemma OtherSize(fsize: nat, n: nat, parts: nat, c: nat)
    requires n + 1 < parts
    ensures PartSize(fsize, n, parts, c) == c
  {
  }

  // ---- Exactly when cutting works ----

  lemma CleanTiles(parts: nat, c: nat)
    requires parts > 0 && parts * c < WORD
    ensures InBounds(parts * c, parts, c) && Complete(parts * c, parts, c)
  {
    forall n | 0 <= n < parts ensures Fits(parts * c, n, parts, c) { CleanPart(parts, c, n); }
    forall p | 0 <= p < parts * c ensures Covered(parts * c, parts, c, p) {
      var n := PartOf(parts, c, p);
      CleanPart(parts, c, n);
      assert Covers(parts * c, n, parts, c, p);
    }
  }

  lemma CleanPart(parts: nat, c: nat, n: nat)
    requires n < parts && parts * c < WORD
    ensures PartSize(parts * c, n, parts, c) == c && Offset(parts * c, n, parts) == n * c
        && Fits(parts * c, n, parts, c)
  {
    DivExact(parts, c);
    LastSize(parts * c, parts, c);
    if n + 1 < parts { OtherSize(parts * c, n, parts, c); }
    Small(n, parts, c);
  }

  lemma PartOf(parts: nat, c: nat, p: nat) returns (n: nat)
    requires p < parts * c
    ensures n < parts && n * c <= p < n * c + c
  {
    MulMono(parts, parts, c);
    n := p / c;
    DivRange(p, c);
    MulMono(parts, n, c);
  }

  lemma CleanWorks(fsize: nat, parts: nat, c: nat)
    requires parts > 0 && parts * c < WORD && fsize < WORD && Clean(fsize, parts, c)
    ensures InBounds(fsize, parts, c) && Complete(fsize, parts, c)
  {
    if parts * c == fsize {
      CleanTiles(parts, c);
    } else {
      FirstIsAll(fsize, parts, c);
      forall n | 0 <= n < parts ensures Fits(fsize, n, parts, c) { assert n == 0 || n == parts - 1; }
      forall p | 0 <= p < fsize ensures Covered(fsize, parts, c, p) { assert Covers(fsize, 0, parts, c, p); }
    }
  }

  lemma FirstIsAll(fsize: nat, parts: nat, c: nat)
    requires parts * c < WORD && fsize < WORD && parts * c != fsize
        && ((parts == 1 && c >= fsize) || (parts == 2 && c == fsize))
    ensures PartSize(fsize, 0, parts, c) == fsize && Fits(fsize, 0, parts, c) && Fits(fsize, parts - 1, parts, c)
  {
    LastSize(fsize, parts, c);
    if parts == 2 { OtherSize(fsize, 0, parts, c); }
  }

  // Where the parts before the last end.
  lemma EarlierEnds(fsize: nat, parts: nat, c: nat, n: nat)
    requires parts >= 2 && n + 1 < parts
    ensures Offset(fsize, n, parts) <= fsize / parts * (parts - 2)
    ensures PartSize(fsize, n, parts, c) == c
  {
    MulMono(n, parts - 2, fsize / parts);
    OtherSize(fsize, n, parts, c);
  }

  // If parts overlap (c > fsize / parts), the last one stops short of the end by parts - 1 times the
  // overlap, so another part must reach the end: only two parts of which the first is everything.
  lemma OverlapIsDirty(fsize: nat, parts: nat, c: nat)
    requires parts >= 2 && parts * c < WORD && fsize < WORD && parts * c > fsize
    requires InBounds(fsize, parts, c) && Complete(fsize, parts, c)
    ensures parts == 2 && c == fsize
  {
    var q := fsize / parts;
    assert Fits(fsize, parts - 1, parts, c) && Fits(fsize, parts - 2, parts, c);
    LastStopsShort(fsize, parts, c);
    assert Covered(fsize, parts, c, fsize - 1);
    var n: nat :| n < parts && Covers(fsize, n, parts, c, fsize - 1);
    EarlierReaches(fsize, parts, c, n);
  }

  lemma EarlierReaches(fsize: nat, parts: nat, c: nat, n: nat)
    requires parts >= 2 && n + 1 < parts && fsize > 0 && Covers(fsize, n, parts, c, fsize - 1)
    requires Fits(fsize, parts - 2, parts, c) && (parts - 1) * c <= fsize && fsize / parts < c
    ensures parts == 2 && c == fsize
  {
    EarlierEnds(fsize, parts, c, n);
    EarlierEnds(fsize, parts, c, parts - 2);
    OnlyTwo(fsize / parts, parts, c, fsize);
  }

  lemma LastStopsShort(fsize: nat, parts: nat, c: nat)
    requires parts >= 2 && parts * c < WORD && fsize < WORD && parts * c > fsize && Fits(fsize, parts - 1, parts, c)
    ensures (parts - 1) * c <= fsize && fsize / parts < c && fsize > 0 && !Covers(fsize, parts - 1, parts, c, fsize - 1)
  {
    var q := fsize / parts;
    LastSize(fsize, parts, c);
    DivRange(fsize, parts);
    MulMono(c, q, parts);
    MulStrict(q, c, parts - 1);
  }

  lemma OnlyTwo(q: nat, parts: nat, c: nat, fsize: nat)
    requires parts >= 2 && q * (parts - 2) + c == fsize && (parts - 1) * c <= fsize && q < c
    ensures parts == 2
  {
    MulStrict(q, c, parts - 2);
    assert (parts - 1) * c == c * (parts - 2) + c;
  }

  // If parts do not reach one another, the end is covered only when they touch exactly.
  lemma GapIsDirty(fsize: nat, parts: nat, c: nat)
    requires parts > 0 && parts * c < WORD && fsize < WORD && parts * c <= fsize
    requires Complete(fsize, parts, c)
    ensures parts * c == fsize
  {
    if fsize > 0 {
      assert Covered(fsize, parts, c, fsize - 1);
      var n: nat :| n < parts && Covers(fsize, n, parts, c, fsize - 1);
      TouchesEnd(fsize, parts, c, n);
    }
  }

  lemma TouchesEnd(fsize: nat, parts: nat, c: nat, n: nat)
    requires n < parts && parts * c < WORD && 0 < fsize < WORD && parts * c <= fsize
        && Covers(fsize, n, parts, c, fsize - 1)
    ensures parts * c == fsize
  {
    LastSize(fsize, parts, c);
    if n + 1 < parts { OtherSize(fsize, n, parts, c); }
    TooShort(fsize / parts, n, parts, c, fsize);
  }

  lemma TooShort(q: nat, n: nat, parts: nat, c: nat, fsize: nat)
    requires n < parts && parts * c <= fsize && q == fsize / parts && q * n + c >= fsize
    ensures parts * c == fsize
  {
    DivRange(fsize, parts);
    MulStrict(q, c, parts);
    MulStrict(n, parts, q);
  }

  // Reading every part of a file and writing it back at its place restores every byte, without
  // touching anything outside, if and only if the cut is clean.
  lemma CutsCleanlyIff(fsize: nat, parts: nat, c: nat)
    requires parts > 0 && parts * c < WORD && fsize < WORD
    ensures InBounds(fsize, parts, c) && Complete(fsize, parts, c) <==> Clean(fsize, parts, c)
  {
    if Clean(fsize, parts, c) {
      CleanWorks(fsize, parts, c);
    } else if parts * c <= fsize {
      if Complete(fsize, parts, c) { GapIsDirty(fsize, parts, c); }
    } else if parts >= 2 {
      if InBounds(fsize, parts, c) && Complete(fsize, parts, c) { OverlapIsDirty(fsize, parts, c); }
    }
  }

  predicate RoundedUp(c: nat, a: nat, b: nat) {
    b * c >= a && (c > 0 ==> b * (c - 1) < a)
  }

  // With the exact quotient rounded up: when the number of parts divides the size, and for one byte
  // in two parts.
  lemma ExactQuotient(fsize: nat, parts: nat, c: nat)
    requires parts > 0 && RoundedUp(c, fsize, parts)
    ensures Clean(fsize, parts, c) <==> fsize % parts == 0 || (fsize == 1 && parts == 2)
  {
    var q := fsize / parts;
    assert fsize == q * parts + fsize % parts;
    if fsize % parts == 0 {
      RoundedIsExact(q, parts, c);
    } else {
      if parts * c == fsize { DivExact(parts, c); }
      assert parts == 2 && c == fsize ==> fsize == 1;
    }
  }

  lemma RoundedIsExact(q: nat, parts: nat, c: nat)
    requires parts > 0 && RoundedUp(c, q * parts, parts)
    ensures parts * c == q * parts
  {
    MulStrict(c, q, parts);
    if c > 0 { MulMono(q, c - 1, parts); }
  }

  // Ten bytes in three parts: parts [0, 4), [3, 7) and [6, 8); the last two bytes are in none.
  lemma TenBytesInThreeParts()
    ensures RoundedUp(4, 10, 3)
    ensures forall n :: n < 3 ==> !Covers(10, n, 3, 4, 8) && !Covers(10, n, 3, 4, 9)
  {
    forall n: nat | n < 3 ensures !Covers(10, n, 3, 4, 8) && !Covers(10, n, 3, 4, 9) {
      assert n == 0 || n == 1 || n == 2;
    }
  }

  // Five bytes in four parts: the size of the last part wraps around.
  lemma FiveBytesInFourParts()
    ensures RoundedUp(2, 5, 4) && PartSize(5, 3, 4, 2) == WORD - 1 && !Fits(5, 3, 4, 2)
  {
  }
}
