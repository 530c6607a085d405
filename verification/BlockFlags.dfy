// The emptiness of a block, in its two forms (src/libtools/utils/concurentqueue.hh:1355-1459): flags,
// one an element and in reverse order, for explicit producers, and a counter for implicit ones.
// Here one thread at a time uses a block; ExplicitQueue and ImplicitQueue interleave the steps.
module BlockFlags {
  import opened SubQueue

  // The flags after the elements at [i, i + count) have been marked.
  function Marked(flags: seq<bool>, i: nat, count: nat): (r: seq<bool>)
    requires |flags| == BLOCK_SIZE && i % BLOCK_SIZE + count <= BLOCK_SIZE
    ensures |r| == BLOCK_SIZE
  {
    seq(BLOCK_SIZE, p requires 0 <= p < BLOCK_SIZE => flags[p] || (FlagOf(i) - count < p <= FlagOf(i)))
  }

  // How many flags among the first n are set.
  function Count(flags: seq<bool>, n: nat): nat
    requires n <= |flags|
  {
    if n == 0 then 0 else Count(flags, n - 1) + (if flags[n - 1] then 1 else 0)
  }

  class Block {
    var emptyFlags: array<bool>
    var elementsCompletelyDequeued: nat

    ghost predicate Valid()
      reads this
    {
      emptyFlags.Length == BLOCK_SIZE
    }

    // The two forms say the same.
    ghost predicate Agrees()
      reads this, emptyFlags
      requires Valid()
    {
      Count(emptyFlags[..], BLOCK_SIZE) == elementsCompletelyDequeued
    }

    constructor ()
      ensures Valid() && fresh(emptyFlags) && elementsCompletelyDequeued == 0
      ensures emptyFlags[..] == seq(BLOCK_SIZE, _ => false)
    {
      emptyFlags := new bool[BLOCK_SIZE](_ => false);
      elementsCompletelyDequeued := 0;
    }

    method IsEmptyFlags() returns (r: bool)
      requires Valid()
      ensures r <==> forall p :: 0 <= p < BLOCK_SIZE ==> emptyFlags[p]
    {
      var i := 0;
      while i < BLOCK_SIZE
        invariant i <= BLOCK_SIZE && forall p :: 0 <= p < i ==> emptyFlags[p]
      {
        if !emptyFlags[i] { return false; }
        i := i + 1;
      }
      r := true;
    }

    // A counter that agrees with the flags gives the same answer.
    method IsEmptyCounter() returns (r: bool)
      requires Valid() && Agrees()
      ensures r <==> forall p :: 0 <= p < BLOCK_SIZE ==> emptyFlags[p]
    {
      CountAll(emptyFlags[..], BLOCK_SIZE);
      assert forall p :: 0 <= p < BLOCK_SIZE ==> emptyFlags[..][p] == emptyFlags[p];
      r := elementsCompletelyDequeued == BLOCK_SIZE;
    }

    // Nothing tells the caller that the block is now empty.
    method SetEmptyFlag(i: nat) returns (r: bool)
      requires Valid() && !emptyFlags[FlagOf(i)]
      modifies emptyFlags
      ensures emptyFlags[..] == Marked(old(emptyFlags[..]), i, 1) && !r
    {
      emptyFlags[FlagOf(i)] := true;
      r := false;
    }

    // `flags` are the marks so far, as the other form would keep them: the counter stays their number,
    // never passes BLOCK_SIZE, and its answer is that all elements are marked.
    method SetEmptyCounter(i: nat, ghost flags: seq<bool>) returns (r: bool)
      requires Valid() && |flags| == BLOCK_SIZE && Count(flags, BLOCK_SIZE) == elementsCompletelyDequeued
          && !flags[FlagOf(i)]
      modifies this`elementsCompletelyDequeued
      ensures elementsCompletelyDequeued == Count(Marked(flags, i, 1), BLOCK_SIZE) <= BLOCK_SIZE
      ensures r <==> forall p :: 0 <= p < BLOCK_SIZE ==> Marked(flags, i, 1)[p]
    {
      var prev := elementsCompletelyDequeued;
      elementsCompletelyDequeued := elementsCompletelyDequeued + 1;
      MarksAreCounted(flags, i, 1);
      assert prev < BLOCK_SIZE;
      r := prev == BLOCK_SIZE - 1;
    }

    method SetManyEmptyFlags(i: nat, count: nat) returns (r: bool)
      requires Valid() && i % BLOCK_SIZE + count <= BLOCK_SIZE
      requires forall p :: FlagOf(i) - count < p <= FlagOf(i) ==> !emptyFlags[p]
      modifies emptyFlags
      ensures emptyFlags[..] == Marked(old(emptyFlags[..]), i, count) && !r
    {
      var first := BLOCK_SIZE - 1 - i % BLOCK_SIZE - count + 1;
      var j := 0;
      while j != count
        invariant j <= count
        invariant forall p :: 0 <= p < BLOCK_SIZE ==> emptyFlags[p] == (old(emptyFlags[p]) || first <= p < first + j)
        decreases count - j
      {
        assert !emptyFlags[first + j];
        emptyFlags[first + j] := true;
        j := j + 1;
      }
      r := false;
    }

    method SetManyEmptyCounter(i: nat, count: nat, ghost flags: seq<bool>) returns (r: bool)
      requires Valid() && |flags| == BLOCK_SIZE && Count(flags, BLOCK_SIZE) == elementsCompletelyDequeued
      requires i % BLOCK_SIZE + count <= BLOCK_SIZE && forall p :: FlagOf(i) - count < p <= FlagOf(i) ==> !flags[p]
      modifies this`elementsCompletelyDequeued
      ensures elementsCompletelyDequeued == Count(Marked(flags, i, count), BLOCK_SIZE) <= BLOCK_SIZE
      ensures r <==> forall p :: 0 <= p < BLOCK_SIZE ==> Marked(flags, i, count)[p]
    {
      var prev := elementsCompletelyDequeued;
      elementsCompletelyDequeued := elementsCompletelyDequeued + count;
      MarksAreCounted(flags, i, count);
      assert prev + count <= BLOCK_SIZE;
      r := prev + count == BLOCK_SIZE;
    }

    method SetAllEmpty()
      requires Valid()
      modifies this`elementsCompletelyDequeued, emptyFlags
      ensures emptyFlags[..] == seq(BLOCK_SIZE, _ => true) && elementsCompletelyDequeued == BLOCK_SIZE && Agrees()
    {
      var i := 0;
      while i != BLOCK_SIZE
        invariant i <= BLOCK_SIZE && forall p :: 0 <= p < i ==> emptyFlags[p]
        decreases BLOCK_SIZE - i
      {
        emptyFlags[i] := true;
        i := i + 1;
      }
      elementsCompletelyDequeued := BLOCK_SIZE;
      CountAll(emptyFlags[..], BLOCK_SIZE);
    }

    method ResetEmpty()
      requires Valid()
      modifies this`elementsCompletelyDequeued, emptyFlags
      ensures emptyFlags[..] == seq(BLOCK_SIZE, _ => false) && elementsCompletelyDequeued == 0 && Agrees()
    {
      var i := 0;
      while i != BLOCK_SIZE
        invariant i <= BLOCK_SIZE && forall p :: 0 <= p < i ==> !emptyFlags[p]
        decreases BLOCK_SIZE - i
      {
        emptyFlags[i] := false;
        i := i + 1;
      }
      elementsCompletelyDequeued := 0;
      CountNone(emptyFlags[..], BLOCK_SIZE);
    }

    // The calls set_empty(i), ..., set_empty(i + count - 1), in both forms, leave the flags and the
    // count that set_many_empty(i, count) leaves, and the last answer of the counter is its answer.
    method SetOneByOne(i: nat, count: nat) returns (r: bool)
      requires Valid() && Agrees() && count > 0 && i % BLOCK_SIZE + count <= BLOCK_SIZE
      requires forall p :: FlagOf(i) - count < p <= FlagOf(i) ==> !emptyFlags[p]
      modifies this`elementsCompletelyDequeued, emptyFlags
      ensures emptyFlags[..] == Marked(old(emptyFlags[..]), i, count) && Agrees()
      ensures elementsCompletelyDequeued == old(elementsCompletelyDequeued) + count
      ensures r <==> forall p :: 0 <= p < BLOCK_SIZE ==> emptyFlags[p]
    {
      var j := 0;
      r := false;
      while j < count
        invariant j <= count && Agrees()
        invariant emptyFlags[..] == Marked(old(emptyFlags[..]), i, j)
        invariant j > 0 ==> (r <==> forall p :: 0 <= p < BLOCK_SIZE ==> emptyFlags[..][p])
      {
        NextFlag(i, j);
        MarkedMore(old(emptyFlags[..]), i, j);
        ghost var marks := emptyFlags[..];
        var ignored := SetEmptyFlag(i + j);
        r := SetEmptyCounter(i + j, marks);
        j := j + 1;
      }
      MarksAreCounted(old(emptyFlags[..]), i, count);
      assert forall p :: 0 <= p < BLOCK_SIZE ==> emptyFlags[..][p] == emptyFlags[p];
    }
  }

  lemma NextFlag(i: nat, j: nat)
    requires i % BLOCK_SIZE + j < BLOCK_SIZE
    ensures (i + j) % BLOCK_SIZE == i % BLOCK_SIZE + j && FlagOf(i + j) == FlagOf(i) - j
  {
  }

  lemma MarkedMore(flags: seq<bool>, i: nat, j: nat)
    requires |flags| == BLOCK_SIZE && i % BLOCK_SIZE + j < BLOCK_SIZE
    ensures (i + j) % BLOCK_SIZE + 1 <= BLOCK_SIZE
    ensures Marked(Marked(flags, i, j), i + j, 1) == Marked(flags, i, j + 1)
  {
    NextFlag(i, j);
  }

  // ---- The two forms describe the same set of finished elements ----

  lemma {:induction false} CountAll(flags: seq<bool>, n: nat)
    requires n <= |flags|
    ensures Count(flags, n) <= n
    ensures Count(flags, n) == n <==> forall p :: 0 <= p < n ==> flags[p]
  {
    if n == 0 {
    } else {
      CountAll(flags, n - 1);
    }
  }

  lemma {:induction false} CountNone(flags: seq<bool>, n: nat)
    requires n <= |flags| && forall p :: 0 <= p < n ==> !flags[p]
    ensures Count(flags, n) == 0
  {
    if n == 0 {
    } else {
      CountNone(flags, n - 1);
    }
  }

  lemma {:induction false} CountUpdate(flags: seq<bool>, p: nat, n: nat)
    requires n <= |flags| && p < |flags| && !flags[p]
    ensures Count(flags[p := true], n) == Count(flags, n) + (if p < n then 1 else 0)
  {
    if n == 0 {
    } else {
      CountUpdate(flags, p, n - 1);
    }
  }

  // Marking count elements that were not marked adds count to the number of marks: so flags and
  // counter stay in step, and either test finds the block empty exactly when the other does.
  lemma {:induction false} MarksAreCounted(flags: seq<bool>, i: nat, count: nat)
    requires |flags| == BLOCK_SIZE && i % BLOCK_SIZE + count <= BLOCK_SIZE
    requires forall p :: FlagOf(i) - count < p <= FlagOf(i) ==> !flags[p]
    ensures Count(Marked(flags, i, count), BLOCK_SIZE) == Count(flags, BLOCK_SIZE) + count <= BLOCK_SIZE
    ensures Count(Marked(flags, i, count), BLOCK_SIZE) == BLOCK_SIZE <==> forall p :: 0 <= p < BLOCK_SIZE ==>
        Marked(flags, i, count)[p]
  {
    if count == 0 {
      assert Marked(flags, i, 0) == flags;
    } else {
      MarksAreCounted(flags, i, count - 1);
      var before := Marked(flags, i, count - 1);
      assert Marked(flags, i, count) == before[FlagOf(i) - count + 1 := true];
      CountUpdate(before, FlagOf(i) - count + 1, BLOCK_SIZE);
    }
    CountAll(Marked(flags, i, count), BLOCK_SIZE);
  }
}
