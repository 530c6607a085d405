// The copying loops of the two new_block_index functions, over the arrays themselves
// (src/libtools/utils/concurentqueue.hh:2141-2178, 2737-2779).  What they compute is what the
// machines ImplicitQueue and ExplicitQueue publish in one step.
module IndexGrowth {
  import E = ExplicitQueue
  import I = ImplicitQueue
  import opened Modular

  // The implicit producer's: a do-while loop from the position after the tail round to the tail,
  // then as many new entries, numbered from firstNew.
  method GrowImplicit(prev: array<nat>, prevTail: nat, firstNew: nat) returns (index: array<nat>, tail: nat)
    requires 0 < prev.Length && prevTail < prev.Length
    ensures fresh(index) && index[..] == I.GrownIndex(prev[..], prevTail, firstNew) && tail == prev.Length - 1
  {
    var capacity := prev.Length;
    index := new nat[2 * capacity];
    var prevPos := (prevTail + 1) % capacity;
    var i := 1;
    index[0] := prev[prevPos];
    while prevPos != prevTail
      invariant 1 <= i <= capacity && prevPos == (prevTail + i) % capacity
      invariant forall j :: 0 <= j < i ==> index[j] == prev[(prevTail + 1 + j) % capacity]
      decreases capacity - i
    {
      NotRound(prevTail, i, capacity);
      ModAdd(prevTail + i, 1, capacity);
      prevPos := (prevPos + 1) % capacity;
      index[i] := prev[prevPos];
      i := i + 1;
    }
    Round(prevTail, i, capacity);
    var k := 0;
    while k != capacity
      invariant k <= capacity
      invariant forall j :: 0 <= j < capacity ==> index[j] == prev[(prevTail + 1 + j) % capacity]
      invariant forall j :: capacity <= j < capacity + k ==> index[j] == firstNew + (j - capacity)
      decreases capacity - k
    {
      index[capacity + k] := firstNew + k;
      k := k + 1;
    }
    tail := capacity - 1;
  }

  // Before a whole turn the position differs from where it started.
  lemma NotRound(p: nat, i: nat, m: nat)
    requires p < m && 1 <= i <= m && (p + i) % m != p
    ensures i < m
  {
    if i == m { ModTurn(p, m); }
  }

  lemma Round(p: nat, i: nat, m: nat)
    requires p < m && 1 <= i <= m && (p + i) % m == p
    ensures i == m
  {
    if i < m { ModApart(p, p + i, m); }
  }

  // Where the k-th used entry, oldest first, lies in the old array.
  function OldSlot(front: nat, used: nat, size: nat, k: nat): (r: nat)
    requires used <= size && size > 0
    ensures r < size
  {
    (front + size - used + k) % size
  }

  lemma NextOld(front: nat, used: nat, size: nat, k: nat)
    requires used <= size && size > 0
    ensures (OldSlot(front, used, size, k) + 1) % size == OldSlot(front, used, size, k + 1) < size
  {
    ModAdd(front + size - used + k, 1, size);
  }

  // The explicit producer's: a do-while loop over the used slots, oldest first.
  method GrowExplicit(prev: array<E.Entry>, front: nat, used: nat, entries: array<E.Entry>) returns (newFront: nat)
    requires used > 0 ==> used <= prev.Length && front < prev.Length
    requires used <= entries.Length && entries != prev
    modifies entries
    ensures entries[..] == E.GrownEntries(old(prev[..]), front, used, old(entries[..]), entries.Length)
        && newFront == used
  {
    var j := 0;
    if used != 0 {
      var size := prev.Length;
      var i := (front + size - used) % size;
      assert i == OldSlot(front, used, size, 0);
      entries[0] := prev[i];
      j := 1;
      NextOld(front, used, size, 0);
      i := (i + 1) % size;
      while i != front
        invariant 1 <= j <= used && i == OldSlot(front, used, size, j) < size
        invariant forall k :: 0 <= k < j ==> entries[k] == prev[OldSlot(front, used, size, k)]
        invariant forall k :: j <= k < entries.Length ==> entries[k] == old(entries[k])
        decreases used - j
      {
        NotBack(front, used, j, size);
        entries[j] := prev[i];
        i := (i + 1) % size;
        assert i == OldSlot(front, used, size, j + 1) by { NextOld(front, used, size, j); }
        j := j + 1;
      }
      Back(front, used, j, size);
    }
    CopiedIsGrown(prev[..], front, used, old(entries[..]), entries[..]);
    newFront := j;
  }

  lemma CopiedIsGrown(prev: seq<E.Entry>, front: nat, used: nat, before: seq<E.Entry>, after: seq<E.Entry>)
    requires used > 0 ==> used <= |prev|
    requires used <= |after| == |before|
    requires forall k :: 0 <= k < used ==>
        OldSlot(front, used, |prev|, k) < |prev| && after[k] == prev[OldSlot(front, used, |prev|, k)]
    requires forall k :: used <= k < |after| ==> after[k] == before[k]
    ensures after == E.GrownEntries(prev, front, used, before, |after|)
  {
  }

  lemma NotBack(front: nat, used: nat, j: nat, size: nat)
    requires 0 < used <= size && front < size && 1 <= j <= used && (front + size - used + j) % size != front
    ensures j < used
  {
    if j == used { ModTurn(front, size); }
  }

  lemma NotYet(front: nat, used: nat, j: nat, size: nat)
    requires used <= size && front < size && 1 <= j < used
    ensures (front + size - used + j) % size != front
  {
    ModTurn(front, size);
    ModApart(front + size - used + j, front + size, size);
  }

  lemma Back(front: nat, used: nat, j: nat, size: nat)
    requires 0 < used <= size && front < size && 1 <= j <= used && (front + size - used + j) % size == front
    ensures j == used
  {
    if j < used { NotYet(front, used, j, size); }
  }
}
