// dequeue and dequeue_bulk of one sub-queue, run by one thread alone
// (src/libtools/utils/concurentqueue.hh:2336-2404, 2558-2660): one bulk call takes what that many
// single calls take, in the same order, and leaves the same counters and the same finished blocks.
// How a call finds its blocks, and what happens when several threads call at once, is in
// ImplicitQueue and ExplicitQueue.
module BulkDequeue {
  import opened SubQueue

  // `items` is the content of the sub-queue's cells by index, `count` the number of finished elements
  // of each block, `freed` the blocks given back, in order, and `out` what the calls have returned.
  datatype Value = Value(
    tail: nat, head: nat, optimistic: nat, overcommit: nat, items: seq<int>, count: seq<nat>, freed: seq<nat>,
        out: seq<int>)

  // No call is under way: the counters have caught up, and what is before head is finished.
  ghost predicate Quiet(v: Value) {
    && v.optimistic - v.overcommit == v.head && v.overcommit <= v.optimistic && v.head <= v.tail == |v.items|
    && |v.count| > BlockNo(v.tail)
    && v.count[BlockNo(v.head)] == v.head % BLOCK_SIZE
    && (forall b :: BlockNo(v.head) < b < |v.count| ==> v.count[b] == 0)
  }

  // Marking m more elements of block b as finished; a block whose last element this was is given back.
  function CountAfter(count: seq<nat>, b: nat, m: nat): seq<nat>
    requires b < |count|
  {
    count[b := count[b] + m]
  }

  function FreedAfter(count: seq<nat>, freed: seq<nat>, b: nat, m: nat): seq<nat>
    requires b < |count|
  {
    if count[b] + m == BLOCK_SIZE then freed + [b] else freed
  }

  // The state after the next n items have been taken: the items in order; every element before the
  // new head finished, and none after it; the blocks that lie wholly behind it given back, in order.
  function After(v: Value, n: nat): Value {
    v.(head := v.head + n, optimistic := v.optimistic + n, out := Outs(v, n), count := Counts(v, n),
        freed := Freed(v, n))
  }

  function Outs(v: Value, n: nat): seq<int> {
    v.out + (if v.head + n <= |v.items| then v.items[v.head..v.head + n] else [])
  }

  function Counts(v: Value, n: nat): (r: seq<nat>)
    ensures |r| == |v.count|
  {
    seq(|v.count|, b requires 0 <= b < |v.count| => CountAt(v, n, b))
  }

  function CountAt(v: Value, n: nat, b: nat): nat
    requires b < |v.count|
  {
    if b < BlockNo(v.head) then v.count[b]
    else if b < BlockNo(v.head + n) then BLOCK_SIZE
    else if b == BlockNo(v.head + n) then (v.head + n) % BLOCK_SIZE
    else 0
  }

  function Freed(v: Value, n: nat): seq<nat> { v.freed + Blocks(BlockNo(v.head), BlockNo(v.head + n)) }

  // The block numbers lo, lo + 1, ..., hi - 1.
  function Blocks(lo: nat, hi: nat): seq<nat> {
    if hi <= lo then [] else seq(hi - lo, i requires 0 <= i => lo + i)
  }

  lemma StaysQuiet(v: Value, n: nat)
    requires Quiet(v) && v.head + n <= v.tail
    ensures Quiet(After(v, n))
  {
  }

  lemma NothingTaken(v: Value)
    requires Quiet(v)
    ensures After(v, 0) == v
  {
    assert Counts(v, 0) == v.count;
  }

  // Going m elements on within a block.
  lemma Position(h: nat, m: nat)
    requires h % BLOCK_SIZE + m <= BLOCK_SIZE
    ensures if h % BLOCK_SIZE + m == BLOCK_SIZE then BlockNo(h + m) == BlockNo(h) + 1 && (h + m) % BLOCK_SIZE == 0
            else BlockNo(h + m) == BlockNo(h) && (h + m) % BLOCK_SIZE == h % BLOCK_SIZE + m
  {
  }

  lemma InOrder(h: nat, n: nat)
    ensures BlockNo(h) <= BlockNo(h + n)
  {
  }

  lemma CountsStep(v: Value, n: nat, m: nat)
    requires Quiet(v) && v.head + n + m <= v.tail && (v.head + n) % BLOCK_SIZE + m <= BLOCK_SIZE
    ensures BlockNo(v.head + n) < |v.count|
    ensures Counts(v, n + m) == CountAfter(Counts(v, n), BlockNo(v.head + n), m)
  {
    var h := v.head + n;
    InOrder(v.head, n);
    InOrder(h, v.tail - h);
    Position(h, m);
    forall b | 0 <= b < |v.count|
        ensures CountAt(v, n + m, b) == CountAt(v, n, b) + (if b == BlockNo(h) then m else 0) {
    }
  }

  lemma FreedStep(v: Value, n: nat, m: nat)
    requires Quiet(v) && v.head + n + m <= v.tail && (v.head + n) % BLOCK_SIZE + m <= BLOCK_SIZE
    requires BlockNo(v.head + n) < |v.count|
    ensures Freed(v, n + m) == FreedAfter(Counts(v, n), Freed(v, n), BlockNo(v.head + n), m)
  {
    InOrder(v.head, n);
    Position(v.head + n, m);
    assert Counts(v, n)[BlockNo(v.head + n)] == (v.head + n) % BLOCK_SIZE;
    assert Blocks(BlockNo(v.head), BlockNo(v.head + n) + 1)
        == Blocks(BlockNo(v.head), BlockNo(v.head + n)) + [BlockNo(v.head + n)];
  }

  // The items from position h = head + n to h + m, in one block: they are returned, and the block's
  // count goes up by m.
  lemma PartStep(v: Value, n: nat, m: nat)
    requires Quiet(v) && v.head + n + m <= v.tail && (v.head + n) % BLOCK_SIZE + m <= BLOCK_SIZE
    ensures BlockNo(v.head + n) < |v.count|
    ensures Outs(v, n + m) == Outs(v, n) + v.items[v.head + n..v.head + n + m]
    ensures Counts(v, n + m) == CountAfter(Counts(v, n), BlockNo(v.head + n), m)
    ensures Freed(v, n + m) == FreedAfter(Counts(v, n), Freed(v, n), BlockNo(v.head + n), m)
  {
    CountsStep(v, n, m);
    FreedStep(v, n, m);
    assert v.items[v.head..v.head + n] + v.items[v.head + n..v.head + n + m] == v.items[v.head..v.head + n + m];
  }

  // What the consumer's fields must hold after n items.
  predicate Reached(v: Value, n: nat, out: seq<int>, count: seq<nat>, freed: seq<nat>) {
    out == Outs(v, n) && count == Counts(v, n) && freed == Freed(v, n)
  }

  lemma StartReached(v: Value)
    requires Quiet(v)
    ensures Reached(v, 0, v.out, v.count, v.freed)
  {
    NothingTaken(v);
  }

  lemma ReachFurther(v: Value, n: nat, m: nat, out: seq<int>, count: seq<nat>, freed: seq<nat>)
    requires Quiet(v) && v.head + n + m <= v.tail && (v.head + n) % BLOCK_SIZE + m <= BLOCK_SIZE
    requires BlockNo(v.head + n) < |count| && Reached(v, n, out, count, freed)
    ensures Reached(v, n + m, out + v.items[v.head + n..v.head + n + m],
                    CountAfter(count, BlockNo(v.head + n), m), FreedAfter(count, freed, BlockNo(v.head + n), m))
  {
    PartStep(v, n, m);
  }

  lemma InCounts(v: Value, n: nat, count: seq<nat>)
    requires Quiet(v) && v.head + n <= v.tail && |count| == |v.count|
    ensures BlockNo(v.head + n) < |count|
  {
    InOrder(v.head + n, v.tail - (v.head + n));
  }

  lemma EndIsNear(from: nat, limit: nat)
    requires from <= limit
    ensures from <= End(from, limit) <= limit && (from < limit ==> from < End(from, limit))
    ensures from % BLOCK_SIZE + (End(from, limit) - from) <= BLOCK_SIZE
  {
  }

  // The next part, from position `from`, of a claim that ends at `limit`.
  lemma ReachPart(v: Value, from: nat, limit: nat, end: nat, out: seq<int>, count: seq<nat>, freed: seq<nat>)
    requires Quiet(v) && v.head <= from <= limit <= v.tail && end == End(from, limit)
    requires Reached(v, from - v.head, out, count, freed)
    ensures from <= end <= limit && (from < limit ==> from < end) && BlockNo(from) < |count|
    ensures Reached(v, end - v.head, out + v.items[from..end], CountAfter(count, BlockNo(from), end - from),
        FreedAfter(count, freed, BlockNo(from), end - from))
  {
    EndIsNear(from, limit);
    ReachTo(v, from, end, out, count, freed);
  }

  lemma ReachTo(v: Value, from: nat, end: nat, out: seq<int>, count: seq<nat>, freed: seq<nat>)
    requires Quiet(v) && v.head <= from <= end <= v.tail && from % BLOCK_SIZE + (end - from) <= BLOCK_SIZE
    requires Reached(v, from - v.head, out, count, freed)
    ensures BlockNo(from) < |count|
    ensures Reached(v, end - v.head, out + v.items[from..end], CountAfter(count, BlockNo(from), end - from),
        FreedAfter(count, freed, BlockNo(from), end - from))
  {
    var n, m := from - v.head, end - from;
    InCounts(v, n, count);
    assert v.head + n == from && v.head + n + m == end && n + m == end - v.head;
    ReachFurther(v, n, m, out, count, freed);
  }

  // The fields of a consumer that has taken n items.
  function At(v: Value, n: nat, out: seq<int>, count: seq<nat>, freed: seq<nat>): Value {
    v.(head := v.head + n, optimistic := v.optimistic + n, out := out, count := count, freed := freed)
  }

  lemma QuietAt(v: Value, n: nat, out: seq<int>, count: seq<nat>, freed: seq<nat>)
    requires Quiet(v) && v.head + n <= v.tail && Reached(v, n, out, count, freed)
    ensures Quiet(At(v, n, out, count, freed)) && At(v, n, out, count, freed) == After(v, n)
        && BlockNo(v.head + n) < |count|
  {
    StaysQuiet(v, n);
  }

  class Consumer {
    var tailIndex: nat
    var headIndex: nat
    var dequeueOptimisticCount: nat
    var dequeueOvercommit: nat
    var items: seq<int>
    var count: seq<nat>
    var freed: seq<nat>
    var out: seq<int>

    ghost function Val(): Value
      reads this
    {
      Value(tailIndex, headIndex, dequeueOptimisticCount, dequeueOvercommit, items, count, freed, out)
    }

    constructor (contents: seq<int>)
      ensures Quiet(Val()) && items == contents && headIndex == 0 && out == []
    {
      tailIndex, headIndex, dequeueOptimisticCount, dequeueOvercommit := |contents|, 0, 0, 0;
      items, count, freed, out := contents, seq(BlockNo(|contents|) + 1, _ => 0), [], [];
    }

    // set_many_empty, and the block back to the free list if it was completed.
    method SetManyEmpty(b: nat, m: nat)
      requires b < |count|
      modifies this`count, this`freed
      ensures count == CountAfter(old(count), b, m) && freed == FreedAfter(old(count), old(freed), b, m)
    {
      count := count[b := count[b] + m];
      if count[b] == BLOCK_SIZE { freed := freed + [b]; }
    }

    method Dequeue() returns (ok: bool)
      requires Quiet(Val())
      modifies this
      ensures Quiet(Val()) && (ok <==> old(headIndex) < old(tailIndex))
      ensures ok ==> Val() == old(Val()).(head := headIndex, optimistic := dequeueOptimisticCount, out := out,
          count := count, freed := freed)
      ensures ok ==> headIndex == old(headIndex) + 1 && dequeueOptimisticCount == old(dequeueOptimisticCount) + 1
      ensures ok ==> out == old(out) + [old(items)[old(headIndex)]] && BlockNo(old(headIndex)) < |old(count)|
      ensures ok ==> count == CountAfter(old(count), BlockNo(old(headIndex)), 1)
      ensures ok ==> freed == FreedAfter(old(count), old(freed), BlockNo(old(headIndex)), 1)
      ensures !ok ==> Val() == old(Val())
    {
      ghost var v := Val();
      var overcommit := dequeueOvercommit;
      if dequeueOptimisticCount - overcommit < tailIndex {
        var my := dequeueOptimisticCount;
        dequeueOptimisticCount := dequeueOptimisticCount + 1;
        if my - overcommit < tailIndex {
          var index := headIndex;
          headIndex := headIndex + 1;
          out := out + [items[index]];
          SetManyEmpty(BlockNo(index), 1);
          StaysQuiet(v, 1);
          NothingTaken(v);
          PartStep(v, 0, 1);
          return true;
        } else {
          assert false;    // alone, a call that passes the first test passes the second
        }
      }
      ok := false;
    }

    // The part of a claim in one block: the inner loop, and then the block's count.
    method TakePart(from: nat, end: nat)
      requires from <= end <= |items| && BlockNo(from) < |count|
      modifies this`out, this`count, this`freed
      ensures out == old(out) + items[from..end]
      ensures count == CountAfter(old(count), BlockNo(from), end - from)
      ensures freed == FreedAfter(old(count), old(freed), BlockNo(from), end - from)
    {
      var index := from;
      while index != end
        invariant from <= index <= end && out == old(out) + items[from..index] && count == old(count)
            && freed == old(freed)
        decreases end - index
      {
        assert items[from..index + 1] == items[from..index] + [items[index]];
        out := out + [items[index]];
        index := index + 1;
      }
      SetManyEmpty(BlockNo(from), end - from);
    }

    // The loop over the blocks of the claim.
    method TakeParts(first: nat, actual: nat, ghost v0: Value)
      requires Quiet(v0) && first == v0.head && first + actual <= v0.tail
      requires items == v0.items && out == v0.out && count == v0.count && freed == v0.freed
      modifies this`out, this`count, this`freed
      ensures Reached(v0, actual, out, count, freed)
    {
      var index, more := first, true;
      StartReached(v0);
      while more
        invariant first <= index <= first + actual && (!more ==> index == first + actual)
        invariant Reached(v0, index - v0.head, out, count, freed)
        decreases more, first + actual - index
      {
        var end := End(index, first + actual);
        ReachPart(v0, index, first + actual, end, out, count, freed);
        TakePart(index, end);
        index := end;
        more := index != first + actual;
      }
    }

    method DequeueBulk(max: nat) returns (n: nat)
      requires Quiet(Val())
      modifies this
      ensures old(headIndex) + n <= old(tailIndex) && Quiet(Val())
      ensures n == if max < old(tailIndex) - old(headIndex) then max else old(tailIndex) - old(headIndex)
      ensures Val() == After(old(Val()), n)
      ensures out == old(out) + old(items)[old(headIndex)..old(headIndex) + n]
    {
      ghost var v := Val();
      var overcommit := dequeueOvercommit;
      var desired := tailIndex - (dequeueOptimisticCount - overcommit);
      n := 0;
      if 0 < desired {
        desired := if desired < max then desired else max;
        var my := dequeueOptimisticCount;
        dequeueOptimisticCount := dequeueOptimisticCount + desired;
        var actual := tailIndex - (my - overcommit);
        if 0 < actual {
          actual := if desired < actual then desired else actual;
          if actual < desired { assert false; }    // alone, a call gets all it asked for
          var first := headIndex;
          headIndex := headIndex + actual;
          TakeParts(first, actual, v);
          n := actual;
        } else {
          assert false;
        }
      }
      if n == 0 { NothingTaken(v); }
      assert Reached(v, n, out, count, freed);
      assert Val() == At(v, n, out, count, freed);
      QuietAt(v, n, out, count, freed);
    }

    // As many single calls, until one finds nothing.
    method DequeueSingly(max: nat) returns (n: nat)
      requires Quiet(Val())
      modifies this
      ensures old(headIndex) + n <= old(tailIndex) && Quiet(Val())
      ensures n == if max < old(tailIndex) - old(headIndex) then max else old(tailIndex) - old(headIndex)
      ensures Val() == After(old(Val()), n)
    {
      ghost var v := Val();
      NothingTaken(v);
      n := 0;
      while n < max
        invariant n <= max && v.head + n <= v.tail
        invariant Reached(v, n, out, count, freed)
        invariant Val() == At(v, n, out, count, freed)
      {
        QuietAt(v, n, out, count, freed);
        ghost var oldOut, oldCount, oldFreed := out, count, freed;
        var ok := Dequeue();
        if !ok { break; }
        ReachFurther(v, n, 1, oldOut, oldCount, oldFreed);
        n := n + 1;
      }
      QuietAt(v, n, out, count, freed);
    }
  }
}
