// What the two kinds of producer share: the shape of a sub-queue's blocks, the progress of a
// consumer through its claim, and what it means to be a FIFO queue.
module SubQueue {
  import C = Counters

  const BLOCK_SIZE: nat := 32
  const HALF: nat := 0x8000_0000_0000_0000     // 2^(w-1) for 64-bit indices

  // Storage for one element: raw memory or a constructed item.
  datatype Cell = Raw | Item(x: int)

  function BlockNo(k: nat): nat { k / BLOCK_SIZE }
  function BlockBase(k: nat): nat { k / BLOCK_SIZE * BLOCK_SIZE }

  // The flag of the element at index k: flags are kept in reverse order.
  function FlagOf(k: nat): nat { BLOCK_SIZE - 1 - k % BLOCK_SIZE }

  // Where the part of a claim that starts at `from` leaves its block, or ends.
  function End(from: nat, limit: nat): nat { C.Min(BlockBase(from) + BLOCK_SIZE, limit) }

  lemma SameBlock(from: nat, i: nat, limit: nat)
    requires from <= i < End(from, limit)
    ensures BlockNo(i) == BlockNo(from)
  {
  }

  // Where a run has got to.
  function Last<T>(run: seq<T>): T
    requires |run| > 0
  {
    run[|run| - 1]
  }

  function Range(from: nat, end: nat): (r: set<nat>)
    ensures forall k :: k in r <==> from <= k < end
    decreases end
  {
    if end <= from then {} else Range(from, end - 1) + {end - 1}
  }

  // Received items are the ones enqueued under the same index; finished indices are received.
  ghost predicate Gots(got: map<nat, int>, items: seq<int>, head: nat, done: set<nat>) {
    && (forall k :: k in got ==> k < head && k < |items| && got[k] == items[k])
    && (forall k :: k in done ==> k in got)
  }

  // A request that can still be granted is for at least one item.
  predicate Positive(pc: C.Pc) {
    match pc
    case LoadOver(max, tail) => max > 0
    case LoadOpt(max, tail, over) => max > 0
    case AddOpt(over, want) => want > 0
    case Recheck(over, my, want) => want > 0
    case Refund(give, refund) => give > 0
    case AddHead(give) => give > 0
    case Claimed(first, count) => count > 0
    case _ => true
  }

  // Of the claim [first, limit), the indices below `counted` are done and those below `taken` got.
  ghost predicate Progress(first: nat, limit: nat, counted: nat, taken: nat, done: set<nat>, got: map<nat, int>) {
    forall k :: first <= k < limit ==> (k in done <==> k < counted) && (k in got <==> k < taken)
  }

  // Every index taken from head is finished, or claimed by the consumer that took it.
  predicate AccountedFor(ctr: C.State, done: set<nat>, k: nat)
    requires k < |ctr.owner|
  {
    k in done || C.Claims(ctr, ctr.owner[k], k)
  }

  ghost predicate Accounted(ctr: C.State, done: set<nat>) {
    forall k :: 0 <= k < |ctr.owner| ==> AccountedFor(ctr, done, k)
  }

  // A step of a thread that finishes the indices of its own claim, at most, before it ends it.
  lemma AccountedKeeps(ctr: C.State, done: set<nat>, ctr2: C.State, done2: set<nat>, t: nat, a: C.Action)
    requires Accounted(ctr, done) && done <= done2
    requires ctr2 == ctr || (C.Enabled(ctr, t, a) && ctr2 == C.Step(ctr, t, a))
    requires C.Inv(ctr)
    requires a.Finish? ==> forall k :: C.Claims(ctr, t, k) ==> k in done2
    ensures Accounted(ctr2, done2)
  {
    forall k | 0 <= k < |ctr2.owner| ensures AccountedFor(ctr2, done2, k) {
      if k < |ctr.owner| { assert AccountedFor(ctr, done, k); }
    }
  }

  // Of the first n blocks, those that are neither in the pool nor with another producer.
  function Kept(n: nat, free: set<nat>, away: set<nat>): set<nat> {
    set b | b in Range(0, n) && b !in free && b !in away
  }

  // A set of blocks that serve the numbers from lo on, one each.
  lemma {:induction false} CountKept(kept: set<nat>, blk: seq<nat>, lo: nat, user: map<nat, nat>)
    requires lo <= |blk|
    requires forall n :: lo <= n < |blk| ==> blk[n] in kept && blk[n] in user && user[blk[n]] == n
    requires forall b :: b in kept ==> b in user && lo <= user[b] < |blk| && blk[user[b]] == b
    ensures |kept| == |blk| - lo
    decreases |blk| - lo
  {
    if lo < |blk| {
      CountKept(kept - {blk[lo]}, blk, lo + 1, user);
      assert kept == (kept - {blk[lo]}) + {blk[lo]};
    } else {
      assert kept == {};
    }
  }

  // ---- A FIFO queue ----

  // `items` is everything enqueued so far, in order; `got[k]` what the consumer of index k received.
  datatype View = View(ctr: C.State, items: seq<int>, got: map<nat, int>)

  // What the sub-queue holds: everything enqueued and not yet claimed.
  function Contents(v: View): seq<int> {
    if v.ctr.head <= |v.items| then v.items[v.ctr.head..] else []
  }

  predicate Leaves(v: View, v2: View) { Contents(v2) == Contents(v) && v2.items == v.items }

  predicate Appends(v: View, v2: View, x: int) {
    Contents(v2) == Contents(v) + [x] && v2.items == v.items + [x]
  }

  // Consumer t claims the items at the front.
  predicate Pops(v: View, v2: View, t: nat) {
    && t < |v.ctr.pcs| && t < |v2.ctr.pcs| && !v.ctr.pcs[t].Claimed? && v2.ctr.pcs[t].Claimed?
    && v2.items == v.items && v2.ctr.pcs[t].first == v.ctr.head
    && var limit := v.ctr.head + v2.ctr.pcs[t].count;
       limit <= |v.items| && Contents(v) == v.items[v.ctr.head..limit] + Contents(v2)
  }

  // A step appends one item at the back, or lets one consumer claim items at the front, or leaves
  // the queue as it is.
  ghost predicate QueueStep(v: View, v2: View) {
    Leaves(v, v2) || (exists x :: Appends(v, v2, x)) || (exists t :: Pops(v, v2, t))
  }

  // Nothing enqueued or received is ever changed.
  ghost predicate HistoryKept(v: View, v2: View) {
    v.items <= v2.items && forall k :: k in v.got ==> k in v2.got && v2.got[k] == v.got[k]
  }

  lemma ClaimIsQueueStep(v: View, t: nat, a: C.Action)
    requires C.Inv(v.ctr) && |v.items| == v.ctr.tail && C.Enabled(v.ctr, t, a) && (a.Go? || a.Start?)
    ensures QueueStep(v, v.(ctr := C.Step(v.ctr, t, a)))
  {
    var ctr := C.Step(v.ctr, t, a);
    C.StepKeeps(v.ctr, t, a);
    if a.Go? && v.ctr.pcs[t].AddHead? {
      assert v.items[v.ctr.head..] == v.items[v.ctr.head..ctr.head] + v.items[ctr.head..];
      assert Pops(v, v.(ctr := ctr), t);
    } else {
      assert Leaves(v, v.(ctr := ctr));
    }
  }
}
