// try_dequeue: which sub-queue a dequeue is tried on (src/libtools/utils/concurentqueue.hh:923-954).
// The sizes it goes by may be out of date by the time it dequeues, so they are a parameter here:
// whatever was seen while the producer list was scanned.
module TryDequeue {

  // How many of the first n sub-queues were seen to hold something.
  function Seen(sizes: seq<nat>, n: nat): nat
    requires n <= |sizes|
  {
    if n == 0 then 0 else Seen(sizes, n - 1) + (if sizes[n - 1] > 0 then 1 else 0)
  }

  // The scan stops after three of them.
  predicate Scanned(sizes: seq<nat>, i: nat) { i < |sizes| && Seen(sizes, i) < 3 }

  // The first of the largest it has seen.
  predicate IsBest(sizes: seq<nat>, b: nat) {
    && Scanned(sizes, b) && sizes[b] > 0
    && forall i :: 0 <= i < |sizes| && Scanned(sizes, i) ==> if i < b then sizes[i] < sizes[b] else sizes[i] <= sizes[b]
  }

  lemma {:induction false} SeenGrows(sizes: seq<nat>, m: nat, n: nat)
    requires m <= n <= |sizes|
    ensures Seen(sizes, m) <= Seen(sizes, n)
  {
    if m == n {
    } else {
      SeenGrows(sizes, m, n - 1);
    }
  }

  class Queue {
    // The sub-queues, in the order of the producer list, each with its items in order.
    var subs: seq<seq<int>>

    constructor (contents: seq<seq<int>>)
      ensures subs == contents
    {
      subs := contents;
    }

    method DequeueFrom(i: nat) returns (ok: bool, item: int)
      requires i < |subs|
      modifies this
      ensures ok <==> old(subs)[i] != []
      ensures ok ==> item == old(subs)[i][0] && subs == old(subs)[i := old(subs)[i][1..]]
      ensures !ok ==> subs == old(subs)
    {
      ok, item := subs[i] != [], 0;
      if ok {
        item := subs[i][0];
        subs := subs[i := subs[i][1..]];
      }
    }

    // If any sub-queue was seen to hold something, the call takes the first item of the best of them, or,
    // if that is empty by then, of the first one in the list that is not; if none was, it gives up.
    method TryDequeue(sizes: seq<nat>) returns (ok: bool, item: int)
      requires |sizes| == |subs|
      modifies this
      ensures ok <==>
                (exists i :: 0 <= i < |sizes| && sizes[i] > 0) && (exists i :: 0 <= i < |sizes| && old(subs)[i] != [])
      ensures ok ==> exists i ::
          0 <= i < |sizes| && old(subs)[i] != [] && item == old(subs)[i][0] && subs == old(subs)[i := old(subs)[i][1..]]
          && (IsBest(sizes, i)
              || (exists b: nat ::
                    IsBest(sizes, b) && old(subs)[b] == [] && forall j :: 0 <= j < i ==> old(subs)[j] == []))
      ensures !ok ==> subs == old(subs)
    {
      var nonEmptyCount, best, bestSize, ptr := 0, 0, 0, 0;
      while nonEmptyCount < 3 && ptr < |subs|
        invariant ptr <= |subs| && subs == old(subs) && nonEmptyCount == Seen(sizes, ptr) <= 3
        invariant nonEmptyCount == 0 <==> forall i :: 0 <= i < ptr ==> sizes[i] == 0
        invariant nonEmptyCount > 0 ==> best < ptr && bestSize == sizes[best] > 0 && Scanned(sizes, best)
        invariant nonEmptyCount == 0 ==> bestSize == best == 0
        invariant forall i :: 0 <= i < ptr ==> if i < best then sizes[i] < bestSize else sizes[i] <= bestSize
        decreases |subs| - ptr
      {
        var size := sizes[ptr];
        if size > 0 {
          if size > bestSize { bestSize, best := size, ptr; }
          nonEmptyCount := nonEmptyCount + 1;
        }
        ptr := ptr + 1;
      }
      if nonEmptyCount > 0 {
        assert IsBest(sizes, best) by {
          forall i | ptr <= i < |sizes| ensures !Scanned(sizes, i) { SeenGrows(sizes, ptr, i); }
        }
        ok, item := DequeueFrom(best);
        if ok { return; }
        ptr := 0;
        while ptr < |subs|
          invariant ptr <= |subs| && subs == old(subs) && !ok
          invariant forall i :: 0 <= i < ptr ==> subs[i] == []
        {
          if ptr != best {
            ok, item := DequeueFrom(ptr);
            if ok { return; }
          }
          ptr := ptr + 1;
        }
      }
      ok, item := false, 0;
    }
  }
}
