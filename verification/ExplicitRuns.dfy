// What holds in every run of ExplicitQueue.
module ExplicitRuns {
  import C = Counters
  import opened ExplicitInvariant
  import opened ExplicitQueue
  import opened ExplicitSteps
  import opened Modular
  import opened SubQueue
  import W = Circular

  lemma InitInv(s: State) returns (g: Ghost)
    requires Init(s)
    ensures Inv(s, g) && g.done == {}
  {
    g := Ghost([], 0, {}, map[], if s.headers == [] then [] else [0], if s.headers == [] then [] else [0]);
    C.InitInv(s.ctr);
  }

  lemma {:induction false} RunKeeps(run: seq<State>, i: nat) returns (g: Ghost)
    requires IsProperRun(run) && i < |run|
    ensures Inv(run[i], g) && Accounted(run[i].ctr, g.done)
    decreases i, 0
  {
    if i == 0 {
      g := InitInv(run[0]);
    } else {
      var g0, a;
      g0, a, g := RunStep(run, i - 1);
    }
  }

  // One step of a run, seen with its bookkeeping.
  lemma {:induction false} RunStep(run: seq<State>, i: nat) returns (g: Ghost, a: Action, g2: Ghost)
    requires IsProperRun(run) && i + 1 < |run|
    ensures Inv(run[i], g) && Accounted(run[i].ctr, g.done)
    ensures Enabled(run[i], a) && Safe(run[i], a) && run[i + 1] == Step(run[i], a)
    ensures g2 == Track(run[i], g, a) && Inv(run[i + 1], g2) && Accounted(run[i + 1].ctr, g2.done)
    decreases i, 1
  {
    g := RunKeeps(run, i);
    assert Stepped(run[i], run[i + 1], 1);
    a :| Enabled(run[i], a) && AsksFor(a, 1) && (Safe(run[i], a) ==> run[i + 1] == Step(run[i], a));
    StepKeeps(run[i], g, a);
    StepAccounts(run[i], g, a);
    g2 := Track(run[i], g, a);
  }

  lemma FinishedClaim(s: State, g: Ghost, t: nat)
    requires Takers(s.takers, s.ctr.pcs, s.headers, g, s.got, s.ctr.tail) && t < |s.takers| && s.takers[t].Finished?
    ensures forall k :: C.Claims(s.ctr, t, k) ==> k in g.done
  {
    assert TakerOk(s.takers[t], s.ctr.pcs[t], s.headers, g, s.got, s.ctr.tail);
  }

  lemma StepAccounts(s: State, g: Ghost, a: Action)
    requires Inv(s, g) && Enabled(s, a) && Safe(s, a) && Accounted(s.ctr, g.done)
    ensures Accounted(Step(s, a).ctr, Track(s, g, a).done)
  {
    var ctr2, done2 := Step(s, a).ctr, Track(s, g, a).done;
    match a
    case Dequeue(t, max) => AccountedKeeps(s.ctr, g.done, ctr2, done2, t, C.Start(max));
    case Claim(t) => AccountedKeeps(s.ctr, g.done, ctr2, done2, t, C.Go);
    case Fetch(t) =>
      if s.takers[t].Finished? {
        FinishedClaim(s, g, t);
        AccountedKeeps(s.ctr, g.done, ctr2, done2, t, C.Finish);
      } else {
        AccountedKeeps(s.ctr, g.done, ctr2, done2, t, C.Go);
      }
    case _ => AccountedKeeps(s.ctr, g.done, ctr2, done2, 0, C.Publish(1));
  }

  // ---- What holds in every run ----

  // No instruction a thread can reach dereferences a null pointer, indexes past an array, reads
  // raw storage, touches a block that is pooled or another producer's, writes an entry or a cell
  // that a consumer is about to touch, or violates an assertion of the code.
  lemma EveryStepIsSafe(run: seq<State>, i: nat, a: Action)
    requires IsProperRun(run) && i < |run| && Enabled(run[i], a)
    ensures Safe(run[i], a)
  {
    var g := RunKeeps(run, i);
    IsSafe(run[i], g, a);
  }

  function ViewOf(s: State): View { View(s.ctr, s.items, s.got) }

  // The sub-queue is a FIFO queue.
  lemma EachStepIsAQueueStep(run: seq<State>, i: nat)
    requires IsProperRun(run) && i + 1 < |run|
    ensures QueueStep(ViewOf(run[i]), ViewOf(run[i + 1]))
  {
    var g, a, g2 := RunStep(run, i);
    var s, s2 := run[i], run[i + 1];
    match a
    case Dequeue(t, max) => ClaimIsQueueStep(ViewOf(s), t, C.Start(max));
    case Claim(t) => ClaimIsQueueStep(ViewOf(s), t, C.Go);
    case Produce(c) => ProduceOnQueue(s, g, c);
    case Fetch(t) => FetchOnQueue(s, t);
    case _ => assert Leaves(ViewOf(s), ViewOf(s2));
  }

  lemma ProduceOnQueue(s: State, g: Ghost, c: Choice)
    requires Inv(s, g) && Enabled(s, Produce(c)) && SafeProduce(s, c)
    ensures var s2 := ProduceStep(s, c);
            && s2.got == s.got
            && if s.prod.PublishTail? then Appends(ViewOf(s), ViewOf(s2), s.prod.x)
               else s2.items == s.items && s2.ctr == s.ctr && Leaves(ViewOf(s), ViewOf(s2))
  {
  }

  lemma FetchOnQueue(s: State, t: nat)
    requires Enabled(s, Fetch(t)) && SafeFetch(s, t)
    ensures var s2 := FetchStep(s, t);
            && s2.items == s.items && s2.ctr.head == s.ctr.head && Leaves(ViewOf(s), ViewOf(s2))
            && s2.got == (if s.takers[t].Take?
                          then s.got[s.takers[t].i := s.blocks[s.takers[t].b].cells[s.takers[t].i % BLOCK_SIZE].x]
                          else s.got)
  {
  }

  // A consumer that has finished holds exactly the items of its claim: the one enqueued k-th for
  // index k, whatever blocks were reused and however often the index doubled meanwhile.
  lemma ConsumersGetTheirItems(run: seq<State>, i: nat, t: nat, k: nat)
    requires IsProperRun(run) && i < |run| && t < |run[i].takers| && run[i].takers[t].Finished?
    requires C.Claims(run[i].ctr, t, k)
    ensures k < |run[i].items| && k in run[i].got && run[i].got[k] == run[i].items[k]
  {
    var g := RunKeeps(run, i);
    assert TakerOk(run[i].takers[t], run[i].ctr.pcs[t], run[i].headers, g, run[i].got, run[i].ctr.tail);
  }

  // An item is moved out once, and what has been received is never received again or changed.
  lemma TakenOnce(run: seq<State>, i: nat, t: nat)
    requires IsProperRun(run) && i < |run| && t < |run[i].takers| && run[i].takers[t].Take?
    ensures run[i].takers[t].i !in run[i].got
  {
    var g := RunKeeps(run, i);
    TakeFacts(run[i], g, t);
  }

  lemma {:induction false} HistoryOnlyGrows(run: seq<State>, i: nat, j: nat)
    requires IsProperRun(run) && i <= j < |run|
    ensures HistoryKept(ViewOf(run[i]), ViewOf(run[j]))
  {
    if i == j {
    } else {
      HistoryOnlyGrows(run, i, j - 1);
      HistoryGrows(run, j - 1);
    }
  }

  lemma HistoryGrows(run: seq<State>, i: nat)
    requires IsProperRun(run) && i + 1 < |run|
    ensures HistoryKept(ViewOf(run[i]), ViewOf(run[i + 1]))
  {
    var g, a, g2 := RunStep(run, i);
    HistoryStep(run[i], g, a);
  }

  lemma HistoryStep(s: State, g: Ghost, a: Action)
    requires Inv(s, g) && Enabled(s, a) && Safe(s, a)
    ensures HistoryKept(ViewOf(s), ViewOf(Step(s, a)))
  {
    match a
    case Fetch(t) =>
      FetchOnQueue(s, t);
      if s.takers[t].Take? { TakeFacts(s, g, t); }
    case Produce(c) => ProduceOnQueue(s, g, c);
    case _ =>
  }

  // With no call under way, everything claimed has been received.
  lemma NothingIsLost(run: seq<State>, i: nat, k: nat)
    requires IsProperRun(run) && i < |run| && k < run[i].ctr.head
    requires forall t :: 0 <= t < |run[i].takers| ==> run[i].takers[t].Off?
    ensures k < |run[i].items| && k in run[i].got && run[i].got[k] == run[i].items[k]
  {
    var g := RunKeeps(run, i);
    DoneAtRest(run[i], g, k);
  }

  lemma DoneAtRest(s: State, g: Ghost, k: nat)
    requires Inv(s, g) && Accounted(s.ctr, g.done) && k < s.ctr.head
    requires forall t :: 0 <= t < |s.takers| ==> s.takers[t].Off?
    ensures k in g.done
  {
    assert AccountedFor(s.ctr, g.done, k);
    var t := s.ctr.owner[k];
    if t < |s.takers| { assert TakerOk(s.takers[t], s.ctr.pcs[t], s.headers, g, s.got, s.ctr.tail); }
  }

  // The items waiting lie in the blocks of the circle.
  lemma TailStaysInWindow(run: seq<State>, i: nat)
    requires IsProperRun(run) && i < |run|
    ensures 0 <= run[i].ctr.tail - run[i].ctr.head <= BLOCK_SIZE * run[i].used
  {
    var g := RunKeeps(run, i);
    TailBound(run[i], g);
    var lo := g.lo * BLOCK_SIZE;
    if lo > 0 { assert 0 <= lo - 1 < g.lo * BLOCK_SIZE && lo - 1 in g.done; }
  }

  // So while the circle has fewer than 2^58 blocks, and so fewer than 2^63 elements, the word
  // comparison of the guard says what the unbounded test of the model says, as does the assertion.
  lemma GuardIsExactInWords(run: seq<State>, i: nat)
    requires IsProperRun(run) && i < |run| && run[i].used < W.Word(58)
    ensures var head, next := run[i].ctr.head, run[i].ctr.tail + BLOCK_SIZE;
            W.CircularLess(head % W.Word(64), next % W.Word(64), 64) <==> next - head < HALF
    ensures !W.CircularLess(run[i].ctr.tail % W.Word(64), run[i].ctr.head % W.Word(64), 64)
  {
    TailStaysInWindow(run, i);
    var head, next := run[i].ctr.head, run[i].ctr.tail + BLOCK_SIZE;
    W.WordNumbers();
    W.LessIsTrueOrder(run[i].ctr.tail, head, 64);
    W.LessIff(head, next, 64);
    ModShift(next - head, 0, W.Word(64));
  }

  // ---- The window ----

  // The block n links on from b.
  function Walk(bs: seq<Block>, b: nat, n: nat): nat
    decreases n
  {
    if n == 0 || b >= |bs| then b else Walk(bs, bs[b].next, n - 1)
  }

  // Position i, from the oldest, of the producer's last `used` entries.
  function WindowSlot(s: State, i: nat): nat {
    if s.size == 0 || s.used > s.size then 0 else (s.prFront + s.size - s.used + i) % s.size
  }

  lemma {:induction false} WalkIsWindow(bs: seq<Block>, blk: seq<nat>, lo: nat, tailBlock: int, m: nat, n: nat)
    requires Circle(bs, blk, lo, tailBlock) && lo <= m && m + n < |blk|
    ensures Walk(bs, blk[m], n) == blk[m + n]
    decreases n
  {
    if n == 0 {
    } else {
      assert bs[blk[m]].next == Follower(blk, lo, m);
      WalkIsWindow(bs, blk, lo, tailBlock, m + 1, n - 1);
    }
  }

  lemma {:induction false} WalkSplit(bs: seq<Block>, b: nat, m: nat, n: nat)
    ensures Walk(bs, Walk(bs, b, m), n) == Walk(bs, b, m + n)
    decreases m
  {
    if m == 0 || b >= |bs| {
    } else {
      WalkSplit(bs, bs[b].next, m - 1, n);
    }
  }

  lemma BackFrom(nb: nat, shift: nat, size: nat, used: nat, i: nat)
    requires used <= nb && i < used <= size
    ensures ((nb + shift) % size + size - used + i) % size == (nb - used + i + shift) % size
  {
    var x := nb - used + i + shift;
    ModAdd(nb + shift, size - used + i, size);
    ModTurn(x, size);
    assert (nb + shift) % size + size - used + i == (nb + shift) % size + (size - used + i);
    assert nb + shift + (size - used + i) == x + size;
  }

  lemma WindowSlotIs(s: State, g: Ghost, n: nat)
    requires |s.headers| == |g.shift| > 0 && n < s.used <= s.size == |s.headers[Current(s)].entries|
        && s.used <= |g.blk|
    requires g.lo == |g.blk| - s.used && s.prFront == Slot(s.headers, g.shift, Current(s), |g.blk|)
    ensures WindowSlot(s, n) == Slot(s.headers, g.shift, Current(s), g.lo + n) < |s.headers[Current(s)].entries|
  {
    BackFrom(|g.blk|, g.shift[Current(s)], s.size, s.used, n);
  }

  lemma WindowEntry(s: State, g: Ghost, n: nat)
    requires Inv(s, g) && s.prod.Idle? && n < s.used
    ensures s.headers != [] && WindowSlot(s, n) < |s.headers[Current(s)].entries|
    ensures g.lo + n < |g.blk|
        && s.headers[Current(s)].entries[WindowSlot(s, n)] == Entry((g.lo + n) * BLOCK_SIZE, g.blk[g.lo + n])
  {
    assert HeaderOk(s.headers, g.blk, g.lo, g.shift, g.len, Current(s));
    WindowSlotIs(s, g, n);
  }

  lemma CircleCloses(s: State, g: Ghost, n: nat)
    requires Inv(s, g) && n < s.used
    ensures 0 <= s.tailBlock < |s.blocks|
    ensures var oldest := s.blocks[s.tailBlock].next;
            && g.lo + n < |g.blk| && Walk(s.blocks, oldest, n) == g.blk[g.lo + n]
            && Walk(s.blocks, oldest, s.used - 1) == s.tailBlock && Walk(s.blocks, oldest, s.used) == oldest
  {
    TailAndNext(s, g);
    WalkIsWindow(s.blocks, g.blk, g.lo, s.tailBlock, g.lo, n);
    WalkIsWindow(s.blocks, g.blk, g.lo, s.tailBlock, g.lo, s.used - 1);
    WalkSplit(s.blocks, g.blk[g.lo], s.used - 1, 1);
    assert Walk(s.blocks, s.tailBlock, 1) == Walk(s.blocks, g.blk[g.lo], 0);
  }

  // Between enqueues, the circular list starting ahead of the tail and the last `used` entries of
  // the index list the same blocks in the same order, with bases BLOCK_SIZE apart, the last being
  // the base of the newest item; and after `used` links the list is back at its start.
  lemma IndexListsTheCircle(run: seq<State>, i: nat, n: nat)
    requires IsProperRun(run) && i < |run| && run[i].prod.Idle? && 0 <= run[i].tailBlock < |run[i].blocks|
        && n < run[i].used
    ensures var s := run[i];
            var oldest := s.blocks[s.tailBlock].next;
            && s.ctr.tail > 0 && s.headers != [] && WindowSlot(s, n) < |s.headers[Current(s)].entries|
            && s.headers[Current(s)].entries[WindowSlot(s, n)].block == Walk(s.blocks, oldest, n)
            && s.headers[Current(s)].entries[WindowSlot(s, n)].base + (s.used - 1 - n) * BLOCK_SIZE
                == BlockBase(s.ctr.tail - 1)
            && Walk(s.blocks, oldest, s.used - 1) == s.tailBlock && Walk(s.blocks, oldest, s.used) == oldest
  {
    var g := RunKeeps(run, i);
    WindowEntry(run[i], g, n);
    CircleCloses(run[i], g, n);
    NewestBase(run[i], g);
  }

  lemma NewestBase(s: State, g: Ghost)
    requires ProducerOk(s, g) && s.prod.Idle? && g.blk != []
    ensures s.ctr.tail > 0 && (|g.blk| - 1) * BLOCK_SIZE == BlockBase(s.ctr.tail - 1)
  {
  }

  // From the current header and its front, index k leads to block b, which holds k's item.
  predicate LooksUp(s: State, k: nat, b: nat) {
    && s.headers != [] && Resolves(s, Current(s), s.headers[Current(s)].front, k, b)
    && Usable(s, b) && k < |s.items| && s.blocks[b].cells[k % BLOCK_SIZE] == Item(s.items[k])
  }

  function BlockOf(g: Ghost, k: nat): nat { if BlockNo(k) < |g.blk| then g.blk[BlockNo(k)] else 0 }

  lemma IsFound(s: State, g: Ghost, k: nat)
    requires Inv(s, g) && k < s.ctr.tail && k !in s.got
    ensures g.lo <= BlockNo(k) < |g.blk| && LooksUp(s, k, BlockOf(g, k))
  {
    var cur := Current(s);
    LiveBlock(s, g, k);
    LiveCell(s, g, k);
    assert HeaderOk(s.headers, g.blk, g.lo, g.shift, g.len, cur);
    assert s.headers[cur].front == Slot(s.headers, g.shift, cur, g.len[cur] - 1);
    LiveResolves(s, g, cur, g.len[cur] - 1, k);
  }

  // A block that holds an item not yet taken never leaves the circle.
  lemma LiveBlockStaysInWindow(run: seq<State>, i: nat, k: nat) returns (n: nat)
    requires IsProperRun(run) && i < |run| && k < run[i].ctr.tail && k !in run[i].got
    ensures var s := run[i];
            && 0 <= s.tailBlock < |s.blocks| && n < s.used
            && LooksUp(s, k, Walk(s.blocks, s.blocks[s.tailBlock].next, n))
  {
    var g := RunKeeps(run, i);
    IsFound(run[i], g, k);
    TailAndNext(run[i], g);
    n := BlockNo(k) - g.lo;
    WalkIsWindow(run[i].blocks, g.blk, g.lo, run[i].tailBlock, g.lo, n);
  }

  // The header a consumer loaded earlier, with the front it loaded from it, leads to the same block
  // as the current one.
  lemma AnyHeaderWillDo(run: seq<State>, i: nat, t: nat)
    requires IsProperRun(run) && i < |run| && t < |run[i].takers| && run[i].takers[t].LoadBase?
    ensures var s, pc := run[i], run[i].takers[t];
            && t < |s.ctr.pcs| && s.ctr.pcs[t].Claimed?
            && exists b :: Resolves(s, pc.h, pc.f, s.ctr.pcs[t].first, b) && LooksUp(s, s.ctr.pcs[t].first, b)
  {
    var g := RunKeeps(run, i);
    var s, pc, cpc := run[i], run[i].takers[t], run[i].ctr.pcs[t];
    assert TakerOk(pc, cpc, s.headers, g, s.got, s.ctr.tail);
    var m := BasePart(pc, cpc, s.headers, g, s.got, s.ctr.tail);
    LiveResolves(s, g, pc.h, m, cpc.first);
    IsFound(s, g, cpc.first);
  }

  lemma StaysPut(s: State, g: Ghost, a: Action, k: nat)
    requires BlockNo(k) < |g.blk|
    ensures BlockOf(Track(s, g, a), k) == BlockOf(g, k)
  {
  }

  lemma FoundTwice(s: State, g: Ghost, s2: State, g2: Ghost, k: nat)
    requires Inv(s, g) && Inv(s2, g2) && k < s.ctr.tail && k < s2.ctr.tail && k !in s.got && k !in s2.got
    requires BlockOf(g2, k) == BlockOf(g, k)
    ensures LooksUp(s, k, BlockOf(g, k)) && LooksUp(s2, k, BlockOf(g, k))
  {
    IsFound(s, g, k);
    IsFound(s2, g2, k);
  }

  lemma LookupSurvivesAStep(run: seq<State>, i: nat, k: nat) returns (b: nat)
    requires IsProperRun(run) && i + 1 < |run| && k < run[i].ctr.tail && k !in run[i + 1].got && k !in run[i].got
    ensures LooksUp(run[i], k, b) && LooksUp(run[i + 1], k, b)
  {
    HistoryGrows(run, i);
    var g, a, g2 := RunStep(run, i);
    IsFound(run[i], g, k);
    StaysPut(run[i], g, a, k);
    b := BlockOf(g, k);
    FoundTwice(run[i], g, run[i + 1], g2, k);
  }

  lemma TailIsItems(run: seq<State>, i: nat)
    requires IsProperRun(run) && i < |run|
    ensures run[i].ctr.tail == |run[i].items|
  {
    var g := RunKeeps(run, i);
  }

  // From its enqueue until it is moved out, an item is found in the same block: no reuse,
  // insertion or doubling gets in the way.
  lemma {:induction false} LookupNeverMoves(run: seq<State>, i: nat, j: nat, k: nat) returns (b: nat)
    requires IsProperRun(run) && i <= j < |run| && k < run[i].ctr.tail && k !in run[j].got
    ensures forall m :: i <= m <= j ==> LooksUp(run[m], k, b)
  {
    if i == j {
      var g := RunKeeps(run, i);
      IsFound(run[i], g, k);
      b := BlockOf(g, k);
    } else {
      HistoryOnlyGrows(run, j - 1, j);
      HistoryOnlyGrows(run, i, j - 1);
      TailIsItems(run, i);
      TailIsItems(run, j - 1);
      b := LookupNeverMoves(run, i, j - 1, k);
      var b2 := LookupSurvivesAStep(run, j - 1, k);
      assert LooksUp(run[j - 1], k, b);
    }
  }

  // ---- The look-up in words ----

  ghost predicate Capacities(s: State) {
    PowerOfTwo(s.size) && forall h :: 0 <= h < |s.headers| ==> PowerOfTwo(|s.headers[h].entries|)
  }

  lemma StepCapacities(s: State, a: Action)
    requires Enabled(s, a) && Safe(s, a) && Capacities(s)
    ensures Capacities(Step(s, a))
  {
    TwicePower(s.size);
  }

  lemma {:induction false} SizeIsPower(run: seq<State>, i: nat)
    requires IsProperRun(run) && i < |run|
    ensures Capacities(run[i])
  {
    if i == 0 {
    } else {
      SizeIsPower(run, i - 1);
      var g, a, g2 := RunStep(run, i - 1);
      StepCapacities(run[i - 1], a);
    }
  }

  // In 64-bit words, with a mask, and with the division read as signed or as unsigned, the look-up
  // finds the slot of the model, however far ahead of its claim the front is that a consumer has
  // loaded, for every index of at most 2^59 entries: 2^64 / BLOCK_SIZE.
  lemma LookupIsExactInWords(run: seq<State>, i: nat, t: nat)
    requires IsProperRun(run) && i < |run| && t < |run[i].takers| && run[i].takers[t].LoadBase?
    ensures var s, pc := run[i], run[i].takers[t];
            && t < |s.ctr.pcs| && s.ctr.pcs[t].Claimed? && InHeader(s, pc.h, pc.f)
            && var size := |s.headers[pc.h].entries|;
               size <= W.Word(59) ==>
                 W.FindsInWords(pc.f, BlockBase(s.ctr.pcs[t].first), s.headers[pc.h].entries[pc.f].base, size,
                                SlotFor(s, pc.h, pc.f, s.ctr.pcs[t].first))
  {
    var g := RunKeeps(run, i);
    var m := FrontBase(run[i], g, t);
    SizeIsPower(run, i);
    SlotInWords(run[i], run[i].takers[t].h, run[i].takers[t].f, m, run[i].ctr.pcs[t].first);
  }

  lemma SlotInWords(s: State, h: nat, f: int, m: nat, first: nat)
    requires InHeader(s, h, f) && s.headers[h].entries[f].base == m * BLOCK_SIZE && BlockNo(first) <= m && Capacities(s)
    ensures |s.headers[h].entries| <= W.Word(59) ==>
              W.FindsInWords(f, BlockBase(first), s.headers[h].entries[f].base, |s.headers[h].entries|,
                  SlotFor(s, h, f, first))
  {
    var size, slot := |s.headers[h].entries|, SlotFor(s, h, f, first);
    if size <= W.Word(59) {
      W.LookupIsExact(f, m, BlockNo(first), BlockBase(first), s.headers[h].entries[f].base, size, slot);
    }
  }

  // The front entry a consumer has found carries a block's base, not before the claim's.
  lemma FrontBase(s: State, g: Ghost, t: nat) returns (m: nat)
    requires Inv(s, g) && t < |s.takers| && s.takers[t].LoadBase?
    ensures t < |s.ctr.pcs| && s.ctr.pcs[t].Claimed? && BlockNo(s.ctr.pcs[t].first) <= m
    ensures InHeader(s, s.takers[t].h, s.takers[t].f)
        && s.headers[s.takers[t].h].entries[s.takers[t].f].base == m * BLOCK_SIZE
  {
    var pc, cpc := s.takers[t], s.ctr.pcs[t];
    m := BasePart(pc, cpc, s.headers, g, s.got, s.ctr.tail);
    assert g.lo <= BlockNo(cpc.first) by { LiveBlock(s, g, cpc.first); }
    assert HeaderOk(s.headers, g.blk, g.lo, g.shift, g.len, pc.h);
    assert s.headers[pc.h].entries[Slot(s.headers, g.shift, pc.h, m)].base == m * BLOCK_SIZE;
  }

  // Between enqueues the producer keeps exactly the blocks of its circle.
  lemma KeepsItsCircle(run: seq<State>, i: nat)
    requires IsProperRun(run) && i < |run| && run[i].prod.Idle?
    ensures |Kept(|run[i].blocks|, run[i].free, run[i].away)| == run[i].used
  {
    var g := RunKeeps(run, i);
    var s := run[i];
    forall b: nat ensures b in Kept(|s.blocks|, s.free, s.away) <==> b in g.user {
      if b < |s.blocks| { assert PlaceOk(s.blocks, s.free, s.away, Hand(s.prod), g.user, b); }
    }
    CountKept(Kept(|s.blocks|, s.free, s.away), g.blk, g.lo, g.user);
  }
}
