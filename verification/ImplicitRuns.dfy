// What holds in every run of ImplicitQueue.
module ImplicitRuns {
  import C = Counters
  import opened ImplicitInvariant
  import opened ImplicitQueue
  import opened ImplicitSteps
  import opened Modular
  import opened SubQueue
  import W = Circular

  lemma InitInv(s: State) returns (g: Ghost)
    requires Init(s) && s.headers != []
    ensures Inv(s, g) && g.done == {}
  {
    g := Ghost([], [], 0, {}, map[], {}, {}, map[], HeaderGhost([0], [0], [0]));
    C.InitInv(s.ctr);
    assert HeaderOk(s.headers, |s.entries|, g.ent, g.low, g.hg, 0);
  }

  // One step of a run, seen with its bookkeeping.
  lemma {:induction false} RunKeeps(run: seq<State>, i: nat) returns (g: Ghost)
    requires IsProperRun(run) && i < |run|
    ensures Inv(run[i], g) && Accounted(run[i].ctr, g.done)
    decreases i, 0
  {
    if i == 0 {
      g := InitInv(run[0]);
    } else {
      var g0, a;
      g0, a, g := RunStep(run, i - 1);
    }
  }

  lemma {:induction false} RunStep(run: seq<State>, i: nat) returns (g: Ghost, a: Action, g2: Ghost)
    requires IsProperRun(run) && i + 1 < |run|
    ensures Inv(run[i], g) && Accounted(run[i].ctr, g.done)
    ensures Enabled(run[i], a) && Safe(run[i], a) && run[i + 1] == Step(run[i], a)
    ensures g2 == Track(run[i], g, a) && Inv(run[i + 1], g2) && Accounted(run[i + 1].ctr, g2.done)
    decreases i, 1
  {
    g := RunKeeps(run, i);
    assert Stepped(run[i], run[i + 1], 1);
    a :| Enabled(run[i], a) && AsksFor(a, 1) && (Safe(run[i], a) ==> run[i + 1] == Step(run[i], a));
    StepKeeps(run[i], g, a);
    StepAccounts(run[i], g, a);
    g2 := Track(run[i], g, a);
  }

  lemma FinishedClaim(s: State, g: Ghost, t: nat)
    requires Takers(s, g) && t < |s.takers| && s.takers[t].Finished?
    ensures forall k :: C.Claims(s.ctr, t, k) ==> k in g.done
  {
    assert TakerOk(s.takers[t], s.ctr.pcs[t], t, s.headers, g.hg, g, s.got, s.ctr.tail);
  }

  lemma StepAccounts(s: State, g: Ghost, a: Action)
    requires Inv(s, g) && Enabled(s, a) && Safe(s, a) && Accounted(s.ctr, g.done)
    ensures Accounted(Step(s, a).ctr, Track(s, g, a).done)
  {
    var ctr2, done2 := Step(s, a).ctr, Track(s, g, a).done;
    match a
    case Dequeue(t, max) => AccountedKeeps(s.ctr, g.done, ctr2, done2, t, C.Start(max));
    case Claim(t) => AccountedKeeps(s.ctr, g.done, ctr2, done2, t, C.Go);
    case Fetch(t) =>
      if s.takers[t].Finished? {
        FinishedClaim(s, g, t);
        AccountedKeeps(s.ctr, g.done, ctr2, done2, t, C.Finish);
      } else {
        AccountedKeeps(s.ctr, g.done, ctr2, done2, t, C.Go);
      }
    case _ => AccountedKeeps(s.ctr, g.done, ctr2, done2, 0, C.Publish(1));
  }

  // ---- What holds in every run ----

  // No instruction a thread can reach dereferences a null or dangling pointer, reads raw storage,
  // touches a block that is pooled or another producer's, returns a block twice, or violates an
  // assertion of the code.
  lemma EveryStepIsSafe(run: seq<State>, i: nat, a: Action)
    requires IsProperRun(run) && i < |run| && Enabled(run[i], a)
    ensures Safe(run[i], a)
  {
    var g := RunKeeps(run, i);
    IsSafe(run[i], g, a);
  }

  function ViewOf(s: State): View { View(s.ctr, s.items, s.got) }

  // The sub-queue is a FIFO queue.
  lemma EachStepIsAQueueStep(run: seq<State>, i: nat)
    requires IsProperRun(run) && i + 1 < |run|
    ensures QueueStep(ViewOf(run[i]), ViewOf(run[i + 1]))
  {
    var g, a, g2 := RunStep(run, i);
    var s, s2 := run[i], run[i + 1];
    match a
    case Dequeue(t, max) => ClaimIsQueueStep(ViewOf(s), t, C.Start(max));
    case Claim(t) => ClaimIsQueueStep(ViewOf(s), t, C.Go);
    case Produce(c) => ProduceOnQueue(s, g, c);
    case Fetch(t) => FetchOnQueue(s, t);
    case _ => assert Leaves(ViewOf(s), ViewOf(s2));
  }

  lemma ProduceOnQueue(s: State, g: Ghost, c: Choice)
    requires Inv(s, g) && Enabled(s, Produce(c)) && SafeProduce(s, c)
    ensures var s2 := ProduceStep(s, c);
            && s2.got == s.got
            && if s.prod.PublishTail? then Appends(ViewOf(s), ViewOf(s2), s.prod.x)
               else s2.items == s.items && s2.ctr == s.ctr && Leaves(ViewOf(s), ViewOf(s2))
  {
  }

  lemma FetchOnQueue(s: State, t: nat)
    requires Enabled(s, Fetch(t)) && SafeFetch(s, t)
    ensures var s2 := FetchStep(s, t);
            && s2.items == s.items && s2.ctr.head == s.ctr.head && Leaves(ViewOf(s), ViewOf(s2))
            && s2.got == (if s.takers[t].Take?
                          then s.got[s.takers[t].i := s.blocks[s.takers[t].b].cells[s.takers[t].i % BLOCK_SIZE].x]
                          else s.got)
  {
  }

  // A consumer that has finished holds exactly the items of its claim: the one enqueued k-th for
  // index k, whatever blocks were reused and however often the index grew meanwhile.
  lemma ConsumersGetTheirItems(run: seq<State>, i: nat, t: nat, k: nat)
    requires IsProperRun(run) && i < |run| && t < |run[i].takers| && run[i].takers[t].Finished?
    requires C.Claims(run[i].ctr, t, k)
    ensures k < |run[i].items| && k in run[i].got && run[i].got[k] == run[i].items[k]
  {
    var g := RunKeeps(run, i);
    assert TakerOk(run[i].takers[t], run[i].ctr.pcs[t], t, run[i].headers, g.hg, g, run[i].got, run[i].ctr.tail);
  }

  // An item is moved out once, and what has been received is never received again or changed.
  lemma TakenOnce(run: seq<State>, i: nat, t: nat)
    requires IsProperRun(run) && i < |run| && t < |run[i].takers| && run[i].takers[t].Take?
    ensures run[i].takers[t].i !in run[i].got
  {
    var g := RunKeeps(run, i);
    assert TakerOk(run[i].takers[t], run[i].ctr.pcs[t], t, run[i].headers, g.hg, g, run[i].got, run[i].ctr.tail);
    assert Enabled(run[i], Fetch(t));
    IsSafe(run[i], g, Fetch(t));
    TakeFacts(run[i], g, t);
  }

  lemma {:induction false} HistoryOnlyGrows(run: seq<State>, i: nat, j: nat)
    requires IsProperRun(run) && i <= j < |run|
    ensures HistoryKept(ViewOf(run[i]), ViewOf(run[j]))
  {
    if i == j {
    } else {
      HistoryOnlyGrows(run, i, j - 1);
      HistoryGrows(run, j - 1);
    }
  }

  lemma HistoryGrows(run: seq<State>, i: nat)
    requires IsProperRun(run) && i + 1 < |run|
    ensures HistoryKept(ViewOf(run[i]), ViewOf(run[i + 1]))
  {
    var g, a, g2 := RunStep(run, i);
    HistoryStep(run[i], g, a);
  }

  lemma HistoryStep(s: State, g: Ghost, a: Action)
    requires Inv(s, g) && Enabled(s, a) && Safe(s, a)
    ensures HistoryKept(ViewOf(s), ViewOf(Step(s, a)))
  {
    match a
    case Fetch(t) =>
      FetchOnQueue(s, t);
      if s.takers[t].Take? { TakeFacts(s, g, t); }
    case Produce(c) => ProduceOnQueue(s, g, c);
    case _ =>
  }

  // With no call under way, everything claimed has been received.
  lemma NothingIsLost(run: seq<State>, i: nat, k: nat)
    requires IsProperRun(run) && i < |run| && k < run[i].ctr.head
    requires forall t :: 0 <= t < |run[i].takers| ==> run[i].takers[t].Off?
    ensures k < |run[i].items| && k in run[i].got && run[i].got[k] == run[i].items[k]
  {
    var g := RunKeeps(run, i);
    DoneAtRest(run[i], g, k);
  }

  lemma DoneAtRest(s: State, g: Ghost, k: nat)
    requires Inv(s, g) && Accounted(s.ctr, g.done) && k < s.ctr.head
    requires forall t :: 0 <= t < |s.takers| ==> s.takers[t].Off?
    ensures k in g.done
  {
    assert AccountedFor(s.ctr, g.done, k);
    var t := s.ctr.owner[k];
    if t < |s.takers| { assert TakerOk(s.takers[t], s.ctr.pcs[t], t, s.headers, g.hg, g, s.got, s.ctr.tail); }
  }

  // The guard of enqueue keeps tail within half the index range of head, in every state.
  lemma TailStaysClose(run: seq<State>, i: nat)
    requires IsProperRun(run) && i < |run|
    ensures 0 <= run[i].ctr.tail - run[i].ctr.head < HALF
  {
    var g := RunKeeps(run, i);
    TailBound(run[i], g);
  }

  // The same test on 64-bit words, as circular_less_than makes it: in every run it says what the
  // unbounded test of the model says.
  lemma GuardIsExactInWords(run: seq<State>, i: nat)
    requires IsProperRun(run) && i < |run|
    ensures var head, next := run[i].ctr.head, run[i].ctr.tail + BLOCK_SIZE;
            W.CircularLess(head % W.Word(64), next % W.Word(64), 64) <==> next - head < HALF
    // and the assertion before it
    ensures !W.CircularLess(run[i].ctr.tail % W.Word(64), run[i].ctr.head % W.Word(64), 64)
  {
    TailStaysClose(run, i);
    var head, next := run[i].ctr.head, run[i].ctr.tail + BLOCK_SIZE;
    W.WordNumbers();
    W.LessIsTrueOrder(run[i].ctr.tail, head, 64);
    W.LessIff(head, next, 64);
    ModShift(next - head, 0, W.Word(64));
  }

  // ---- The block index ----

  ghost predicate Capacities(hs: seq<Header>) { forall h :: 0 <= h < |hs| ==> PowerOfTwo(|hs[h].index|) }

  lemma StepCapacities(s: State, a: Action)
    requires Enabled(s, a) && Safe(s, a) && Capacities(s.headers)
    ensures Capacities(Step(s, a).headers)
  {
    if a.Produce? && s.prod.Grow? && !a.c.Fail? { TwicePower(|s.headers[Current(s)].index|); }
  }

  lemma {:induction false} CapacityIsPower(run: seq<State>, i: nat)
    requires IsProperRun(run) && i < |run|
    ensures Capacities(run[i].headers)
  {
    if i == 0 {
      assert INITIAL_INDEX_SIZE == IntPow2(5);
    } else {
      CapacityIsPower(run, i - 1);
      var g, a, g2 := RunStep(run, i - 1);
      StepCapacities(run[i - 1], a);
    }
  }

  // The look-up in 64-bit words, with a mask, and with the division read as signed or as unsigned:
  // in every run it finds the slot of the model, however far ahead of its claim the tail is that a
  // consumer has loaded, for every index of at most 2^59 entries: 2^64 / BLOCK_SIZE.
  lemma LookupIsExactInWords(run: seq<State>, i: nat, t: nat)
    requires IsProperRun(run) && i < |run| && t < |run[i].takers| && run[i].takers[t].LoadKey?
    ensures var s, pc := run[i], run[i].takers[t];
            && t < |s.ctr.pcs| && s.ctr.pcs[t].Claimed? && InHeader(s, pc.h, pc.tl)
            && var size := |s.headers[pc.h].index|;
               size <= W.Word(59) ==>
                 W.FindsInWords(pc.tl, BlockBase(s.ctr.pcs[t].first), EntryAt(s, pc.h, pc.tl).key, size,
                                SlotFor(s, pc.h, pc.tl, s.ctr.pcs[t].first))
  {
    var g := RunKeeps(run, i);
    var m := TailKey(run[i], g, t);
    CapacityIsPower(run, i);
    SlotInWords(run[i], run[i].takers[t].h, run[i].takers[t].tl, m, run[i].ctr.pcs[t].first);
  }

  lemma SlotInWords(s: State, h: nat, tl: nat, m: nat, first: nat)
    requires InHeader(s, h, tl) && EntryAt(s, h, tl).key == m * BLOCK_SIZE && BlockNo(first) <= m
        && Capacities(s.headers)
    ensures |s.headers[h].index| <= W.Word(59) ==>
              W.FindsInWords(tl, BlockBase(first), EntryAt(s, h, tl).key, |s.headers[h].index|,
                  SlotFor(s, h, tl, first))
  {
    var size, slot := |s.headers[h].index|, SlotFor(s, h, tl, first);
    if size <= W.Word(59) {
      W.LookupIsExact(tl, m, BlockNo(first), BlockBase(first), EntryAt(s, h, tl).key, size, slot);
    }
  }

  // From the current header and its tail.
  lemma CurrentResolves(s: State, g: Ghost, k: nat)
    requires Inv(s, g) && k < s.ctr.tail && k !in s.got
    ensures BlockNo(k) < |g.blk| <= |g.ent| && s.headers != []
    ensures Resolves(s, Current(s), s.headers[Current(s)].tail, k, g.ent[BlockNo(k)], g.blk[BlockNo(k)])
  {
    var cur, v := Current(s), Visible(s.prod, |g.blk|);
    TailBound(s, g);
    LiveBlock(s, g, k);
    assert HeaderOk(s.headers, |s.entries|, g.ent, g.low, g.hg, cur);
    PosBeforeIs(s.headers, g.hg, cur, v);
    LiveResolves(s, g, cur, v - 1, k);
  }

  // Growth is invisible: the header a consumer loaded earlier, with the tail it loaded from it,
  // leads to the same entry and block as the current one.
  lemma AnyHeaderWillDo(run: seq<State>, i: nat, t: nat)
    requires IsProperRun(run) && i < |run| && t < |run[i].takers| && run[i].takers[t].LoadKey?
    ensures var s, pc := run[i], run[i].takers[t];
            && t < |s.ctr.pcs| && s.ctr.pcs[t].Claimed? && s.headers != []
            && exists e, b :: Resolves(s, pc.h, pc.tl, s.ctr.pcs[t].first, e, b)
                              && Resolves(s, Current(s), s.headers[Current(s)].tail, s.ctr.pcs[t].first, e, b)
  {
    var g := RunKeeps(run, i);
    var e, b := LoadKeyFacts(run[i], g, t);
    CurrentResolves(run[i], g, run[i].ctr.pcs[t].first);
  }

  // Where the bookkeeping puts index k.
  function EntryOf(g: Ghost, k: nat): nat { if BlockNo(k) < |g.ent| then g.ent[BlockNo(k)] else 0 }
  function BlockOf(g: Ghost, k: nat): nat { if BlockNo(k) < |g.blk| then g.blk[BlockNo(k)] else 0 }

  lemma IsFound(s: State, g: Ghost, k: nat)
    requires Inv(s, g) && k < s.ctr.tail && k !in s.got
    ensures BlockNo(k) < |g.blk| <= |g.ent| && LooksUp(s, k, EntryOf(g, k), BlockOf(g, k))
  {
    CurrentResolves(s, g, k);
  }

  lemma StaysPut(s: State, g: Ghost, a: Action, k: nat)
    requires BlockNo(k) < |g.blk| <= |g.ent|
    ensures EntryOf(Track(s, g, a), k) == EntryOf(g, k) && BlockOf(Track(s, g, a), k) == BlockOf(g, k)
  {
  }

  lemma FoundTwice(s: State, g: Ghost, s2: State, g2: Ghost, k: nat)
    requires Inv(s, g) && Inv(s2, g2) && k < s.ctr.tail && k < s2.ctr.tail && k !in s.got && k !in s2.got
    requires EntryOf(g2, k) == EntryOf(g, k) && BlockOf(g2, k) == BlockOf(g, k)
    ensures LooksUp(s, k, EntryOf(g, k), BlockOf(g, k)) && LooksUp(s2, k, EntryOf(g, k), BlockOf(g, k))
  {
    IsFound(s, g, k);
    IsFound(s2, g2, k);
  }

  lemma LookupSurvivesAStep(run: seq<State>, i: nat, k: nat) returns (e: nat, b: nat)
    requires IsProperRun(run) && i + 1 < |run| && k < run[i].ctr.tail && k !in run[i + 1].got && k !in run[i].got
    ensures LooksUp(run[i], k, e, b) && LooksUp(run[i + 1], k, e, b)
  {
    HistoryGrows(run, i);
    var g, a, g2 := RunStep(run, i);
    IsFound(run[i], g, k);
    StaysPut(run[i], g, a, k);
    e, b := EntryOf(g, k), BlockOf(g, k);
    FoundTwice(run[i], g, run[i + 1], g2, k);
  }

  predicate LooksUp(s: State, k: nat, e: nat, b: nat) {
    s.headers != [] && Resolves(s, Current(s), s.headers[Current(s)].tail, k, e, b)
  }

  // From its enqueue until it is moved out, an item is found through the same entry, which keeps
  // its key, and in the same block: no growth, reuse or rewind of the index gets in the way.
  lemma {:induction false} LookupNeverMoves(run: seq<State>, i: nat, j: nat, k: nat) returns (e: nat, b: nat)
    requires IsProperRun(run) && i <= j < |run| && k < run[i].ctr.tail && k !in run[j].got
    ensures forall m :: i <= m <= j ==> LooksUp(run[m], k, e, b)
  {
    if i == j {
      var g := RunKeeps(run, i);
      CurrentResolves(run[i], g, k);
      e, b := g.ent[BlockNo(k)], g.blk[BlockNo(k)];
    } else {
      HistoryOnlyGrows(run, j - 1, j);
      HistoryOnlyGrows(run, i, j - 1);
      TailIsItems(run, i);
      TailIsItems(run, j - 1);
      e, b := LookupNeverMoves(run, i, j - 1, k);
      var e2, b2 := LookupSurvivesAStep(run, j - 1, k);
      assert LooksUp(run[j - 1], k, e, b);
    }
  }

  lemma TailIsItems(run: seq<State>, i: nat)
    requires IsProperRun(run) && i < |run|
    ensures run[i].ctr.tail == |run[i].items|
  {
    var g := RunKeeps(run, i);
  }

  // ---- The life of a block ----

  // The block a thread is working on.
  predicate Working(pc: Taker) { pc.Take? || pc.Count? || pc.ClearEntry? || pc.Release? }
  predicate Holds(pc: Taker, b: nat) { Working(pc) && pc.b == b }

  // The block that still has room, or is being opened.
  predicate Writes(s: State, b: nat) { (Open(s) && s.tailBlock == b) || Hand(s.prod) == b }

  predicate Open(s: State) { s.ctr.tail % BLOCK_SIZE != 0 || s.prod.PublishTail? || s.prod.Construct? }

  lemma HeldBlock(s: State, g: Ghost, t: nat)
    requires Inv(s, g) && t < |s.takers| && Working(s.takers[t])
    ensures var pc := s.takers[t];
            && s.ctr.pcs[t].Claimed?
            && var n := BlockNo(if pc.Take? || pc.Count? then pc.from else pc.i - 1);
            && n < |g.blk| && n !in g.released && g.blk[n] == pc.b && pc.b in g.user && g.user[pc.b] == n
            && (if pc.Take? || pc.Count? then n !in g.closer else n in g.closer && g.closer[n] == t)
  {
    var pc := s.takers[t];
    assert TakerOk(pc, s.ctr.pcs[t], t, s.headers, g.hg, g, s.got, s.ctr.tail);
    if pc.Take? || pc.Count? { LiveBlock(s, g, pc.from); }
    else { assert BlockOk(s.blocks, g.blk, g.low, g.done, g.closer, g.retired, g.released, g.user, BlockNo(pc.i - 1)); }
  }

  lemma HeldApart(s: State, g: Ghost, t: nat, u: nat)
    requires Inv(s, g) && t < |s.takers| && u < |s.takers| && u != t && s.takers[t].Release?
    ensures !Holds(s.takers[u], s.takers[t].b)
  {
    HeldBlock(s, g, t);
    if Working(s.takers[u]) { HeldBlock(s, g, u); }
  }

  // A block is given back by the consumer whose count completed it, and then it is in nobody
  // else's use: not pooled already, not another producer's, not held by another consumer, and
  // not the block this producer still writes to.
  lemma ReleaseIsExclusive(run: seq<State>, i: nat, t: nat, u: nat)
    requires IsProperRun(run) && i < |run| && t < |run[i].takers| && run[i].takers[t].Release?
    ensures var s, b := run[i], run[i].takers[t].b;
            && b < |s.blocks| && b !in s.free && b !in s.away && !Writes(s, b)
            && s.blocks[b].finished == BLOCK_SIZE
            && (u < |s.takers| && u != t ==> !Holds(s.takers[u], b))
  {
    var g := RunKeeps(run, i);
    var s, pc := run[i], run[i].takers[t];
    HeldBlock(s, g, t);
    if u < |s.takers| && u != t { HeldApart(s, g, t, u); }
    assert PlaceOk(s.blocks, s.free, s.away, Hand(s.prod), g.user, |g.blk|, pc.b);
    assert BlockOk(s.blocks, g.blk, g.low, g.done, g.closer, g.retired, g.released, g.user, BlockNo(pc.i - 1));
    if Open(s) { OpenTail(s, g); }
  }

  lemma OpenTail(s: State, g: Ghost)
    requires Inv(s, g) && Open(s)
    ensures s.tailBlock in g.user && g.user[s.tailBlock] !in g.closer
  {
    assert |g.blk| == BlockNo(s.ctr.tail) + 1 && s.tailBlock == g.blk[|g.blk| - 1];
    LiveTail(s, g);
    assert BlockOk(s.blocks, g.blk, g.low, g.done, g.closer, g.retired, g.released, g.user, BlockNo(s.ctr.tail));
  }

  lemma ReleasedAtRest(s: State, g: Ghost, n: nat)
    requires Inv(s, g) && Accounted(s.ctr, g.done) && n < |g.blk|
    requires forall t :: 0 <= t < |s.takers| ==> s.takers[t].Off?
    ensures n in g.released <==> n < BlockNo(s.ctr.head)
    ensures n !in g.released ==> g.blk[n] < |s.blocks| && g.blk[n] in g.user && g.user[g.blk[n]] == n
  {
    assert BlockOk(s.blocks, g.blk, g.low, g.done, g.closer, g.retired, g.released, g.user, n);
    DoneAll(g.done, n * BLOCK_SIZE, n * BLOCK_SIZE + BLOCK_SIZE);
    if n in g.closer { assert ClosingOk(s.takers, g.retired, g.released, g.closer, n); }
    if n < BlockNo(s.ctr.head) {
      forall k | n * BLOCK_SIZE <= k < n * BLOCK_SIZE + BLOCK_SIZE ensures k in g.done { DoneAtRest(s, g, k); }
    } else {
      assert n * BLOCK_SIZE + BLOCK_SIZE - 1 !in g.done;
    }
  }

  lemma KeptIsUsed(s: State, g: Ghost)
    requires Inv(s, g) && s.prod.Idle?
    ensures forall b :: b in Kept(|s.blocks|, s.free, s.away) <==> b in g.user
  {
    forall b: nat ensures b in Kept(|s.blocks|, s.free, s.away) <==> b in g.user {
      if b < |s.blocks| { assert PlaceOk(s.blocks, s.free, s.away, Hand(s.prod), g.user, |g.blk|, b); }
    }
  }

  // With no call under way, the producer keeps exactly the blocks from the one of head to the one
  // of the last item: everything it ever opened before that is back in the pool.
  lemma BlocksKeptAtRest(run: seq<State>, i: nat)
    requires IsProperRun(run) && i < |run| && run[i].prod.Idle?
    requires forall t :: 0 <= t < |run[i].takers| ==> run[i].takers[t].Off?
    ensures var s := run[i];
            |Kept(|s.blocks|, s.free, s.away)| == (s.ctr.tail + BLOCK_SIZE - 1) / BLOCK_SIZE - s.ctr.head / BLOCK_SIZE
  {
    var g := RunKeeps(run, i);
    var s, lo := run[i], BlockNo(run[i].ctr.head);
    assert |g.blk| == (s.ctr.tail + BLOCK_SIZE - 1) / BLOCK_SIZE && lo <= |g.blk|;
    forall n | 0 <= n < |g.blk| ensures n in g.released <==> n < lo
      ensures n !in g.released ==> g.blk[n] < |s.blocks| && g.blk[n] in g.user && g.user[g.blk[n]] == n
    {
      ReleasedAtRest(s, g, n);
    }
    KeptIsUsed(s, g);
    CountKept(Kept(|s.blocks|, s.free, s.away), g.blk, lo, g.user);
  }
}
