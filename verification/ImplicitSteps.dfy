// Every step of ImplicitQueue keeps ImplicitInvariant.Inv.
module ImplicitSteps {
  import C = Counters
  import opened ImplicitInvariant
  import opened ImplicitQueue
  import opened Modular
  import opened SubQueue

  // ---- Steps on the counters ----

  // Closings mention only consumers that clear or release.
  lemma ClosingsFrame(ts: seq<Taker>, t: nat, pc: Taker, retired: set<nat>, released: set<nat>, closer: map<nat, nat>)
    requires Closings(ts, retired, released, closer) && t < |ts|
    requires !ts[t].ClearEntry? && !ts[t].Release?
    ensures Closings(ts[t := pc], retired, released, closer)
  {
    forall n | n in closer ensures ClosingOk(ts[t := pc], retired, released, closer, n) {
      assert ClosingOk(ts, retired, released, closer, n);
    }
  }

  lemma CounterStepPc(s: State, g: Ghost, t: nat, a: C.Action)
    requires Inv(s, g) && t < |s.takers| && s.takers[t].Off? && C.Enabled(s.ctr, t, a)
    requires (a.Start? && a.max > 0) || a.Go?
    ensures var ctr := C.Step(s.ctr, t, a);
            var pc := if ctr.pcs[t].Claimed? then LoadIndex else Off;
            TakerOk(pc, ctr.pcs[t], t, s.headers, g.hg, g, s.got, s.ctr.tail)
  {
    assert TakerOk(s.takers[t], s.ctr.pcs[t], t, s.headers, g.hg, g, s.got, s.ctr.tail);
    C.StepKeeps(s.ctr, t, a);
  }

  lemma CounterStepKeeps(s: State, g: Ghost, t: nat, a: Action)
    requires Inv(s, g) && Enabled(s, a) && (a == Claim(t) || (a.Dequeue? && a.t == t && a.max > 0))
    ensures Inv(Step(s, a), g)
  {
    var s2 := Step(s, a);
    var ca := if a.Claim? then C.Go else C.Start(a.max);
    C.StepKeeps(s.ctr, t, ca);
    CounterStepPc(s, g, t, ca);
    ClosingsFrame(s.takers, t, s2.takers[t], g.retired, g.released, g.closer);
    OneTakerMoved(s, g, t, s2);
    HeadMoved(s, g, s2);
  }

  // The producer's claim stands when consumers take indices from head.
  lemma HeadMoved(s: State, g: Ghost, s2: State)
    requires ProducerOk(s, g) && s2 == s.(ctr := s2.ctr, takers := s2.takers)
    requires s2.ctr.tail == s.ctr.tail && s.ctr.head <= s2.ctr.head
    ensures ProducerOk(s2, g)
  {
  }

  // Everyone but thread t is as before.
  lemma OneTakerMoved(s: State, g: Ghost, t: nat, s2: State)
    requires Takers(s, g) && t < |s.takers| && s2.headers == s.headers && s2.got == s.got && s2.ctr.tail == s.ctr.tail
    requires |s2.takers| == |s.takers| == |s2.ctr.pcs|
    requires forall u :: 0 <= u < |s.takers| && u != t ==> s2.takers[u] == s.takers[u] && s2.ctr.pcs[u] == s.ctr.pcs[u]
    requires TakerOk(s2.takers[t], s2.ctr.pcs[t], t, s.headers, g.hg, g, s.got, s.ctr.tail)
    ensures Takers(s2, g)
  {
    forall u | 0 <= u < |s2.takers|
        ensures TakerOk(s2.takers[u], s2.ctr.pcs[u], u, s2.headers, g.hg, g, s2.got, s2.ctr.tail) {
      if u != t { assert TakerOk(s.takers[u], s.ctr.pcs[u], u, s.headers, g.hg, g, s.got, s.ctr.tail); }
    }
  }

  // ---- Instructions of a consumer that only read ----

  lemma PosBeforeIs(hs: seq<Header>, hg: HeaderGhost, h: nat, n: nat)
    requires SameLengths(hs, hg) && h < |hs| && |hs[h].index| > 0 && n > 0
    ensures PosBefore(hs, hg, h, n) == Pos(hs, hg, h, n - 1)
  {
    ModTurn(n - 1 + hg.shift[h], |hs[h].index|);
  }

  lemma LoadTailPc(s: State, g: Ghost, t: nat)
    requires Inv(s, g) && Enabled(s, Fetch(t)) && SafeFetch(s, t) && s.takers[t].LoadTail?
    ensures TakerOk(FetchStep(s, t).takers[t], s.ctr.pcs[t], t, s.headers, g.hg, g, s.got, s.ctr.tail)
  {
    var h := s.takers[t].h;
    var limit := s.ctr.pcs[t].first + s.ctr.pcs[t].count;
    assert TakerOk(s.takers[t], s.ctr.pcs[t], t, s.headers, g.hg, g, s.got, s.ctr.tail);
    assert HeaderOk(s.headers, |s.entries|, g.ent, g.low, g.hg, h);
    TailBound(s, g);
    var n := if h == Current(s) then Visible(s.prod, |g.blk|) else g.hg.len[h];
    PosBeforeIs(s.headers, g.hg, h, n);
    assert BlockNo(limit - 1) <= n - 1 < g.hg.len[h] && s.headers[h].tail == Pos(s.headers, g.hg, h, n - 1);
  }

  lemma LoadKeyPc(s: State, g: Ghost, t: nat)
    requires Inv(s, g) && Enabled(s, Fetch(t)) && SafeFetch(s, t) && s.takers[t].LoadKey?
    ensures TakerOk(FetchStep(s, t).takers[t], s.ctr.pcs[t], t, s.headers, g.hg, g, s.got, s.ctr.tail)
  {
    assert TakerOk(s.takers[t], s.ctr.pcs[t], t, s.headers, g.hg, g, s.got, s.ctr.tail);
    var e, b := LoadKeyFacts(s, g, t);
  }

  lemma LoadBlockPc(s: State, g: Ghost, t: nat)
    requires Inv(s, g) && Enabled(s, Fetch(t)) && SafeFetch(s, t) && s.takers[t].LoadBlock?
    ensures TakerOk(FetchStep(s, t).takers[t], s.ctr.pcs[t], t, s.headers, g.hg, g, s.got, s.ctr.tail)
  {
    var pc := s.takers[t];
    assert TakerOk(pc, s.ctr.pcs[t], t, s.headers, g.hg, g, s.got, s.ctr.tail);
    LiveBlock(s, g, pc.i);
    LiveEntry(s, g, pc.h, BlockNo(pc.i));
  }

  lemma LoadIndexPc(s: State, g: Ghost, t: nat)
    requires Inv(s, g) && Enabled(s, Fetch(t)) && SafeFetch(s, t) && s.takers[t].LoadIndex?
    ensures TakerOk(FetchStep(s, t).takers[t], s.ctr.pcs[t], t, s.headers, g.hg, g, s.got, s.ctr.tail)
  {
    assert TakerOk(s.takers[t], s.ctr.pcs[t], t, s.headers, g.hg, g, s.got, s.ctr.tail);
    TailBound(s, g);
  }

  predicate Reading(pc: Taker) { pc.LoadIndex? || pc.LoadTail? || pc.LoadKey? || pc.LoadBlock? }

  lemma ReadPc(s: State, g: Ghost, t: nat)
    requires Inv(s, g) && Enabled(s, Fetch(t)) && SafeFetch(s, t) && Reading(s.takers[t])
    ensures TakerOk(FetchStep(s, t).takers[t], s.ctr.pcs[t], t, s.headers, g.hg, g, s.got, s.ctr.tail)
  {
    match s.takers[t]
    case LoadIndex => LoadIndexPc(s, g, t);
    case LoadTail(_) => LoadTailPc(s, g, t);
    case LoadKey(_, _) => LoadKeyPc(s, g, t);
    case LoadBlock(_, _, _) => LoadBlockPc(s, g, t);
  }

  lemma ReadKeeps(s: State, g: Ghost, t: nat)
    requires Inv(s, g) && Enabled(s, Fetch(t)) && SafeFetch(s, t) && Reading(s.takers[t])
    ensures Inv(FetchStep(s, t), g)
  {
    var s2 := FetchStep(s, t);
    ReadPc(s, g, t);
    ClosingsFrame(s.takers, t, s2.takers[t], g.retired, g.released, g.closer);
    OneTakerMoved(s, g, t, s2);
    ProducerFrame(s, s2, g, g);
  }

  lemma FinishKeeps(s: State, g: Ghost, t: nat)
    requires Inv(s, g) && Enabled(s, Fetch(t)) && SafeFetch(s, t) && s.takers[t].Finished?
    ensures Inv(FetchStep(s, t), g)
  {
    var s2 := FetchStep(s, t);
    C.StepKeeps(s.ctr, t, C.Finish);
    ClosingsFrame(s.takers, t, s2.takers[t], g.retired, g.released, g.closer);
    OneTakerMoved(s, g, t, s2);
  }

  // ---- What a consumer's writes leave alone ----

  // Thread u's claim sees the same bookkeeping.
  ghost predicate SameFor(u: nat, cpc: C.Pc, g: Ghost, got: map<nat, int>, g2: Ghost, got2: map<nat, int>) {
    && g2.ent == g.ent && g2.blk == g.blk && g2.hg == g.hg
    && (forall k :: C.InClaim(cpc, k) ==> (k in g2.done <==> k in g.done) && (k in got2 <==> k in got))
    && (forall n :: n in g.closer && g.closer[n] == u ==>
          n in g2.closer && g2.closer[n] == u && (n in g2.retired <==> n in g.retired)
              && (n in g2.released <==> n in g.released))
  }

  lemma TakerFrame(pc: Taker, cpc: C.Pc, u: nat, hs: seq<Header>, g: Ghost, got: map<nat, int>, tail: nat, g2: Ghost,
      got2: map<nat, int>)
    requires TakerOk(pc, cpc, u, hs, g.hg, g, got, tail) && SameFor(u, cpc, g, got, g2, got2)
    ensures TakerOk(pc, cpc, u, hs, g2.hg, g2, got2, tail)
  {
    assert cpc.Claimed? ==> forall k :: cpc.first <= k < cpc.first + cpc.count ==> C.InClaim(cpc, k);
    if pc.LoadKey? && cpc.Claimed? {
      var m :| BlockNo(cpc.first + cpc.count - 1) <= m < g.hg.len[pc.h] && pc.tl == Pos(hs, g.hg, pc.h, m);
      assert pc.tl == Pos(hs, g2.hg, pc.h, m);
    }
  }

  // ---- Taking an item ----

  lemma TakeCell(s: State, g: Ghost, t: nat, k: nat)
    requires Inv(s, g) && Enabled(s, Fetch(t)) && SafeFetch(s, t) && s.takers[t].Take? && k < |s.items|
    ensures CellOk(FetchStep(s, t).blocks, g.blk, s.items, FetchStep(s, t).got, k)
  {
    var pc := s.takers[t];
    TakeFacts(s, g, t);
    if k !in s.got && k != pc.i {
      LiveCell(s, g, k);
      SameUser(s, g, k, pc.i);
    }
  }

  // Two live indices share a block only if they have the same block number.
  lemma SameUser(s: State, g: Ghost, k: nat, i: nat)
    requires Inv(s, g) && k < s.ctr.tail && i < s.ctr.tail && k !in g.done && i !in g.done
    ensures BlockNo(k) < |g.blk| && BlockNo(i) < |g.blk|
    ensures g.blk[BlockNo(k)] == g.blk[BlockNo(i)] ==> BlockNo(k) == BlockNo(i)
  {
    LiveBlock(s, g, k);
    LiveBlock(s, g, i);
  }

  lemma TakePc(s: State, g: Ghost, t: nat)
    requires Inv(s, g) && Enabled(s, Fetch(t)) && SafeFetch(s, t) && s.takers[t].Take?
    ensures TakerOk(FetchStep(s, t).takers[t], s.ctr.pcs[t], t, s.headers, g.hg, g, FetchStep(s, t).got, s.ctr.tail)
  {
    var pc, cpc := s.takers[t], s.ctr.pcs[t];
    assert TakerOk(pc, cpc, t, s.headers, g.hg, g, s.got, s.ctr.tail);
    MovedOn(pc, cpc, t, s.headers, g, s.got, s.ctr.tail, s.blocks[pc.b].cells[pc.i % BLOCK_SIZE].x);
  }

  // The claim after one more item has been moved out.
  lemma MovedOn(pc: Taker, cpc: C.Pc, t: nat, hs: seq<Header>, g: Ghost, got: map<nat, int>, tail: nat, x: int)
    requires TakerOk(pc, cpc, t, hs, g.hg, g, got, tail) && pc.Take? && cpc.Claimed?
    ensures var pc2 := if pc.i + 1 == End(pc.from, cpc.first + cpc.count)
        then Count(pc.h, pc.slot, pc.e, pc.b, pc.from, pc.i + 1)
                       else Take(pc.h, pc.slot, pc.e, pc.b, pc.from, pc.i + 1);
            TakerOk(pc2, cpc, t, hs, g.hg, g, got[pc.i := x], tail)
  {
  }

  lemma TakeOther(s: State, g: Ghost, t: nat, u: nat)
    requires Inv(s, g) && Enabled(s, Fetch(t)) && SafeFetch(s, t) && s.takers[t].Take? && u < |s.takers| && u != t
    ensures TakerOk(s.takers[u], s.ctr.pcs[u], u, s.headers, g.hg, g, FetchStep(s, t).got, s.ctr.tail)
  {
    var i := s.takers[t].i;
    assert TakerOk(s.takers[t], s.ctr.pcs[t], t, s.headers, g.hg, g, s.got, s.ctr.tail);
    assert TakerOk(s.takers[u], s.ctr.pcs[u], u, s.headers, g.hg, g, s.got, s.ctr.tail);
    assert C.Claims(s.ctr, t, i);
    if C.Claims(s.ctr, u, i) { C.ClaimedOnce(s.ctr, t, u, i); }
    TakerFrame(s.takers[u], s.ctr.pcs[u], u, s.headers, g, s.got, s.ctr.tail, g, FetchStep(s, t).got);
  }

  lemma TakeFacts(s: State, g: Ghost, t: nat)
    requires Inv(s, g) && Enabled(s, Fetch(t)) && SafeFetch(s, t) && s.takers[t].Take?
    ensures var pc := s.takers[t];
            && TakerOk(pc, s.ctr.pcs[t], t, s.headers, g.hg, g, s.got, s.ctr.tail)
            && BlockNo(pc.i) == BlockNo(pc.from) < |g.blk| && pc.b == g.blk[BlockNo(pc.from)]
            && pc.i < s.ctr.head && pc.i < |s.items| && pc.i !in s.got && pc.i !in g.done && C.Claims(s.ctr, t, pc.i)
            && s.blocks[pc.b].cells[pc.i % BLOCK_SIZE] == Item(s.items[pc.i])
  {
    var i := s.takers[t].i;
    assert TakerOk(s.takers[t], s.ctr.pcs[t], t, s.headers, g.hg, g, s.got, s.ctr.tail);
    assert C.Claims(s.ctr, t, i);
    C.ClaimedOnce(s.ctr, t, t, i);
    SameBlock(s.takers[t].from, i, s.ctr.pcs[t].first + s.ctr.pcs[t].count);
    LiveCell(s, g, i);
  }

  lemma TakeGots(s: State, g: Ghost, t: nat)
    requires Inv(s, g) && Enabled(s, Fetch(t)) && SafeFetch(s, t) && s.takers[t].Take?
    ensures Gots(FetchStep(s, t).got, s.items, s.ctr.head, g.done)
  {
    TakeFacts(s, g, t);
  }

  // The producer's claim depends on the storage of the blocks only through the cell it fills and
  // the count of the block it is about to open.
  lemma ProducerFrame(s: State, s2: State, g: Ghost, g2: Ghost)
    requires ProducerOk(s, g) && g2.ent == g.ent && g2.blk == g.blk && g2.hg == g.hg && g2.low == g.low
    requires s2 == s.(takers := s2.takers, got := s2.got, blocks := s2.blocks, free := s2.free, away := s2.away)
    requires |s2.blocks| >= |s.blocks| && g.retired <= g2.retired
    requires s.prod.PublishTail? && s.tailBlock < |s.blocks| && |s.blocks[s.tailBlock].cells| == BLOCK_SIZE ==>
               var b2, cell := s2.blocks[s.tailBlock], s.ctr.tail % BLOCK_SIZE;
               |b2.cells| == BLOCK_SIZE && b2.cells[cell] == s.blocks[s.tailBlock].cells[cell]
    requires s.prod.SetValue? && s.prod.b < |s.blocks| ==> s2.blocks[s.prod.b].finished == s.blocks[s.prod.b].finished
    ensures ProducerOk(s2, g2)
  {
  }

  // Only a cell of block b changes, and it is not the one the producer is filling.
  lemma TakeProducer(s: State, g: Ghost, t: nat)
    requires Inv(s, g) && Enabled(s, Fetch(t)) && SafeFetch(s, t) && s.takers[t].Take?
    ensures ProducerOk(FetchStep(s, t), g)
  {
    TakeFacts(s, g, t);
    if s.prod.PublishTail? { OtherCell(s, g, s.takers[t].i); }
    ProducerFrame(s, FetchStep(s, t), g, g);
  }

  lemma OtherCell(s: State, g: Ghost, i: nat)
    requires Inv(s, g) && (s.prod.PublishTail? || s.prod.Construct?) && i < s.ctr.tail && i !in g.done
    ensures BlockNo(i) < |g.blk| && (g.blk[BlockNo(i)] == s.tailBlock ==> i % BLOCK_SIZE < s.ctr.tail % BLOCK_SIZE)
  {
    LiveBlock(s, g, i);
    LiveTail(s, g);
    assert BlockOk(s.blocks, g.blk, g.low, g.done, g.closer, g.retired, g.released, g.user, BlockNo(s.ctr.tail));
  }

  // Storage kept, counts kept: nothing but cells has changed.
  lemma CellsOnly(bs: seq<Block>, bs2: seq<Block>, g: Ghost, free: set<nat>, away: set<nat>, hand: int)
    requires |bs2| == |bs|
        && forall b :: 0 <= b < |bs| ==> bs2[b].finished == bs[b].finished && |bs2[b].cells| == |bs[b].cells|
    requires Blocks(bs, g.blk, g.low, g.done, g.closer, g.retired, g.released, g.user)
    requires Places(bs, free, away, hand, g.user, g.blk, g.released)
    ensures Blocks(bs2, g.blk, g.low, g.done, g.closer, g.retired, g.released, g.user)
    ensures Places(bs2, free, away, hand, g.user, g.blk, g.released)
  {
    forall n | 0 <= n < |g.blk| ensures BlockOk(bs2, g.blk, g.low, g.done, g.closer, g.retired, g.released, g.user, n) {
      assert BlockOk(bs, g.blk, g.low, g.done, g.closer, g.retired, g.released, g.user, n);
    }
    forall b | 0 <= b < |bs2| ensures PlaceOk(bs2, free, away, hand, g.user, |g.blk|, b) {
      assert PlaceOk(bs, free, away, hand, g.user, |g.blk|, b);
    }
  }

  lemma TakeKeeps(s: State, g: Ghost, t: nat)
    requires Inv(s, g) && Enabled(s, Fetch(t)) && SafeFetch(s, t) && s.takers[t].Take?
    ensures Inv(FetchStep(s, t), g)
  {
    var s2 := FetchStep(s, t);
    CellsOnly(s.blocks, s2.blocks, g, s.free, s.away, Hand(s.prod));
    ClosingsFrame(s.takers, t, s2.takers[t], g.retired, g.released, g.closer);
    TakeGots(s, g, t);
    TakeProducer(s, g, t);
    forall k | 0 <= k < |s.items| ensures CellOk(s2.blocks, g.blk, s.items, s2.got, k) { TakeCell(s, g, t, k); }
    forall u | 0 <= u < |s2.takers|
        ensures TakerOk(s2.takers[u], s2.ctr.pcs[u], u, s2.headers, g.hg, g, s2.got, s2.ctr.tail) {
      if u == t { TakePc(s, g, t); } else { TakeOther(s, g, t, u); }
    }
  }

  // ---- Counting items as finished ----

  lemma CountStep(s: State, g: Ghost, t: nat)
    requires Enabled(s, Fetch(t)) && SafeFetch(s, t) && s.takers[t].Count?
    ensures var pc, g2 := s.takers[t], TrackFetch(s, g, t, s.takers[t]);
            var now := s.blocks[pc.b].finished + (pc.i - pc.from);
            && FetchStep(s, t).blocks == s.blocks[pc.b := s.blocks[pc.b].(finished := now)]
            && g2 == g.(done := g.done + Range(pc.from, pc.i),
                        closer := if now == BLOCK_SIZE then g.closer[BlockNo(pc.from) := t] else g.closer)
  {
  }

  // A count that reaches BLOCK_SIZE completes its block, and touches no other.
  lemma CountedBlock(bs: seq<Block>, b: nat, now: nat, g: Ghost, done2: set<nat>, closer2: map<nat, nat>, from: nat,
      i: nat, m: nat)
    requires m < |g.blk| && BlockOk(bs, g.blk, g.low, g.done, g.closer, g.retired, g.released, g.user, m)
    requires from < i <= BlockBase(from) + BLOCK_SIZE && b < |bs| && b in g.user && g.user[b] == BlockNo(from)
    requires done2 == g.done + Range(from, i) && BlockNo(from) !in g.closer
    requires now == DoneIn(done2, BlockNo(from) * BLOCK_SIZE, BlockNo(from) * BLOCK_SIZE + BLOCK_SIZE)
    requires BlockNo(from) in closer2 <==> now == BLOCK_SIZE
    requires forall n :: n != BlockNo(from) ==> (n in closer2 <==> n in g.closer)
    requires m == BlockNo(from) ==> g.blk[m] == b
    ensures BlockOk(bs[b := bs[b].(finished := now)], g.blk, g.low, done2, closer2, g.retired, g.released, g.user, m)
  {
    if m != BlockNo(from) { DoneSame(g.done, done2, m * BLOCK_SIZE, m * BLOCK_SIZE + BLOCK_SIZE); }
  }

  lemma CountBlocks(s: State, g: Ghost, t: nat, g2: Ghost)
    requires Blocks(s.blocks, g.blk, g.low, g.done, g.closer, g.retired, g.released, g.user) && t < |s.takers|
        && s.takers[t].Count?
    requires var pc, n := s.takers[t], BlockNo(s.takers[t].from);
             && n < |g.blk| && pc.b == g.blk[n] && pc.b < |s.blocks|
             && pc.from < pc.i <= BlockBase(pc.from) + BLOCK_SIZE
             && n !in g.closer && pc.b in g.user && g.user[pc.b] == n
             && s.blocks[pc.b].finished + (pc.i - pc.from)
                 == DoneIn(g.done + Range(pc.from, pc.i), n * BLOCK_SIZE, n * BLOCK_SIZE + BLOCK_SIZE)
             && g2 == TrackFetch(s, g, t, pc)
    ensures var pc := s.takers[t];
            var now := s.blocks[pc.b].finished + (pc.i - pc.from);
            Blocks(s.blocks[pc.b := s.blocks[pc.b].(finished := now)], g2.blk, g2.low, g2.done, g2.closer, g2.retired,
                g2.released, g2.user)
  {
    var pc := s.takers[t];
    var now := s.blocks[pc.b].finished + (pc.i - pc.from);
    var bs2 := s.blocks[pc.b := s.blocks[pc.b].(finished := now)];
    forall m | 0 <= m < |g.blk|
        ensures BlockOk(bs2, g.blk, g.low, g2.done, g2.closer, g.retired, g.released, g.user, m) {
      assert BlockOk(s.blocks, g.blk, g.low, g.done, g.closer, g.retired, g.released, g.user, m);
      CountedBlock(s.blocks, pc.b, now, g, g2.done, g2.closer, pc.from, pc.i, m);
    }
  }

  lemma NextPosition(s: State, g: Ghost, h: nat, n: nat)
    requires SameLengths(s.headers, g.hg) && h < |s.headers| && |s.headers[h].index| > 0
    ensures (Pos(s.headers, g.hg, h, n) + 1) % |s.headers[h].index| == Pos(s.headers, g.hg, h, n + 1)
  {
    ModAdd(n + g.hg.shift[h], 1, |s.headers[h].index|);
  }

  // Thread t goes on to close the block it has just completed.
  lemma ClosePc(pc: Taker, cpc: C.Pc, t: nat, hs: seq<Header>, g: Ghost, got: map<nat, int>, tail: nat, g2: Ghost)
    requires TakerOk(pc, cpc, t, hs, g.hg, g, got, tail) && pc.Count? && cpc.Claimed?
    requires g2.ent == g.ent && g2.blk == g.blk && g2.hg == g.hg && g2.done == g.done + Range(pc.from, pc.i)
    requires g2.retired == g.retired && BlockNo(pc.from) !in g.retired
    requires BlockNo(pc.from) in g2.closer && g2.closer[BlockNo(pc.from)] == t
    ensures TakerOk(ClearEntry(pc.h, pc.slot, pc.e, pc.b, pc.i), cpc, t, hs, g2.hg, g2, got, tail)
  {
    assert BlockNo(pc.i - 1) == BlockNo(pc.from);
  }

  // Thread t goes on to the next block of its claim, or is done.
  lemma NextPc(h: nat, from: nat, i: nat, slot2: nat, cpc: C.Pc, t: nat, hs: seq<Header>, g2: Ghost, got: map<nat, int>,
      tail: nat)
    requires cpc.Claimed? && Positive(cpc) && cpc.first + cpc.count <= tail
        && Knows(hs, g2.hg, h, cpc.first + cpc.count)
    requires cpc.first <= from < i == End(from, cpc.first + cpc.count)
    requires Progress(cpc.first, cpc.first + cpc.count, i, i, g2.done, got)
    requires slot2 == Pos(hs, g2.hg, h, BlockNo(from) + 1)
    ensures var pc2 := if i == cpc.first + cpc.count then Finished else LoadBlock(h, slot2, i);
            TakerOk(pc2, cpc, t, hs, g2.hg, g2, got, tail)
  {
    assert i < cpc.first + cpc.count ==> BlockNo(i) == BlockNo(from) + 1;
  }

  // Thread t's own next instruction, from facts about t alone.
  lemma AfterCount(s: State, g: Ghost, t: nat, pc: Taker, cpc: C.Pc)
    requires t < |s.takers| == |s.ctr.pcs| && pc == s.takers[t] && cpc == s.ctr.pcs[t] && pc.Count? && cpc.Claimed?
    requires TakerOk(pc, cpc, t, s.headers, g.hg, g, s.got, s.ctr.tail) && SafeFetch(s, t)
    requires |s.headers[pc.h].index| > 0
    requires (pc.slot + 1) % |s.headers[pc.h].index| == Pos(s.headers, g.hg, pc.h, BlockNo(pc.from) + 1)
    requires BlockNo(pc.from) !in g.retired
    ensures var g2 := TrackFetch(s, g, t, pc);
            TakerOk(FetchStep(s, t).takers[t], cpc, t, s.headers, g2.hg, g2, s.got, s.ctr.tail)
  {
    var g2 := TrackFetch(s, g, t, pc);
    if s.blocks[pc.b].finished + (pc.i - pc.from) == BLOCK_SIZE {
      ClosePc(pc, cpc, t, s.headers, g, s.got, s.ctr.tail, g2);
    } else {
      NextPc(pc.h, pc.from, pc.i, Pos(s.headers, g.hg, pc.h, BlockNo(pc.from) + 1), cpc, t, s.headers, g2, s.got,
          s.ctr.tail);
    }
  }

  lemma CountPc(s: State, g: Ghost, t: nat)
    requires Enabled(s, Fetch(t)) && SafeFetch(s, t) && s.takers[t].Count? && SameLengths(s.headers, g.hg)
    requires TakerOk(s.takers[t], s.ctr.pcs[t], t, s.headers, g.hg, g, s.got, s.ctr.tail)
    requires s.takers[t].h < |s.headers| && |s.headers[s.takers[t].h].index| > 0
        && BlockNo(s.takers[t].from) !in g.retired
    ensures var g2 := TrackFetch(s, g, t, s.takers[t]);
            TakerOk(FetchStep(s, t).takers[t], s.ctr.pcs[t], t, s.headers, g2.hg, g2, s.got, s.ctr.tail)
  {
    var pc := s.takers[t];
    NextPosition(s, g, pc.h, BlockNo(pc.from));
    AfterCount(s, g, t, pc, s.ctr.pcs[t]);
  }

  lemma DoneElsewhere(u: nat, cpc: C.Pc, g: Ghost, got: map<nat, int>, g2: Ghost, a: nat, b: nat, n: nat, t: nat)
    requires forall k :: C.InClaim(cpc, k) ==> k !in Range(a, b)
    requires n !in g.closer
    requires g2 == g.(done := g.done + Range(a, b), closer := g.closer[n := t])
        || g2 == g.(done := g.done + Range(a, b))
    ensures SameFor(u, cpc, g, got, g2, got)
  {
  }

  lemma CountOther(s: State, g: Ghost, t: nat, u: nat)
    requires Inv(s, g) && Enabled(s, Fetch(t)) && SafeFetch(s, t) && s.takers[t].Count? && u < |s.takers| && u != t
    ensures var g2 := TrackFetch(s, g, t, s.takers[t]);
            TakerOk(s.takers[u], s.ctr.pcs[u], u, s.headers, g2.hg, g2, s.got, s.ctr.tail)
  {
    var pc, cpc, g2 := s.takers[t], s.ctr.pcs[u], TrackFetch(s, g, t, s.takers[t]);
    CountFacts(s, g, t);
    assert TakerOk(s.takers[u], cpc, u, s.headers, g.hg, g, s.got, s.ctr.tail);
    forall k | C.InClaim(cpc, k) ensures k !in Range(pc.from, pc.i) {
      if C.Claims(s.ctr, t, k) { C.ClaimedOnce(s.ctr, t, u, k); }
    }
    DoneElsewhere(u, cpc, g, s.got, g2, pc.from, pc.i, BlockNo(pc.from), t);
    TakerFrame(s.takers[u], cpc, u, s.headers, g, s.got, s.ctr.tail, g2, s.got);
  }

  lemma CountClosings(s: State, g: Ghost, t: nat)
    requires Inv(s, g) && Enabled(s, Fetch(t)) && SafeFetch(s, t) && s.takers[t].Count?
    ensures var g2 := TrackFetch(s, g, t, s.takers[t]);
            Closings(FetchStep(s, t).takers, g2.retired, g2.released, g2.closer)
  {
    var g2 := TrackFetch(s, g, t, s.takers[t]);
    CountFacts(s, g, t);
    ClosingsFrame(s.takers, t, FetchStep(s, t).takers[t], g.retired, g.released, g.closer);
    forall n | n in g2.closer ensures ClosingOk(FetchStep(s, t).takers, g2.retired, g2.released, g2.closer, n) {
      if n in g.closer { assert ClosingOk(FetchStep(s, t).takers, g.retired, g.released, g.closer, n); }
    }
  }

  // Only the count of a block in this producer's use changes.
  lemma CountPlaces(s: State, g: Ghost, b: nat, now: nat)
    requires Places(s.blocks, s.free, s.away, Hand(s.prod), g.user, g.blk, g.released) && b in g.user
    requires Cells(s.blocks, g.blk, s.items, s.got)
    ensures b < |s.blocks| && b != Hand(s.prod)
    ensures var bs2 := s.blocks[b := s.blocks[b].(finished := now)];
            Places(bs2, s.free, s.away, Hand(s.prod), g.user, g.blk, g.released) && Cells(bs2, g.blk, s.items, s.got)
  {
    var bs2 := s.blocks[b := s.blocks[b].(finished := now)];
    assert PlaceOk(s.blocks, s.free, s.away, Hand(s.prod), g.user, |g.blk|, b);
    forall c | 0 <= c < |bs2| ensures PlaceOk(bs2, s.free, s.away, Hand(s.prod), g.user, |g.blk|, c) {
      assert PlaceOk(s.blocks, s.free, s.away, Hand(s.prod), g.user, |g.blk|, c);
    }
    forall k | 0 <= k < |s.items| ensures CellOk(bs2, g.blk, s.items, s.got, k) {
      assert CellOk(s.blocks, g.blk, s.items, s.got, k);
    }
  }

  lemma CountStorage(s: State, g: Ghost, t: nat)
    requires Enabled(s, Fetch(t)) && SafeFetch(s, t) && s.takers[t].Count? && s.takers[t].b in g.user
    requires Places(s.blocks, s.free, s.away, Hand(s.prod), g.user, g.blk, g.released)
        && Cells(s.blocks, g.blk, s.items, s.got)
    ensures var s2, g2 := FetchStep(s, t), TrackFetch(s, g, t, s.takers[t]);
            && Places(s2.blocks, s.free, s.away, Hand(s.prod), g2.user, g2.blk, g2.released)
            && Cells(s2.blocks, g2.blk, s.items, s.got)
  {
    CountStep(s, g, t);
    CountPlaces(s, g, s.takers[t].b, s.blocks[s.takers[t].b].finished + (s.takers[t].i - s.takers[t].from));
  }

  lemma CountProducer(s: State, g: Ghost, t: nat)
    requires Inv(s, g) && Enabled(s, Fetch(t)) && SafeFetch(s, t) && s.takers[t].Count?
    ensures ProducerOk(FetchStep(s, t), TrackFetch(s, g, t, s.takers[t]))
  {
    CountFacts(s, g, t);
    CountStep(s, g, t);
    assert PlaceOk(s.blocks, s.free, s.away, Hand(s.prod), g.user, |g.blk|, s.takers[t].b);
    ProducerFrame(s, FetchStep(s, t), g, TrackFetch(s, g, t, s.takers[t]));
  }

  lemma CountTakers(s: State, g: Ghost, t: nat)
    requires Inv(s, g) && Enabled(s, Fetch(t)) && SafeFetch(s, t) && s.takers[t].Count?
        && BlockNo(s.takers[t].from) !in g.retired
    ensures Takers(FetchStep(s, t), TrackFetch(s, g, t, s.takers[t]))
  {
    var s2, g2 := FetchStep(s, t), TrackFetch(s, g, t, s.takers[t]);
    forall u | 0 <= u < |s2.takers|
        ensures TakerOk(s2.takers[u], s2.ctr.pcs[u], u, s2.headers, g2.hg, g2, s2.got, s2.ctr.tail) {
      if u == t {
        assert TakerOk(s.takers[t], s.ctr.pcs[t], t, s.headers, g.hg, g, s.got, s.ctr.tail);
        assert HeaderOk(s.headers, |s.entries|, g.ent, g.low, g.hg, s.takers[t].h);
        CountPc(s, g, t);
      } else {
        CountOther(s, g, t, u);
      }
    }
  }

  lemma CountKeeps(s: State, g: Ghost, t: nat)
    requires Inv(s, g) && Enabled(s, Fetch(t)) && SafeFetch(s, t) && s.takers[t].Count?
    ensures Inv(FetchStep(s, t), TrackFetch(s, g, t, s.takers[t]))
  {
    CountFacts(s, g, t);
    CountStorage(s, g, t);
    CountProducer(s, g, t);
    CountClosings(s, g, t);
    CountStep(s, g, t);
    CountBlocks(s, g, t, TrackFetch(s, g, t, s.takers[t]));
    CountTakers(s, g, t);
  }

  // ---- Clearing the entry of a completed block, and giving the block back ----

  // Entries of different blocks that may still be in use are different.
  lemma EntriesApart(s: State, g: Ghost, m: nat, n: nat)
    requires Headers(s.headers, |s.entries|, g.ent, g.low, g.hg)
    requires Ring(s.headers, g.ent, |g.blk|, g.low, g.hg, Visible(s.prod, |g.blk|))
    requires g.low <= m < n < |g.ent|
    ensures g.ent[m] != g.ent[n]
  {
    var cur := Current(s);
    assert HeaderOk(s.headers, |s.entries|, g.ent, g.low, g.hg, cur);
    ModApart(m + g.hg.shift[cur], n + g.hg.shift[cur], |s.headers[cur].index|);
    var p, q := Pos(s.headers, g.hg, cur, m), Pos(s.headers, g.hg, cur, n);
    assert s.headers[cur].index[p] == g.ent[m] && s.headers[cur].index[q] == g.ent[n];
    assert p < q || q < p;
  }

  lemma ClosingFacts(s: State, g: Ghost, t: nat)
    requires Inv(s, g) && Enabled(s, Fetch(t)) && (s.takers[t].ClearEntry? || s.takers[t].Release?)
    ensures var pc, n := s.takers[t], BlockNo(s.takers[t].i - 1);
            && TakerOk(pc, s.ctr.pcs[t], t, s.headers, g.hg, g, s.got, s.ctr.tail)
            && pc.i > 0 && n < |g.blk| <= |g.ent| && pc.e == g.ent[n] && pc.b == g.blk[n]
            && n in g.closer && g.closer[n] == t && n !in g.released
            && pc.b < |s.blocks| && pc.b in g.user && g.user[pc.b] == n
            && (n in g.retired <==> pc.Release?) && (pc.ClearEntry? ==> g.low <= n)
  {
    var pc := s.takers[t];
    ClosingPart(pc, s.ctr.pcs[t], t, s.headers, g, s.got, s.ctr.tail);
    assert BlockOk(s.blocks, g.blk, g.low, g.done, g.closer, g.retired, g.released, g.user, BlockNo(pc.i - 1));
  }

  // What a closing consumer's claim says by itself.
  lemma ClosingPart(pc: Taker, cpc: C.Pc, t: nat, hs: seq<Header>, g: Ghost, got: map<nat, int>, tail: nat)
    requires TakerOk(pc, cpc, t, hs, g.hg, g, got, tail) && (pc.ClearEntry? || pc.Release?)
    ensures cpc.Claimed? && pc.i > 0
    ensures var n := BlockNo(pc.i - 1);
            && n < |g.blk| <= |g.ent| && pc.e == g.ent[n] && pc.b == g.blk[n] && n in g.closer && g.closer[n] == t
            && (n in g.retired <==> pc.Release?) && (pc.Release? ==> n !in g.released)
  {
  }

  lemma ClearEntries(s: State, g: Ghost, t: nat)
    requires Inv(s, g) && Enabled(s, Fetch(t)) && SafeFetch(s, t) && s.takers[t].ClearEntry?
    ensures Entries(FetchStep(s, t).entries, g.ent, g.blk, g.low, g.retired + {BlockNo(s.takers[t].i - 1)},
        AtRest(s.prod))
  {
    var es2, n := FetchStep(s, t).entries, BlockNo(s.takers[t].i - 1);
    ClosingFacts(s, g, t);
    forall m | g.low <= m < |g.ent| ensures EntryOk(es2, g.ent, g.blk, g.retired + {n}, AtRest(s.prod), m) {
      assert EntryOk(s.entries, g.ent, g.blk, g.retired, AtRest(s.prod), m);
      if m < n { EntriesApart(s, g, m, n); }
      if n < m { EntriesApart(s, g, n, m); }
    }
  }

  // Which block a consumer is closing determines the consumer, so the other closings stand.
  lemma CloseClosings(s: State, g: Ghost, t: nat, pc2: Taker, g2: Ghost)
    requires Inv(s, g) && Enabled(s, Fetch(t)) && (s.takers[t].ClearEntry? || s.takers[t].Release?)
    requires var n := BlockNo(s.takers[t].i - 1);
             && g2.closer == g.closer
             && (forall m :: m != n ==>
                 (m in g2.retired <==> m in g.retired) && (m in g2.released <==> m in g.released))
             && (n in g2.released || (n in g2.retired && pc2.Release? && pc2.i == s.takers[t].i))
    ensures Closings(s.takers[t := pc2], g2.retired, g2.released, g2.closer)
  {
    ClosingFacts(s, g, t);
    forall m | m in g2.closer ensures ClosingOk(s.takers[t := pc2], g2.retired, g2.released, g2.closer, m) {
      assert ClosingOk(s.takers, g.retired, g.released, g.closer, m);
    }
  }

  lemma ClearTakers(s: State, g: Ghost, t: nat)
    requires Inv(s, g) && Enabled(s, Fetch(t)) && SafeFetch(s, t) && s.takers[t].ClearEntry?
    ensures var s2, g2 := FetchStep(s, t), TrackFetch(s, g, t, s.takers[t]);
            Takers(s2, g2) && Closings(s2.takers, g2.retired, g2.released, g2.closer)
  {
    var s2, g2 := FetchStep(s, t), TrackFetch(s, g, t, s.takers[t]);
    ClosingFacts(s, g, t);
    CloseClosings(s, g, t, s2.takers[t], g2);
    ClosingOthers(s, g, t, s2, g2);
  }

  lemma ClearKeeps(s: State, g: Ghost, t: nat)
    requires Inv(s, g) && Enabled(s, Fetch(t)) && SafeFetch(s, t) && s.takers[t].ClearEntry?
    ensures Inv(FetchStep(s, t), TrackFetch(s, g, t, s.takers[t]))
  {
    ClearTakers(s, g, t);
    ClearStorage(s, g, t);
    ClearProducer(s, g, FetchStep(s, t), TrackFetch(s, g, t, s.takers[t]));
  }

  // A value that is cleared is not one the producer is waiting for, and its key stays.
  lemma ClearProducer(s: State, g: Ghost, s2: State, g2: Ghost)
    requires ProducerOk(s, g) && s2 == s.(takers := s2.takers, entries := s2.entries) && |s2.entries| == |s.entries|
    requires forall e :: 0 <= e < |s.entries| ==> s2.entries[e].key == s.entries[e].key
    requires g2 == g.(retired := g2.retired) && g.retired <= g2.retired
    ensures ProducerOk(s2, g2)
  {
  }

  lemma ClearStorage(s: State, g: Ghost, t: nat)
    requires Inv(s, g) && Enabled(s, Fetch(t)) && SafeFetch(s, t) && s.takers[t].ClearEntry?
    ensures var s2, g2 := FetchStep(s, t), TrackFetch(s, g, t, s.takers[t]);
            && Entries(s2.entries, g.ent, g.blk, g.low, g2.retired, AtRest(s.prod))
            && Blocks(s.blocks, g.blk, g.low, g.done, g.closer, g2.retired, g.released, g.user)
  {
    ClosingFacts(s, g, t);
    ClearEntries(s, g, t);
    RetireBlocks(s, g, BlockNo(s.takers[t].i - 1));
  }

  lemma RetireBlocks(s: State, g: Ghost, n: nat)
    requires Blocks(s.blocks, g.blk, g.low, g.done, g.closer, g.retired, g.released, g.user) && n in g.closer
    ensures Blocks(s.blocks, g.blk, g.low, g.done, g.closer, g.retired + {n}, g.released, g.user)
  {
    forall m | 0 <= m < |g.blk|
        ensures BlockOk(s.blocks, g.blk, g.low, g.done, g.closer, g.retired + {n}, g.released, g.user, m) {
      assert BlockOk(s.blocks, g.blk, g.low, g.done, g.closer, g.retired, g.released, g.user, m);
    }
  }

  // Another consumer is not closing the same block.
  lemma ClosingOther(s: State, g: Ghost, t: nat, u: nat, g2: Ghost)
    requires Inv(s, g) && Enabled(s, Fetch(t)) && (s.takers[t].ClearEntry? || s.takers[t].Release?) && u < |s.takers|
        && u != t
    requires g2 == g.(retired := g2.retired, released := g2.released, user := g2.user)
    requires forall m :: m != BlockNo(s.takers[t].i - 1) ==>
        (m in g2.retired <==> m in g.retired) && (m in g2.released <==> m in g.released)
    ensures TakerOk(s.takers[u], s.ctr.pcs[u], u, s.headers, g2.hg, g2, s.got, s.ctr.tail)
  {
    ClosingFacts(s, g, t);
    assert TakerOk(s.takers[u], s.ctr.pcs[u], u, s.headers, g.hg, g, s.got, s.ctr.tail);
    TakerFrame(s.takers[u], s.ctr.pcs[u], u, s.headers, g, s.got, s.ctr.tail, g2, s.got);
  }

  // Thread t's own next instruction, from facts about t alone.
  lemma AfterRelease(s: State, g: Ghost, t: nat, pc: Taker, cpc: C.Pc)
    requires t < |s.takers| == |s.ctr.pcs| && pc == s.takers[t] && cpc == s.ctr.pcs[t] && pc.Release? && cpc.Claimed?
    requires TakerOk(pc, cpc, t, s.headers, g.hg, g, s.got, s.ctr.tail) && SafeFetch(s, t)
    requires |s.headers[pc.h].index| > 0
    requires (pc.slot + 1) % |s.headers[pc.h].index| == Pos(s.headers, g.hg, pc.h, BlockNo(pc.i - 1) + 1)
    ensures var g2 := TrackFetch(s, g, t, pc);
            TakerOk(FetchStep(s, t).takers[t], cpc, t, s.headers, g2.hg, g2, s.got, s.ctr.tail)
  {
    assert pc.i < cpc.first + cpc.count ==> BlockNo(pc.i) == BlockNo(pc.i - 1) + 1;
  }

  lemma ClosingOthers(s: State, g: Ghost, t: nat, s2: State, g2: Ghost)
    requires Inv(s, g) && Enabled(s, Fetch(t)) && (s.takers[t].ClearEntry? || s.takers[t].Release?)
    requires g2 == g.(retired := g2.retired, released := g2.released, user := g2.user)
    requires forall m :: m != BlockNo(s.takers[t].i - 1) ==>
        (m in g2.retired <==> m in g.retired) && (m in g2.released <==> m in g.released)
    requires |s2.takers| == |s.takers| && s2.ctr == s.ctr && s2.headers == s.headers && s2.got == s.got
    requires forall u :: 0 <= u < |s.takers| && u != t ==> s2.takers[u] == s.takers[u]
    requires TakerOk(s2.takers[t], s.ctr.pcs[t], t, s.headers, g2.hg, g2, s.got, s.ctr.tail)
    ensures Takers(s2, g2)
  {
    forall u | 0 <= u < |s2.takers|
        ensures TakerOk(s2.takers[u], s2.ctr.pcs[u], u, s2.headers, g2.hg, g2, s2.got, s2.ctr.tail) {
      if u != t { ClosingOther(s, g, t, u, g2); }
    }
  }

  lemma ReleasePc(s: State, g: Ghost, t: nat)
    requires Enabled(s, Fetch(t)) && SafeFetch(s, t) && s.takers[t].Release? && SameLengths(s.headers, g.hg)
    requires TakerOk(s.takers[t], s.ctr.pcs[t], t, s.headers, g.hg, g, s.got, s.ctr.tail)
    requires s.takers[t].h < |s.headers| && |s.headers[s.takers[t].h].index| > 0
    ensures var g2 := TrackFetch(s, g, t, s.takers[t]);
            TakerOk(FetchStep(s, t).takers[t], s.ctr.pcs[t], t, s.headers, g2.hg, g2, s.got, s.ctr.tail)
  {
    var pc := s.takers[t];
    NextPosition(s, g, pc.h, BlockNo(pc.i - 1));
    AfterRelease(s, g, t, pc, s.ctr.pcs[t]);
  }

  lemma ReleasePlaces(s: State, g: Ghost, t: nat)
    requires Inv(s, g) && Enabled(s, Fetch(t)) && SafeFetch(s, t) && s.takers[t].Release?
    ensures var g2 := TrackFetch(s, g, t, s.takers[t]);
            && Places(s.blocks, FetchStep(s, t).free, s.away, Hand(s.prod), g2.user, g2.blk, g2.released)
            && Blocks(s.blocks, g2.blk, g2.low, g2.done, g2.closer, g2.retired, g2.released, g2.user)
  {
    var s2, g2 := FetchStep(s, t), TrackFetch(s, g, t, s.takers[t]);
    ClosingFacts(s, g, t);
    forall b | 0 <= b < |s.blocks| ensures PlaceOk(s.blocks, s2.free, s.away, Hand(s.prod), g2.user, |g.blk|, b) {
      assert PlaceOk(s.blocks, s.free, s.away, Hand(s.prod), g.user, |g.blk|, b);
    }
    forall m | 0 <= m < |g.blk|
        ensures BlockOk(s.blocks, g.blk, g.low, g.done, g.closer, g.retired, g2.released, g2.user, m) {
      assert BlockOk(s.blocks, g.blk, g.low, g.done, g.closer, g.retired, g.released, g.user, m);
    }
  }

  lemma ReleaseTakers(s: State, g: Ghost, t: nat)
    requires Inv(s, g) && Enabled(s, Fetch(t)) && SafeFetch(s, t) && s.takers[t].Release?
    ensures var s2, g2 := FetchStep(s, t), TrackFetch(s, g, t, s.takers[t]);
            Takers(s2, g2) && Closings(s2.takers, g2.retired, g2.released, g2.closer)
  {
    var s2, g2 := FetchStep(s, t), TrackFetch(s, g, t, s.takers[t]);
    ClosingFacts(s, g, t);
    CloseClosings(s, g, t, s2.takers[t], g2);
    assert HeaderOk(s.headers, |s.entries|, g.ent, g.low, g.hg, s.takers[t].h);
    ReleasePc(s, g, t);
    ClosingOthers(s, g, t, s2, g2);
  }

  lemma ReleaseKeeps(s: State, g: Ghost, t: nat)
    requires Inv(s, g) && Enabled(s, Fetch(t)) && SafeFetch(s, t) && s.takers[t].Release?
    ensures Inv(FetchStep(s, t), TrackFetch(s, g, t, s.takers[t]))
  {
    ReleaseTakers(s, g, t);
    ReleasePlaces(s, g, t);
    ProducerFrame(s, FetchStep(s, t), g, TrackFetch(s, g, t, s.takers[t]));
  }

  lemma FetchKeeps(s: State, g: Ghost, t: nat)
    requires Inv(s, g) && Enabled(s, Fetch(t)) && SafeFetch(s, t)
    ensures Inv(FetchStep(s, t), TrackFetch(s, g, t, s.takers[t]))
  {
    match s.takers[t]
    case Take(_, _, _, _, _, _) => TakeKeeps(s, g, t);
    case Count(_, _, _, _, _, _) => CountKeeps(s, g, t);
    case ClearEntry(_, _, _, _, _) => ClearKeeps(s, g, t);
    case Release(_, _, _, _, _) => ReleaseKeeps(s, g, t);
    case Finished => FinishKeeps(s, g, t);
    case _ => ReadKeeps(s, g, t);
  }

  // ---- Instructions of the producer ----

  // Consumers do not notice what the producer adds.
  ghost predicate Extends(hs: seq<Header>, g: Ghost, tail: nat, hs2: seq<Header>, g2: Ghost, tail2: nat) {
    && SameLengths(hs, g.hg) && SameLengths(hs2, g2.hg) && |hs| <= |hs2|
    && (forall h :: 0 <= h < |hs| ==>
        hs2[h].index == hs[h].index && g2.hg.shift[h] == g.hg.shift[h] && g2.hg.len[h] >= g.hg.len[h])
    && g.ent <= g2.ent && g.blk <= g2.blk && |g2.blk| <= |g2.ent|
    && g2.done == g.done && g2.closer == g.closer && g2.retired == g.retired && g2.released == g.released
    && tail <= tail2
  }

  function HeaderOf(pc: Taker): nat { if pc.Off? || pc.LoadIndex? || pc.Finished? then 0 else pc.h }

  // The same for one header.
  predicate HeaderKept(hs: seq<Header>, hg: HeaderGhost, hs2: seq<Header>, hg2: HeaderGhost, h: nat) {
    h < |hs| && SameLengths(hs, hg) ==>
      && SameLengths(hs2, hg2) && h < |hs2|
      && hs2[h].index == hs[h].index && hg2.shift[h] == hg.shift[h] && hg2.len[h] >= hg.len[h]
  }

  lemma KeyGrows(pc: Taker, cpc: C.Pc, u: nat, hs: seq<Header>, g: Ghost, got: map<nat, int>, tail: nat,
      hs2: seq<Header>, g2: Ghost, tail2: nat)
    requires TakerOk(pc, cpc, u, hs, g.hg, g, got, tail) && pc.LoadKey? && cpc.Claimed?
    requires HeaderKept(hs, g.hg, hs2, g2.hg, pc.h) && g2.done == g.done && tail <= tail2
    ensures TakerOk(pc, cpc, u, hs2, g2.hg, g2, got, tail2)
  {
    var m :| BlockNo(cpc.first + cpc.count - 1) <= m < g.hg.len[pc.h] && pc.tl == Pos(hs, g.hg, pc.h, m);
    assert pc.tl == Pos(hs2, g2.hg, pc.h, m);
  }

  lemma OtherPcGrows(pc: Taker, cpc: C.Pc, u: nat, hs: seq<Header>, g: Ghost, got: map<nat, int>, tail: nat,
      hs2: seq<Header>, g2: Ghost, tail2: nat)
    requires TakerOk(pc, cpc, u, hs, g.hg, g, got, tail) && !pc.LoadKey?
    requires HeaderKept(hs, g.hg, hs2, g2.hg, HeaderOf(pc)) && tail <= tail2
    requires g.ent <= g2.ent && g.blk <= g2.blk && |g2.blk| <= |g2.ent|
    requires g2.done == g.done && g2.closer == g.closer && g2.retired == g.retired && g2.released == g.released
    ensures TakerOk(pc, cpc, u, hs2, g2.hg, g2, got, tail2)
  {
    assert forall n :: HeaderOf(pc) < |hs| && SameLengths(hs, g.hg) ==>
        Pos(hs2, g2.hg, HeaderOf(pc), n) == Pos(hs, g.hg, HeaderOf(pc), n);
  }

  lemma TakerGrows(pc: Taker, cpc: C.Pc, u: nat, hs: seq<Header>, g: Ghost, got: map<nat, int>, tail: nat,
      hs2: seq<Header>, g2: Ghost, tail2: nat)
    requires TakerOk(pc, cpc, u, hs, g.hg, g, got, tail) && Extends(hs, g, tail, hs2, g2, tail2)
    ensures TakerOk(pc, cpc, u, hs2, g2.hg, g2, got, tail2)
  {
    assert HeaderKept(hs, g.hg, hs2, g2.hg, HeaderOf(pc));
    if pc.LoadKey? && cpc.Claimed? {
      KeyGrows(pc, cpc, u, hs, g, got, tail, hs2, g2, tail2);
    } else if !pc.LoadKey? {
      OtherPcGrows(pc, cpc, u, hs, g, got, tail, hs2, g2, tail2);
    }
  }

  lemma TakersGrow(s: State, g: Ghost, s2: State, g2: Ghost)
    requires Takers(s, g) && s2.takers == s.takers && s2.ctr.pcs == s.ctr.pcs && s2.got == s.got
    requires Extends(s.headers, g, s.ctr.tail, s2.headers, g2, s2.ctr.tail)
    ensures Takers(s2, g2)
  {
    forall u | 0 <= u < |s2.takers|
        ensures TakerOk(s2.takers[u], s2.ctr.pcs[u], u, s2.headers, g2.hg, g2, s2.got, s2.ctr.tail) {
      TakerGrows(s.takers[u], s.ctr.pcs[u], u, s.headers, g, s.got, s.ctr.tail, s2.headers, g2, s2.ctr.tail);
    }
  }

  // Asking less of the kept entry.
  lemma LessRest(s: State, g: Ghost, rest: bool)
    requires Entries(s.entries, g.ent, g.blk, g.low, g.retired, AtRest(s.prod))
    requires rest ==> AtRest(s.prod)
    ensures Entries(s.entries, g.ent, g.blk, g.low, g.retired, rest)
  {
    forall n | g.low <= n < |g.ent| ensures EntryOk(s.entries, g.ent, g.blk, g.retired, rest, n) {
      assert EntryOk(s.entries, g.ent, g.blk, g.retired, AtRest(s.prod), n);
    }
  }

  // The position after the tail is the next block's, and if a block of this producer still had
  // its key there it would be block nb - capacity.
  ghost predicate TenantOk(s: State, g: Ghost) {
    SameLengths(s.headers, g.hg)
    && var cur, nb := Current(s), |g.blk|;
       var ring := s.headers[cur].index;
       && |ring| > 0 && NextPos(s) == Pos(s.headers, g.hg, cur, nb) < |ring| && ring[NextPos(s)] < |s.entries|
       && nb <= |g.ent| <= nb + 1
       && (nb >= |ring| && nb - |ring| >= g.low && |g.ent| == nb ==>
             ring[NextPos(s)] == g.ent[nb - |ring|]
             && EntryOk(s.entries, g.ent, g.blk, g.retired, AtRest(s.prod), nb - |ring|))
       && (|g.ent| == nb + 1 ==>
             ring[NextPos(s)] == g.ent[nb] && EntryOk(s.entries, g.ent, g.blk, g.retired, AtRest(s.prod), nb))
  }

  lemma OldTenant(s: State, g: Ghost)
    requires Inv(s, g) && (s.prod.TestKey? || s.prod.TestValue? || s.prod.AssertKey?)
    ensures TenantOk(s, g)
  {
    var cur, nb := Current(s), |g.blk|;
    var cap := |s.headers[cur].index|;
    assert HeaderOk(s.headers, |s.entries|, g.ent, g.low, g.hg, cur);
    NextPosIs(s, g);
    if nb >= cap && nb - cap >= g.low && |g.ent| == nb {
      ModTurn(nb - cap + g.hg.shift[cur], cap);
      assert Pos(s.headers, g.hg, cur, nb - cap) == NextPos(s);
    }
  }

  lemma TestProducer(s: State, g: Ghost, c: Choice)
    requires ProducerOk(s, g) && TenantOk(s, g) && Enabled(s, Produce(c)) && SafeProduce(s, c)
    requires s.prod.TestKey? || s.prod.TestValue? || s.prod.AssertKey?
    ensures ProducerOk(ProduceStep(s, c), g)
  {
  }

  lemma TestKeeps(s: State, g: Ghost, c: Choice)
    requires Inv(s, g) && Enabled(s, Produce(c)) && SafeProduce(s, c)
        && (s.prod.TestKey? || s.prod.TestValue? || s.prod.AssertKey?)
    ensures Inv(ProduceStep(s, c), g)
  {
    OldTenant(s, g);
    TestProducer(s, g, c);
    LessRest(s, g, AtRest(ProduceStep(s, c).prod));
  }

  lemma ChooseKeeps(s: State, g: Ghost, a: Action)
    requires Inv(s, g) && Enabled(s, a) && Safe(s, a)
    requires
      || a.Enqueue?
      || (a.Produce? && s.prod.LoadHead?)
      || (a.Produce? && s.prod.Grow? && a.c.Fail?)
      || (a.Produce? && s.prod.Requisition? && !a.c.Pick? && !a.c.Fresh?)
    ensures Inv(Step(s, a), g)
  {
    LessRest(s, g, AtRest(Step(s, a).prod) && AtRest(s.prod));
    if a.Produce? && s.prod.Grow? { NothingKept(s, g); }
    if a.Enqueue? && s.ctr.tail % BLOCK_SIZE != 0 { NothingKept(s, g); }
  }

  // With no entry kept for a next try, nothing is asked of it.
  lemma NothingKept(s: State, g: Ghost)
    requires Entries(s.entries, g.ent, g.blk, g.low, g.retired, AtRest(s.prod)) && |g.ent| == |g.blk|
    ensures forall rest :: Entries(s.entries, g.ent, g.blk, g.low, g.retired, rest)
  {
    forall rest, n | g.low <= n < |g.ent| ensures EntryOk(s.entries, g.ent, g.blk, g.retired, rest, n) {
      assert EntryOk(s.entries, g.ent, g.blk, g.retired, AtRest(s.prod), n);
    }
  }

  // Moving the tail of the current header.
  lemma TailMoved(s: State, g: Ghost, hs2: seq<Header>, tail2: nat, nb: nat, visible: nat)
    requires Headers(s.headers, |s.entries|, g.ent, g.low, g.hg)
    requires Ring(s.headers, g.ent, nb, g.low, g.hg, Visible(s.prod, nb))
    requires hs2 == s.headers[Current(s) := s.headers[Current(s)].(tail := tail2)]
    requires tail2 == PosBefore(s.headers, g.hg, Current(s), visible)
    ensures Headers(hs2, |s.entries|, g.ent, g.low, g.hg) && Ring(hs2, g.ent, nb, g.low, g.hg, visible)
  {
    var cur := Current(s);
    assert HeaderOk(s.headers, |s.entries|, g.ent, g.low, g.hg, cur);
    forall h | 0 <= h < |hs2| ensures HeaderOk(hs2, |s.entries|, g.ent, g.low, g.hg, h) {
      assert HeaderOk(s.headers, |s.entries|, g.ent, g.low, g.hg, h);
      assert forall n :: g.hg.lo[h] <= n < g.hg.len[h] ==> Pos(hs2, g.hg, h, n) == Pos(s.headers, g.hg, h, n);
    }
  }

  lemma SetTailKeeps(s: State, g: Ghost, c: Choice)
    requires Inv(s, g) && Enabled(s, Produce(c)) && SafeProduce(s, c) && s.prod.SetTail?
    ensures Inv(ProduceStep(s, c), g)
  {
    var s2, cur, nb := ProduceStep(s, c), Current(s), |g.blk|;
    assert HeaderOk(s.headers, |s.entries|, g.ent, g.low, g.hg, cur);
    NextPosIs(s, g);
    PosBeforeIs(s.headers, g.hg, cur, nb + 1);
    TailMoved(s, g, s2.headers, NextPos(s), nb, nb + 1);
    TakersGrow(s, g, s2, g);
  }

  lemma RewindKeeps(s: State, g: Ghost, c: Choice)
    requires Inv(s, g) && Enabled(s, Produce(c)) && SafeProduce(s, c) && s.prod.Rewind?
    ensures Inv(ProduceStep(s, c), g)
  {
    var s2, cur, nb := ProduceStep(s, c), Current(s), |g.blk|;
    var cap := |s.headers[cur].index|;
    assert HeaderOk(s.headers, |s.entries|, g.ent, g.low, g.hg, cur);
    PosBeforeIs(s.headers, g.hg, cur, nb + 1);
    ModAdd(nb + g.hg.shift[cur], cap - 1, cap);
    TailMoved(s, g, s2.headers, s2.headers[cur].tail, nb, nb);
    TakersGrow(s, g, s2, g);
  }

  lemma NullEntryKeeps(s: State, g: Ghost, c: Choice)
    requires Inv(s, g) && Enabled(s, Produce(c)) && SafeProduce(s, c) && s.prod.NullEntry?
    ensures Inv(ProduceStep(s, c), g)
  {
    var s2, nb := ProduceStep(s, c), |g.blk|;
    forall n | g.low <= n < |g.ent| ensures EntryOk(s2.entries, g.ent, g.blk, g.retired, true, n) {
      assert EntryOk(s.entries, g.ent, g.blk, g.retired, false, n);
      if n < nb { EntriesApart(s, g, n, nb); }
    }
  }

  // ---- Registering the next block's key ----

  lemma SetKeyHeaders(s: State, g: Ghost, c: Choice)
    requires Inv(s, g) && Enabled(s, Produce(c)) && SafeProduce(s, c) && s.prod.SetKey? && |g.ent| == |g.blk|
    ensures var g2 := TrackProduce(s, g, c);
            Headers(s.headers, |s.entries|, g2.ent, g2.low, g2.hg)
                && Ring(s.headers, g2.ent, |g.blk|, g2.low, g2.hg, |g.blk|)
  {
    var g2, cur := TrackProduce(s, g, c), Current(s);
    forall h | 0 <= h < |s.headers| ensures HeaderOk(s.headers, |s.entries|, g2.ent, g2.low, g2.hg, h) {
      assert HeaderOk(s.headers, |s.entries|, g.ent, g.low, g.hg, h);
      forall n | g2.hg.lo[h] <= n < g2.hg.len[h] ensures s.headers[h].index[Pos(s.headers, g2.hg, h, n)] == g2.ent[n] {
        assert Pos(s.headers, g2.hg, h, n) == Pos(s.headers, g.hg, h, n);
      }
    }
  }

  // No block that may still be in use loses its key.
  lemma SetKeyEntry(s: State, g: Ghost, c: Choice, n: nat)
    requires Inv(s, g) && Enabled(s, Produce(c)) && SafeProduce(s, c) && s.prod.SetKey?
    requires var g2 := TrackProduce(s, g, c); g2.low <= n < |g2.ent|
    ensures var g2 := TrackProduce(s, g, c); EntryOk(ProduceStep(s, c).entries, g2.ent, g2.blk, g2.retired, false, n)
  {
    var g2, cur, nb := TrackProduce(s, g, c), Current(s), |g.blk|;
    assert HeaderOk(s.headers, |s.entries|, g.ent, g.low, g.hg, cur);
    if n < |g.ent| { assert EntryOk(s.entries, g.ent, g.blk, g.retired, AtRest(s.prod), n); }
    if n < nb {
      if |g.ent| == nb {
        ModApart(n + g.hg.shift[cur], nb + g.hg.shift[cur], |s.headers[cur].index|);
        var p, q := Pos(s.headers, g.hg, cur, n), Pos(s.headers, g.hg, cur, nb);
        assert s.headers[cur].index[p] == g.ent[n];
        assert p < q || q < p;
      } else {
        EntriesApart(s, g, n, nb);
      }
    }
  }

  lemma SetKeyBlocks(s: State, g: Ghost, c: Choice)
    requires Inv(s, g) && Enabled(s, Produce(c)) && SafeProduce(s, c) && s.prod.SetKey?
    ensures var g2 := TrackProduce(s, g, c);
            Blocks(s.blocks, g2.blk, g2.low, g2.done, g2.closer, g2.retired, g2.released, g2.user)
  {
    var g2 := TrackProduce(s, g, c);
    forall m | 0 <= m < |g.blk|
        ensures BlockOk(s.blocks, g2.blk, g2.low, g2.done, g2.closer, g2.retired, g2.released, g2.user, m) {
      assert BlockOk(s.blocks, g.blk, g.low, g.done, g.closer, g.retired, g.released, g.user, m);
    }
  }

  // The entry chosen is the next block's, whether it is new or was kept from an earlier try.
  lemma SetKeyProducer(s: State, g: Ghost, c: Choice)
    requires Inv(s, g) && Enabled(s, Produce(c)) && SafeProduce(s, c) && s.prod.SetKey?
    ensures var g2 := TrackProduce(s, g, c);
            && ProducerOk(ProduceStep(s, c), g2) && |g2.ent| == |g.blk| + 1
            && Extends(s.headers, g, s.ctr.tail, s.headers, g2, s.ctr.tail)
            && (|g.ent| == |g.blk| + 1 ==> g2 == g)
  {
    assert HeaderOk(s.headers, |s.entries|, g.ent, g.low, g.hg, Current(s));
  }

  lemma SetKeyKeeps(s: State, g: Ghost, c: Choice)
    requires Inv(s, g) && Enabled(s, Produce(c)) && SafeProduce(s, c) && s.prod.SetKey?
    ensures Inv(ProduceStep(s, c), TrackProduce(s, g, c))
  {
    var s2, g2 := ProduceStep(s, c), TrackProduce(s, g, c);
    SetKeyProducer(s, g, c);
    SetKeyBlocks(s, g, c);
    if |g.ent| == |g.blk| { SetKeyHeaders(s, g, c); }
    forall n | g2.low <= n < |g2.ent|
        ensures EntryOk(s2.entries, g2.ent, g2.blk, g2.retired, false, n) { SetKeyEntry(s, g, c, n); }
    TakersGrow(s, g, s2, g2);
  }

  // ---- Growing the index ----

  // Block n's place in the doubled ring: block nb comes at position cap, older blocks before it.
  lemma GrownPos(cap: nat, nb: nat, n: int)
    requires cap > 0 && 0 <= n && nb - cap <= n < nb + cap
    ensures (n + NewShift(cap, nb)) % (2 * cap) == cap + n - nb
  {
    var q := nb / (2 * cap);
    assert nb == 2 * cap * q + nb % (2 * cap);
    assert n + NewShift(cap, nb) == (cap + n - nb) + 2 * cap * (1 + q);
    ModShift(cap + n - nb, 1 + q, 2 * cap);
  }

  lemma GrownTail(cap: nat, nb: nat)
    requires cap > 0
    ensures (nb + NewShift(cap, nb) + 2 * cap - 1) % (2 * cap) == cap - 1
  {
    var q := nb / (2 * cap);
    assert nb == 2 * cap * q + nb % (2 * cap);
    assert nb + NewShift(cap, nb) + 2 * cap - 1 == (cap - 1) + 2 * cap * (2 + q);
    ModShift(cap - 1, 2 + q, 2 * cap);
  }

  // The rotation takes each old block's entry to its new place.
  lemma GrownEntry(ring: seq<nat>, tail: nat, firstNew: nat, shift: nat, nb: nat, n: nat)
    requires |ring| > 0 && tail == (nb + shift + |ring| - 1) % |ring| && n < nb <= n + |ring|
    ensures GrownIndex(ring, tail, firstNew)[|ring| + n - nb] == ring[(n + shift) % |ring|]
  {
    var cap, i := |ring|, |ring| + n - nb;
    assert (tail + (1 + i)) % cap == (n + shift + cap + cap) % cap by { ModAdd(nb + shift + cap - 1, 1 + i, cap); }
    assert (n + shift + cap + cap) % cap == (n + shift) % cap by {
      ModTurn(n + shift + cap, cap);
      ModTurn(n + shift, cap);
    }
    assert tail + 1 + i == tail + (1 + i);
  }

  lemma GrownDistinct(ring: seq<nat>, tail: nat, firstNew: nat)
    requires |ring| > 0 && (forall p :: 0 <= p < |ring| ==> ring[p] < firstNew)
    requires forall p, q :: 0 <= p < q < |ring| ==> ring[p] != ring[q]
    ensures var grown := GrownIndex(ring, tail, firstNew);
            && (forall p :: 0 <= p < |grown| ==> grown[p] < firstNew + |ring|)
            && (forall p, q :: 0 <= p < q < |grown| ==> grown[p] != grown[q])
  {
    var grown := GrownIndex(ring, tail, firstNew);
    forall p, q | 0 <= p < q < |grown| ensures grown[p] != grown[q] {
      if q < |ring| {
        ModApart(tail + 1 + p, tail + 1 + q, |ring|);
        var a, b := (tail + 1 + p) % |ring|, (tail + 1 + q) % |ring|;
        assert a < b || b < a;
      }
    }
  }

  // The new header shows the same blocks through the same entries as the old one did.
  lemma GrowHeader(s: State, g: Ghost, c: Choice)
    requires Inv(s, g) && Enabled(s, Produce(c)) && SafeProduce(s, c) && s.prod.Grow? && !c.Fail?
    ensures var s2, g2 := ProduceStep(s, c), TrackProduce(s, g, c);
            && SameLengths(s2.headers, g2.hg)
            && HeaderOk(s2.headers, |s2.entries|, g2.ent, g2.low, g2.hg, |s.headers|)
  {
    var s2, g2, cur, nb := ProduceStep(s, c), TrackProduce(s, g, c), Current(s), |g.blk|;
    var ring, new_ := s.headers[cur].index, |s.headers|;
    assert HeaderOk(s.headers, |s.entries|, g.ent, g.low, g.hg, cur);
    GrownDistinct(ring, s.headers[cur].tail, |s.entries|);
    forall n | g2.hg.lo[new_] <= n < g2.hg.len[new_]
      ensures s2.headers[new_].index[Pos(s2.headers, g2.hg, new_, n)] == g2.ent[n]
    {
      GrownPos(|ring|, nb, n);
      GrownEntry(ring, s.headers[cur].tail, |s.entries|, g.hg.shift[cur], nb, n);
      assert ring[Pos(s.headers, g.hg, cur, n)] == g.ent[n];
    }
  }

  lemma GrowRing(s: State, g: Ghost, c: Choice)
    requires Inv(s, g) && Enabled(s, Produce(c)) && SafeProduce(s, c) && s.prod.Grow? && !c.Fail?
    ensures var s2, g2 := ProduceStep(s, c), TrackProduce(s, g, c);
            Ring(s2.headers, g2.ent, |g2.blk|, g2.low, g2.hg, |g2.blk|)
  {
    var cur := Current(s);
    assert HeaderOk(s.headers, |s.entries|, g.ent, g.low, g.hg, cur);
    GrownDistinct(s.headers[cur].index, s.headers[cur].tail, |s.entries|);
    GrownTail(|s.headers[cur].index|, |g.blk|);
  }

  // Appending a header, and entries, changes nothing for an older one.
  lemma HeaderAppended(hs: seq<Header>, hs2: seq<Header>, ne: nat, ne2: nat, ent: seq<nat>, low: nat, hg: HeaderGhost,
      hg2: HeaderGhost, h: nat)
    requires SameLengths(hs, hg) && SameLengths(hs2, hg2) && h < |hs| && ne <= ne2
    requires hs <= hs2 && hg.shift <= hg2.shift && hg.lo <= hg2.lo && hg.len <= hg2.len
    requires HeaderOk(hs, ne, ent, low, hg, h) && hs[h].tail == PosBefore(hs, hg, h, hg.len[h])
    ensures HeaderOk(hs2, ne2, ent, low, hg2, h)
  {
    forall n | hg2.lo[h] <= n < hg2.len[h] ensures hs2[h].index[Pos(hs2, hg2, h, n)] == ent[n] {
      assert Pos(hs2, hg2, h, n) == Pos(hs, hg, h, n);
    }
  }

  // The position after the new tail holds the first of the new entries.
  lemma GrownNext(s: State, c: Choice)
    requires Enabled(s, Produce(c)) && SafeProduce(s, c) && s.prod.Grow? && !c.Fail?
    ensures var s2 := ProduceStep(s, c);
            && Current(s2) == |s.headers| < |s2.headers| && |s2.headers[Current(s2)].index| > 0
            && NextPos(s2) < |s2.headers[Current(s2)].index| && InHeader(s2, Current(s2), NextPos(s2))
            && EntryAt(s2, Current(s2), NextPos(s2)).key == INVALID_BLOCK_BASE
  {
    var s2, cap := ProduceStep(s, c), |s.headers[Current(s)].index|;
    ModShift(cap, 0, 2 * cap);
    assert NextPos(s2) == cap;
    assert s2.headers[|s.headers|].index[cap] == |s.entries|;
  }

  lemma GrowProducer(s: State, g: Ghost, c: Choice)
    requires ProducerOk(s, g) && Enabled(s, Produce(c)) && SafeProduce(s, c) && s.prod.Grow? && !c.Fail?
    ensures ProducerOk(ProduceStep(s, c), TrackProduce(s, g, c))
  {
    GrownNext(s, c);
  }

  // Before growth every header's tail is at the last block it shows.
  lemma TailAtEnd(s: State, g: Ghost, h: nat)
    requires Headers(s.headers, |s.entries|, g.ent, g.low, g.hg) && h < |s.headers| && |g.ent| == |g.blk|
    requires Ring(s.headers, g.ent, |g.blk|, g.low, g.hg, |g.blk|)
    ensures HeaderOk(s.headers, |s.entries|, g.ent, g.low, g.hg, h)
    ensures s.headers[h].tail == PosBefore(s.headers, g.hg, h, g.hg.len[h])
  {
    assert HeaderOk(s.headers, |s.entries|, g.ent, g.low, g.hg, h);
  }

  lemma GrowHeaders(s: State, g: Ghost, c: Choice)
    requires Inv(s, g) && Enabled(s, Produce(c)) && SafeProduce(s, c) && s.prod.Grow? && !c.Fail?
    ensures var s2, g2 := ProduceStep(s, c), TrackProduce(s, g, c);
            Headers(s2.headers, |s2.entries|, g2.ent, g2.low, g2.hg)
  {
    var s2, g2 := ProduceStep(s, c), TrackProduce(s, g, c);
    GrowHeader(s, g, c);
    forall h | 0 <= h < |s2.headers| ensures HeaderOk(s2.headers, |s2.entries|, g2.ent, g2.low, g2.hg, h) {
      if h < |s.headers| {
        TailAtEnd(s, g, h);
        HeaderAppended(s.headers, s2.headers, |s.entries|, |s2.entries|, g.ent, g.low, g.hg, g2.hg, h);
      }
    }
  }

  lemma GrowKeeps(s: State, g: Ghost, c: Choice)
    requires Inv(s, g) && Enabled(s, Produce(c)) && SafeProduce(s, c) && s.prod.Grow? && !c.Fail?
    ensures Inv(ProduceStep(s, c), TrackProduce(s, g, c))
  {
    var s2, g2 := ProduceStep(s, c), TrackProduce(s, g, c);
    GrowRing(s, g, c);
    GrowProducer(s, g, c);
    NothingKept(s, g);
    GrowHeaders(s, g, c);
    EntriesAppended(s.entries, s2.entries, g);
    TakersGrow(s, g, s2, g2);
  }

  lemma EntriesAppended(es: seq<Entry>, es2: seq<Entry>, g: Ghost)
    requires Entries(es, g.ent, g.blk, g.low, g.retired, false) && es <= es2
    ensures Entries(es2, g.ent, g.blk, g.low, g.retired, false)
  {
    forall n | g.low <= n < |g.ent| ensures EntryOk(es2, g.ent, g.blk, g.retired, false, n) {
      assert EntryOk(es, g.ent, g.blk, g.retired, false, n);
    }
  }

  // ---- Opening a block ----

  // Storage this producer does not use may change: what the bookkeeping says of the rest stands.
  lemma OwnBlocksKept(s: State, g: Ghost, bs2: seq<Block>)
    requires Inv(s, g) && |s.blocks| <= |bs2| && forall b :: b in g.user ==> b < |s.blocks| && bs2[b] == s.blocks[b]
    ensures Blocks(bs2, g.blk, g.low, g.done, g.closer, g.retired, g.released, g.user)
    ensures Cells(bs2, g.blk, s.items, s.got)
  {
    forall n | 0 <= n < |g.blk| ensures BlockOk(bs2, g.blk, g.low, g.done, g.closer, g.retired, g.released, g.user, n) {
      assert BlockOk(s.blocks, g.blk, g.low, g.done, g.closer, g.retired, g.released, g.user, n);
    }
    forall k | 0 <= k < |s.items| ensures CellOk(bs2, g.blk, s.items, s.got, k) {
      if k !in s.got { LiveOwn(s, g, k); }
    }
  }

  lemma LiveOwn(s: State, g: Ghost, k: nat)
    requires Inv(s, g) && k < s.ctr.tail && k !in s.got
    ensures var n := BlockNo(k);
            && n < |g.blk| && g.blk[n] in g.user && Usable(s, g.blk[n])
            && s.blocks[g.blk[n]].cells[k % BLOCK_SIZE] == Item(s.items[k])
  {
    LiveCell(s, g, k);
    LiveBlock(s, g, k);
  }

  lemma RequisitionKeeps(s: State, g: Ghost, c: Choice)
    requires Inv(s, g) && Enabled(s, Produce(c)) && SafeProduce(s, c) && s.prod.Requisition? && (c.Pick? || c.Fresh?)
    ensures Inv(ProduceStep(s, c), g)
  {
    var s2 := ProduceStep(s, c);
    OwnBlocksKept(s, g, s2.blocks);
    LessRest(s, g, false);
    TakersGrow(s, g, s2, g);
    forall b | 0 <= b < |s2.blocks| ensures PlaceOk(s2.blocks, s2.free, s2.away, Hand(s2.prod), g.user, |g.blk|, b) {
      if b < |s.blocks| { assert PlaceOk(s.blocks, s.free, s.away, Hand(s.prod), g.user, |g.blk|, b); }
    }
  }

  lemma ResetCountKeeps(s: State, g: Ghost, c: Choice)
    requires Inv(s, g) && Enabled(s, Produce(c)) && SafeProduce(s, c) && s.prod.ResetCount?
    ensures Inv(ProduceStep(s, c), g)
  {
    var s2 := ProduceStep(s, c);
    assert PlaceOk(s.blocks, s.free, s.away, Hand(s.prod), g.user, |g.blk|, s.prod.b);
    OwnBlocksKept(s, g, s2.blocks);
    TakersGrow(s, g, s2, g);
    forall b | 0 <= b < |s2.blocks| ensures PlaceOk(s2.blocks, s2.free, s2.away, Hand(s2.prod), g.user, |g.blk|, b) {
      assert PlaceOk(s.blocks, s.free, s.away, Hand(s.prod), g.user, |g.blk|, b);
    }
  }

  lemma {:induction false} DoneNone(done: set<nat>, from: nat, end: nat)
    requires forall k :: k in done ==> k < from
    ensures DoneIn(done, from, end) == 0
    decreases end
  {
    if end <= from {
    } else {
      DoneNone(done, from, end - 1);
    }
  }

  lemma SetValueEntries(s: State, g: Ghost, c: Choice)
    requires Inv(s, g) && Enabled(s, Produce(c)) && SafeProduce(s, c) && s.prod.SetValue?
    ensures var g2 := TrackProduce(s, g, c);
            Entries(ProduceStep(s, c).entries, g2.ent, g2.blk, g2.low, g2.retired, false)
  {
    var s2, g2, nb := ProduceStep(s, c), TrackProduce(s, g, c), |g.blk|;
    forall n | g.low <= n < |g.ent| ensures EntryOk(s2.entries, g2.ent, g2.blk, g2.retired, false, n) {
      assert EntryOk(s.entries, g.ent, g.blk, g.retired, false, n);
      if n < nb { EntriesApart(s, g, n, nb); }
    }
  }

  // The block in the producer's hand becomes block nb, with no finished index.
  lemma SetValueBlocks(s: State, g: Ghost, c: Choice)
    requires Inv(s, g) && Enabled(s, Produce(c)) && SafeProduce(s, c) && s.prod.SetValue?
    ensures var g2 := TrackProduce(s, g, c);
            && Blocks(s.blocks, g2.blk, g2.low, g2.done, g2.closer, g2.retired, g2.released, g2.user)
            && Places(s.blocks, s.free, s.away, -1, g2.user, g2.blk, g2.released)
  {
    var g2, nb := TrackProduce(s, g, c), |g.blk|;
    DoneNone(g.done, nb * BLOCK_SIZE, nb * BLOCK_SIZE + BLOCK_SIZE);
    assert PlaceOk(s.blocks, s.free, s.away, Hand(s.prod), g.user, |g.blk|, s.prod.b);
    forall n | 0 <= n <= nb
        ensures BlockOk(s.blocks, g2.blk, g2.low, g2.done, g2.closer, g2.retired, g2.released, g2.user, n) {
      if n < nb { assert BlockOk(s.blocks, g.blk, g.low, g.done, g.closer, g.retired, g.released, g.user, n); }
    }
    forall b | 0 <= b < |s.blocks| ensures PlaceOk(s.blocks, s.free, s.away, -1, g2.user, |g2.blk|, b) {
      assert PlaceOk(s.blocks, s.free, s.away, Hand(s.prod), g.user, |g.blk|, b);
    }
  }

  lemma SetValueKeeps(s: State, g: Ghost, c: Choice)
    requires Inv(s, g) && Enabled(s, Produce(c)) && SafeProduce(s, c) && s.prod.SetValue?
    ensures Inv(ProduceStep(s, c), TrackProduce(s, g, c))
  {
    var s2, g2 := ProduceStep(s, c), TrackProduce(s, g, c);
    SetValueEntries(s, g, c);
    SetValueBlocks(s, g, c);
    TakersGrow(s, g, s2, g2);
    forall k | 0 <= k < |s.items| ensures CellOk(s2.blocks, g2.blk, s.items, s.got, k) {
      assert CellOk(s.blocks, g.blk, s.items, s.got, k);
    }
  }

  // ---- Storing and publishing an item ----

  lemma ConstructKeeps(s: State, g: Ghost, c: Choice)
    requires Inv(s, g) && Enabled(s, Produce(c)) && SafeProduce(s, c) && s.prod.Construct?
    ensures Inv(ProduceStep(s, c), g)
  {
    var s2 := ProduceStep(s, c);
    NothingKept(s, g);
    CellsOnly(s.blocks, s2.blocks, g, s.free, s.away, Hand(s.prod));
    TakersGrow(s, g, s2, g);
    forall k | 0 <= k < |s.items| ensures CellOk(s2.blocks, g.blk, s.items, s.got, k) {
      assert CellOk(s.blocks, g.blk, s.items, s.got, k);
      if k !in s.got { OtherCell(s, g, k); }
    }
  }

  lemma PublishKeeps(s: State, g: Ghost, c: Choice)
    requires Inv(s, g) && Enabled(s, Produce(c)) && SafeProduce(s, c) && s.prod.PublishTail?
    ensures Inv(ProduceStep(s, c), g)
  {
    var s2 := ProduceStep(s, c);
    assert C.Inv(s2.ctr) by { C.StepKeeps(s.ctr, 0, C.Publish(1)); }
    NothingKept(s, g);
    TakersGrow(s, g, s2, g);
    PublishCells(s, g, s.prod.x);
    PublishProducer(s, g, c);
  }

  lemma PublishProducer(s: State, g: Ghost, c: Choice)
    requires ProducerOk(s, g) && Enabled(s, Produce(c)) && SafeProduce(s, c) && s.prod.PublishTail?
    ensures ProducerOk(ProduceStep(s, c), g)
  {
  }

  lemma PublishCells(s: State, g: Ghost, x: int)
    requires Cells(s.blocks, g.blk, s.items, s.got) && |s.items| == s.ctr.tail && ProducerOk(s, g)
        && s.prod == PublishTail(x)
    ensures Cells(s.blocks, g.blk, s.items + [x], s.got)
  {
    forall k | 0 <= k <= |s.items| ensures CellOk(s.blocks, g.blk, s.items + [x], s.got, k) {
      if k < |s.items| { assert CellOk(s.blocks, g.blk, s.items, s.got, k); }
    }
  }

  predicate Preparing(p: Producer) { p.LoadHead? || p.TestKey? || p.TestValue? || p.Grow? || p.AssertKey? || p.SetKey? }

  lemma PrepareKeeps(s: State, g: Ghost, c: Choice)
    requires Inv(s, g) && Enabled(s, Produce(c)) && SafeProduce(s, c) && Preparing(s.prod)
    ensures Inv(ProduceStep(s, c), TrackProduce(s, g, c))
  {
    match s.prod
    case LoadHead(_) => ChooseKeeps(s, g, Produce(c));
    case Grow(_) => if c.Fail? { ChooseKeeps(s, g, Produce(c)); } else { GrowKeeps(s, g, c); }
    case SetKey(_, _) => SetKeyKeeps(s, g, c);
    case _ => TestKeeps(s, g, c);
  }

  lemma ProduceKeeps(s: State, g: Ghost, c: Choice)
    requires Inv(s, g) && Enabled(s, Produce(c)) && SafeProduce(s, c)
    ensures Inv(ProduceStep(s, c), TrackProduce(s, g, c))
  {
    match s.prod
    case SetTail(_, _) => SetTailKeeps(s, g, c);
    case Requisition(_, _) =>
      if c.Pick? || c.Fresh? { RequisitionKeeps(s, g, c); } else { ChooseKeeps(s, g, Produce(c)); }
    case Rewind(_, _) => RewindKeeps(s, g, c);
    case NullEntry(_, _) => NullEntryKeeps(s, g, c);
    case ResetCount(_, _, _) => ResetCountKeeps(s, g, c);
    case SetValue(_, _, _) => SetValueKeeps(s, g, c);
    case Construct(_) => ConstructKeeps(s, g, c);
    case PublishTail(_) => PublishKeeps(s, g, c);
    case _ => PrepareKeeps(s, g, c);
  }

  // ---- Other producers ----

  predicate ByOthers(a: Action) { a.OtherTakes? || a.OtherReturns? || a.OtherWrites? || a.OtherNew? }

  lemma OthersPlaces(s: State, g: Ghost, a: Action)
    requires Inv(s, g) && Enabled(s, a) && ByOthers(a)
    ensures var s2 := Step(s, a);
            && Places(s2.blocks, s2.free, s2.away, Hand(s.prod), g.user, g.blk, g.released)
            && |s.blocks| <= |s2.blocks|
            && (forall b :: b in g.user ==> b < |s.blocks| && s2.blocks[b] == s.blocks[b])
            && (Hand(s.prod) >= 0 ==> s2.blocks[Hand(s.prod)] == s.blocks[Hand(s.prod)])
  {
    var s2 := Step(s, a);
    forall b | 0 <= b < |s2.blocks| ensures PlaceOk(s2.blocks, s2.free, s2.away, Hand(s.prod), g.user, |g.blk|, b) {
      if b < |s.blocks| { assert PlaceOk(s.blocks, s.free, s.away, Hand(s.prod), g.user, |g.blk|, b); }
    }
    if a.OtherWrites? { assert PlaceOk(s.blocks, s.free, s.away, Hand(s.prod), g.user, |g.blk|, a.b); }
  }

  // The block being filled is one of this producer's.
  lemma OwnTail(s: State, g: Ghost)
    requires Inv(s, g) && s.prod.PublishTail?
    ensures s.tailBlock in g.user
  {
    LiveTail(s, g);
    assert BlockOk(s.blocks, g.blk, g.low, g.done, g.closer, g.retired, g.released, g.user, BlockNo(s.ctr.tail));
  }

  lemma OthersKeep(s: State, g: Ghost, a: Action)
    requires Inv(s, g) && Enabled(s, a) && ByOthers(a)
    ensures Inv(Step(s, a), g)
  {
    var s2 := Step(s, a);
    OthersPlaces(s, g, a);
    OwnBlocksKept(s, g, s2.blocks);
    if s.prod.PublishTail? { OwnTail(s, g); }
    ProducerFrame(s, s2, g, g);
    TakersGrow(s, g, s2, g);
  }

  // ---- Every run ----

  lemma StepKeeps(s: State, g: Ghost, a: Action)
    requires Inv(s, g) && Enabled(s, a) && AsksFor(a, 1)
    ensures Safe(s, a) && Inv(Step(s, a), Track(s, g, a))
  {
    IsSafe(s, g, a);
    match a
    case Dequeue(t, _) => CounterStepKeeps(s, g, t, a);
    case Claim(t) => CounterStepKeeps(s, g, t, a);
    case Fetch(t) => FetchKeeps(s, g, t);
    case Enqueue(_) => ChooseKeeps(s, g, a);
    case Produce(c) => ProduceKeeps(s, g, c);
    case _ => OthersKeep(s, g, a);
  }
}
