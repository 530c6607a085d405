// Every step of ExplicitQueue keeps ExplicitInvariant.Inv.
module ExplicitSteps {
  import C = Counters
  import opened ExplicitInvariant
  import opened ExplicitQueue
  import opened Modular
  import opened SubQueue

  // ---- Frames ----

  // Everyone but thread t is as before.
  lemma OneTakerMoved(ts: seq<Taker>, pcs: seq<C.Pc>, ts2: seq<Taker>, pcs2: seq<C.Pc>, t: nat, hs: seq<Header>,
      g: Ghost, got: map<nat, int>, tail: nat)
    requires Takers(ts, pcs, hs, g, got, tail) && t < |ts| == |ts2| == |pcs2|
    requires forall u :: 0 <= u < |ts| && u != t ==> ts2[u] == ts[u] && pcs2[u] == pcs[u]
    requires TakerOk(ts2[t], pcs2[t], hs, g, got, tail)
    ensures Takers(ts2, pcs2, hs, g, got, tail)
  {
    forall u | 0 <= u < |ts2| ensures TakerOk(ts2[u], pcs2[u], hs, g, got, tail) {
      if u != t { assert TakerOk(ts[u], pcs[u], hs, g, got, tail); }
    }
  }

  // A claim sees the same bookkeeping.
  ghost predicate SameFor(cpc: C.Pc, g: Ghost, got: map<nat, int>, g2: Ghost, got2: map<nat, int>) {
    && g2 == g.(done := g2.done)
    && forall k :: C.InClaim(cpc, k) ==> (k in g2.done <==> k in g.done) && (k in got2 <==> k in got)
  }

  lemma TakerFrame(pc: Taker, cpc: C.Pc, hs: seq<Header>, g: Ghost, got: map<nat, int>, tail: nat, g2: Ghost,
      got2: map<nat, int>)
    requires TakerOk(pc, cpc, hs, g, got, tail) && SameFor(cpc, g, got, g2, got2)
    ensures TakerOk(pc, cpc, hs, g2, got2, tail)
  {
    assert cpc.Claimed? ==> forall k :: cpc.first <= k < cpc.first + cpc.count ==> C.InClaim(cpc, k);
    if pc.LoadBase? && cpc.Claimed? {
      var m :| BlockNo(cpc.first + cpc.count - 1) <= m < g.len[pc.h] && pc.f == Slot(hs, g.shift, pc.h, m);
      assert pc.f == Slot(hs, g2.shift, pc.h, m);
    }
  }

  // What changes in the blocks of the window.
  ghost predicate KeepsNext(bs: seq<Block>, bs2: seq<Block>, user: map<nat, nat>) {
    |bs| <= |bs2| && forall b :: b in user && b < |bs| ==> bs2[b].next == bs[b].next
  }

  ghost predicate KeepsFlags(bs: seq<Block>, bs2: seq<Block>, user: map<nat, nat>, pub: nat) {
    |bs| <= |bs2| && forall b :: b in user && b < |bs| && user[b] < pub ==> bs2[b].empty == bs[b].empty
  }

  ghost predicate KeepsCells(bs: seq<Block>, bs2: seq<Block>, user: map<nat, nat>) {
    |bs| <= |bs2| && forall b :: b in user && b < |bs| ==> bs2[b].cells == bs[b].cells
  }

  lemma CircleFrame(s: State, g: Ghost, bs2: seq<Block>)
    requires Circle(s.blocks, g.blk, g.lo, s.tailBlock) && KeepsNext(s.blocks, bs2, g.user)
    requires Places(s.blocks, s.free, s.away, Hand(s.prod), g.user, g.blk, g.lo)
    ensures Circle(bs2, g.blk, g.lo, s.tailBlock)
  {
    forall n | g.lo <= n < |g.blk| ensures g.blk[n] < |bs2| && bs2[g.blk[n]].next == Follower(g.blk, g.lo, n) {
      assert g.blk[n] in g.user;
    }
  }

  lemma FlagsFrame(s: State, g: Ghost, bs2: seq<Block>, pub: nat)
    requires Flags(s.blocks, g.blk, g.lo, g.done, pub) && KeepsFlags(s.blocks, bs2, g.user, pub)
    requires Places(s.blocks, s.free, s.away, Hand(s.prod), g.user, g.blk, g.lo)
    ensures Flags(bs2, g.blk, g.lo, g.done, pub)
  {
    forall n | g.lo <= n < pub ensures FlagsOk(bs2, g.blk, g.done, n) {
      assert g.blk[n] in g.user && FlagsOk(s.blocks, g.blk, g.done, n);
    }
  }

  lemma CellsFrame(s: State, g: Ghost, bs2: seq<Block>)
    requires Inv(s, g) && KeepsCells(s.blocks, bs2, g.user)
    ensures Cells(bs2, g.blk, s.items, s.got)
  {
    forall k | 0 <= k < |s.items| ensures CellOk(bs2, g.blk, s.items, s.got, k) {
      assert CellOk(s.blocks, g.blk, s.items, s.got, k);
      if k !in s.got { LiveBlock(s, g, k); }
    }
  }

  // Block sizes never change.
  lemma PlacesFrame(bs: seq<Block>, bs2: seq<Block>, free: set<nat>, away: set<nat>, hand: int, user: map<nat, nat>,
      blk: seq<nat>, lo: nat)
    requires Places(bs, free, away, hand, user, blk, lo) && |bs2| == |bs|
    requires forall b :: 0 <= b < |bs| ==> |bs2[b].cells| == |bs[b].cells| && |bs2[b].empty| == |bs[b].empty|
    ensures Places(bs2, free, away, hand, user, blk, lo)
  {
    forall b | 0 <= b < |bs2| ensures PlaceOk(bs2, free, away, hand, user, b) {
      assert PlaceOk(bs, free, away, hand, user, b);
    }
  }

  // What the producer's place in the program says of the storage.
  lemma ProducerFrame(s: State, s2: State, g: Ghost, g2: Ghost)
    requires ProducerOk(s, g) && g2 == g.(done := g2.done)
    requires s2 == s.(takers := s2.takers, got := s2.got, blocks := s2.blocks, free := s2.free, away := s2.away,
        ctr := s2.ctr)
    requires s2.ctr.tail == s.ctr.tail && |s2.blocks| >= |s.blocks|
    requires (s.prod.LoadFlag? || s.prod.Advance?) && g.lo < |g.blk| && g.blk[g.lo] < |s.blocks| ==>
               var f, f2 := s.blocks[g.blk[g.lo]].empty, s2.blocks[g.blk[g.lo]].empty;
               |f2| == |f| && forall c :: 0 <= c < |f| ==> f[c] ==> f2[c]
    requires Preparing(s.prod) && 0 <= s.tailBlock < |s.blocks| ==>
               s2.blocks[s.tailBlock].empty == s.blocks[s.tailBlock].empty
    requires 0 <= Hand(s.prod) < |s.blocks| ==> s2.blocks[Hand(s.prod)].empty == s.blocks[Hand(s.prod)].empty
    requires s.prod.PublishTail? && 0 <= s.tailBlock < |s.blocks| && |s.blocks[s.tailBlock].cells| == BLOCK_SIZE ==>
               var b2, cell := s2.blocks[s.tailBlock], s.ctr.tail % BLOCK_SIZE;
               |b2.cells| == BLOCK_SIZE && b2.cells[cell] == s.blocks[s.tailBlock].cells[cell]
    ensures ProducerOk(s2, g2)
  {
  }

  // ---- Steps on the counters ----

  lemma CounterStepPc(s: State, g: Ghost, t: nat, a: C.Action)
    requires Inv(s, g) && t < |s.takers| && s.takers[t].Off? && C.Enabled(s.ctr, t, a)
    requires (a.Start? && a.max > 0) || a.Go?
    ensures var ctr := C.Step(s.ctr, t, a);
            var pc := if ctr.pcs[t].Claimed? then LoadIndex else Off;
            TakerOk(pc, ctr.pcs[t], s.headers, g, s.got, s.ctr.tail)
  {
    assert TakerOk(s.takers[t], s.ctr.pcs[t], s.headers, g, s.got, s.ctr.tail);
    C.StepKeeps(s.ctr, t, a);
  }

  lemma CounterStepKeeps(s: State, g: Ghost, t: nat, a: Action)
    requires Inv(s, g) && Enabled(s, a) && (a == Claim(t) || (a.Dequeue? && a.t == t && a.max > 0))
    ensures Inv(Step(s, a), g)
  {
    var s2 := Step(s, a);
    var ca := if a.Claim? then C.Go else C.Start(a.max);
    assert C.Inv(s2.ctr) by { C.StepKeeps(s.ctr, t, ca); }
    CounterStepPc(s, g, t, ca);
    OneTakerMoved(s.takers, s.ctr.pcs, s2.takers, s2.ctr.pcs, t, s.headers, g, s.got, s.ctr.tail);
    ProducerFrame(s, s2, g, g);
  }

  // ---- Instructions of a consumer that only read ----

  lemma LoadIndexPc(s: State, g: Ghost, t: nat)
    requires Inv(s, g) && Enabled(s, Fetch(t)) && s.takers[t].LoadIndex?
    ensures TakerOk(FetchStep(s, t).takers[t], s.ctr.pcs[t], s.headers, g, s.got, s.ctr.tail)
  {
    assert TakerOk(s.takers[t], s.ctr.pcs[t], s.headers, g, s.got, s.ctr.tail);
    TailBound(s, g);
  }

  lemma LoadFrontPc(s: State, g: Ghost, t: nat)
    requires Inv(s, g) && Enabled(s, Fetch(t)) && SafeFetch(s, t) && s.takers[t].LoadFront?
    ensures TakerOk(FetchStep(s, t).takers[t], s.ctr.pcs[t], s.headers, g, s.got, s.ctr.tail)
  {
    var h := s.takers[t].h;
    assert TakerOk(s.takers[t], s.ctr.pcs[t], s.headers, g, s.got, s.ctr.tail);
    assert HeaderOk(s.headers, g.blk, g.lo, g.shift, g.len, h);
    assert s.headers[h].front == Slot(s.headers, g.shift, h, g.len[h] - 1);
  }

  lemma LookupPc(s: State, g: Ghost, t: nat)
    requires Inv(s, g) && Enabled(s, Fetch(t)) && SafeFetch(s, t) && (s.takers[t].LoadBase? || s.takers[t].LoadBlock?)
    ensures TakerOk(FetchStep(s, t).takers[t], s.ctr.pcs[t], s.headers, g, s.got, s.ctr.tail)
  {
    var pc, cpc := s.takers[t], s.ctr.pcs[t];
    assert TakerOk(pc, cpc, s.headers, g, s.got, s.ctr.tail);
    if pc.LoadBase? {
      var m := BasePart(pc, cpc, s.headers, g, s.got, s.ctr.tail);
      LiveResolves(s, g, pc.h, m, cpc.first);
    } else {
      BlockPart(pc, cpc, s.headers, g, s.got, s.ctr.tail);
      LiveResolves(s, g, pc.h, BlockNo(pc.i), pc.i);
    }
  }

  predicate Reading(pc: Taker) { pc.LoadIndex? || pc.LoadFront? || pc.LoadBase? || pc.LoadBlock? }

  lemma ReadKeeps(s: State, g: Ghost, t: nat)
    requires Inv(s, g) && Enabled(s, Fetch(t)) && SafeFetch(s, t) && Reading(s.takers[t])
    ensures Inv(FetchStep(s, t), g)
  {
    var s2 := FetchStep(s, t);
    match s.takers[t] {
      case LoadIndex => LoadIndexPc(s, g, t);
      case LoadFront(_) => LoadFrontPc(s, g, t);
      case _ => LookupPc(s, g, t);
    }
    OneTakerMoved(s.takers, s.ctr.pcs, s2.takers, s2.ctr.pcs, t, s.headers, g, s.got, s.ctr.tail);
    ProducerFrame(s, s2, g, g);
  }

  lemma FinishKeeps(s: State, g: Ghost, t: nat)
    requires Inv(s, g) && Enabled(s, Fetch(t)) && SafeFetch(s, t) && s.takers[t].Finished?
    ensures Inv(FetchStep(s, t), g)
  {
    var s2 := FetchStep(s, t);
    assert C.Inv(s2.ctr) by { C.StepKeeps(s.ctr, t, C.Finish); }
    OneTakerMoved(s.takers, s.ctr.pcs, s2.takers, s2.ctr.pcs, t, s.headers, g, s.got, s.ctr.tail);
    ProducerFrame(s, s2, g, g);
  }

  // ---- Taking an item ----

  lemma TakeFacts(s: State, g: Ghost, t: nat)
    requires Inv(s, g) && t < |s.takers| && s.takers[t].Take?
    ensures var pc := s.takers[t];
            && t < |s.ctr.pcs| && TakerOk(pc, s.ctr.pcs[t], s.headers, g, s.got, s.ctr.tail)
            && BlockNo(pc.i) < |g.blk| && pc.b == g.blk[BlockNo(pc.i)] && Usable(s, pc.b)
            && pc.i < s.ctr.head && pc.i < |s.items| && pc.i !in s.got && pc.i !in g.done && C.Claims(s.ctr, t, pc.i)
            && s.blocks[pc.b].cells[pc.i % BLOCK_SIZE] == Item(s.items[pc.i])
  {
    var pc := s.takers[t];
    assert TakerOk(pc, s.ctr.pcs[t], s.headers, g, s.got, s.ctr.tail);
    TakePart(pc, s.ctr.pcs[t], s.headers, g, s.got, s.ctr.tail);
    C.ClaimedOnce(s.ctr, t, t, pc.i);
    LiveCell(s, g, pc.i);
  }

  lemma TakePc(s: State, g: Ghost, t: nat)
    requires Enabled(s, Fetch(t)) && SafeFetch(s, t) && s.takers[t].Take?
    requires TakerOk(s.takers[t], s.ctr.pcs[t], s.headers, g, s.got, s.ctr.tail)
    ensures TakerOk(FetchStep(s, t).takers[t], s.ctr.pcs[t], s.headers, g, FetchStep(s, t).got, s.ctr.tail)
  {
  }

  lemma TakeOther(s: State, g: Ghost, t: nat, u: nat)
    requires Inv(s, g) && Enabled(s, Fetch(t)) && SafeFetch(s, t) && s.takers[t].Take? && u < |s.takers| && u != t
    ensures TakerOk(s.takers[u], s.ctr.pcs[u], s.headers, g, FetchStep(s, t).got, s.ctr.tail)
  {
    var i := s.takers[t].i;
    TakeFacts(s, g, t);
    assert TakerOk(s.takers[u], s.ctr.pcs[u], s.headers, g, s.got, s.ctr.tail);
    if C.Claims(s.ctr, u, i) { C.ClaimedOnce(s.ctr, t, u, i); }
    TakerFrame(s.takers[u], s.ctr.pcs[u], s.headers, g, s.got, s.ctr.tail, g, FetchStep(s, t).got);
  }

  // Two live indices share a block only if they have the same block number.
  lemma TakeCell(s: State, g: Ghost, t: nat, k: nat)
    requires Inv(s, g) && Enabled(s, Fetch(t)) && SafeFetch(s, t) && s.takers[t].Take? && k < |s.items|
    ensures CellOk(FetchStep(s, t).blocks, g.blk, s.items, FetchStep(s, t).got, k)
  {
    var pc := s.takers[t];
    TakeFacts(s, g, t);
    if k !in s.got && k != pc.i {
      LiveCell(s, g, k);
      OwnBlock(s, g, BlockNo(k));
      LiveBlock(s, g, pc.i);
    }
  }

  lemma TakeStorage(s: State, g: Ghost, t: nat)
    requires Inv(s, g) && Enabled(s, Fetch(t)) && SafeFetch(s, t) && s.takers[t].Take?
    ensures var s2 := FetchStep(s, t);
            && Circle(s2.blocks, g.blk, g.lo, s.tailBlock)
            && Flags(s2.blocks, g.blk, g.lo, g.done, Published(s.prod, g.blk))
            && Places(s2.blocks, s.free, s.away, Hand(s.prod), g.user, g.blk, g.lo)
            && Cells(s2.blocks, g.blk, s.items, s2.got) && ProducerOk(s2, g)
  {
    var s2 := FetchStep(s, t);
    CircleFrame(s, g, s2.blocks);
    FlagsFrame(s, g, s2.blocks, Published(s.prod, g.blk));
    PlacesFrame(s.blocks, s2.blocks, s.free, s.away, Hand(s.prod), g.user, g.blk, g.lo);
    forall k | 0 <= k < |s.items| ensures CellOk(s2.blocks, g.blk, s.items, s2.got, k) { TakeCell(s, g, t, k); }
    if s.prod.PublishTail? { NobodyTouches(s, g, t); }
    ProducerFrame(s, s2, g, g);
  }

  lemma TakeKeeps(s: State, g: Ghost, t: nat)
    requires Inv(s, g) && Enabled(s, Fetch(t)) && SafeFetch(s, t) && s.takers[t].Take?
    ensures Inv(FetchStep(s, t), g)
  {
    TakeStorage(s, g, t);
    TakeFacts(s, g, t);
    TakeTakers(s, g, t);
  }

  lemma TakeTakers(s: State, g: Ghost, t: nat)
    requires Inv(s, g) && Enabled(s, Fetch(t)) && SafeFetch(s, t) && s.takers[t].Take?
    ensures var s2 := FetchStep(s, t); Takers(s2.takers, s.ctr.pcs, s.headers, g, s2.got, s.ctr.tail)
  {
    var s2 := FetchStep(s, t);
    forall u | 0 <= u < |s2.takers| ensures TakerOk(s2.takers[u], s.ctr.pcs[u], s.headers, g, s2.got, s.ctr.tail) {
      if u == t { TakePc(s, g, t); } else { TakeOther(s, g, t, u); }
    }
  }

  // ---- Setting a flag ----

  lemma FlagFacts(s: State, g: Ghost, t: nat)
    requires Inv(s, g) && t < |s.takers| && s.takers[t].SetFlag?
    ensures var pc := s.takers[t];
            var k := pc.i - 1 - pc.j;
            && t < |s.ctr.pcs| && TakerOk(pc, s.ctr.pcs[t], s.headers, g, s.got, s.ctr.tail)
            && 0 <= k < s.ctr.tail && C.Claims(s.ctr, t, k) && k !in g.done && k in s.got
            && FlagNo(pc.from, pc.i, pc.j) == FlagOf(k)
            && g.lo <= BlockNo(k) < Published(s.prod, g.blk) <= |g.blk| && pc.b == g.blk[BlockNo(k)]
            && pc.b in g.user && g.user[pc.b] == BlockNo(k) && Usable(s, pc.b)
  {
    var pc := s.takers[t];
    assert TakerOk(pc, s.ctr.pcs[t], s.headers, g, s.got, s.ctr.tail);
    FlagPart(pc, s.ctr.pcs[t], s.headers, g, s.got, s.ctr.tail);
    LiveBlock(s, g, pc.i - 1 - pc.j);
  }

  lemma NextSlot(hs: seq<Header>, shift: seq<nat>, h: nat, n: nat)
    requires |hs| == |shift| && h < |hs| && |hs[h].entries| > 0
    ensures (Slot(hs, shift, h, n) + 1) % |hs[h].entries| == Slot(hs, shift, h, n + 1)
  {
    ModAdd(n + shift[h], 1, |hs[h].entries|);
  }

  lemma FlagPc(s: State, g: Ghost, t: nat)
    requires Enabled(s, Fetch(t)) && SafeFetch(s, t) && s.takers[t].SetFlag?
    requires TakerOk(s.takers[t], s.ctr.pcs[t], s.headers, g, s.got, s.ctr.tail)
    requires s.takers[t].h < |s.headers| && |s.headers[s.takers[t].h].entries| > 0
    ensures var g2 := TrackFetch(g, s.takers[t]);
            TakerOk(FetchStep(s, t).takers[t], s.ctr.pcs[t], s.headers, g2, s.got, s.ctr.tail)
  {
    var pc, cpc, g2 := s.takers[t], s.ctr.pcs[t], TrackFetch(g, s.takers[t]);
    NextSlot(s.headers, g.shift, pc.h, BlockNo(pc.from));
    if pc.from + pc.j + 1 < pc.i {
      assert Marking(cpc.first, cpc.first + cpc.count, pc.from, pc.i, pc.j + 1, g2.done, s.got);
    } else {
      assert Progress(cpc.first, cpc.first + cpc.count, pc.i, pc.i, g2.done, s.got);
      assert pc.i < cpc.first + cpc.count ==> BlockNo(pc.i) == BlockNo(pc.from) + 1;
    }
  }

  lemma FlagOther(s: State, g: Ghost, t: nat, u: nat)
    requires Inv(s, g) && t < |s.takers| && s.takers[t].SetFlag? && u < |s.takers| && u != t
    ensures TakerOk(s.takers[u], s.ctr.pcs[u], s.headers, TrackFetch(g, s.takers[t]), s.got, s.ctr.tail)
  {
    var pc := s.takers[t];
    FlagFacts(s, g, t);
    assert TakerOk(s.takers[u], s.ctr.pcs[u], s.headers, g, s.got, s.ctr.tail);
    if C.Claims(s.ctr, u, pc.i - 1 - pc.j) { C.ClaimedOnce(s.ctr, t, u, pc.i - 1 - pc.j); }
    TakerFrame(s.takers[u], s.ctr.pcs[u], s.headers, g, s.got, s.ctr.tail, TrackFetch(g, pc), s.got);
  }

  // The flag that goes up is the finished index's own.
  lemma FlagSet(bs: seq<Block>, blk: seq<nat>, lo: nat, user: map<nat, nat>, done: set<nat>, k: nat, n: nat)
    requires n < |blk| && FlagsOk(bs, blk, done, n) && blk[n] in user && user[blk[n]] == n
    requires BlockNo(k) < |blk| && blk[BlockNo(k)] in user && user[blk[BlockNo(k)]] == BlockNo(k)
    requires var b := blk[BlockNo(k)]; b < |bs| && |bs[b].empty| == BLOCK_SIZE
    ensures var b := blk[BlockNo(k)];
            FlagsOk(bs[b := bs[b].(empty := bs[b].empty[FlagOf(k) := true])], blk, done + {k}, n)
  {
    assert BlockNo(k) * BLOCK_SIZE + (BLOCK_SIZE - 1 - FlagOf(k)) == k;
  }

  lemma FlagsSet(s: State, g: Ghost, k: nat, pub: nat)
    requires Flags(s.blocks, g.blk, g.lo, g.done, pub) && g.lo <= BlockNo(k) < pub
    requires Places(s.blocks, s.free, s.away, Hand(s.prod), g.user, g.blk, g.lo)
    ensures var b := g.blk[BlockNo(k)];
            && b < |s.blocks| && |s.blocks[b].empty| == BLOCK_SIZE
            && Flags(s.blocks[b := s.blocks[b].(empty := s.blocks[b].empty[FlagOf(k) := true])], g.blk, g.lo,
                g.done + {k}, pub)
  {
    var b := g.blk[BlockNo(k)];
    OwnBlock(s, g, BlockNo(k));
    var bs2 := s.blocks[b := s.blocks[b].(empty := s.blocks[b].empty[FlagOf(k) := true])];
    forall n | g.lo <= n < pub ensures FlagsOk(bs2, g.blk, g.done + {k}, n) {
      assert FlagsOk(s.blocks, g.blk, g.done, n);
      OwnBlock(s, g, n);
      FlagSet(s.blocks, g.blk, g.lo, g.user, g.done, k, n);
    }
  }

  lemma FlagStep(s: State, g: Ghost, t: nat)
    requires Enabled(s, Fetch(t)) && SafeFetch(s, t) && s.takers[t].SetFlag? && s.takers[t].j < s.takers[t].i
    requires FlagNo(s.takers[t].from, s.takers[t].i, s.takers[t].j) == FlagOf(s.takers[t].i - 1 - s.takers[t].j)
    ensures var pc, s2 := s.takers[t], FetchStep(s, t);
            var k := pc.i - 1 - pc.j;
            && s2.blocks == s.blocks[pc.b := s.blocks[pc.b].(empty := s.blocks[pc.b].empty[FlagOf(k) := true])]
            && s2 == s.(blocks := s2.blocks, takers := s2.takers) && TrackFetch(g, pc) == g.(done := g.done + {k})
  {
  }

  lemma FlagStorage(s: State, g: Ghost, k: nat, bs2: seq<Block>)
    requires Inv(s, g) && g.lo <= BlockNo(k) < Published(s.prod, g.blk)
    requires var b := g.blk[BlockNo(k)];
             Usable(s, b) && bs2 == s.blocks[b := s.blocks[b].(empty := s.blocks[b].empty[FlagOf(k) := true])]
    ensures Circle(bs2, g.blk, g.lo, s.tailBlock) && Flags(bs2, g.blk, g.lo, g.done + {k}, Published(s.prod, g.blk))
    ensures Places(bs2, s.free, s.away, Hand(s.prod), g.user, g.blk, g.lo)
    ensures Cells(bs2, g.blk, s.items, s.got)
  {
    CircleFrame(s, g, bs2);
    CellsFrame(s, g, bs2);
    PlacesFrame(s.blocks, bs2, s.free, s.away, Hand(s.prod), g.user, g.blk, g.lo);
    FlagsSet(s, g, k, Published(s.prod, g.blk));
  }

  // The block is neither being prepared nor in the producer's hand.
  lemma FlagProducer(s: State, s2: State, g: Ghost, g2: Ghost, b: nat, f: nat)
    requires Inv(s, g) && g2 == g.(done := g2.done) && Usable(s, b) && f < BLOCK_SIZE
    requires b in g.user && g.user[b] < Published(s.prod, g.blk)
    requires s2 == s.(blocks := s.blocks[b := s.blocks[b].(empty := s.blocks[b].empty[f := true])], takers := s2.takers)
    ensures ProducerOk(s2, g2)
  {
    if g.blk != [] { OwnBlock(s, g, |g.blk| - 1); }
    if Hand(s.prod) >= 0 { HandIsUsable(s, g); }
    ProducerFrame(s, s2, g, g2);
  }

  lemma FlagTakers(s: State, g: Ghost, t: nat)
    requires Inv(s, g) && Enabled(s, Fetch(t)) && SafeFetch(s, t) && s.takers[t].SetFlag?
    ensures Takers(FetchStep(s, t).takers, s.ctr.pcs, s.headers, TrackFetch(g, s.takers[t]), s.got, s.ctr.tail)
  {
    var ts2, g2 := FetchStep(s, t).takers, TrackFetch(g, s.takers[t]);
    forall u | 0 <= u < |ts2| ensures TakerOk(ts2[u], s.ctr.pcs[u], s.headers, g2, s.got, s.ctr.tail) {
      if u == t {
        assert TakerOk(s.takers[t], s.ctr.pcs[t], s.headers, g, s.got, s.ctr.tail);
        assert HeaderOk(s.headers, g.blk, g.lo, g.shift, g.len, s.takers[t].h);
        FlagPc(s, g, t);
      } else {
        FlagOther(s, g, t, u);
      }
    }
  }

  lemma FlagKeeps(s: State, g: Ghost, t: nat)
    requires Inv(s, g) && Enabled(s, Fetch(t)) && SafeFetch(s, t) && s.takers[t].SetFlag?
    ensures Inv(FetchStep(s, t), TrackFetch(g, s.takers[t]))
  {
    var s2, g2 := FetchStep(s, t), TrackFetch(g, s.takers[t]);
    FlagParts(s, g, t);
    FlagProducerKept(s, g, t);
    FlagTakers(s, g, t);
    SameHeaders(s, g, g2);
  }

  lemma SameHeaders(s: State, g: Ghost, g2: Ghost)
    requires Headers(s.headers, g.blk, g.lo, g.shift, g.len) && g2 == g.(done := g2.done)
    requires Window(s.headers, s.size, s.used, s.prFront, g.blk, g.lo, g.shift, g.len, Published(s.prod, g.blk))
    ensures Headers(s.headers, g2.blk, g2.lo, g2.shift, g2.len)
    ensures Window(s.headers, s.size, s.used, s.prFront, g2.blk, g2.lo, g2.shift, g2.len, Published(s.prod, g2.blk))
  {
  }

  // Everything but the consumers.
  lemma FlagParts(s: State, g: Ghost, t: nat)
    requires Inv(s, g) && Enabled(s, Fetch(t)) && SafeFetch(s, t) && s.takers[t].SetFlag?
    ensures var s2, g2 := FetchStep(s, t), TrackFetch(g, s.takers[t]);
            && s2 == s.(blocks := s2.blocks, takers := s2.takers) && g2 == g.(done := g2.done)
            && Circle(s2.blocks, g.blk, g.lo, s.tailBlock)
            && Flags(s2.blocks, g.blk, g.lo, g2.done, Published(s.prod, g.blk))
            && Places(s2.blocks, s.free, s.away, Hand(s.prod), g.user, g.blk, g.lo)
            && Cells(s2.blocks, g.blk, s.items, s.got)
            && Gots(s.got, s.items, s.ctr.head, g2.done)
  {
    var pc, s2, g2 := s.takers[t], FetchStep(s, t), TrackFetch(g, s.takers[t]);
    FlagFacts(s, g, t);
    FlagStep(s, g, t);
    FlagStorage(s, g, pc.i - 1 - pc.j, s2.blocks);
  }

  lemma FlagProducerKept(s: State, g: Ghost, t: nat)
    requires Inv(s, g) && Enabled(s, Fetch(t)) && SafeFetch(s, t) && s.takers[t].SetFlag?
    ensures ProducerOk(FetchStep(s, t), TrackFetch(g, s.takers[t]))
  {
    var pc, s2, g2 := s.takers[t], FetchStep(s, t), TrackFetch(g, s.takers[t]);
    FlagFacts(s, g, t);
    FlagStep(s, g, t);
    FlagProducer(s, s2, g, g2, pc.b, FlagOf(pc.i - 1 - pc.j));
  }

  lemma FetchKeeps(s: State, g: Ghost, t: nat)
    requires Inv(s, g) && Enabled(s, Fetch(t)) && SafeFetch(s, t)
    ensures Inv(FetchStep(s, t), TrackFetch(g, s.takers[t]))
  {
    match s.takers[t]
    case Take(_, _, _, _, _) => TakeKeeps(s, g, t);
    case SetFlag(_, _, _, _, _, _) => FlagKeeps(s, g, t);
    case Finished => FinishKeeps(s, g, t);
    case _ => ReadKeeps(s, g, t);
  }

  // ---- Instructions of the producer ----

  function HeaderOf(pc: Taker): nat { if pc.Off? || pc.LoadIndex? || pc.Finished? then 0 else pc.h }

  // Consumers do not notice what the producer adds to header h.
  predicate HeaderKept(hs: seq<Header>, g: Ghost, hs2: seq<Header>, g2: Ghost, h: nat) {
    h < |hs| && |hs| == |g.shift| == |g.len| ==>
      && |hs2| == |g2.shift| == |g2.len| && h < |hs2|
      && |hs2[h].entries| == |hs[h].entries| && g2.shift[h] == g.shift[h] && g2.len[h] >= g.len[h]
  }

  lemma BaseGrows(pc: Taker, cpc: C.Pc, hs: seq<Header>, g: Ghost, got: map<nat, int>, tail: nat, hs2: seq<Header>,
      g2: Ghost, tail2: nat)
    requires TakerOk(pc, cpc, hs, g, got, tail) && pc.LoadBase? && cpc.Claimed?
    requires HeaderKept(hs, g, hs2, g2, pc.h) && g2.done == g.done && tail <= tail2
    ensures TakerOk(pc, cpc, hs2, g2, got, tail2)
  {
    var m :| BlockNo(cpc.first + cpc.count - 1) <= m < g.len[pc.h] && pc.f == Slot(hs, g.shift, pc.h, m);
    assert pc.f == Slot(hs2, g2.shift, pc.h, m);
  }

  lemma OtherPcGrows(pc: Taker, cpc: C.Pc, hs: seq<Header>, g: Ghost, got: map<nat, int>, tail: nat, hs2: seq<Header>,
      g2: Ghost, tail2: nat)
    requires TakerOk(pc, cpc, hs, g, got, tail) && !pc.LoadBase?
    requires HeaderKept(hs, g, hs2, g2, HeaderOf(pc)) && g.blk <= g2.blk && g2.done == g.done && tail <= tail2
    ensures TakerOk(pc, cpc, hs2, g2, got, tail2)
  {
    assert forall n :: HeaderOf(pc) < |hs| && |hs| == |g.shift| == |g.len| ==>
        Slot(hs2, g2.shift, HeaderOf(pc), n) == Slot(hs, g.shift, HeaderOf(pc), n);
  }

  lemma TakersGrow(s: State, g: Ghost, hs2: seq<Header>, g2: Ghost, tail2: nat)
    requires Takers(s.takers, s.ctr.pcs, s.headers, g, s.got, s.ctr.tail)
    requires forall h :: 0 <= h < |s.headers| ==> HeaderKept(s.headers, g, hs2, g2, h)
    requires g.blk <= g2.blk && g2.done == g.done && s.ctr.tail <= tail2
    ensures Takers(s.takers, s.ctr.pcs, hs2, g2, s.got, tail2)
  {
    forall u | 0 <= u < |s.takers| ensures TakerOk(s.takers[u], s.ctr.pcs[u], hs2, g2, s.got, tail2) {
      var pc, cpc := s.takers[u], s.ctr.pcs[u];
      assert TakerOk(pc, cpc, s.headers, g, s.got, s.ctr.tail);
      assert HeaderKept(s.headers, g, hs2, g2, HeaderOf(pc));
      if pc.LoadBase? && cpc.Claimed? {
        BaseGrows(pc, cpc, s.headers, g, s.got, s.ctr.tail, hs2, g2, tail2);
      } else if !pc.LoadBase? {
        OtherPcGrows(pc, cpc, s.headers, g, s.got, s.ctr.tail, hs2, g2, tail2);
      }
    }
  }

  // A step that only moves the producer on.
  lemma OnlyProducer(s: State, g: Ghost, p2: Producer)
    requires Inv(s, g) && ProducerOk(s.(prod := p2), g)
    requires Published(p2, g.blk) == Published(s.prod, g.blk) && Hand(p2) == Hand(s.prod)
    ensures Inv(s.(prod := p2), g)
  {
  }

  lemma EnqueueKeeps(s: State, g: Ghost, x: int)
    requires Inv(s, g) && s.prod.Idle?
    ensures Inv(Step(s, Enqueue(x)), g)
  {
    if g.blk != [] { OwnBlock(s, g, g.lo); }
    OnlyProducer(s, g, Step(s, Enqueue(x)).prod);
  }

  lemma LoadFlagKeeps(s: State, g: Ghost, c: Choice)
    requires Inv(s, g) && Enabled(s, Produce(c)) && SafeProduce(s, c) && s.prod.LoadFlag?
    ensures Inv(ProduceStep(s, c), g)
  {
    TailAndNext(s, g);
    OnlyProducer(s, g, ProduceStep(s, c).prod);
  }

  lemma ChooseKeeps(s: State, g: Ghost, c: Choice)
    requires Inv(s, g) && Enabled(s, Produce(c)) && SafeProduce(s, c)
    requires s.prod.LoadHead? || (s.prod.Grow? && c.Fail?) || (s.prod.Requisition? && !c.Pick? && !c.Fresh?)
    ensures Inv(ProduceStep(s, c), g)
  {
    OnlyProducer(s, g, ProduceStep(s, c).prod);
  }

  // ---- Reusing the oldest block ----

  lemma AdvanceCircle(bs: seq<Block>, blk: seq<nat>, lo: nat, tailBlock: int)
    requires Circle(bs, blk, lo, tailBlock) && lo < |blk|
    ensures Circle(bs, blk + [blk[lo]], lo + 1, blk[lo])
  {
    var blk2, nb := blk + [blk[lo]], |blk|;
    forall n | lo + 1 <= n < |blk2| ensures blk2[n] < |bs| && bs[blk2[n]].next == Follower(blk2, lo + 1, n) {
      var m := if n < nb then n else lo;
      var f := Follower(blk, lo, m);
      assert blk[m] < |bs| && bs[blk[m]].next == f;
    }
  }

  // All its flags are set, so all its indices are done.
  lemma AdvanceFlags(s: State, g: Ghost)
    requires Flags(s.blocks, g.blk, g.lo, g.done, |g.blk|) && g.lo < |g.blk|
        && AllFlags(s.blocks, g.blk[g.lo], BLOCK_SIZE, true)
    ensures Flags(s.blocks, g.blk + [g.blk[g.lo]], g.lo + 1, g.done, |g.blk|)
  {
    var blk2 := g.blk + [g.blk[g.lo]];
    forall n | g.lo + 1 <= n < |g.blk| ensures FlagsOk(s.blocks, blk2, g.done, n) {
      assert FlagsOk(s.blocks, g.blk, g.done, n);
    }
    forall k | 0 <= k < (g.lo + 1) * BLOCK_SIZE ensures k in g.done {
      if k >= g.lo * BLOCK_SIZE {
        assert BlockNo(k) == g.lo && FlagsOk(s.blocks, g.blk, g.done, BlockNo(k));
        FlagTells(s.blocks, g.blk, g.done, k);
      }
    }
  }

  lemma AdvancePlaces(s: State, g: Ghost)
    requires Places(s.blocks, s.free, s.away, -1, g.user, g.blk, g.lo) && g.lo < |g.blk|
    ensures Places(s.blocks, s.free, s.away, -1, g.user[g.blk[g.lo] := |g.blk|], g.blk + [g.blk[g.lo]], g.lo + 1)
  {
    var user2 := g.user[g.blk[g.lo] := |g.blk|];
    forall b | 0 <= b < |s.blocks| ensures PlaceOk(s.blocks, s.free, s.away, -1, user2, b) {
      assert PlaceOk(s.blocks, s.free, s.away, -1, g.user, b);
    }
  }

  // Appending a number and dropping the oldest changes nothing for the headers.
  lemma HeadersShrink(hs: seq<Header>, blk: seq<nat>, lo: nat, shift: seq<nat>, len: seq<nat>, blk2: seq<nat>, lo2: nat)
    requires Headers(hs, blk, lo, shift, len) && blk <= blk2 && lo <= lo2
    ensures Headers(hs, blk2, lo2, shift, len)
  {
    forall h | 0 <= h < |hs| ensures HeaderOk(hs, blk2, lo2, shift, len, h) {
      assert HeaderOk(hs, blk, lo, shift, len, h);
    }
  }

  lemma CellsGrow(bs: seq<Block>, blk: seq<nat>, items: seq<int>, got: map<nat, int>, blk2: seq<nat>)
    requires Cells(bs, blk, items, got) && blk <= blk2
    ensures Cells(bs, blk2, items, got)
  {
    forall k | 0 <= k < |items| ensures CellOk(bs, blk2, items, got, k) {
      assert CellOk(bs, blk, items, got, k);
    }
  }

  lemma AdvanceKeeps(s: State, g: Ghost, c: Choice)
    requires Inv(s, g) && Enabled(s, Produce(c)) && SafeProduce(s, c) && s.prod.Advance?
    ensures Inv(ProduceStep(s, c), TrackProduce(s, g, c))
  {
    var s2, g2 := ProduceStep(s, c), TrackProduce(s, g, c);
    TailAndNext(s, g);
    AdvanceCircle(s.blocks, g.blk, g.lo, s.tailBlock);
    AdvanceFlags(s, g);
    AdvancePlaces(s, g);
    HeadersShrink(s.headers, g.blk, g.lo, g.shift, g.len, g2.blk, g2.lo);
    CellsGrow(s.blocks, g.blk, s.items, s.got, g2.blk);
    TakersGrow(s, g, s.headers, g2, s.ctr.tail);
  }

  lemma ResetFlagKeeps(s: State, g: Ghost, c: Choice)
    requires Inv(s, g) && Enabled(s, Produce(c)) && SafeProduce(s, c) && s.prod.ResetFlag?
    ensures Inv(ProduceStep(s, c), g)
  {
    var s2 := ProduceStep(s, c);
    OwnBlock(s, g, |g.blk| - 1);
    CircleFrame(s, g, s2.blocks);
    FlagsFrame(s, g, s2.blocks, Published(s.prod, g.blk));
    PlacesFrame(s.blocks, s2.blocks, s.free, s.away, -1, g.user, g.blk, g.lo);
    CellsFrame(s, g, s2.blocks);
  }

  // ---- Inserting a block ----

  lemma RequisitionPlaces(s: State, g: Ghost, c: Choice)
    requires Inv(s, g) && Enabled(s, Produce(c)) && SafeProduce(s, c) && s.prod.Requisition? && (c.Pick? || c.Fresh?)
    ensures var s2 := ProduceStep(s, c); Places(s2.blocks, s2.free, s2.away, Hand(s2.prod), g.user, g.blk, g.lo)
  {
    var s2 := ProduceStep(s, c);
    forall b | 0 <= b < |s2.blocks| ensures PlaceOk(s2.blocks, s2.free, s2.away, Hand(s2.prod), g.user, b) {
      if b < |s.blocks| { assert PlaceOk(s.blocks, s.free, s.away, Hand(s.prod), g.user, b); }
    }
  }

  lemma RequisitionKeeps(s: State, g: Ghost, c: Choice)
    requires Inv(s, g) && Enabled(s, Produce(c)) && SafeProduce(s, c) && s.prod.Requisition? && (c.Pick? || c.Fresh?)
    ensures Inv(ProduceStep(s, c), g)
  {
    var s2 := ProduceStep(s, c);
    RequisitionPlaces(s, g, c);
    HandIsUsable(s2, g);
    CircleFrame(s, g, s2.blocks);
    FlagsFrame(s, g, s2.blocks, |g.blk|);
    CellsFrame(s, g, s2.blocks);
  }

  lemma ResetNewKeeps(s: State, g: Ghost, c: Choice)
    requires Inv(s, g) && Enabled(s, Produce(c)) && SafeProduce(s, c) && s.prod.ResetNew?
    ensures Inv(ProduceStep(s, c), g)
  {
    var s2 := ProduceStep(s, c);
    HandIsUsable(s, g);
    CircleFrame(s, g, s2.blocks);
    FlagsFrame(s, g, s2.blocks, |g.blk|);
    PlacesFrame(s.blocks, s2.blocks, s.free, s.away, Hand(s.prod), g.user, g.blk, g.lo);
    CellsFrame(s, g, s2.blocks);
  }

  function Linked(bs: seq<Block>, t: int, b: nat): seq<Block>
    requires b < |bs| && t < |bs|
  {
    if t < 0 then bs[b := bs[b].(next := b)] else bs[b := bs[b].(next := bs[t].next)][t := bs[t].(next := b)]
  }

  lemma LinkCircle(s: State, g: Ghost, b: nat)
    requires Circle(s.blocks, g.blk, g.lo, s.tailBlock) && b < |s.blocks| && b !in g.user && g.lo <= |g.blk|
        && (g.blk != [] ==> g.lo < |g.blk|)
    requires Places(s.blocks, s.free, s.away, Hand(s.prod), g.user, g.blk, g.lo)
    ensures s.tailBlock < |s.blocks| && Circle(Linked(s.blocks, s.tailBlock, b), g.blk + [b], g.lo, b)
  {
    var nb, blk2 := |g.blk|, g.blk + [b];
    if nb > 0 { TailAndNext(s, g); }
    var bs2 := Linked(s.blocks, s.tailBlock, b);
    forall n | g.lo <= n < |blk2| ensures blk2[n] < |bs2| && bs2[blk2[n]].next == Follower(blk2, g.lo, n) {
      if n < nb {
        OwnBlock(s, g, n);
        if n + 1 < nb { OwnBlock(s, g, nb - 1); }
        assert s.blocks[g.blk[n]].next == Follower(g.blk, g.lo, n);
      }
    }
  }

  lemma LinkPlaces(s: State, g: Ghost, b: nat, bs2: seq<Block>)
    requires Places(s.blocks, s.free, s.away, b, g.user, g.blk, g.lo) && b < |s.blocks| && g.lo <= |g.blk|
    requires |bs2| == |s.blocks|
        && forall d :: 0 <= d < |bs2| ==> |bs2[d].cells| == |s.blocks[d].cells| && |bs2[d].empty| == |s.blocks[d].empty|
    ensures Places(bs2, s.free, s.away, -1, g.user[b := |g.blk|], g.blk + [b], g.lo)
  {
    var user2 := g.user[b := |g.blk|];
    assert PlaceOk(s.blocks, s.free, s.away, b, g.user, b);
    forall d | 0 <= d < |bs2| ensures PlaceOk(bs2, s.free, s.away, -1, user2, d) {
      assert PlaceOk(s.blocks, s.free, s.away, b, g.user, d);
    }
  }

  lemma LinkStorage(s: State, g: Ghost, b: nat)
    requires Inv(s, g) && Hand(s.prod) == b && !Preparing(s.prod)
    ensures b < |s.blocks| && s.tailBlock < |s.blocks|
    ensures var bs2, blk2 := Linked(s.blocks, s.tailBlock, b), g.blk + [b];
            && Circle(bs2, blk2, g.lo, b) && Flags(bs2, blk2, g.lo, g.done, |g.blk|) && Cells(bs2, blk2, s.items, s.got)
            && Places(bs2, s.free, s.away, -1, g.user[b := |g.blk|], blk2, g.lo)
  {
    HandIsUsable(s, g);
    LinkCircle(s, g, b);
    var bs2 := Linked(s.blocks, s.tailBlock, b);
    LinkPlaces(s, g, b, bs2);
    FlagsFrame(s, g, bs2, |g.blk|);
    FlagsAppend(bs2, g.blk, g.lo, g.done, |g.blk|, b);
    CellsFrame(s, g, bs2);
    CellsGrow(bs2, g.blk, s.items, s.got, g.blk + [b]);
  }

  lemma LinkKeeps(s: State, g: Ghost, c: Choice)
    requires Inv(s, g) && Enabled(s, Produce(c)) && SafeProduce(s, c) && s.prod.Link?
    ensures Inv(ProduceStep(s, c), TrackProduce(s, g, c))
  {
    var s2, g2, b := ProduceStep(s, c), TrackProduce(s, g, c), s.prod.b;
    LinkStorage(s, g, b);
    assert s2.blocks == Linked(s.blocks, s.tailBlock, b);
    HeadersShrink(s.headers, g.blk, g.lo, g.shift, g.len, g2.blk, g2.lo);
    TakersGrow(s, g, s.headers, g2, s.ctr.tail);
  }

  lemma FlagsAppend(bs: seq<Block>, blk: seq<nat>, lo: nat, done: set<nat>, pub: nat, b: nat)
    requires Flags(bs, blk, lo, done, pub)
    ensures Flags(bs, blk + [b], lo, done, pub)
  {
    forall n | lo <= n < pub ensures FlagsOk(bs, blk + [b], done, n) {
      assert FlagsOk(bs, blk, done, n);
    }
  }

  // ---- Publishing the entry ----

  // The entry being prepared is nobody's.
  lemma EntryWritten(s: State, g: Ghost, entry: Entry)
    requires Inv(s, g) && Preparing(s.prod) && InHeader(s, Current(s), s.prFront)
    ensures var cur := Current(s);
            var hs2 := s.headers[cur := s.headers[cur].(entries := s.headers[cur].entries[s.prFront := entry])];
            && Headers(hs2, g.blk, g.lo, g.shift, g.len)
            && Window(hs2, s.size, s.used, s.prFront, g.blk, g.lo, g.shift, g.len, Published(s.prod, g.blk))
            && Takers(s.takers, s.ctr.pcs, hs2, g, s.got, s.ctr.tail)
  {
    var cur := Current(s);
    var hs2 := s.headers[cur := s.headers[cur].(entries := s.headers[cur].entries[s.prFront := entry])];
    EntryHeaders(s, g, entry);
    TakersGrow(s, g, hs2, g, s.ctr.tail);
  }

  lemma EntryHeaders(s: State, g: Ghost, entry: Entry)
    requires Headers(s.headers, g.blk, g.lo, g.shift, g.len) && Preparing(s.prod) && InHeader(s, Current(s), s.prFront)
    requires Window(s.headers, s.size, s.used, s.prFront, g.blk, g.lo, g.shift, g.len, Published(s.prod, g.blk))
    requires g.blk != []
    ensures var cur := Current(s);
            var hs2 := s.headers[cur := s.headers[cur].(entries := s.headers[cur].entries[s.prFront := entry])];
            && Headers(hs2, g.blk, g.lo, g.shift, g.len)
            && Window(hs2, s.size, s.used, s.prFront, g.blk, g.lo, g.shift, g.len, Published(s.prod, g.blk))
  {
    var cur := Current(s);
    var hs2 := s.headers[cur := s.headers[cur].(entries := s.headers[cur].entries[s.prFront := entry])];
    forall h | 0 <= h < |hs2| ensures HeaderOk(hs2, g.blk, g.lo, g.shift, g.len, h) {
      assert HeaderOk(s.headers, g.blk, g.lo, g.shift, g.len, h);
      forall n | g.lo <= n < g.len[h]
          ensures hs2[h].entries[Slot(hs2, g.shift, h, n)] == Entry(n * BLOCK_SIZE, g.blk[n]) {
        assert Slot(hs2, g.shift, h, n) == Slot(s.headers, g.shift, h, n);
        if h == cur { SlotsApart(s.headers, g.shift, cur, n, |g.blk| - 1); }
      }
    }
  }

  lemma WriteEntryKeeps(s: State, g: Ghost, c: Choice)
    requires Inv(s, g) && Enabled(s, Produce(c)) && SafeProduce(s, c) && (s.prod.SetBase? || s.prod.SetBlock?)
    ensures Inv(ProduceStep(s, c), g)
  {
    var entry := s.headers[Current(s)].entries[s.prFront];
    EntryWritten(s, g, if s.prod.SetBase? then entry.(base := s.ctr.tail) else entry.(block := s.tailBlock));
  }

  // The new number joins the current header.
  lemma FrontMoved(hs: seq<Header>, hs2: seq<Header>, g: Ghost, g2: Ghost, p: nat, h: nat)
    requires |hs| == |hs2| == |g.shift| == |g.len| > 0 && h < |hs| && HeaderOk(hs, g.blk, g.lo, g.shift, g.len, h)
    requires var cur, nb := |hs| - 1, |g.blk|;
             && nb > 0 && g.len[cur] == nb - 1 && p == Slot(hs, g.shift, cur, nb - 1) && p < |hs[cur].entries|
             && hs[cur].entries[p] == Entry((nb - 1) * BLOCK_SIZE, g.blk[nb - 1])
             && hs2 == hs[cur := hs[cur].(front := p)] && g2 == g.(len := g.len[cur := nb])
    ensures HeaderOk(hs2, g2.blk, g2.lo, g2.shift, g2.len, h)
  {
    assert Slot(hs2, g2.shift, h, |g.blk| - 1) == Slot(hs, g.shift, h, |g.blk| - 1);
    assert g2.len[h] > 0 ==> Slot(hs2, g2.shift, h, g2.len[h] - 1) == Slot(hs, g.shift, h, g2.len[h] - 1);
    forall n | g2.lo <= n < g2.len[h]
        ensures hs2[h].entries[Slot(hs2, g2.shift, h, n)] == Entry(n * BLOCK_SIZE, g2.blk[n]) {
      assert Slot(hs2, g2.shift, h, n) == Slot(hs, g.shift, h, n);
    }
  }

  lemma SetFrontHeaders(s: State, g: Ghost, c: Choice)
    requires Inv(s, g) && Enabled(s, Produce(c)) && SafeProduce(s, c) && s.prod.SetFront?
    ensures var s2, g2 := ProduceStep(s, c), TrackProduce(s, g, c);
            && Headers(s2.headers, g2.blk, g2.lo, g2.shift, g2.len)
            && Window(s2.headers, s.size, s.used, s2.prFront, g2.blk, g2.lo, g2.shift, g2.len, |g.blk|)
  {
    var s2, g2, cur, nb := ProduceStep(s, c), TrackProduce(s, g, c), Current(s), |g.blk|;
    NextSlot(s.headers, g.shift, cur, nb - 1);
    assert Slot(s2.headers, g2.shift, cur, nb) == Slot(s.headers, g.shift, cur, nb);
    forall h | 0 <= h < |s2.headers| ensures HeaderOk(s2.headers, g2.blk, g2.lo, g2.shift, g2.len, h) {
      assert HeaderOk(s.headers, g.blk, g.lo, g.shift, g.len, h);
      FrontMoved(s.headers, s2.headers, g, g2, s.prFront, h);
    }
  }

  lemma SetFrontFlags(s: State, g: Ghost)
    requires Inv(s, g) && s.prod.SetFront?
    ensures Flags(s.blocks, g.blk, g.lo, g.done, |g.blk|)
  {
    var nb := |g.blk|;
    forall n | g.lo <= n < nb ensures FlagsOk(s.blocks, g.blk, g.done, n) {
      if n < nb - 1 { assert FlagsOk(s.blocks, g.blk, g.done, n); } else { OwnBlock(s, g, n); }
    }
  }

  lemma SetFrontKeeps(s: State, g: Ghost, c: Choice)
    requires Inv(s, g) && Enabled(s, Produce(c)) && SafeProduce(s, c) && s.prod.SetFront?
    ensures Inv(ProduceStep(s, c), TrackProduce(s, g, c))
  {
    var s2, g2 := ProduceStep(s, c), TrackProduce(s, g, c);
    SetFrontHeaders(s, g, c);
    SetFrontFlags(s, g);
    TakersGrow(s, g, s2.headers, g2, s.ctr.tail);
  }

  // ---- Doubling the index ----

  // Number n's place in the new array: lo comes first.
  lemma GrownSlot(size: nat, lo: nat, n: int)
    requires size > 0 && lo <= n < lo + size
    ensures (n + NewShift(size, lo)) % size == n - lo
  {
    var q := lo / size;
    assert lo == size * q + lo % size;
    assert n + NewShift(size, lo) == (n - lo) + size * (1 + q);
    ModShift(n - lo, 1 + q, size);
  }

  // The copy takes each entry of the window to its new place.
  lemma GrownEntry(entries: seq<Entry>, front: nat, used: nat, garbage: seq<Entry>, size: nat, shift: nat, lo: nat,
      n: nat)
    requires |entries| > 0 && 0 < used <= |entries| && used <= size && lo <= n < lo + used
    requires front == (lo + used + shift) % |entries|
    ensures GrownEntries(entries, front, used, garbage, size)[n - lo] == entries[(n + shift) % |entries|]
  {
    CopiedFrom(|entries|, front, used, shift, lo, n);
  }

  lemma CopiedFrom(cap: nat, front: nat, used: nat, shift: nat, lo: nat, n: nat)
    requires cap > 0 && used <= cap && lo <= n < lo + used && front == (lo + used + shift) % cap
    ensures (front + cap - used + (n - lo)) % cap == (n + shift) % cap
  {
    var d := cap - used + (n - lo);
    ModAdd(lo + used + shift, d, cap);
    ModTurn(n + shift, cap);
    assert front + cap - used + (n - lo) == front + d && lo + used + shift + d == n + shift + cap;
  }

  // The header new_block_index makes.
  function GrownHeader(hs: seq<Header>, front: nat, used: nat, garbage: seq<Entry>, size: nat): Header
    requires used > 0 ==> hs != [] && used <= |hs[|hs| - 1].entries|
  {
    Header(GrownEntries(if used > 0 then hs[|hs| - 1].entries else [], front, used, garbage, size), used - 1)
  }

  // Number n's entry in the new array.
  lemma GrowAt(hs: seq<Header>, hs2: seq<Header>, g: Ghost, shift2: seq<nat>, size: nat, used: nat, front: nat,
      garbage: seq<Entry>, n: nat)
    requires Headers(hs, g.blk, g.lo, g.shift, g.len)
        && Window(hs, size, used, front, g.blk, g.lo, g.shift, g.len, |g.blk|)
    requires g.lo <= n < |g.blk| && hs2 == hs + [GrownHeader(hs, front, used, garbage, 2 * size)]
    requires shift2 == g.shift + [NewShift(2 * size, g.lo)]
    ensures Slot(hs2, shift2, |hs|, n) == n - g.lo
    ensures hs2[|hs|].entries[n - g.lo] == Entry(n * BLOCK_SIZE, g.blk[n])
  {
    var cur := |hs| - 1;
    assert HeaderOk(hs, g.blk, g.lo, g.shift, g.len, cur);
    GrownSlot(2 * size, g.lo, n);
    GrownEntry(hs[cur].entries, front, used, garbage, 2 * size, g.shift[cur], g.lo, n);
    assert hs[cur].entries[Slot(hs, g.shift, cur, n)] == Entry(n * BLOCK_SIZE, g.blk[n]);
  }

  // The new header shows the same blocks as the old one did.
  lemma GrowLast(hs: seq<Header>, hs2: seq<Header>, g: Ghost, g2: Ghost, size: nat, used: nat, front: nat,
      garbage: seq<Entry>)
    requires Headers(hs, g.blk, g.lo, g.shift, g.len)
        && Window(hs, size, used, front, g.blk, g.lo, g.shift, g.len, |g.blk|)
    requires hs2 == hs + [GrownHeader(hs, front, used, garbage, 2 * size)]
    requires g2 == g.(shift := g.shift + [NewShift(2 * size, g.lo)], len := g.len + [|g.blk|])
    requires hs == [] || used <= size
    ensures HeaderOk(hs2, g2.blk, g2.lo, g2.shift, g2.len, |hs|)
    ensures Window(hs2, 2 * size, used, used, g2.blk, g2.lo, g2.shift, g2.len, |g.blk|)
  {
    var nb, last := |g.blk|, |hs|;
    GrownSlot(2 * size, g.lo, nb);
    if nb > 0 { GrownSlot(2 * size, g.lo, nb - 1); }
    forall n | g.lo <= n < nb
        ensures hs2[last].entries[Slot(hs2, g2.shift, last, n)] == Entry(n * BLOCK_SIZE, g.blk[n]) {
      GrowAt(hs, hs2, g, g2.shift, size, used, front, garbage, n);
    }
  }

  lemma HeaderAppended(hs: seq<Header>, hs2: seq<Header>, g: Ghost, g2: Ghost, h: nat)
    requires |hs| == |g.shift| == |g.len| && |hs2| == |g2.shift| == |g2.len| && h < |hs|
    requires hs <= hs2 && g.shift <= g2.shift && g.len <= g2.len && g2.blk == g.blk && g2.lo == g.lo
    requires HeaderOk(hs, g.blk, g.lo, g.shift, g.len, h)
    ensures HeaderOk(hs2, g2.blk, g2.lo, g2.shift, g2.len, h) && HeaderKept(hs, g, hs2, g2, h)
  {
    assert g2.len[h] > 0 ==> Slot(hs2, g2.shift, h, g2.len[h] - 1) == Slot(hs, g.shift, h, g.len[h] - 1);
    forall n | g2.lo <= n < g2.len[h]
        ensures hs2[h].entries[Slot(hs2, g2.shift, h, n)] == Entry(n * BLOCK_SIZE, g2.blk[n]) {
      assert Slot(hs2, g2.shift, h, n) == Slot(hs, g.shift, h, n);
    }
  }

  lemma GrowHeaders(hs: seq<Header>, hs2: seq<Header>, g: Ghost, g2: Ghost)
    requires Headers(hs, g.blk, g.lo, g.shift, g.len)
    requires |hs2| == |hs| + 1 && hs <= hs2 && |g2.shift| == |g2.len| == |hs2| && g.shift <= g2.shift && g.len <= g2.len
    requires g2.blk == g.blk && g2.lo == g.lo && HeaderOk(hs2, g2.blk, g2.lo, g2.shift, g2.len, |hs|)
    ensures Headers(hs2, g2.blk, g2.lo, g2.shift, g2.len)
    ensures forall h :: 0 <= h < |hs| ==> HeaderKept(hs, g, hs2, g2, h)
  {
    forall h | 0 <= h < |hs|
        ensures HeaderOk(hs2, g2.blk, g2.lo, g2.shift, g2.len, h) && HeaderKept(hs, g, hs2, g2, h) {
      assert HeaderOk(hs, g.blk, g.lo, g.shift, g.len, h);
      HeaderAppended(hs, hs2, g, g2, h);
    }
  }

  lemma GrowKeeps(s: State, g: Ghost, c: Choice)
    requires Inv(s, g) && Enabled(s, Produce(c)) && SafeProduce(s, c) && s.prod.Grow? && !c.Fail?
    ensures Inv(ProduceStep(s, c), TrackProduce(s, g, c))
  {
    var s2, g2 := ProduceStep(s, c), TrackProduce(s, g, c);
    GrowLast(s.headers, s2.headers, g, g2, s.size, s.used, s.prFront, if c.Memory? then c.garbage else []);
    GrowHeaders(s.headers, s2.headers, g, g2);
    TakersGrow(s, g, s2.headers, g2, s.ctr.tail);
    GrowProducer(s, g, c);
  }

  lemma GrowProducer(s: State, g: Ghost, c: Choice)
    requires Enabled(s, Produce(c)) && SafeProduce(s, c) && s.prod.Grow? && !c.Fail? && s.used <= s.size && s.size > 0
    requires ProducerOk(s, g)
    ensures ProducerOk(ProduceStep(s, c), TrackProduce(s, g, c))
  {
  }

  // ---- Storing and publishing an item ----

  lemma ConstructKeeps(s: State, g: Ghost, c: Choice)
    requires Inv(s, g) && Enabled(s, Produce(c)) && SafeProduce(s, c) && s.prod.Construct?
    ensures Inv(ProduceStep(s, c), g)
  {
    var s2 := ProduceStep(s, c);
    CircleFrame(s, g, s2.blocks);
    FlagsFrame(s, g, s2.blocks, |g.blk|);
    PlacesFrame(s.blocks, s2.blocks, s.free, s.away, -1, g.user, g.blk, g.lo);
    forall k | 0 <= k < |s.items| ensures CellOk(s2.blocks, g.blk, s.items, s.got, k) {
      assert CellOk(s.blocks, g.blk, s.items, s.got, k);
      if k !in s.got { OtherCell(s, g, k); }
    }
  }

  lemma PublishCells(s: State, g: Ghost, x: int)
    requires Cells(s.blocks, g.blk, s.items, s.got) && |s.items| == s.ctr.tail && ProducerOk(s, g)
        && s.prod == PublishTail(x)
    requires s.tailBlock == (if g.blk == [] then NULL else g.blk[|g.blk| - 1])
    ensures Cells(s.blocks, g.blk, s.items + [x], s.got)
  {
    forall k | 0 <= k <= |s.items| ensures CellOk(s.blocks, g.blk, s.items + [x], s.got, k) {
      if k < |s.items| { assert CellOk(s.blocks, g.blk, s.items, s.got, k); }
    }
  }

  lemma PublishKeeps(s: State, g: Ghost, c: Choice)
    requires Inv(s, g) && Enabled(s, Produce(c)) && SafeProduce(s, c) && s.prod.PublishTail?
    ensures Inv(ProduceStep(s, c), g)
  {
    var s2 := ProduceStep(s, c);
    assert C.Inv(s2.ctr) by { C.StepKeeps(s.ctr, 0, C.Publish(1)); }
    PublishCells(s, g, s.prod.x);
    TakersGrow(s, g, s.headers, g, s2.ctr.tail);
    PublishProducer(s, g, c);
  }

  lemma PublishProducer(s: State, g: Ghost, c: Choice)
    requires ProducerOk(s, g) && Enabled(s, Produce(c)) && SafeProduce(s, c) && s.prod.PublishTail?
    ensures ProducerOk(ProduceStep(s, c), g)
  {
  }

  lemma ReuseKeeps(s: State, g: Ghost, c: Choice)
    requires Inv(s, g) && Enabled(s, Produce(c)) && SafeProduce(s, c)
    requires s.prod.LoadFlag? || s.prod.Advance? || s.prod.ResetFlag?
    ensures Inv(ProduceStep(s, c), TrackProduce(s, g, c))
  {
    match s.prod
    case LoadFlag(_, _) => LoadFlagKeeps(s, g, c);
    case Advance(_) => AdvanceKeeps(s, g, c);
    case ResetFlag(_, _) => ResetFlagKeeps(s, g, c);
  }

  lemma RegisterKeeps(s: State, g: Ghost, c: Choice)
    requires Inv(s, g) && Enabled(s, Produce(c)) && SafeProduce(s, c)
    requires s.prod.SetBase? || s.prod.SetBlock? || s.prod.SetFront?
    ensures Inv(ProduceStep(s, c), TrackProduce(s, g, c))
  {
    if s.prod.SetFront? { SetFrontKeeps(s, g, c); } else { WriteEntryKeeps(s, g, c); }
  }

  lemma RoomKeeps(s: State, g: Ghost, c: Choice)
    requires Inv(s, g) && Enabled(s, Produce(c)) && SafeProduce(s, c)
    requires s.prod.LoadHead? || s.prod.Grow? || s.prod.Requisition?
    ensures Inv(ProduceStep(s, c), TrackProduce(s, g, c))
  {
    if s.prod.Grow? && !c.Fail? {
      GrowKeeps(s, g, c);
    } else if s.prod.Requisition? && (c.Pick? || c.Fresh?) {
      RequisitionKeeps(s, g, c);
    } else {
      ChooseKeeps(s, g, c);
    }
  }

  lemma FillKeeps(s: State, g: Ghost, c: Choice)
    requires Inv(s, g) && Enabled(s, Produce(c)) && SafeProduce(s, c)
    requires s.prod.ResetNew? || s.prod.Link? || s.prod.Construct? || s.prod.PublishTail?
    ensures Inv(ProduceStep(s, c), TrackProduce(s, g, c))
  {
    match s.prod
    case ResetNew(_, _, _) => ResetNewKeeps(s, g, c);
    case Link(_, _) => LinkKeeps(s, g, c);
    case Construct(_) => ConstructKeeps(s, g, c);
    case PublishTail(_) => PublishKeeps(s, g, c);
  }

  lemma ProduceKeeps(s: State, g: Ghost, c: Choice)
    requires Inv(s, g) && Enabled(s, Produce(c)) && SafeProduce(s, c)
    ensures Inv(ProduceStep(s, c), TrackProduce(s, g, c))
  {
    if s.prod.LoadHead? || s.prod.Grow? || s.prod.Requisition? {
      RoomKeeps(s, g, c);
    } else if s.prod.ResetNew? || s.prod.Link? || s.prod.Construct? || s.prod.PublishTail? {
      FillKeeps(s, g, c);
    } else if s.prod.SetBase? || s.prod.SetBlock? || s.prod.SetFront? {
      RegisterKeeps(s, g, c);
    } else {
      ReuseKeeps(s, g, c);
    }
  }

  // ---- Other producers ----

  predicate ByOthers(a: Action) { a.OtherTakes? || a.OtherReturns? || a.OtherWrites? || a.OtherNew? }

  lemma OthersPlaces(s: State, g: Ghost, a: Action)
    requires Inv(s, g) && Enabled(s, a) && ByOthers(a)
    ensures var s2 := Step(s, a);
            && Places(s2.blocks, s2.free, s2.away, Hand(s.prod), g.user, g.blk, g.lo)
            && |s.blocks| <= |s2.blocks|
            && (forall b :: b in g.user ==> b < |s.blocks| && s2.blocks[b] == s.blocks[b])
            && (Hand(s.prod) >= 0 ==> s2.blocks[Hand(s.prod)] == s.blocks[Hand(s.prod)])
  {
    var s2 := Step(s, a);
    forall b | 0 <= b < |s2.blocks| ensures PlaceOk(s2.blocks, s2.free, s2.away, Hand(s.prod), g.user, b) {
      if b < |s.blocks| { assert PlaceOk(s.blocks, s.free, s.away, Hand(s.prod), g.user, b); }
    }
    if a.OtherWrites? { assert PlaceOk(s.blocks, s.free, s.away, Hand(s.prod), g.user, a.b); }
  }

  lemma OthersKeep(s: State, g: Ghost, a: Action)
    requires Inv(s, g) && Enabled(s, a) && ByOthers(a)
    ensures Inv(Step(s, a), g)
  {
    OthersPlaces(s, g, a);
    OthersStorage(s, g, Step(s, a));
  }

  lemma OthersStorage(s: State, g: Ghost, s2: State)
    requires Inv(s, g) && s2 == s.(blocks := s2.blocks, free := s2.free, away := s2.away)
    requires Places(s2.blocks, s2.free, s2.away, Hand(s.prod), g.user, g.blk, g.lo) && |s.blocks| <= |s2.blocks|
    requires forall b :: b in g.user ==> b < |s.blocks| && s2.blocks[b] == s.blocks[b]
    requires Hand(s.prod) >= 0 ==> s2.blocks[Hand(s.prod)] == s.blocks[Hand(s.prod)]
    ensures Inv(s2, g)
  {
    if g.blk != [] {
      OwnBlock(s, g, |g.blk| - 1);
      OwnBlock(s, g, g.lo);
    }
    CircleFrame(s, g, s2.blocks);
    FlagsFrame(s, g, s2.blocks, Published(s.prod, g.blk));
    CellsFrame(s, g, s2.blocks);
    ProducerFrame(s, s2, g, g);
  }

  lemma StepKeeps(s: State, g: Ghost, a: Action)
    requires Inv(s, g) && Enabled(s, a) && AsksFor(a, 1)
    ensures Safe(s, a) && Inv(Step(s, a), Track(s, g, a))
  {
    IsSafe(s, g, a);
    match a
    case Dequeue(t, _) => CounterStepKeeps(s, g, t, a);
    case Claim(t) => CounterStepKeeps(s, g, t, a);
    case Fetch(t) => FetchKeeps(s, g, t);
    case Enqueue(x) => EnqueueKeeps(s, g, x);
    case Produce(c) => ProduceKeeps(s, g, c);
    case _ => OthersKeep(s, g, a);
  }
}
