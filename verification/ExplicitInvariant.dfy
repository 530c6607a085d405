// What every reachable state of ExplicitQueue satisfies, and why no instruction is unsafe in such
// a state.
module ExplicitInvariant {
  import C = Counters
  import opened ExplicitQueue
  import opened Modular
  import opened SubQueue

  // Blocks of this producer are numbered 0, 1, ... in the order they are opened or reused: block
  // number n holds indices [32n, 32n + 32).
  //   blk[n]     the block that serves number n
  //   lo         the oldest number whose block has not been taken for reuse
  //   done       indices whose flags have been set
  //   user[b]    the newest number block b serves
  // In header h, number n sits at position (n + shift[h]) mod size, for n < len[h].
  datatype Ghost = Ghost(blk: seq<nat>, lo: nat, done: set<nat>, user: map<nat, nat>, shift: seq<nat>, len: seq<nat>)

  function Slot(hs: seq<Header>, shift: seq<nat>, h: nat, n: nat): nat {
    if h < |hs| && h < |shift| && |hs[h].entries| > 0 then (n + shift[h]) % |hs[h].entries| else 0
  }

  // While a block is being prepared its entry is not published.
  predicate Preparing(p: Producer) { p.ResetFlag? || p.SetBase? || p.SetBlock? || p.SetFront? }

  function Published(p: Producer, blk: seq<nat>): nat { if Preparing(p) && blk != [] then |blk| - 1 else |blk| }

  ghost predicate HeaderOk(hs: seq<Header>, blk: seq<nat>, lo: nat, shift: seq<nat>, len: seq<nat>, h: nat)
    requires |hs| == |shift| == |len| && h < |hs|
  {
    && |hs[h].entries| > 0 && len[h] <= |blk|
    && (forall n :: lo <= n < len[h] ==> hs[h].entries[Slot(hs, shift, h, n)] == Entry(n * BLOCK_SIZE, blk[n]))
    && (len[h] > 0 ==> hs[h].front == Slot(hs, shift, h, len[h] - 1))
  }

  ghost predicate Headers(hs: seq<Header>, blk: seq<nat>, lo: nat, shift: seq<nat>, len: seq<nat>) {
    && |hs| == |shift| == |len|
    && forall h {:trigger HeaderOk(hs, blk, lo, shift, len, h)} :: 0 <= h < |hs| ==>
        HeaderOk(hs, blk, lo, shift, len, h)
  }

  // The current header and the producer's own counts.
  predicate Window(hs: seq<Header>, size: nat, used: nat, prFront: nat, blk: seq<nat>, lo: nat, shift: seq<nat>,
      len: seq<nat>, pub: nat) {
    && |hs| == |shift| == |len|
    && lo <= |blk| && used == |blk| - lo && (blk != [] ==> lo < |blk|) && size > 0
    && (hs == [] ==> blk == [] && prFront == 0)
    && (hs != [] ==>
          var cur := |hs| - 1;
          |hs[cur].entries| == size && used <= size && len[cur] == pub && prFront == Slot(hs, shift, cur, pub))
  }

  function Follower(blk: seq<nat>, lo: nat, n: nat): nat
    requires lo < |blk|
  {
    if n + 1 < |blk| then blk[n + 1] else blk[lo]
  }

  // The circular list.
  ghost predicate Circle(bs: seq<Block>, blk: seq<nat>, lo: nat, tailBlock: int) {
    && (forall n {:trigger Follower(blk, lo, n)} :: lo <= n < |blk| ==>
        blk[n] < |bs| && bs[blk[n]].next == Follower(blk, lo, n))
    && tailBlock == (if blk == [] then NULL else blk[|blk| - 1])
  }

  // The flags of number n's block tell which of its indices are done.
  predicate FlagsOk(bs: seq<Block>, blk: seq<nat>, done: set<nat>, n: nat)
    requires n < |blk|
  {
    && blk[n] < |bs| && |bs[blk[n]].empty| == BLOCK_SIZE
    && forall c :: 0 <= c < BLOCK_SIZE ==> (bs[blk[n]].empty[c] <==> n * BLOCK_SIZE + (BLOCK_SIZE - 1 - c) in done)
  }

  ghost predicate Flags(bs: seq<Block>, blk: seq<nat>, lo: nat, done: set<nat>, pub: nat) {
    && pub <= |blk|
    && (forall n {:trigger FlagsOk(bs, blk, done, n)} :: lo <= n < pub ==> FlagsOk(bs, blk, done, n))
    && (forall k :: 0 <= k < lo * BLOCK_SIZE ==> k in done)
  }

  function Hand(p: Producer): int { if p.ResetNew? || p.Link? then p.b else -1 }

  // Each block is in exactly one place.
  predicate PlaceOk(bs: seq<Block>, free: set<nat>, away: set<nat>, hand: int, user: map<nat, nat>, b: nat)
    requires b < |bs|
  {
    Whole(bs[b]) && One(b in free) + One(b in away) + One(b == hand) + One(b in user) == 1
  }

  ghost predicate Places(bs: seq<Block>, free: set<nat>, away: set<nat>, hand: int, user: map<nat, nat>, blk: seq<nat>,
      lo: nat) {
    && (forall b {:trigger PlaceOk(bs, free, away, hand, user, b)} :: 0 <= b < |bs| ==>
        PlaceOk(bs, free, away, hand, user, b))
    && (forall b :: b in free ==> b < |bs|) && (forall b :: b in away ==> b < |bs|)
    && hand < |bs|
    && (forall b :: b in user ==> b < |bs| && lo <= user[b] < |blk| && blk[user[b]] == b)
    && (forall n :: lo <= n < |blk| ==> blk[n] in user && user[blk[n]] == n)
  }

  // Item k sits in its cell until its consumer takes it.
  predicate CellOk(bs: seq<Block>, blk: seq<nat>, items: seq<int>, got: map<nat, int>, k: nat)
    requires k < |items|
  {
    k !in got ==>
      BlockNo(k) < |blk| && blk[BlockNo(k)] < |bs| && |bs[blk[BlockNo(k)]].cells| == BLOCK_SIZE
      && bs[blk[BlockNo(k)]].cells[k % BLOCK_SIZE] == Item(items[k])
  }

  ghost predicate Cells(bs: seq<Block>, blk: seq<nat>, items: seq<int>, got: map<nat, int>) {
    forall k {:trigger CellOk(bs, blk, items, got, k)} :: 0 <= k < |items| ==> CellOk(bs, blk, items, got, k)
  }

  // Header h was current after the claim, so it knows the claim's last block.
  predicate Knows(hs: seq<Header>, g: Ghost, h: nat, limit: nat) {
    |hs| == |g.shift| == |g.len| && h < |hs| && limit > 0 && BlockNo(limit - 1) < g.len[h]
  }

  // Flags of the part [from, i) are set from the last one down; i - j and above are set.
  ghost predicate Marking(first: nat, limit: nat, from: nat, i: nat, j: nat, done: set<nat>, got: map<nat, int>) {
    forall k :: first <= k < limit ==> (k in done <==> k < from || i - j <= k < i) && (k in got <==> k < i)
  }

  ghost predicate TakerOk(pc: Taker, cpc: C.Pc, hs: seq<Header>, g: Ghost, got: map<nat, int>, tail: nat) {
    && Positive(cpc)
    && (pc.Off? <==> !cpc.Claimed?)
    && (cpc.Claimed? ==>
         var first, limit := cpc.first, cpc.first + cpc.count;
         && limit <= tail
         && match pc
            case Off => true
            case LoadIndex => Progress(first, limit, first, first, g.done, got)
            case LoadFront(h) => Knows(hs, g, h, limit) && Progress(first, limit, first, first, g.done, got)
            case LoadBase(h, f) =>
              && Knows(hs, g, h, limit) && Progress(first, limit, first, first, g.done, got)
              && exists m {:trigger Slot(hs, g.shift, h, m)} ::
                  BlockNo(limit - 1) <= m < g.len[h] && f == Slot(hs, g.shift, h, m)
            case LoadBlock(h, slot, i) =>
              && Knows(hs, g, h, limit) && first <= i < limit && (i == first || i % BLOCK_SIZE == 0)
              && slot == Slot(hs, g.shift, h, BlockNo(i)) && Progress(first, limit, i, i, g.done, got)
            case Take(h, slot, b, from, i) =>
              && Knows(hs, g, h, limit) && first <= from <= i < End(from, limit)
              && slot == Slot(hs, g.shift, h, BlockNo(from)) && BlockNo(from) < |g.blk| && b == g.blk[BlockNo(from)]
              && Progress(first, limit, from, i, g.done, got)
            case SetFlag(h, slot, b, from, i, j) =>
              && Knows(hs, g, h, limit) && first <= from < i == End(from, limit) && from + j < i
              && slot == Slot(hs, g.shift, h, BlockNo(from)) && BlockNo(from) < |g.blk| && b == g.blk[BlockNo(from)]
              && Marking(first, limit, from, i, j, g.done, got)
            case Finished => Progress(first, limit, limit, limit, g.done, got))
  }

  ghost predicate Takers(ts: seq<Taker>, pcs: seq<C.Pc>, hs: seq<Header>, g: Ghost, got: map<nat, int>, tail: nat) {
    && |ts| == |pcs|
    && forall t {:trigger TakerOk(ts[t], pcs[t], hs, g, got, tail)} :: 0 <= t < |ts| ==>
        TakerOk(ts[t], pcs[t], hs, g, got, tail)
  }

  // The first n flags, set or reset.
  predicate AllFlags(bs: seq<Block>, b: nat, n: nat, value: bool) {
    b < |bs| && |bs[b].empty| == BLOCK_SIZE && n <= BLOCK_SIZE && forall c :: 0 <= c < n ==> bs[b].empty[c] == value
  }

  ghost predicate ProducerOk(s: State, g: Ghost) {
    var nb, tail := |g.blk|, s.ctr.tail;
    var opening := tail % BLOCK_SIZE == 0 && tail == nb * BLOCK_SIZE;
    var preparing := tail % BLOCK_SIZE == 0 && nb > 0 && tail == (nb - 1) * BLOCK_SIZE && s.tailBlock >= 0;
    var open := nb == BlockNo(tail) + 1;
    match s.prod
    case Idle => if tail % BLOCK_SIZE == 0 then opening else open
    case LoadFlag(x, i) => opening && nb > 0 && g.lo < nb && i < BLOCK_SIZE && AllFlags(s.blocks, g.blk[g.lo], i, true)
    case Advance(x) => opening && nb > 0 && g.lo < nb && AllFlags(s.blocks, g.blk[g.lo], BLOCK_SIZE, true)
    case ResetFlag(x, i) => preparing && i < BLOCK_SIZE && AllFlags(s.blocks, s.tailBlock, i, false)
    case LoadHead(x) => opening
    case Grow(x) => opening
    case Requisition(x) => opening && s.headers != [] && s.used < s.size
    case ResetNew(x, b, i) => opening && s.headers != [] && s.used < s.size && i < BLOCK_SIZE
        && AllFlags(s.blocks, b, i, false)
    case Link(x, b) => opening && s.headers != [] && s.used < s.size && AllFlags(s.blocks, b, BLOCK_SIZE, false)
    case SetBase(x) => preparing && AllFlags(s.blocks, s.tailBlock, BLOCK_SIZE, false)
    case SetBlock(x) =>
      && preparing && AllFlags(s.blocks, s.tailBlock, BLOCK_SIZE, false)
      && InHeader(s, Current(s), s.prFront) && s.headers[Current(s)].entries[s.prFront].base == tail
    case SetFront(x) =>
      && preparing && AllFlags(s.blocks, s.tailBlock, BLOCK_SIZE, false)
      && InHeader(s, Current(s), s.prFront) && s.headers[Current(s)].entries[s.prFront] == Entry(tail, s.tailBlock)
    case Construct(x) => open
    case PublishTail(x) =>
      && open && 0 <= s.tailBlock < |s.blocks| && |s.blocks[s.tailBlock].cells| == BLOCK_SIZE
      && s.blocks[s.tailBlock].cells[tail % BLOCK_SIZE] == Item(x)
  }

  ghost predicate Inv(s: State, g: Ghost) {
    && C.Inv(s.ctr)
    && |s.items| == s.ctr.tail
    && Headers(s.headers, g.blk, g.lo, g.shift, g.len)
    && Window(s.headers, s.size, s.used, s.prFront, g.blk, g.lo, g.shift, g.len, Published(s.prod, g.blk))
    && Circle(s.blocks, g.blk, g.lo, s.tailBlock)
    && Flags(s.blocks, g.blk, g.lo, g.done, Published(s.prod, g.blk))
    && Places(s.blocks, s.free, s.away, Hand(s.prod), g.user, g.blk, g.lo)
    && Cells(s.blocks, g.blk, s.items, s.got)
    && Gots(s.got, s.items, s.ctr.head, g.done)
    && Takers(s.takers, s.ctr.pcs, s.headers, g, s.got, s.ctr.tail)
    && ProducerOk(s, g)
  }

  // How the bookkeeping follows a step.
  function Track(s: State, g: Ghost, a: Action): Ghost {
    match a
    case Fetch(t) => if t < |s.takers| then TrackFetch(g, s.takers[t]) else g
    case Produce(c) => TrackProduce(s, g, c)
    case _ => g
  }

  function TrackFetch(g: Ghost, pc: Taker): Ghost {
    if pc.SetFlag? && pc.i > pc.j then g.(done := g.done + {pc.i - 1 - pc.j}) else g
  }

  function TrackProduce(s: State, g: Ghost, c: Choice): Ghost {
    var cur, nb := Current(s), |g.blk|;
    match s.prod
    case Advance(x) => if g.lo < nb
        then g.(blk := g.blk + [g.blk[g.lo]], lo := g.lo + 1, user := g.user[g.blk[g.lo] := nb]) else g
    case Link(x, b) => g.(blk := g.blk + [b], user := g.user[b := nb])
    case SetFront(x) => if cur < |g.len| then g.(len := g.len[cur := nb]) else g
    case Grow(x) => if c.Fail? then g else g.(shift := g.shift + [NewShift(2 * s.size, g.lo)], len := g.len + [nb])
    case _ => g
  }

  // After growth, number lo goes to position 0 of the new array.
  function NewShift(size: nat, lo: nat): nat {
    if size == 0 then 0 else size - lo % size
  }

  // ---- Consequences of the invariant ----

  lemma TailBound(s: State, g: Ghost)
    requires ProducerOk(s, g)
    ensures s.ctr.tail <= Published(s.prod, g.blk) * BLOCK_SIZE
    ensures s.ctr.tail % BLOCK_SIZE != 0 ==> Published(s.prod, g.blk) == |g.blk| == BlockNo(s.ctr.tail) + 1
  {
  }

  // The block of an index that is not done is in the window, and published if the index is.
  lemma LiveBlock(s: State, g: Ghost, k: nat)
    requires Inv(s, g) && k < s.ctr.tail && k !in g.done
    ensures var n := BlockNo(k);
            && g.lo <= n < Published(s.prod, g.blk) <= |g.blk| && FlagsOk(s.blocks, g.blk, g.done, n)
            && g.blk[n] in g.user && g.user[g.blk[n]] == n && Usable(s, g.blk[n])
  {
    var n := BlockNo(k);
    TailBound(s, g);
    assert n < g.lo ==> 0 <= k < g.lo * BLOCK_SIZE;
    OwnBlock(s, g, n);
  }

  // Blocks of the window are the producer's.
  lemma OwnBlock(s: State, g: Ghost, n: nat)
    requires Places(s.blocks, s.free, s.away, Hand(s.prod), g.user, g.blk, g.lo) && g.lo <= n < |g.blk|
    ensures g.blk[n] in g.user && g.user[g.blk[n]] == n && Usable(s, g.blk[n]) && g.blk[n] != Hand(s.prod)
  {
    assert PlaceOk(s.blocks, s.free, s.away, Hand(s.prod), g.user, g.blk[n]);
  }

  // An item not yet taken is in its cell.
  lemma LiveCell(s: State, g: Ghost, k: nat)
    requires Inv(s, g) && k < s.ctr.tail && k !in s.got
    ensures k !in g.done && g.lo <= BlockNo(k) < |g.blk| && Usable(s, g.blk[BlockNo(k)])
    ensures s.blocks[g.blk[BlockNo(k)]].cells[k % BLOCK_SIZE] == Item(s.items[k])
  {
    LiveBlock(s, g, k);
    assert CellOk(s.blocks, g.blk, s.items, s.got, k);
  }

  // (front + (base - frontBase) / BLOCK_SIZE) & (size - 1) is the block's position.
  lemma LookupSlot(hs: seq<Header>, shift: seq<nat>, h: nat, m: nat, n: nat)
    requires |hs| == |shift| && h < |hs| && |hs[h].entries| > 0
    ensures (Slot(hs, shift, h, m) + (n * BLOCK_SIZE - m * BLOCK_SIZE) / BLOCK_SIZE) % |hs[h].entries|
        == Slot(hs, shift, h, n)
  {
    ModAdd(m + shift[h], n - m, |hs[h].entries|);
  }

  // Different numbers of the window have different positions.
  lemma SlotsApart(hs: seq<Header>, shift: seq<nat>, h: nat, m: nat, n: nat)
    requires |hs| == |shift| && h < |hs| && m < n < m + |hs[h].entries|
    ensures Slot(hs, shift, h, m) != Slot(hs, shift, h, n)
  {
    ModApart(m + shift[h], n + shift[h], |hs[h].entries|);
  }

  // Through header h, from front f, index k leads to the entry for its block.
  predicate Resolves(s: State, h: nat, f: int, k: nat, b: nat) {
    && InHeader(s, h, f) && InHeader(s, h, SlotFor(s, h, f, k))
    && s.headers[h].entries[SlotFor(s, h, f, k)] == Entry(BlockBase(k), b)
  }

  lemma HeaderResolves(s: State, g: Ghost, h: nat, m: nat, k: nat)
    requires |s.headers| == |g.shift| == |g.len| && h < |s.headers|
        && HeaderOk(s.headers, g.blk, g.lo, g.shift, g.len, h)
    requires g.lo <= BlockNo(k) <= m < g.len[h]
    ensures BlockNo(k) < |g.blk| && Resolves(s, h, Slot(s.headers, g.shift, h, m), k, g.blk[BlockNo(k)])
    ensures SlotFor(s, h, Slot(s.headers, g.shift, h, m), k) == Slot(s.headers, g.shift, h, BlockNo(k))
  {
    assert s.headers[h].entries[Slot(s.headers, g.shift, h, m)].base == m * BLOCK_SIZE;
    LookupSlot(s.headers, g.shift, h, m, BlockNo(k));
  }

  lemma LiveResolves(s: State, g: Ghost, h: nat, m: nat, k: nat)
    requires Inv(s, g) && k < s.ctr.tail && k !in g.done && h < |s.headers| && BlockNo(k) <= m < g.len[h]
    ensures BlockNo(k) < |g.blk| && Resolves(s, h, Slot(s.headers, g.shift, h, m), k, g.blk[BlockNo(k)])
    ensures SlotFor(s, h, Slot(s.headers, g.shift, h, m), k) == Slot(s.headers, g.shift, h, BlockNo(k))
  {
    assert g.lo <= BlockNo(k) by { LiveBlock(s, g, k); }
    HeaderResolves(s, g, h, m, k);
  }

  // ---- What a consumer's place in the program says by itself ----

  lemma BasePart(pc: Taker, cpc: C.Pc, hs: seq<Header>, g: Ghost, got: map<nat, int>, tail: nat) returns (m: nat)
    requires TakerOk(pc, cpc, hs, g, got, tail) && pc.LoadBase?
    ensures cpc.Claimed? && cpc.count > 0 && cpc.first < tail && cpc.first !in g.done && cpc.first !in got
    ensures |hs| == |g.shift| == |g.len| && pc.h < |hs| && BlockNo(cpc.first) <= m < g.len[pc.h]
        && pc.f == Slot(hs, g.shift, pc.h, m)
  {
    m :| BlockNo(cpc.first + cpc.count - 1) <= m < g.len[pc.h] && pc.f == Slot(hs, g.shift, pc.h, m);
  }

  lemma BlockPart(pc: Taker, cpc: C.Pc, hs: seq<Header>, g: Ghost, got: map<nat, int>, tail: nat)
    requires TakerOk(pc, cpc, hs, g, got, tail) && pc.LoadBlock?
    ensures cpc.Claimed? && pc.i < tail && pc.i !in g.done
    ensures |hs| == |g.shift| == |g.len| && pc.h < |hs| && BlockNo(pc.i) < g.len[pc.h]
        && pc.slot == Slot(hs, g.shift, pc.h, BlockNo(pc.i))
  {
  }

  lemma TakePart(pc: Taker, cpc: C.Pc, hs: seq<Header>, g: Ghost, got: map<nat, int>, tail: nat)
    requires TakerOk(pc, cpc, hs, g, got, tail) && pc.Take?
    ensures cpc.Claimed? && pc.i < tail && pc.i !in g.done && pc.i !in got && C.InClaim(cpc, pc.i)
    ensures BlockNo(pc.i) == BlockNo(pc.from) < |g.blk| && pc.b == g.blk[BlockNo(pc.i)]
  {
    SameBlock(pc.from, pc.i, cpc.first + cpc.count);
  }

  lemma FlagPart(pc: Taker, cpc: C.Pc, hs: seq<Header>, g: Ghost, got: map<nat, int>, tail: nat)
    requires TakerOk(pc, cpc, hs, g, got, tail) && pc.SetFlag?
    ensures var k := pc.i - 1 - pc.j;
            && 0 <= k < tail && cpc.Claimed? && C.InClaim(cpc, k) && k !in g.done && k in got
            && BlockNo(k) < |g.blk| && pc.b == g.blk[BlockNo(k)] && pc.from <= pc.i
            && FlagNo(pc.from, pc.i, pc.j) == FlagOf(k) < BLOCK_SIZE
  {
    SameBlock(pc.from, pc.i - 1 - pc.j, cpc.first + cpc.count);
  }

  // ---- Every instruction is safe ----

  lemma LookupIsSafe(s: State, g: Ghost, t: nat)
    requires Inv(s, g) && Enabled(s, Fetch(t)) && (s.takers[t].LoadBase? || s.takers[t].LoadBlock?)
    ensures SafeFetch(s, t)
  {
    var pc, cpc := s.takers[t], s.ctr.pcs[t];
    if pc.LoadBase? {
      var m := BasePart(pc, cpc, s.headers, g, s.got, s.ctr.tail);
      LiveResolves(s, g, pc.h, m, cpc.first);
    } else {
      BlockPart(pc, cpc, s.headers, g, s.got, s.ctr.tail);
      LiveResolves(s, g, pc.h, BlockNo(pc.i), pc.i);
    }
  }

  lemma TakeIsSafe(s: State, g: Ghost, t: nat)
    requires Inv(s, g) && Enabled(s, Fetch(t)) && s.takers[t].Take?
    ensures SafeFetch(s, t)
  {
    TakePart(s.takers[t], s.ctr.pcs[t], s.headers, g, s.got, s.ctr.tail);
    LiveCell(s, g, s.takers[t].i);
  }

  lemma FlagIsSafe(s: State, g: Ghost, t: nat)
    requires Inv(s, g) && Enabled(s, Fetch(t)) && s.takers[t].SetFlag?
    ensures SafeFetch(s, t)
  {
    var pc, cpc := s.takers[t], s.ctr.pcs[t];
    assert TakerOk(pc, cpc, s.headers, g, s.got, s.ctr.tail);
    FlagPart(pc, cpc, s.headers, g, s.got, s.ctr.tail);
    LiveFlag(s, g, pc.i - 1 - pc.j);
  }

  // The flag of an index that is not done is not set.
  lemma LiveFlag(s: State, g: Ghost, k: nat)
    requires Inv(s, g) && k < s.ctr.tail && k !in g.done
    ensures BlockNo(k) < |g.blk| && Usable(s, g.blk[BlockNo(k)]) && !s.blocks[g.blk[BlockNo(k)]].empty[FlagOf(k)]
  {
    LiveBlock(s, g, k);
    FlagTells(s.blocks, g.blk, g.done, k);
  }

  lemma FlagTells(bs: seq<Block>, blk: seq<nat>, done: set<nat>, k: nat)
    requires BlockNo(k) < |blk| && FlagsOk(bs, blk, done, BlockNo(k))
    ensures bs[blk[BlockNo(k)]].empty[FlagOf(k)] <==> k in done
  {
    assert BlockNo(k) * BLOCK_SIZE + (BLOCK_SIZE - 1 - FlagOf(k)) == k;
  }

  lemma FetchIsSafe(s: State, g: Ghost, t: nat)
    requires Inv(s, g) && Enabled(s, Fetch(t))
    ensures SafeFetch(s, t)
  {
    match s.takers[t]
    case LoadFront(h) => assert TakerOk(s.takers[t], s.ctr.pcs[t], s.headers, g, s.got, s.ctr.tail);
    case LoadBase(_, _) => LookupIsSafe(s, g, t);
    case LoadBlock(_, _, _) => LookupIsSafe(s, g, t);
    case Take(_, _, _, _, _) => TakeIsSafe(s, g, t);
    case SetFlag(_, _, _, _, _, _) => FlagIsSafe(s, g, t);
    case _ =>
  }

  // A position the current header uses for a live index is not the one being prepared.
  lemma NotPrepared(s: State, g: Ghost, k: nat, m: nat)
    requires Inv(s, g) && Preparing(s.prod) && k < s.ctr.tail && k !in g.done && s.headers != []
    requires BlockNo(k) <= m < g.len[Current(s)]
    ensures Slot(s.headers, g.shift, Current(s), m) != s.prFront
  {
    assert g.lo <= m by { LiveBlock(s, g, k); }
    SlotsApart(s.headers, g.shift, Current(s), m, |g.blk| - 1);
  }

  // No consumer is about to read the entry the producer prepares.
  lemma NobodyReads(s: State, g: Ghost, t: nat)
    requires Inv(s, g) && Preparing(s.prod) && t < |s.takers|
    ensures !Reads(s.takers[t], Current(s), s.prFront)
  {
    var pc, cpc := s.takers[t], s.ctr.pcs[t];
    assert TakerOk(pc, cpc, s.headers, g, s.got, s.ctr.tail);
    if pc.LoadBase? && pc.h == Current(s) {
      var m := BasePart(pc, cpc, s.headers, g, s.got, s.ctr.tail);
      NotPrepared(s, g, cpc.first, m);
    } else if pc.LoadBlock? && pc.h == Current(s) {
      BlockPart(pc, cpc, s.headers, g, s.got, s.ctr.tail);
      NotPrepared(s, g, pc.i, BlockNo(pc.i));
    }
  }

  // Nor about to touch the cell it fills.
  lemma NobodyTouches(s: State, g: Ghost, t: nat)
    requires Inv(s, g) && (s.prod.Construct? || s.prod.PublishTail?) && t < |s.takers|
    ensures !TouchesCell(s.takers[t], s.tailBlock, s.ctr.tail % BLOCK_SIZE)
  {
    var pc, cpc := s.takers[t], s.ctr.pcs[t];
    assert TakerOk(pc, cpc, s.headers, g, s.got, s.ctr.tail);
    if pc.Take? {
      TakePart(pc, cpc, s.headers, g, s.got, s.ctr.tail);
      OtherCell(s, g, pc.i);
    }
  }

  lemma OtherCell(s: State, g: Ghost, i: nat)
    requires Inv(s, g) && (s.prod.PublishTail? || s.prod.Construct?) && i < s.ctr.tail && i !in g.done
    ensures BlockNo(i) < |g.blk| && (g.blk[BlockNo(i)] == s.tailBlock ==> i % BLOCK_SIZE < s.ctr.tail % BLOCK_SIZE)
  {
    LiveBlock(s, g, i);
    OwnBlock(s, g, |g.blk| - 1);
  }

  // The block ahead of the tail is the oldest of the window.
  lemma TailAndNext(s: State, g: Ghost)
    requires Circle(s.blocks, g.blk, g.lo, s.tailBlock) && g.lo < |g.blk|
    requires Places(s.blocks, s.free, s.away, Hand(s.prod), g.user, g.blk, g.lo)
    ensures s.tailBlock == g.blk[|g.blk| - 1] && Usable(s, s.tailBlock) && s.tailBlock != Hand(s.prod)
    ensures s.blocks[s.tailBlock].next == g.blk[g.lo] && Usable(s, g.blk[g.lo])
  {
    var last := |g.blk| - 1;
    OwnBlock(s, g, last);
    OwnBlock(s, g, g.lo);
    assert s.blocks[g.blk[last]].next == Follower(g.blk, g.lo, last);
  }

  lemma HandIsUsable(s: State, g: Ghost)
    requires Places(s.blocks, s.free, s.away, Hand(s.prod), g.user, g.blk, g.lo) && Hand(s.prod) >= 0
    ensures Usable(s, Hand(s.prod)) && Hand(s.prod) !in g.user
  {
    assert PlaceOk(s.blocks, s.free, s.away, Hand(s.prod), g.user, Hand(s.prod));
  }

  lemma EntryIsSafe(s: State, g: Ghost)
    requires Inv(s, g) && Preparing(s.prod)
    ensures InHeader(s, Current(s), s.prFront) && s.tailBlock >= 0 && NoReader(s)
  {
    forall t | 0 <= t < |s.takers| ensures !Reads(s.takers[t], Current(s), s.prFront) { NobodyReads(s, g, t); }
  }

  lemma CellIsSafe(s: State, g: Ghost)
    requires Inv(s, g) && s.prod.Construct?
    ensures forall t :: 0 <= t < |s.takers| ==> !TouchesCell(s.takers[t], s.tailBlock, s.ctr.tail % BLOCK_SIZE)
  {
    forall t | 0 <= t < |s.takers|
        ensures !TouchesCell(s.takers[t], s.tailBlock, s.ctr.tail % BLOCK_SIZE) { NobodyTouches(s, g, t); }
  }

  lemma ProduceIsSafe(s: State, g: Ghost, c: Choice)
    requires Inv(s, g) && Enabled(s, Produce(c))
    ensures SafeProduce(s, c)
  {
    if g.blk != [] { TailAndNext(s, g); }
    if Hand(s.prod) >= 0 { HandIsUsable(s, g); }
    if Preparing(s.prod) { EntryIsSafe(s, g); }
    if s.prod.Construct? { CellIsSafe(s, g); }
  }

  lemma IsSafe(s: State, g: Ghost, a: Action)
    requires Inv(s, g) && Enabled(s, a)
    ensures Safe(s, a)
  {
    match a
    case Fetch(t) => FetchIsSafe(s, g, t);
    case Produce(c) => ProduceIsSafe(s, g, c);
    case _ =>
  }
}
