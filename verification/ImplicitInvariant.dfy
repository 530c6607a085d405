// What every reachable state of ImplicitQueue satisfies, and why no instruction is unsafe in such
// a state.
module ImplicitInvariant {
  import C = Counters
  import opened ImplicitQueue
  import opened Modular
  import opened SubQueue

  // ---- Proof bookkeeping ----

  // Blocks of this producer are numbered 0, 1, ... in the order they are opened: block n holds
  // indices [32n, 32n + 32).
  //   ent[n], blk[n]    the index entry and the block that serve it; when an enqueue found no
  //                     block, ent is one longer than blk: the entry is kept for the next try
  //   low               entries of blocks from low on still carry those blocks' keys
  //   done              indices counted as finished
  //   closer[n]         the consumer whose count completed block n
  //   retired           completed blocks whose entry has been cleared
  //   released          retired blocks given back to the pool
  //   user[b]           the block number that block b serves
  datatype Ghost = Ghost(
    ent: seq<nat>, blk: seq<nat>, low: nat, done: set<nat>, closer: map<nat, nat>,
    retired: set<nat>, released: set<nat>, user: map<nat, nat>, hg: HeaderGhost)

  // In header h, block n sits at position (n + shift[h]) mod capacity, for lo[h] <= n < len[h].
  datatype HeaderGhost = HeaderGhost(shift: seq<nat>, lo: seq<nat>, len: seq<nat>)

  function Pos(hs: seq<Header>, hg: HeaderGhost, h: nat, n: nat): nat {
    if h < |hs| && h < |hg.shift| && |hs[h].index| > 0 then (n + hg.shift[h]) % |hs[h].index| else 0
  }

  // The position before block n's.
  function PosBefore(hs: seq<Header>, hg: HeaderGhost, h: nat, n: nat): nat {
    if h < |hs| && h < |hg.shift| && |hs[h].index| > 0
    then (n + hg.shift[h] + |hs[h].index| - 1) % |hs[h].index| else 0
  }

  predicate SameLengths(hs: seq<Header>, hg: HeaderGhost) {
    |hs| == |hg.shift| == |hg.lo| == |hg.len| > 0
  }

  ghost predicate HeaderOk(hs: seq<Header>, ne: nat, ent: seq<nat>, low: nat, hg: HeaderGhost, h: nat)
    requires SameLengths(hs, hg) && h < |hs|
  {
    && |hs[h].index| > 0 && hs[h].tail < |hs[h].index|
    && hg.lo[h] <= low && hg.len[h] <= |ent|
    && (forall p :: 0 <= p < |hs[h].index| ==> hs[h].index[p] < ne)
    && (forall n :: hg.lo[h] <= n < hg.len[h] ==> hs[h].index[Pos(hs, hg, h, n)] == ent[n])
    && (h < |hs| - 1 ==> hs[h].tail == PosBefore(hs, hg, h, hg.len[h]))
  }

  ghost predicate Headers(hs: seq<Header>, ne: nat, ent: seq<nat>, low: nat, hg: HeaderGhost) {
    && SameLengths(hs, hg)
    && forall h :: 0 <= h < |hs| ==> HeaderOk(hs, ne, ent, low, hg, h)
  }

  // The current header: distinct entries, room for every block from low on, the tail at the
  // newest block.
  ghost predicate Ring(hs: seq<Header>, ent: seq<nat>, nb: nat, low: nat, hg: HeaderGhost, visible: nat) {
    && SameLengths(hs, hg)
    && var cur := |hs| - 1;
       var ring := hs[cur].index;
       && (forall p, q :: 0 <= p < q < |ring| ==> ring[p] != ring[q])
       && low <= nb <= |ent| <= nb + 1
       && |ent| - low <= |ring|
       && hg.len[cur] == |ent|
       && hs[cur].tail == PosBefore(hs, hg, cur, visible)
  }

  // Blocks the current tail position shows: one more while a block is being opened.
  function Visible(p: Producer, nb: nat): nat {
    if p.Requisition? || p.Rewind? || p.ResetCount? || p.SetValue? then nb + 1 else nb
  }

  // Between attempts, the kept entry is empty.
  predicate AtRest(p: Producer) { p.Idle? || p.LoadHead? || p.TestKey? || p.TestValue? }

  ghost predicate EntryOk(es: seq<Entry>, ent: seq<nat>, blk: seq<nat>, retired: set<nat>, rest: bool, n: nat)
    requires n < |ent|
  {
    && ent[n] < |es| && es[ent[n]].key == n * BLOCK_SIZE
    && (n < |blk| ==> es[ent[n]].value == (if n in retired then NULL else blk[n] + 1))
    && (n == |blk| && rest ==> es[ent[n]].value == NULL)
  }

  ghost predicate Entries(es: seq<Entry>, ent: seq<nat>, blk: seq<nat>, low: nat, retired: set<nat>, rest: bool) {
    forall n :: low <= n < |ent| ==> EntryOk(es, ent, blk, retired, rest, n)
  }

  // Finished indices of block n.
  function DoneIn(done: set<nat>, from: nat, end: nat): nat
    decreases end
  {
    if end <= from then 0 else DoneIn(done, from, end - 1) + (if end - 1 in done then 1 else 0)
  }

  predicate BlockOk(bs: seq<Block>, blk: seq<nat>, low: nat, done: set<nat>, closer: map<nat, nat>, retired: set<nat>,
      released: set<nat>, user: map<nat, nat>, n: nat)
    requires n < |blk|
  {
    && (n < low ==> n in retired)
    && (n in released ==> n in retired)
    && (n in retired ==> n in closer)
    && (n in closer <==> DoneIn(done, n * BLOCK_SIZE, n * BLOCK_SIZE + BLOCK_SIZE) == BLOCK_SIZE)
    && (n !in released ==>
          && blk[n] < |bs| && blk[n] in user && user[blk[n]] == n
          && bs[blk[n]].finished == DoneIn(done, n * BLOCK_SIZE, n * BLOCK_SIZE + BLOCK_SIZE))
  }

  ghost predicate Blocks(bs: seq<Block>, blk: seq<nat>, low: nat, done: set<nat>, closer: map<nat, nat>,
      retired: set<nat>, released: set<nat>, user: map<nat, nat>) {
    && (forall n :: 0 <= n < |blk| ==> BlockOk(bs, blk, low, done, closer, retired, released, user, n))
    && (forall n :: n in closer ==> n < |blk|)
    && (forall n :: n in retired ==> n < |blk|)
    && (forall n :: n in released ==> n < |blk|)
  }

  // A completed block is being cleared or given back by the consumer that completed it.
  predicate ClosingOk(ts: seq<Taker>, retired: set<nat>, released: set<nat>, closer: map<nat, nat>, n: nat)
    requires n in closer
  {
    n !in released ==>
      && closer[n] < |ts|
      && var pc := ts[closer[n]];
         if n in retired then pc.Release? && pc.i > 0 && BlockNo(pc.i - 1) == n
         else pc.ClearEntry? && pc.i > 0 && BlockNo(pc.i - 1) == n
  }

  ghost predicate Closings(ts: seq<Taker>, retired: set<nat>, released: set<nat>, closer: map<nat, nat>) {
    forall n :: n in closer ==> ClosingOk(ts, retired, released, closer, n)
  }

  function Hand(p: Producer): int { if p.ResetCount? || p.SetValue? then p.b else -1 }

  // Each block is in exactly one place.
  predicate PlaceOk(bs: seq<Block>, free: set<nat>, away: set<nat>, hand: int, user: map<nat, nat>, nb: nat, b: nat)
    requires b < |bs|
  {
    && |bs[b].cells| == BLOCK_SIZE
    && One(b in free) + One(b in away) + One(b == hand) + One(b in user) == 1
  }

  ghost predicate Places(bs: seq<Block>, free: set<nat>, away: set<nat>, hand: int, user: map<nat, nat>, blk: seq<nat>,
      released: set<nat>) {
    && (forall b :: 0 <= b < |bs| ==> PlaceOk(bs, free, away, hand, user, |blk|, b))
    && (forall b :: b in free ==> b < |bs|) && (forall b :: b in away ==> b < |bs|)
    && hand < |bs|
    && (forall b :: b in user ==> b < |bs| && user[b] < |blk| && user[b] !in released && blk[user[b]] == b)
  }

  // Item k sits in its cell until its consumer takes it.
  predicate CellOk(bs: seq<Block>, blk: seq<nat>, items: seq<int>, got: map<nat, int>, k: nat)
    requires k < |items|
  {
    k !in got ==>
      BlockNo(k) < |blk| && blk[BlockNo(k)] < |bs| && |bs[blk[BlockNo(k)]].cells| == BLOCK_SIZE
      && bs[blk[BlockNo(k)]].cells[k % BLOCK_SIZE] == Item(items[k])
  }

  ghost predicate Cells(bs: seq<Block>, blk: seq<nat>, items: seq<int>, got: map<nat, int>) {
    forall k :: 0 <= k < |items| ==> CellOk(bs, blk, items, got, k)
  }

  // Header h was current after the claim, so it knows the claim's last block.
  predicate Knows(hs: seq<Header>, hg: HeaderGhost, h: nat, limit: nat) {
    SameLengths(hs, hg) && h < |hs| && limit > 0 && BlockNo(limit - 1) < hg.len[h]
  }

  ghost predicate TakerOk(pc: Taker, cpc: C.Pc, t: nat, hs: seq<Header>, hg: HeaderGhost, g: Ghost, got: map<nat, int>,
      tail: nat) {
    && Positive(cpc)
    && (pc.Off? <==> !cpc.Claimed?)
    && (cpc.Claimed? ==>
         var first, limit := cpc.first, cpc.first + cpc.count;
         && limit <= tail
         && match pc
            case Off => true
            case LoadIndex => Progress(first, limit, first, first, g.done, got)
            case LoadTail(h) => Knows(hs, hg, h, limit) && Progress(first, limit, first, first, g.done, got)
            case LoadKey(h, tl) =>
              && Knows(hs, hg, h, limit) && Progress(first, limit, first, first, g.done, got)
              && exists m {:trigger Pos(hs, hg, h, m)} :: BlockNo(limit - 1) <= m < hg.len[h] && tl == Pos(hs, hg, h, m)
            case LoadBlock(h, slot, i) =>
              && Knows(hs, hg, h, limit) && first <= i < limit && (i == first || i % BLOCK_SIZE == 0)
              && slot == Pos(hs, hg, h, BlockNo(i)) && Progress(first, limit, i, i, g.done, got)
            case Take(h, slot, e, b, from, i) =>
              && Knows(hs, hg, h, limit) && first <= from <= i < End(from, limit)
              && slot == Pos(hs, hg, h, BlockNo(from)) && BlockNo(from) < |g.blk| && |g.blk| <= |g.ent|
              && e == g.ent[BlockNo(from)] && b == g.blk[BlockNo(from)]
              && Progress(first, limit, from, i, g.done, got)
            case Count(h, slot, e, b, from, i) =>
              && Knows(hs, hg, h, limit) && first <= from < i == End(from, limit)
              && slot == Pos(hs, hg, h, BlockNo(from)) && BlockNo(from) < |g.blk| && |g.blk| <= |g.ent|
              && e == g.ent[BlockNo(from)] && b == g.blk[BlockNo(from)]
              && Progress(first, limit, from, i, g.done, got)
            case ClearEntry(h, slot, e, b, i) => Closing(hs, hg, g, got, h, slot, e, b, i, t, first, limit)
                && BlockNo(i - 1) !in g.retired
            case Release(h, slot, e, b, i) =>
              && Closing(hs, hg, g, got, h, slot, e, b, i, t, first, limit)
              && BlockNo(i - 1) in g.retired && BlockNo(i - 1) !in g.released
            case Finished => Progress(first, limit, limit, limit, g.done, got))
  }

  ghost predicate Closing(hs: seq<Header>, hg: HeaderGhost, g: Ghost, got: map<nat, int>, h: nat, slot: nat, e: nat,
      b: nat, i: nat, t: nat, first: nat, limit: nat) {
    && Knows(hs, hg, h, limit) && first < i <= limit && (i == limit || i % BLOCK_SIZE == 0)
    && slot == Pos(hs, hg, h, BlockNo(i - 1)) && BlockNo(i - 1) < |g.blk| && |g.blk| <= |g.ent|
    && e == g.ent[BlockNo(i - 1)] && b == g.blk[BlockNo(i - 1)]
    && BlockNo(i - 1) in g.closer && g.closer[BlockNo(i - 1)] == t
    && Progress(first, limit, i, i, g.done, got)
  }

  ghost predicate Takers(s: State, g: Ghost) {
    && |s.takers| == |s.ctr.pcs|
    && forall t :: 0 <= t < |s.takers| ==> TakerOk(s.takers[t], s.ctr.pcs[t], t, s.headers, g.hg, g, s.got, s.ctr.tail)
  }

  // The entry at the position after the tail may be used for a new block.
  predicate EntryFits(hs: seq<Header>, hg: HeaderGhost, ent: seq<nat>, nb: nat, low: nat, retired: set<nat>, e: nat) {
    && SameLengths(hs, hg)
    && var cur := |hs| - 1;
       var cap := |hs[cur].index|;
       && cap > 0 && Pos(hs, hg, cur, nb) < cap && e == hs[cur].index[Pos(hs, hg, cur, nb)]
       && (nb >= cap && nb - cap >= low && |ent| == nb ==> (nb - cap) in retired)
  }

  ghost predicate ProducerOk(s: State, g: Ghost) {
    var nb, tail := |g.blk|, s.ctr.tail;
    var opening := tail % BLOCK_SIZE == 0 && tail == nb * BLOCK_SIZE;
    var open := nb == BlockNo(tail) + 1 && nb == |g.ent| && s.tailBlock == g.blk[nb - 1];
    var leeway := tail + BLOCK_SIZE - s.ctr.head < HALF;
    match s.prod
    case Idle => if tail % BLOCK_SIZE == 0 then opening else open
    case LoadHead(x) => opening
    case TestKey(x) => opening && leeway
    case TestValue(x) =>
      && opening && leeway && |s.headers| > 0 && |s.headers[Current(s)].index| > 0
      && NextPos(s) < |s.headers[Current(s)].index|
    case Grow(x) => opening && leeway && |g.ent| == nb
    case AssertKey(x) =>
      && opening && leeway && |g.ent| == nb && |s.headers| > 0 && |s.headers[Current(s)].index| > 0
      && NextPos(s) < |s.headers[Current(s)].index| && InHeader(s, Current(s), NextPos(s))
      && EntryAt(s, Current(s), NextPos(s)).key == INVALID_BLOCK_BASE
    case SetKey(x, e) => opening && leeway && EntryFits(s.headers, g.hg, g.ent, nb, g.low, g.retired, e)
    case SetTail(x, e) => opening && leeway && |g.ent| == nb + 1 && e == g.ent[nb]
    case Requisition(x, e) => opening && leeway && |g.ent| == nb + 1 && e == g.ent[nb]
    case Rewind(x, e) => opening && |g.ent| == nb + 1 && e == g.ent[nb]
    case NullEntry(x, e) => opening && |g.ent| == nb + 1 && e == g.ent[nb]
    case ResetCount(x, e, b) => opening && leeway && |g.ent| == nb + 1 && e == g.ent[nb]
    case SetValue(x, e, b) => opening && leeway && |g.ent| == nb + 1 && e == g.ent[nb] && b < |s.blocks|
        && s.blocks[b].finished == 0
    case Construct(x) => open
    case PublishTail(x) =>
      && open && s.tailBlock < |s.blocks| && |s.blocks[s.tailBlock].cells| == BLOCK_SIZE
      && s.blocks[s.tailBlock].cells[tail % BLOCK_SIZE] == Item(x)
  }

  ghost predicate Inv(s: State, g: Ghost) {
    && C.Inv(s.ctr)
    && |s.items| == s.ctr.tail
    && (|g.blk| * BLOCK_SIZE < s.ctr.head + HALF)
    && Headers(s.headers, |s.entries|, g.ent, g.low, g.hg)
    && Ring(s.headers, g.ent, |g.blk|, g.low, g.hg, Visible(s.prod, |g.blk|))
    && Entries(s.entries, g.ent, g.blk, g.low, g.retired, AtRest(s.prod))
    && Blocks(s.blocks, g.blk, g.low, g.done, g.closer, g.retired, g.released, g.user)
    && Closings(s.takers, g.retired, g.released, g.closer)
    && Places(s.blocks, s.free, s.away, Hand(s.prod), g.user, g.blk, g.released)
    && Cells(s.blocks, g.blk, s.items, s.got)
    && Gots(s.got, s.items, s.ctr.head, g.done)
    && Takers(s, g)
    && ProducerOk(s, g)
  }

  // How the bookkeeping follows a step.
  function Track(s: State, g: Ghost, a: Action): Ghost {
    match a
    case Fetch(t) => if t < |s.takers| then TrackFetch(s, g, t, s.takers[t]) else g
    case Produce(c) => TrackProduce(s, g, c)
    case _ => g
  }

  function TrackFetch(s: State, g: Ghost, t: nat, pc: Taker): Ghost {
    match pc
    case Count(h, slot, e, b, from, i) =>
      var now := if b < |s.blocks| then s.blocks[b].finished + i - from else 0;
      var closer := if now == BLOCK_SIZE then g.closer[BlockNo(from) := t] else g.closer;
      g.(done := g.done + Range(from, i), closer := closer)
    case ClearEntry(h, slot, e, b, i) => if i > 0 then g.(retired := g.retired + {BlockNo(i - 1)}) else g
    case Release(h, slot, e, b, i) => if i > 0 then g.(released := g.released + {BlockNo(i - 1)}, user := g.user - {b})
        else g
    case _ => g
  }

  function TrackProduce(s: State, g: Ghost, c: Choice): Ghost {
    var cur, nb := Current(s), |g.blk|;
    match s.prod
    case SetKey(x, e) =>
      if |g.ent| == nb && cur < |s.headers| && cur < |g.hg.len| then
        var cap := |s.headers[cur].index|;
        g.(ent := g.ent + [e], low := if nb >= cap && nb - cap >= g.low then nb - cap + 1 else g.low,
           hg := g.hg.(len := g.hg.len[cur := nb + 1]))
      else g
    case Grow(x) =>
      if c.Fail? || cur >= |s.headers| then g else
        g.(hg := HeaderGhost(g.hg.shift + [NewShift(|s.headers[cur].index|, nb)], g.hg.lo + [g.low],
            g.hg.len + [|g.ent|]))
    case SetValue(x, e, b) => g.(blk := g.blk + [b], user := g.user[b := nb])
    case _ => g
  }

  // After growth from capacity cap, block nb goes to position cap of the doubled ring.
  function NewShift(cap: nat, nb: nat): nat {
    if cap == 0 then 0 else (2 * cap - nb % (2 * cap)) + cap
  }

  // ---- Counting finished indices ----

  lemma {:induction false} DoneAll(done: set<nat>, from: nat, end: nat)
    requires from <= end
    ensures DoneIn(done, from, end) <= end - from
    ensures DoneIn(done, from, end) == end - from <==> (forall k :: from <= k < end ==> k in done)
  {
    if end <= from {
    } else {
      DoneAll(done, from, end - 1);
    }
  }

  lemma {:induction false} DoneSame(done: set<nat>, done2: set<nat>, from: nat, end: nat)
    requires forall k :: from <= k < end ==> (k in done <==> k in done2)
    ensures DoneIn(done2, from, end) == DoneIn(done, from, end)
  {
    if end <= from {
    } else {
      DoneSame(done, done2, from, end - 1);
    }
  }

  lemma {:induction false} DoneMore(done: set<nat>, a: nat, b: nat, from: nat, end: nat)
    requires from <= a <= b <= end
    requires forall k :: a <= k < b ==> k !in done
    ensures DoneIn(done + Range(a, b), from, end) == DoneIn(done, from, end) + (b - a)
    decreases end
  {
    if b < end {
      DoneMore(done, a, b, from, end - 1);
    } else if a == b {
      DoneSame(done, done + Range(a, b), from, end);
    } else {
      DoneMoreLast(done, a, b, from);
    }
  }

  lemma {:induction false} DoneMoreLast(done: set<nat>, a: nat, b: nat, from: nat)
    requires from <= a < b
    requires forall k :: a <= k < b ==> k !in done
    ensures DoneIn(done + Range(a, b), from, b) == DoneIn(done, from, b) + (b - a)
    decreases b
  {
    DoneSame(done + Range(a, b - 1), done + Range(a, b), from, b - 1);
    if a < b - 1 { DoneMoreLast(done, a, b - 1, from); } else { DoneSame(done, done + Range(a, b - 1), from, b - 1); }
  }

  // The sum that fetch_add makes of a block's count.
  lemma CountFits(done: set<nat>, from: nat, i: nat)
    requires from < i <= BlockBase(from) + BLOCK_SIZE
    requires forall k :: from <= k < i ==> k !in done
    ensures var base := BlockNo(from) * BLOCK_SIZE;
            DoneIn(done, base, base + BLOCK_SIZE) + (i - from)
                == DoneIn(done + Range(from, i), base, base + BLOCK_SIZE) <= BLOCK_SIZE
  {
    var base := BlockBase(from);
    DoneMore(done, from, i, base, base + BLOCK_SIZE);
    DoneAll(done + Range(from, i), base, base + BLOCK_SIZE);
  }

  // ---- Consequences of the invariant ----

  lemma TailBound(s: State, g: Ghost)
    requires ProducerOk(s, g)
    ensures s.ctr.tail <= |g.blk| * BLOCK_SIZE
    ensures s.ctr.tail % BLOCK_SIZE != 0 ==> |g.blk| == BlockNo(s.ctr.tail) + 1
  {
  }

  // A published index that is not done lies in a block that is still complete with its entry.
  lemma LiveBlock(s: State, g: Ghost, k: nat)
    requires Inv(s, g) && k < s.ctr.tail && k !in g.done
    ensures var n := BlockNo(k);
            && g.low <= n < |g.blk| <= |g.ent| && n !in g.closer && n !in g.retired && n !in g.released
            && BlockOk(s.blocks, g.blk, g.low, g.done, g.closer, g.retired, g.released, g.user, n)
            && EntryOk(s.entries, g.ent, g.blk, g.retired, AtRest(s.prod), n)
            && Usable(s, g.blk[n])
  {
    var n := BlockNo(k);
    TailBound(s, g);
    assert BlockOk(s.blocks, g.blk, g.low, g.done, g.closer, g.retired, g.released, g.user, n);
    DoneAll(g.done, n * BLOCK_SIZE, n * BLOCK_SIZE + BLOCK_SIZE);
    assert PlaceOk(s.blocks, s.free, s.away, Hand(s.prod), g.user, |g.blk|, g.blk[n]);
  }

  // An item not yet taken is in its cell.
  lemma LiveCell(s: State, g: Ghost, k: nat)
    requires Inv(s, g) && k < s.ctr.tail && k !in s.got
    ensures k !in g.done && BlockNo(k) < |g.blk| && Usable(s, g.blk[BlockNo(k)])
    ensures s.blocks[g.blk[BlockNo(k)]].cells[k % BLOCK_SIZE] == Item(s.items[k])
  {
    LiveBlock(s, g, k);
    assert CellOk(s.blocks, g.blk, s.items, s.got, k);
  }

  // Where header h keeps a live block.
  lemma LiveEntry(s: State, g: Ghost, h: nat, n: nat)
    requires Inv(s, g) && h < |s.headers| && g.low <= n < g.hg.len[h]
    ensures InHeader(s, h, Pos(s.headers, g.hg, h, n)) && n < |g.ent|
    ensures s.headers[h].index[Pos(s.headers, g.hg, h, n)] == g.ent[n]
    ensures EntryAt(s, h, Pos(s.headers, g.hg, h, n)).key == n * BLOCK_SIZE
  {
    assert HeaderOk(s.headers, |s.entries|, g.ent, g.low, g.hg, h);
    assert n < |g.ent|;
    assert EntryOk(s.entries, g.ent, g.blk, g.retired, AtRest(s.prod), n);
  }

  // (tail + (base - tailBase) / BLOCK_SIZE) & (capacity - 1) is the block's position.
  lemma LookupPos(s: State, g: Ghost, h: nat, m: nat, n: nat)
    requires SameLengths(s.headers, g.hg) && h < |s.headers| && |s.headers[h].index| > 0
    ensures (Pos(s.headers, g.hg, h, m) + (n * BLOCK_SIZE - m * BLOCK_SIZE) / BLOCK_SIZE) % |s.headers[h].index|
        == Pos(s.headers, g.hg, h, n)
  {
    ModAdd(m + g.hg.shift[h], n - m, |s.headers[h].index|);
  }

  // Through header h, from tail position tl, index k leads to entry e, which has k's key and a block.
  predicate Resolves(s: State, h: nat, tl: nat, k: nat, e: nat, b: nat) {
    && InHeader(s, h, tl) && InHeader(s, h, SlotFor(s, h, tl, k)) && s.headers[h].index[SlotFor(s, h, tl, k)] == e
    && s.entries[e] == Entry(BlockBase(k), b + 1)
  }

  lemma LiveResolves(s: State, g: Ghost, h: nat, m: nat, k: nat)
    requires Inv(s, g) && k < s.ctr.tail && k !in g.done && h < |s.headers| && BlockNo(k) <= m < g.hg.len[h]
    ensures BlockNo(k) < |g.blk| <= |g.ent|
    ensures Resolves(s, h, Pos(s.headers, g.hg, h, m), k, g.ent[BlockNo(k)], g.blk[BlockNo(k)])
    ensures SlotFor(s, h, Pos(s.headers, g.hg, h, m), k) == Pos(s.headers, g.hg, h, BlockNo(k))
  {
    LiveBlock(s, g, k);
    LiveEntry(s, g, h, m);
    LiveEntry(s, g, h, BlockNo(k));
    LookupPos(s, g, h, m, BlockNo(k));
  }

  // ---- Every instruction is safe ----

  lemma LoadKeyIsSafe(s: State, g: Ghost, t: nat)
    requires Inv(s, g) && Enabled(s, Fetch(t)) && s.takers[t].LoadKey?
    ensures SafeFetch(s, t)
  {
    var e, b := LoadKeyFacts(s, g, t);
    var m := TailKey(s, g, t);
    ResolvedIsSafe(s, t, e, b, m);
  }

  lemma ResolvedIsSafe(s: State, t: nat, e: nat, b: nat, m: nat)
    requires Enabled(s, Fetch(t)) && s.takers[t].LoadKey?
    requires Resolves(s, s.takers[t].h, s.takers[t].tl, s.ctr.pcs[t].first, e, b)
    requires EntryAt(s, s.takers[t].h, s.takers[t].tl).key == m * BLOCK_SIZE
    ensures SafeFetch(s, t)
  {
  }

  // What its claim says by itself of a consumer that has loaded header and tail.
  lemma KeyPart(pc: Taker, cpc: C.Pc, t: nat, hs: seq<Header>, g: Ghost, got: map<nat, int>, tail: nat) returns (m: nat)
    requires TakerOk(pc, cpc, t, hs, g.hg, g, got, tail) && pc.LoadKey?
    ensures cpc.Claimed? && cpc.count > 0 && cpc.first < tail && cpc.first !in g.done && cpc.first !in got
    ensures SameLengths(hs, g.hg) && pc.h < |hs| && BlockNo(cpc.first) <= m < g.hg.len[pc.h]
        && pc.tl == Pos(hs, g.hg, pc.h, m)
  {
    m :| BlockNo(cpc.first + cpc.count - 1) <= m < g.hg.len[pc.h] && pc.tl == Pos(hs, g.hg, pc.h, m);
  }

  // The header and tail a consumer has loaded lead to its claim's first block.
  lemma LoadKeyFacts(s: State, g: Ghost, t: nat) returns (e: nat, b: nat)
    requires Inv(s, g) && t < |s.takers| && s.takers[t].LoadKey?
    ensures var pc, cpc := s.takers[t], s.ctr.pcs[t];
            && cpc.Claimed? && cpc.count > 0 && pc.h < |s.headers| == |g.hg.shift| && |s.headers[pc.h].index| > 0
            && cpc.first < s.ctr.tail && cpc.first !in s.got && BlockNo(cpc.first) < |g.blk| <= |g.ent|
            && e == g.ent[BlockNo(cpc.first)] && b == g.blk[BlockNo(cpc.first)]
            && Resolves(s, pc.h, pc.tl, cpc.first, e, b)
            && SlotFor(s, pc.h, pc.tl, cpc.first) == Pos(s.headers, g.hg, pc.h, BlockNo(cpc.first))
  {
    var pc, first := s.takers[t], s.ctr.pcs[t].first;
    var m := KeyPart(pc, s.ctr.pcs[t], t, s.headers, g, s.got, s.ctr.tail);
    LiveResolves(s, g, pc.h, m, first);
    e, b := g.ent[BlockNo(first)], g.blk[BlockNo(first)];
  }

  // The tail entry it has found carries a block's key, not before the claim's.
  lemma TailKey(s: State, g: Ghost, t: nat) returns (m: nat)
    requires Inv(s, g) && t < |s.takers| && s.takers[t].LoadKey?
    ensures s.ctr.pcs[t].Claimed? && BlockNo(s.ctr.pcs[t].first) <= m
    ensures InHeader(s, s.takers[t].h, s.takers[t].tl)
        && EntryAt(s, s.takers[t].h, s.takers[t].tl).key == m * BLOCK_SIZE
  {
    m := KeyPart(s.takers[t], s.ctr.pcs[t], t, s.headers, g, s.got, s.ctr.tail);
    LiveAfter(s, g, s.takers[t].h, m, s.ctr.pcs[t].first);
  }

  // Where header h keeps a block no older than a live one.
  lemma LiveAfter(s: State, g: Ghost, h: nat, m: nat, k: nat)
    requires Inv(s, g) && k < s.ctr.tail && k !in g.done && h < |s.headers| && BlockNo(k) <= m < g.hg.len[h]
    ensures InHeader(s, h, Pos(s.headers, g.hg, h, m))
        && EntryAt(s, h, Pos(s.headers, g.hg, h, m)).key == m * BLOCK_SIZE
  {
    assert g.low <= BlockNo(k) by { LiveBlock(s, g, k); }
    LiveEntry(s, g, h, m);
  }

  lemma LoadBlockIsSafe(s: State, g: Ghost, t: nat)
    requires Inv(s, g) && Enabled(s, Fetch(t)) && s.takers[t].LoadBlock?
    ensures SafeFetch(s, t)
  {
    var pc, first := s.takers[t], s.ctr.pcs[t].first;
    assert TakerOk(pc, s.ctr.pcs[t], t, s.headers, g.hg, g, s.got, s.ctr.tail);
    LiveBlock(s, g, pc.i);
    LiveEntry(s, g, pc.h, BlockNo(pc.i));
  }

  lemma TakeIsSafe(s: State, g: Ghost, t: nat)
    requires Inv(s, g) && Enabled(s, Fetch(t)) && s.takers[t].Take?
    ensures SafeFetch(s, t)
  {
    var pc, first := s.takers[t], s.ctr.pcs[t].first;
    assert TakerOk(pc, s.ctr.pcs[t], t, s.headers, g.hg, g, s.got, s.ctr.tail);
    SameBlock(pc.from, pc.i, first + s.ctr.pcs[t].count);
    LiveCell(s, g, pc.i);
  }

  // The part of the claim that thread t is about to count.
  lemma CountFacts(s: State, g: Ghost, t: nat)
    requires Inv(s, g) && t < |s.takers| && s.takers[t].Count?
    ensures var pc, n := s.takers[t], BlockNo(s.takers[t].from);
            && t < |s.ctr.pcs| && n < |g.blk| && pc.b == g.blk[n] && pc.from < pc.i <= BlockBase(pc.from) + BLOCK_SIZE
            && (forall k :: pc.from <= k < pc.i ==> k !in g.done && k in s.got && C.InClaim(s.ctr.pcs[t], k))
            && n !in g.closer && n !in g.retired && n !in g.released && pc.b in g.user && g.user[pc.b] == n
            && Usable(s, pc.b)
            && s.blocks[pc.b].finished + (pc.i - pc.from)
                == DoneIn(g.done + Range(pc.from, pc.i), n * BLOCK_SIZE, n * BLOCK_SIZE + BLOCK_SIZE) <= BLOCK_SIZE
  {
    var pc := s.takers[t];
    CountingPart(s, g, t);
    OpenBlock(s, g, pc.from);
  }

  lemma CountingPart(s: State, g: Ghost, t: nat)
    requires Takers(s, g) && t < |s.takers| && s.takers[t].Count?
    ensures var pc, n := s.takers[t], BlockNo(s.takers[t].from);
            && t < |s.ctr.pcs| && s.ctr.pcs[t].Claimed? && pc.from < pc.i <= s.ctr.tail
            && pc.i <= BlockBase(pc.from) + BLOCK_SIZE
            && n < |g.blk| && pc.b == g.blk[n] && pc.from !in g.done
            && (forall k :: pc.from <= k < pc.i ==> k !in g.done && k in s.got && C.InClaim(s.ctr.pcs[t], k))
            && DoneIn(g.done, n * BLOCK_SIZE, n * BLOCK_SIZE + BLOCK_SIZE) + (pc.i - pc.from)
               == DoneIn(g.done + Range(pc.from, pc.i), n * BLOCK_SIZE, n * BLOCK_SIZE + BLOCK_SIZE) <= BLOCK_SIZE
  {
    CountPart(s.takers[t], s.ctr.pcs[t], t, s.headers, g, s.got, s.ctr.tail);
  }

  // A block with an index still to finish.
  lemma OpenBlock(s: State, g: Ghost, k: nat)
    requires Inv(s, g) && k < s.ctr.tail && k !in g.done
    ensures var n := BlockNo(k);
            && n < |g.blk| && n !in g.closer && n !in g.retired && n !in g.released
            && g.blk[n] in g.user && g.user[g.blk[n]] == n && Usable(s, g.blk[n])
            && s.blocks[g.blk[n]].finished == DoneIn(g.done, n * BLOCK_SIZE, n * BLOCK_SIZE + BLOCK_SIZE)
  {
    LiveBlock(s, g, k);
  }

  lemma CountIsSafe(s: State, g: Ghost, t: nat)
    requires Inv(s, g) && Enabled(s, Fetch(t)) && s.takers[t].Count?
    ensures SafeFetch(s, t)
  {
    CountFacts(s, g, t);
  }

  // What a counting consumer's claim says by itself.
  lemma CountPart(pc: Taker, cpc: C.Pc, t: nat, hs: seq<Header>, g: Ghost, got: map<nat, int>, tail: nat)
    requires TakerOk(pc, cpc, t, hs, g.hg, g, got, tail) && pc.Count?
    ensures cpc.Claimed? && cpc.first <= pc.from < pc.i <= cpc.first + cpc.count <= tail
    ensures pc.i <= BlockBase(pc.from) + BLOCK_SIZE && pc.from !in g.done
    ensures forall k :: pc.from <= k < pc.i ==> k !in g.done && k in got && C.InClaim(cpc, k)
    ensures var n := BlockNo(pc.from);
            && n < |g.blk| <= |g.ent| && pc.e == g.ent[n] && pc.b == g.blk[n]
            && DoneIn(g.done, n * BLOCK_SIZE, n * BLOCK_SIZE + BLOCK_SIZE) + (pc.i - pc.from)
               == DoneIn(g.done + Range(pc.from, pc.i), n * BLOCK_SIZE, n * BLOCK_SIZE + BLOCK_SIZE) <= BLOCK_SIZE
  {
    CountRange(g.done, got, cpc.first, cpc.first + cpc.count, pc.from, pc.i);
  }

  // The part [from, i) of the claim [first, limit), all in one block, is about to be counted.
  lemma CountRange(done: set<nat>, got: map<nat, int>, first: nat, limit: nat, from: nat, i: nat)
    requires first <= from < i == End(from, limit) && Progress(first, limit, from, i, done, got)
    ensures from < limit && i <= BlockBase(from) + BLOCK_SIZE && from !in done
    ensures forall k :: from <= k < i ==> k !in done && k in got
    ensures var base := BlockNo(from) * BLOCK_SIZE;
            DoneIn(done, base, base + BLOCK_SIZE) + (i - from)
                == DoneIn(done + Range(from, i), base, base + BLOCK_SIZE) <= BLOCK_SIZE
  {
    CountFits(done, from, i);
  }

  lemma CloseIsSafe(s: State, g: Ghost, t: nat)
    requires Inv(s, g) && Enabled(s, Fetch(t)) && (s.takers[t].ClearEntry? || s.takers[t].Release?)
    ensures SafeFetch(s, t)
  {
    var pc, first := s.takers[t], s.ctr.pcs[t].first;
    assert TakerOk(pc, s.ctr.pcs[t], t, s.headers, g.hg, g, s.got, s.ctr.tail);
    var n := BlockNo(pc.i - 1);
    assert BlockOk(s.blocks, g.blk, g.low, g.done, g.closer, g.retired, g.released, g.user, n);
    if pc.ClearEntry? {
      assert EntryOk(s.entries, g.ent, g.blk, g.retired, AtRest(s.prod), n);
    } else {
      assert PlaceOk(s.blocks, s.free, s.away, Hand(s.prod), g.user, |g.blk|, pc.b);
    }
  }

  lemma FetchIsSafe(s: State, g: Ghost, t: nat)
    requires Inv(s, g) && Enabled(s, Fetch(t))
    ensures SafeFetch(s, t)
  {
    match s.takers[t]
    case LoadTail(h) => assert TakerOk(s.takers[t], s.ctr.pcs[t], t, s.headers, g.hg, g, s.got, s.ctr.tail);
    case LoadKey(_, _) => LoadKeyIsSafe(s, g, t);
    case LoadBlock(_, _, _) => LoadBlockIsSafe(s, g, t);
    case Take(_, _, _, _, _, _) => TakeIsSafe(s, g, t);
    case Count(_, _, _, _, _, _) => CountIsSafe(s, g, t);
    case ClearEntry(_, _, _, _, _) => CloseIsSafe(s, g, t);
    case Release(_, _, _, _, _) => CloseIsSafe(s, g, t);
    case _ =>
  }

  lemma NextPosIs(s: State, g: Ghost)
    requires SameLengths(s.headers, g.hg) && |s.headers[Current(s)].index| > 0
    requires s.headers[Current(s)].tail == PosBefore(s.headers, g.hg, Current(s), |g.blk|)
    ensures NextPos(s) == Pos(s.headers, g.hg, Current(s), |g.blk|)
  {
    var cap, x := |s.headers[Current(s)].index|, |g.blk| + g.hg.shift[Current(s)];
    ModAdd(x + cap - 1, 1, cap);
    ModTurn(x, cap);
  }

  lemma ProduceIsSafe(s: State, g: Ghost, c: Choice)
    requires Inv(s, g) && Enabled(s, Produce(c))
    ensures SafeProduce(s, c)
  {
    var cur, nb := Current(s), |g.blk|;
    assert HeaderOk(s.headers, |s.entries|, g.ent, g.low, g.hg, cur);
    if s.prod.TestKey? || s.prod.TestValue? || s.prod.AssertKey? { NextPosIs(s, g); }
    if |g.ent| == nb + 1 { assert EntryOk(s.entries, g.ent, g.blk, g.retired, AtRest(s.prod), nb); }
    if s.prod.ResetCount? { assert PlaceOk(s.blocks, s.free, s.away, Hand(s.prod), g.user, |g.blk|, s.prod.b); }
    if s.prod.Construct? { LiveTail(s, g); }
  }

  // The block the producer writes to is its own: not complete, so neither pooled nor another's.
  lemma LiveTail(s: State, g: Ghost)
    requires Inv(s, g) && |g.blk| == BlockNo(s.ctr.tail) + 1
    ensures var n := BlockNo(s.ctr.tail);
            n !in g.closer && n !in g.retired && n !in g.released && Usable(s, g.blk[n])
  {
    var n := BlockNo(s.ctr.tail);
    assert BlockOk(s.blocks, g.blk, g.low, g.done, g.closer, g.retired, g.released, g.user, n);
    DoneAll(g.done, n * BLOCK_SIZE, n * BLOCK_SIZE + BLOCK_SIZE);
    assert s.ctr.tail !in g.done;
    assert PlaceOk(s.blocks, s.free, s.away, Hand(s.prod), g.user, |g.blk|, g.blk[n]);
  }

  lemma IsSafe(s: State, g: Ghost, a: Action)
    requires Inv(s, g) && Enabled(s, a)
    ensures Safe(s, a)
  {
    match a
    case Fetch(t) => FetchIsSafe(s, g, t);
    case Produce(c) => ProduceIsSafe(s, g, c);
    case _ =>
  }
}
