// One explicit producer and any number of consumers
// (src/libtools/utils/concurentqueue.hh:1563-1843, 2032-2178).  The counters are the machine of
// Counters; here a consumer that has claimed [first, first + count) finds its blocks through the
// circular block index and marks the items it has moved out in its blocks' flags, while the
// producer keeps its blocks in a circular list, reuses the oldest one when all its flags are set,
// and inserts a block or doubles the index when it is not.  Each atomic access, and each access
// to shared memory, is one step.
module ExplicitQueue {
  import C = Counters
  import opened Modular
  import opened SubQueue

  const INITIAL_SIZE: nat := 16        // EXPLICIT_INITIAL_INDEX_SIZE >> 1
  const NULL: int := -1                // tailBlock before the first block

  // emptyFlags[BLOCK_SIZE - 1 - c] is the flag of cell c.
  datatype Block = Block(cells: seq<Cell>, empty: seq<bool>, next: nat)
  datatype Entry = Entry(base: nat, block: nat)
  datatype Header = Header(entries: seq<Entry>, front: int)     // front is -1 before the first block

  datatype Taker =
    | Off
    | LoadIndex
    | LoadFront(h: nat)
    | LoadBase(h: nat, f: int)
    | LoadBlock(h: nat, slot: nat, i: nat)
    | Take(h: nat, slot: nat, b: nat, from: nat, i: nat)
    | SetFlag(h: nat, slot: nat, b: nat, from: nat, i: nat, j: nat)   // flag number j of the part [from, i)
    | Finished

  datatype Producer =
    | Idle
    | LoadFlag(x: int, i: nat)
    | Advance(x: int)
    | ResetFlag(x: int, i: nat)
    | LoadHead(x: int)
    | Grow(x: int)
    | Requisition(x: int)
    | ResetNew(x: int, b: nat, i: nat)
    | Link(x: int, b: nat)
    | SetBase(x: int)
    | SetBlock(x: int)
    | SetFront(x: int)
    | Construct(x: int)
    | PublishTail(x: int)

  // `size`, `used` and `prFront` are pr_blockIndexSize, pr_blockIndexSlotsUsed and
  // pr_blockIndexFront; the last of `headers` is the current one.  `got[k]` is what the consumer of
  // index k received; `items` what was enqueued, in order.  `free` is the shared pool, `away` the
  // blocks other producers use.
  datatype State = State(
    ctr: C.State, blocks: seq<Block>, headers: seq<Header>, size: nat, used: nat, prFront: nat, tailBlock: int,
    free: set<nat>, away: set<nat>, prod: Producer, takers: seq<Taker>, got: map<nat, int>, items: seq<int>)

  // What an allocation or a pool gives: nothing, a block of the pool, a new block, or memory.
  datatype Choice = Fail | Pick(b: nat) | Fresh(block: Block) | Memory(garbage: seq<Entry>)

  datatype Action =
    | Dequeue(t: nat, max: nat)   // consumer t starts a dequeue (max 1) or a dequeue_bulk (any max)
    | Claim(t: nat)               // its next instruction on the counters
    | Fetch(t: nat)               // its next instruction on the claimed items
    | Enqueue(x: int)
    | Produce(c: Choice)          // the producer's next instruction
    | OtherTakes(b: nat) | OtherReturns(b: nat) | OtherWrites(b: nat, block: Block) | OtherNew(block: Block)

  function Current(s: State): nat { if s.headers == [] then 0 else |s.headers| - 1 }

  predicate Whole(block: Block) { |block.cells| == BLOCK_SIZE && |block.empty| == BLOCK_SIZE }

  predicate Enabled(s: State, a: Action) {
    match a
    case Dequeue(t, max) => t < |s.takers| == |s.ctr.pcs| && s.takers[t].Off? && s.ctr.pcs[t].Idle?
    case Claim(t) => t < |s.takers| == |s.ctr.pcs| && s.takers[t].Off? && C.Enabled(s.ctr, t, C.Go)
    case Fetch(t) => t < |s.takers| == |s.ctr.pcs| && !s.takers[t].Off? && s.ctr.pcs[t].Claimed?
    case Enqueue(x) => s.prod.Idle?
    case Produce(c) => !s.prod.Idle? && (c.Pick? ==> c.b in s.free) && (c.Fresh? ==> Whole(c.block))
    case OtherTakes(b) => b in s.free
    case OtherReturns(b) => b in s.away
    case OtherWrites(b, block) => b in s.away && Whole(block)
    case OtherNew(block) => Whole(block)
  }

  // ---- What the code must not do, and what it asserts ----

  predicate InHeader(s: State, h: nat, p: int) {
    h < |s.headers| && 0 <= p < |s.headers[h].entries|
  }

  // A block may be touched only by its user: it exists, and is neither pooled nor another's.
  predicate Usable(s: State, b: int) {
    0 <= b < |s.blocks| && Whole(s.blocks[b]) && b !in s.free && b !in s.away
  }

  // The slot the consumer computes from the base of the front entry.
  function SlotFor(s: State, h: nat, f: int, first: nat): nat
    requires InHeader(s, h, f)
  {
    (f + (BlockBase(first) - s.headers[h].entries[f].base) / BLOCK_SIZE) % |s.headers[h].entries|
  }

  // The flag for element number j, from the last, of the part [from, i).
  function FlagNo(from: nat, i: nat, j: nat): int { BLOCK_SIZE - 1 - from % BLOCK_SIZE - (i - from) + 1 + j }

  predicate SafeFetch(s: State, t: nat)
    requires Enabled(s, Fetch(t))
  {
    match s.takers[t]
    case LoadFront(h) => h < |s.headers|
    case LoadBase(h, f) => InHeader(s, h, f)
    case LoadBlock(h, slot, i) => InHeader(s, h, slot)
    case Take(h, slot, b, from, i) => Usable(s, b) && s.blocks[b].cells[i % BLOCK_SIZE].Item?
    case SetFlag(h, slot, b, from, i, j) =>
      // the assertion in set_empty and set_many_empty
      Usable(s, b) && from <= i && 0 <= FlagNo(from, i, j) < BLOCK_SIZE && !s.blocks[b].empty[FlagNo(from, i, j)]
    case _ => true
  }

  // Entries are plain memory: the producer may write one only while no consumer is about to read it.
  predicate Reads(pc: Taker, h: nat, p: nat) {
    (pc.LoadBase? && pc.h == h && pc.f == p) || (pc.LoadBlock? && pc.h == h && pc.slot == p)
  }

  predicate NoReader(s: State) {
    forall t :: 0 <= t < |s.takers| ==> !Reads(s.takers[t], Current(s), s.prFront)
  }

  // So are cells.
  predicate TouchesCell(pc: Taker, b: int, cell: nat) { pc.Take? && pc.b == b && pc.i % BLOCK_SIZE == cell }

  predicate SafeProduce(s: State, c: Choice)
    requires Enabled(s, Produce(c))
  {
    var cur := Current(s);
    match s.prod
    case LoadFlag(x, i) => Usable(s, s.tailBlock) && Usable(s, s.blocks[s.tailBlock].next) && i < BLOCK_SIZE
    case Advance(x) => Usable(s, s.tailBlock)
    case ResetFlag(x, i) => Usable(s, s.tailBlock) && i < BLOCK_SIZE
    case LoadHead(x) => s.ctr.head <= s.ctr.tail      // asserted
    case Grow(x) => s.used > 0 ==> cur < |s.headers| && s.used <= |s.headers[cur].entries|
    case ResetNew(x, b, i) => Usable(s, b) && i < BLOCK_SIZE
    case Link(x, b) => Usable(s, b) && (s.tailBlock != NULL ==> Usable(s, s.tailBlock))
    case SetBase(x) => InHeader(s, cur, s.prFront) && NoReader(s)
    case SetBlock(x) => InHeader(s, cur, s.prFront) && NoReader(s) && s.tailBlock >= 0
    case SetFront(x) => cur < |s.headers| && s.size > 0
    case Construct(x) => Usable(s, s.tailBlock)
        && forall t :: 0 <= t < |s.takers| ==> !TouchesCell(s.takers[t], s.tailBlock, s.ctr.tail % BLOCK_SIZE)
    case _ => true
  }

  predicate Safe(s: State, a: Action)
    requires Enabled(s, a)
  {
    match a
    case Fetch(t) => SafeFetch(s, t)
    case Produce(c) => SafeProduce(s, c)
    case _ => true
  }

  // ---- The steps ----

  function SetTaker(s: State, t: nat, pc: Taker): State
    requires t < |s.takers|
  {
    s.(takers := s.takers[t := pc])
  }

  function FetchStep(s: State, t: nat): State
    requires Enabled(s, Fetch(t)) && SafeFetch(s, t)
  {
    var first, limit := s.ctr.pcs[t].first, s.ctr.pcs[t].first + s.ctr.pcs[t].count;
    match s.takers[t]
    case LoadIndex => SetTaker(s, t, LoadFront(Current(s)))
    case LoadFront(h) => SetTaker(s, t, LoadBase(h, s.headers[h].front))
    case LoadBase(h, f) => SetTaker(s, t, LoadBlock(h, SlotFor(s, h, f, first), first))
    case LoadBlock(h, slot, i) =>
      // a part is empty only if the claim is: then the block is not touched
      SetTaker(s, t, if i == limit then Finished else Take(h, slot, s.headers[h].entries[slot].block, i, i))
    case Take(h, slot, b, from, i) =>
      var cell := i % BLOCK_SIZE;
      SetTaker(s, t, if i + 1 == End(from, limit) then SetFlag(h, slot, b, from, i + 1, 0)
          else Take(h, slot, b, from, i + 1))
      .(got := s.got[i := s.blocks[b].cells[cell].x],
        blocks := s.blocks[b := s.blocks[b].(cells := s.blocks[b].cells[cell := Raw])])
    case SetFlag(h, slot, b, from, i, j) =>
      SetTaker(s, t,
        if from + j + 1 < i then SetFlag(h, slot, b, from, i, j + 1)
        else if i == limit then Finished
        else LoadBlock(h, if h < |s.headers| && |s.headers[h].entries| > 0 then (slot + 1) % |s.headers[h].entries|
            else 0, i))
      .(blocks := s.blocks[b := s.blocks[b].(empty := s.blocks[b].empty[FlagNo(from, i, j) := true])])
    case Finished => SetTaker(s, t, Off).(ctr := C.Step(s.ctr, t, C.Finish))
  }

  // The copy of new_block_index: the last `used` entries up to `front`, oldest first; the rest of the
  // new array is whatever the memory held.
  function GrownEntries(entries: seq<Entry>, front: nat, used: nat, garbage: seq<Entry>, size: nat): seq<Entry>
    requires used > 0 ==> used <= |entries|
  {
    seq(size, i requires 0 <= i =>
      if i < used then entries[(front + |entries| - used + i) % |entries|]
      else if i < |garbage| then garbage[i] else Entry(0, 0))
  }

  function ProduceStep(s: State, c: Choice): State
    requires Enabled(s, Produce(c)) && SafeProduce(s, c)
  {
    var cur := Current(s);
    match s.prod
    case LoadFlag(x, i) =>
      s.(prod := if !s.blocks[s.blocks[s.tailBlock].next].empty[i] then LoadHead(x)
                 else if i + 1 < BLOCK_SIZE then LoadFlag(x, i + 1) else Advance(x))
    case Advance(x) => s.(prod := ResetFlag(x, 0), tailBlock := s.blocks[s.tailBlock].next)
    case ResetFlag(x, i) =>
      s.(prod := if i + 1 < BLOCK_SIZE then ResetFlag(x, i + 1) else SetBase(x),
         blocks := s.blocks[s.tailBlock := s.blocks[s.tailBlock].(empty := s.blocks[s.tailBlock].empty[i := false])])
    case LoadHead(x) =>
      s.(prod := if !(s.ctr.tail + BLOCK_SIZE - s.ctr.head < HALF) then Idle
                 else if s.headers == [] || s.used == s.size then Grow(x) else Requisition(x))
    case Grow(x) =>
      if c.Fail? then s.(prod := Idle)
      else
        var entries := if s.used > 0 then s.headers[cur].entries else [];
        var grown := GrownEntries(entries, s.prFront, s.used, if c.Memory? then c.garbage else [], 2 * s.size);
        s.(prod := Requisition(x), headers := s.headers + [Header(grown, s.used - 1)], size := 2 * s.size,
            prFront := s.used)
    case Requisition(x) =>
      (match c
       case Pick(b) => s.(prod := ResetNew(x, b, 0), free := s.free - {b})
       case Fresh(block) => s.(prod := ResetNew(x, |s.blocks|, 0), blocks := s.blocks + [block])
       case _ => s.(prod := Idle))
    case ResetNew(x, b, i) =>
      s.(prod := if i + 1 < BLOCK_SIZE then ResetNew(x, b, i + 1) else Link(x, b),
         blocks := s.blocks[b := s.blocks[b].(empty := s.blocks[b].empty[i := false])])
    case Link(x, b) =>
      var t := s.tailBlock;
      s.(prod := SetBase(x), tailBlock := b, used := s.used + 1,
         blocks := if t == NULL then s.blocks[b := s.blocks[b].(next := b)]
                   else s.blocks[b := s.blocks[b].(next := s.blocks[t].next)][t := s.blocks[t].(next := b)])
    case SetBase(x) =>
      var header := s.headers[cur];
      var entry := header.entries[s.prFront];
      s.(prod := SetBlock(x),
         headers := s.headers[cur := header.(entries := header.entries[s.prFront := entry.(base := s.ctr.tail)])])
    case SetBlock(x) =>
      var header := s.headers[cur];
      var entry := header.entries[s.prFront];
      s.(prod := SetFront(x),
         headers := s.headers[cur := header.(entries := header.entries[s.prFront := entry.(block := s.tailBlock)])])
    case SetFront(x) =>
      s.(prod := Construct(x), headers := s.headers[cur := s.headers[cur].(front := s.prFront)],
         prFront := (s.prFront + 1) % s.size)
    case Construct(x) =>
      var b, cell := s.tailBlock, s.ctr.tail % BLOCK_SIZE;
      s.(prod := PublishTail(x), blocks := s.blocks[b := s.blocks[b].(cells := s.blocks[b].cells[cell := Item(x)])])
    case PublishTail(x) => s.(prod := Idle, ctr := C.Step(s.ctr, 0, C.Publish(1)), items := s.items + [x])
  }

  function Step(s: State, a: Action): State
    requires Enabled(s, a) && Safe(s, a)
  {
    match a
    case Dequeue(t, max) => s.(ctr := C.Step(s.ctr, t, C.Start(max)))
    case Claim(t) =>
      var ctr := C.Step(s.ctr, t, C.Go);
      s.(ctr := ctr, takers := s.takers[t := if ctr.pcs[t].Claimed? then LoadIndex else Off])
    case Fetch(t) => FetchStep(s, t)
    case Enqueue(x) =>
      s.(prod := if s.ctr.tail % BLOCK_SIZE != 0 then Construct(x)
                 else if s.tailBlock != NULL then LoadFlag(x, 0) else LoadHead(x))
    case Produce(c) => ProduceStep(s, c)
    case OtherTakes(b) => s.(free := s.free - {b}, away := s.away + {b})
    case OtherReturns(b) => s.(free := s.free + {b}, away := s.away - {b})
    case OtherWrites(b, block) => if b < |s.blocks| then s.(blocks := s.blocks[b := block]) else s
    case OtherNew(block) => s.(blocks := s.blocks + [block], away := s.away + {|s.blocks|})
  }

  // The constructor's own new_block_index may have failed.
  ghost predicate Init(s: State) {
    && C.Init(s.ctr) && |s.takers| == |s.ctr.pcs|
    && s.size >= INITIAL_SIZE && PowerOfTwo(s.size) && s.used == 0 && s.prFront == 0 && s.tailBlock == NULL
    && (s.headers == [] || (|s.headers| == 1 && |s.headers[0].entries| == s.size && s.headers[0].front == -1))
    && s.prod == Idle && s.got == map[] && s.items == []
    && (forall t :: 0 <= t < |s.takers| ==> s.takers[t].Off?)
    && s.away == {}
    && (forall b :: b in s.free <==> 0 <= b < |s.blocks|)
    && (forall b :: 0 <= b < |s.blocks| ==> Whole(s.blocks[b]))
  }

  predicate AsksFor(a: Action, least: nat) { a.Dequeue? ==> a.max >= least }

  // An unsafe instruction may do anything at all.
  ghost predicate Stepped(s: State, s': State, least: nat) {
    exists a :: Enabled(s, a) && AsksFor(a, least) && (Safe(s, a) ==> s' == Step(s, a))
  }

  // A run in which every dequeue asks for at least so many items.
  ghost predicate IsRun(run: seq<State>, least: nat) {
    && |run| > 0 && Init(run[0])
    && forall i :: 0 <= i < |run| - 1 ==> Stepped(run[i], run[i + 1], least)
  }

  // What the code counts on: nobody asks for no items at all.  ExplicitFaults shows what happens
  // otherwise.
  ghost predicate IsProperRun(run: seq<State>) { IsRun(run, 1) }
}
