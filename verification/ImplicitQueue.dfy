// One implicit producer and any number of consumers
// (src/libtools/utils/concurentqueue.hh:2206-2779, 2827-2879).  The counters are the machine of
// Counters; here a consumer that has claimed [first, first + count) goes on to find its blocks
// through the circular block index, to move the items out and to give finished blocks back,
// while the producer opens blocks and grows the index.  Other producers take and return blocks
// of the shared pool at any time.  Each atomic access, and each access to shared memory, is one
// step.
module ImplicitQueue {
  import C = Counters
  import opened SubQueue

  const INITIAL_INDEX_SIZE: nat := 32
  const INVALID_BLOCK_BASE: nat := 1
  const NULL: nat := 0                 // a block pointer is the block's number plus 1

  datatype Block = Block(cells: seq<Cell>, finished: nat)   // elementsCompletelyDequeued
  datatype Entry = Entry(key: nat, value: nat)
  datatype Header = Header(tail: nat, index: seq<nat>)      // index[i] is the number of an entry

  datatype Taker =
    | Off
    | LoadIndex
    | LoadTail(h: nat)
    | LoadKey(h: nat, tl: nat)
    | LoadBlock(h: nat, slot: nat, i: nat)
    | Take(h: nat, slot: nat, e: nat, b: nat, from: nat, i: nat)
    | Count(h: nat, slot: nat, e: nat, b: nat, from: nat, i: nat)
    | ClearEntry(h: nat, slot: nat, e: nat, b: nat, i: nat)
    | Release(h: nat, slot: nat, e: nat, b: nat, i: nat)
    | Finished

  datatype Producer =
    | Idle
    | LoadHead(x: int)
    | TestKey(x: int)
    | TestValue(x: int)
    | Grow(x: int)
    | AssertKey(x: int)
    | SetKey(x: int, e: nat)
    | SetTail(x: int, e: nat)
    | Requisition(x: int, e: nat)
    | Rewind(x: int, e: nat)
    | NullEntry(x: int, e: nat)
    | ResetCount(x: int, e: nat, b: nat)
    | SetValue(x: int, e: nat, b: nat)
    | Construct(x: int)
    | PublishTail(x: int)

  // `got[k]` is what the consumer of index k received; `items` what was enqueued, in order.
  // `free` is the shared pool, `away` the blocks other producers use.
  datatype State = State(
    ctr: C.State, blocks: seq<Block>, entries: seq<Entry>, headers: seq<Header>, tailBlock: nat,
    free: set<nat>, away: set<nat>, prod: Producer, takers: seq<Taker>, got: map<nat, int>, items: seq<int>)

  // What an allocation or a pool gives: nothing, a block of the pool, a new block, or memory.
  datatype Choice = Fail | Pick(b: nat) | Fresh(block: Block) | Memory(garbage: seq<nat>)

  datatype Action =
    | Dequeue(t: nat, max: nat)   // consumer t starts a dequeue (max 1) or a dequeue_bulk (any max)
    | Claim(t: nat)               // its next instruction on the counters
    | Fetch(t: nat)               // its next instruction on the claimed items
    | Enqueue(x: int)
    | Produce(c: Choice)          // the producer's next instruction
    | OtherTakes(b: nat) | OtherReturns(b: nat) | OtherWrites(b: nat, block: Block) | OtherNew(block: Block)

  function Current(s: State): nat { if s.headers == [] then 0 else |s.headers| - 1 }

  predicate Enabled(s: State, a: Action) {
    match a
    case Dequeue(t, max) => t < |s.takers| == |s.ctr.pcs| && s.takers[t].Off? && s.ctr.pcs[t].Idle?
    case Claim(t) => t < |s.takers| == |s.ctr.pcs| && s.takers[t].Off? && C.Enabled(s.ctr, t, C.Go)
    case Fetch(t) => t < |s.takers| == |s.ctr.pcs| && !s.takers[t].Off? && s.ctr.pcs[t].Claimed?
    case Enqueue(x) => s.prod.Idle?
    case Produce(c) => !s.prod.Idle? && (c.Pick? ==> c.b in s.free) && (c.Fresh? ==> |c.block.cells| == BLOCK_SIZE)
    case OtherTakes(b) => b in s.free
    case OtherReturns(b) => b in s.away
    case OtherWrites(b, block) => b in s.away && |block.cells| == BLOCK_SIZE
    case OtherNew(block) => |block.cells| == BLOCK_SIZE
  }

  // ---- What the code must not do, and what it asserts ----

  predicate InHeader(s: State, h: nat, p: nat) {
    h < |s.headers| && p < |s.headers[h].index| && s.headers[h].index[p] < |s.entries|
  }

  function EntryAt(s: State, h: nat, p: nat): Entry
    requires InHeader(s, h, p)
  {
    s.entries[s.headers[h].index[p]]
  }

  // A block may be touched only by its user: it exists, and is neither pooled nor another's.
  predicate Usable(s: State, b: nat) {
    b < |s.blocks| && |s.blocks[b].cells| == BLOCK_SIZE && b !in s.free && b !in s.away
  }

  // The slot the consumer computes from the tail entry's base.
  function SlotFor(s: State, h: nat, tl: nat, first: nat): nat
    requires InHeader(s, h, tl)
  {
    (tl + (BlockBase(first) - EntryAt(s, h, tl).key) / BLOCK_SIZE) % |s.headers[h].index|
  }

  predicate SafeFetch(s: State, t: nat)
    requires Enabled(s, Fetch(t))
  {
    var first, count := s.ctr.pcs[t].first, s.ctr.pcs[t].count;
    match s.takers[t]
    case LoadTail(h) => h < |s.headers|
    case LoadKey(h, tl) =>
      // the assertions of get_block_index_index_for_index
      InHeader(s, h, tl) && EntryAt(s, h, tl).key != INVALID_BLOCK_BASE && InHeader(s, h, SlotFor(s, h, tl, first))
      && EntryAt(s, h, SlotFor(s, h, tl, first)).key == BlockBase(first)
      && EntryAt(s, h, SlotFor(s, h, tl, first)).value != NULL
    case LoadBlock(h, slot, i) => InHeader(s, h, slot) && EntryAt(s, h, slot).value != NULL
    case Take(h, slot, e, b, from, i) => Usable(s, b) && s.blocks[b].cells[i % BLOCK_SIZE].Item?
    case Count(h, slot, e, b, from, i) => Usable(s, b) && from <= i && s.blocks[b].finished + (i - from) <= BLOCK_SIZE
    case ClearEntry(h, slot, e, b, i) => e < |s.entries|
    case Release(h, slot, e, b, i) => Usable(s, b)
    case _ => true
  }

  predicate SafeProduce(s: State, c: Choice)
    requires Enabled(s, Produce(c))
  {
    var cur := Current(s);
    match s.prod
    case LoadHead(x) => s.ctr.head <= s.ctr.tail      // asserted
    case TestKey(x) => cur < |s.headers| && NextPos(s) < |s.headers[cur].index| && InHeader(s, cur, NextPos(s))
    case TestValue(x) => cur < |s.headers| && NextPos(s) < |s.headers[cur].index| && InHeader(s, cur, NextPos(s))
    case Grow(x) => cur < |s.headers| && |s.headers[cur].index| > 0
    case AssertKey(x) =>
      cur < |s.headers| && NextPos(s) < |s.headers[cur].index| && InHeader(s, cur, NextPos(s))
      && EntryAt(s, cur, NextPos(s)).key == INVALID_BLOCK_BASE      // asserted
    case SetKey(x, e) => e < |s.entries|
    case SetTail(x, e) => cur < |s.headers|
    case Rewind(x, e) => cur < |s.headers|
    case NullEntry(x, e) => e < |s.entries|
    case ResetCount(x, e, b) => Usable(s, b)
    case SetValue(x, e, b) => e < |s.entries|
    case Construct(x) => Usable(s, s.tailBlock)
    case _ => true
  }

  predicate Safe(s: State, a: Action)
    requires Enabled(s, a)
  {
    match a
    case Fetch(t) => SafeFetch(s, t)
    case Produce(c) => SafeProduce(s, c)
    case _ => true
  }

  // ---- The steps ----

  // (tail + 1) & (capacity - 1)
  function NextPos(s: State): nat {
    if s.headers != [] && |s.headers[Current(s)].index| > 0
    then (s.headers[Current(s)].tail + 1) % |s.headers[Current(s)].index| else 0
  }

  function SetTaker(s: State, t: nat, pc: Taker): State
    requires t < |s.takers|
  {
    s.(takers := s.takers[t := pc])
  }

  // After the part of the claim in one block: the next block, or the end.
  function NextPart(s: State, t: nat, h: nat, slot: nat, i: nat): Taker
    requires Enabled(s, Fetch(t))
  {
    if i == s.ctr.pcs[t].first + s.ctr.pcs[t].count then Finished
    else LoadBlock(h, if h < |s.headers| && |s.headers[h].index| > 0 then (slot + 1) % |s.headers[h].index| else 0, i)
  }

  function FetchStep(s: State, t: nat): State
    requires Enabled(s, Fetch(t)) && SafeFetch(s, t)
  {
    var first, limit := s.ctr.pcs[t].first, s.ctr.pcs[t].first + s.ctr.pcs[t].count;
    match s.takers[t]
    case LoadIndex => SetTaker(s, t, LoadTail(Current(s)))
    case LoadTail(h) => SetTaker(s, t, LoadKey(h, s.headers[h].tail))
    case LoadKey(h, tl) => SetTaker(s, t, LoadBlock(h, SlotFor(s, h, tl, first), first))
    case LoadBlock(h, slot, i) =>
      // a part is empty only if the claim is: then nothing is moved, and 0 is added to the count
      var e, b := s.headers[h].index[slot], EntryAt(s, h, slot).value - 1;
      SetTaker(s, t, if i == limit then Count(h, slot, e, b, i, i) else Take(h, slot, e, b, i, i))
    case Take(h, slot, e, b, from, i) =>
      var cell := i % BLOCK_SIZE;
      SetTaker(s, t, if i + 1 == End(from, limit) then Count(h, slot, e, b, from, i + 1)
          else Take(h, slot, e, b, from, i + 1))
      .(got := s.got[i := s.blocks[b].cells[cell].x],
        blocks := s.blocks[b := s.blocks[b].(cells := s.blocks[b].cells[cell := Raw])])
    case Count(h, slot, e, b, from, i) =>
      var now := s.blocks[b].finished + (i - from);
      SetTaker(s, t, if now == BLOCK_SIZE then ClearEntry(h, slot, e, b, i) else NextPart(s, t, h, slot, i))
      .(blocks := s.blocks[b := s.blocks[b].(finished := now)])
    case ClearEntry(h, slot, e, b, i) =>
      SetTaker(s, t, Release(h, slot, e, b, i)).(entries := s.entries[e := s.entries[e].(value := NULL)])
    case Release(h, slot, e, b, i) => SetTaker(s, t, NextPart(s, t, h, slot, i)).(free := s.free + {b})
    case Finished => SetTaker(s, t, Off).(ctr := C.Step(s.ctr, t, C.Finish))
  }

  // The copy of new_block_index: the old ring, rotated so that its tail comes last, then as many
  // new entries.
  function GrownIndex(ring: seq<nat>, tail: nat, firstNew: nat): seq<nat>
    requires |ring| > 0
  {
    seq(2 * |ring|, i requires 0 <= i => if i < |ring| then ring[(tail + 1 + i) % |ring|] else firstNew + (i - |ring|))
  }

  // New entries have an invalid key; their values are whatever the memory held.
  function NewEntries(n: nat, garbage: seq<nat>): seq<Entry> {
    seq(n, i requires 0 <= i => Entry(INVALID_BLOCK_BASE, if i < |garbage| then garbage[i] else NULL))
  }

  function ProduceStep(s: State, c: Choice): State
    requires Enabled(s, Produce(c)) && SafeProduce(s, c)
  {
    var cur := Current(s);
    match s.prod
    case LoadHead(x) => s.(prod := if s.ctr.tail + BLOCK_SIZE - s.ctr.head < HALF then TestKey(x) else Idle)
    case TestKey(x) =>
      s.(prod := if EntryAt(s, cur, NextPos(s)).key == INVALID_BLOCK_BASE
                 then SetKey(x, s.headers[cur].index[NextPos(s)]) else TestValue(x))
    case TestValue(x) =>
      s.(prod := if EntryAt(s, cur, NextPos(s)).value == NULL
                 then SetKey(x, s.headers[cur].index[NextPos(s)]) else Grow(x))
    case Grow(x) =>
      if c.Fail? then s.(prod := Idle)
      else
        var ring := s.headers[cur].index;
        var header := Header(|ring| - 1, GrownIndex(ring, s.headers[cur].tail, |s.entries|));
        s.(prod := AssertKey(x),
           entries := s.entries + NewEntries(|ring|, if c.Memory? then c.garbage else []),
           headers := s.headers + [header])
    case AssertKey(x) => s.(prod := SetKey(x, s.headers[cur].index[NextPos(s)]))
    case SetKey(x, e) => s.(prod := SetTail(x, e), entries := s.entries[e := s.entries[e].(key := s.ctr.tail)])
    case SetTail(x, e) =>
      s.(prod := Requisition(x, e), headers := s.headers[cur := s.headers[cur].(tail := NextPos(s))])
    case Requisition(x, e) =>
      (match c
       case Pick(b) => s.(prod := ResetCount(x, e, b), free := s.free - {b})
       case Fresh(block) => s.(prod := ResetCount(x, e, |s.blocks|), blocks := s.blocks + [block])
       case _ => s.(prod := Rewind(x, e)))
    case Rewind(x, e) =>
      var n := |s.headers[cur].index|;
      s.(prod := NullEntry(x, e),
         headers := s.headers[cur := s.headers[cur].(tail := if n == 0 then 0 else (s.headers[cur].tail + n - 1) % n)])
    case NullEntry(x, e) => s.(prod := Idle, entries := s.entries[e := s.entries[e].(value := NULL)])
    case ResetCount(x, e, b) => s.(prod := SetValue(x, e, b), blocks := s.blocks[b := s.blocks[b].(finished := 0)])
    case SetValue(x, e, b) =>
      s.(prod := Construct(x), tailBlock := b, entries := s.entries[e := s.entries[e].(value := b + 1)])
    case Construct(x) =>
      var b, cell := s.tailBlock, s.ctr.tail % BLOCK_SIZE;
      s.(prod := PublishTail(x), blocks := s.blocks[b := s.blocks[b].(cells := s.blocks[b].cells[cell := Item(x)])])
    case PublishTail(x) => s.(prod := Idle, ctr := C.Step(s.ctr, 0, C.Publish(1)), items := s.items + [x])
  }

  function Step(s: State, a: Action): State
    requires Enabled(s, a) && Safe(s, a)
  {
    match a
    case Dequeue(t, max) => s.(ctr := C.Step(s.ctr, t, C.Start(max)))
    case Claim(t) =>
      var ctr := C.Step(s.ctr, t, C.Go);
      s.(ctr := ctr, takers := s.takers[t := if ctr.pcs[t].Claimed? then LoadIndex else Off])
    case Fetch(t) => FetchStep(s, t)
    case Enqueue(x) => s.(prod := if s.ctr.tail % BLOCK_SIZE == 0 then LoadHead(x) else Construct(x))
    case Produce(c) => ProduceStep(s, c)
    case OtherTakes(b) => s.(free := s.free - {b}, away := s.away + {b})
    case OtherReturns(b) => s.(free := s.free + {b}, away := s.away - {b})
    case OtherWrites(b, block) => if b < |s.blocks| then s.(blocks := s.blocks[b := block]) else s
    case OtherNew(block) => s.(blocks := s.blocks + [block], away := s.away + {|s.blocks|})
  }

  // The index the constructor makes.
  ghost predicate FirstIndex(entries: seq<Entry>, headers: seq<Header>) {
    && |entries| == INITIAL_INDEX_SIZE
    && (forall e :: 0 <= e < INITIAL_INDEX_SIZE ==> entries[e].key == INVALID_BLOCK_BASE)
    && headers == [Header(INITIAL_INDEX_SIZE - 1, seq(INITIAL_INDEX_SIZE, i requires 0 <= i => i))]
  }

  // The constructor ignores it when its new_block_index fails: then there is no index at all.
  ghost predicate Init(s: State) {
    && C.Init(s.ctr) && |s.takers| == |s.ctr.pcs|
    && (FirstIndex(s.entries, s.headers) || (s.entries == [] && s.headers == []))
    && s.prod == Idle && s.got == map[] && s.items == []
    && (forall t :: 0 <= t < |s.takers| ==> s.takers[t].Off?)
    && s.away == {}
    && (forall b :: b in s.free <==> 0 <= b < |s.blocks|)
    && (forall b :: 0 <= b < |s.blocks| ==> |s.blocks[b].cells| == BLOCK_SIZE)
  }

  predicate AsksFor(a: Action, least: nat) { a.Dequeue? ==> a.max >= least }

  // An unsafe instruction may do anything at all.
  ghost predicate Stepped(s: State, s': State, least: nat) {
    exists a :: Enabled(s, a) && AsksFor(a, least) && (Safe(s, a) ==> s' == Step(s, a))
  }

  // A run in which every dequeue asks for at least so many items.
  ghost predicate IsRun(run: seq<State>, least: nat) {
    && |run| > 0 && Init(run[0])
    && forall i :: 0 <= i < |run| - 1 ==> Stepped(run[i], run[i + 1], least)
  }

  // What the code counts on: the first index was allocated, and nobody asks for no items at all.
  // ImplicitFaults shows what happens otherwise.
  ghost predicate IsProperRun(run: seq<State>) {
    IsRun(run, 1) && run[0].headers != []
  }
}
