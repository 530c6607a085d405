// The table from thread id to implicit producer (src/libtools/utils/concurentqueue.hh:3063-3303):
// open addressing with linear probing, grown by chaining a bigger table in front of the older
// ones.  Any number of threads call get_or_add_implicit_producer, each atomic load, store,
// compare-exchange and fetch_add is one step, and either allocation may fail.
module ProducerHash {
  import opened Modular

  const EMPTY: nat := 0                   // details::invalid_thread_id
  const INITIAL_HASH_SIZE: nat := 32      // INITIAL_IMPLICIT_PRODUCER_HASH_SIZE
  const NO_PRODUCER: nat := 0             // nullptr

  datatype Slot = Slot(key: nat, value: nat)

  // `older` is the table that was current before this one, -1 for the first.
  datatype Table = Table(capacity: nat, older: int, slots: seq<Slot>)

  datatype Pc =
    | Idle
    | LoadMain
    | Look(main: nat, tab: nat, j: nat)             // probe number j of table tab
    // adding (id, value) to table main: first insert and lazy re-insert are the same loop
    | PutLoad(main: nat, value: nat, j: nat)
    | PutCas(main: nat, value: nat, j: nat)
    | PutStore(main: nat, value: nat, j: nat)
    // the id is in no table
    | TakeTicket(main: nat)
    | TestHalf(main: nat, ticket: nat)
    | TryLock(main: nat, ticket: nat)
    | Reload(ticket: nat)
    | Allocate(main: nat, ticket: nat)
    | Publish(main: nat, ticket: nat)
    | Unlock(main: nat, ticket: nat)
    | TestRoom(main: nat, ticket: nat)
    | LoadAgain(ticket: nat)
    | Create(main: nat, ticket: nat)
    // an allocation failed: give the ticket back (and the lock, if held)
    | GiveBack(ticket: nat, locked: bool)
    | GiveUpLock
    | Done(value: nat)

  // `hash[t]` is the hash of thread t's id, any number; `results[t]` what t's calls returned.
  datatype State = State(
    tables: seq<Table>, count: int, resizing: bool, made: nat,
    hash: seq<nat>, pcs: seq<Pc>, results: seq<seq<nat>>)

  // Go's flag says whether an allocation made by this step succeeds.
  datatype Action = Call | Go(granted: bool)

  // Thread ids are distinct and never EMPTY.
  function Id(t: nat): nat { t + 1 }

  function At(h: nat, j: nat, capacity: nat): nat
    requires capacity > 0
  {
    (h + j) % capacity
  }

  function Half(capacity: nat): nat { capacity / 2 }
  function ThreeQuarters(capacity: nat): nat { capacity / 2 + capacity / 4 }

  // The doubling loop that sizes a new table.
  function GrownCapacity(capacity: nat, ticket: nat): (c: nat)
    requires capacity > 0
    ensures c >= capacity && ticket < Half(c)
    decreases if ticket < Half(capacity) then 0 else 2 * ticket + 2 - capacity
  {
    if ticket < Half(capacity) then capacity else GrownCapacity(2 * capacity, ticket)
  }

  function EmptyTable(capacity: nat, older: int): Table {
    Table(capacity, older, seq(capacity, _ => Slot(EMPTY, NO_PRODUCER)))
  }

  predicate Enabled(s: State, t: nat, a: Action) {
    && t < |s.pcs| == |s.hash| == |s.results|
    && (a.Call? <==> s.pcs[t].Idle?)
  }

  function Goto(s: State, t: nat, pc: Pc): State
    requires t < |s.pcs|
  {
    s.(pcs := s.pcs[t := pc])
  }

  predicate InBounds(s: State, tab: nat) { tab < |s.tables| && 0 < s.tables[tab].capacity == |s.tables[tab].slots| }

  function SlotAt(s: State, tab: nat, h: nat, j: nat): Slot {
    if InBounds(s, tab) then s.tables[tab].slots[At(h, j, s.tables[tab].capacity)] else Slot(EMPTY, NO_PRODUCER)
  }

  function Capacity(s: State, tab: nat): nat { if tab < |s.tables| then s.tables[tab].capacity else 0 }

  function SetSlot(s: State, tab: nat, h: nat, j: nat, x: Slot): State {
    if InBounds(s, tab) then
      var b := s.tables[tab];
      s.(tables := s.tables[tab := b.(slots := b.slots[At(h, j, b.capacity) := x])])
    else s
  }

  function Step(s: State, t: nat, a: Action): State
    requires Enabled(s, t, a)
  {
    match a
    case Call => Goto(s, t, LoadMain)
    case Go(granted) =>
      var h := s.hash[t];
      match s.pcs[t]
      case LoadMain =>
        if s.tables == [] then s else Goto(s, t, Look(|s.tables| - 1, |s.tables| - 1, 0))
      case Look(main, tab, j) =>
        var x := SlotAt(s, tab, h, j);
        Goto(s, t,
          if x.key == Id(t) then (if tab != main then PutLoad(main, x.value, 0) else Done(x.value))
          else if x.key != EMPTY then Look(main, tab, j + 1)
          else if tab < |s.tables| && s.tables[tab].older >= 0 then Look(main, s.tables[tab].older, 0)
          else TakeTicket(main))
      case PutLoad(main, value, j) =>
        Goto(s, t, if SlotAt(s, main, h, j).key == EMPTY then PutCas(main, value, j) else PutLoad(main, value, j + 1))
      case PutCas(main, value, j) =>
        var x := SlotAt(s, main, h, j);
        if x.key == EMPTY
        then Goto(SetSlot(s, main, h, j, x.(key := Id(t))), t, PutStore(main, value, j))
        else Goto(s, t, PutLoad(main, value, j + 1))
      case PutStore(main, value, j) =>
        Goto(SetSlot(s, main, h, j, SlotAt(s, main, h, j).(value := value)), t, Done(value))
      case TakeTicket(main) => Goto(s, t, TestHalf(main, Ticket(s))).(count := s.count + 1)
      case TestHalf(main, ticket) =>
        Goto(s, t, if ticket >= Half(Capacity(s, main)) then TryLock(main, ticket) else TestRoom(main, ticket))
      case TryLock(main, ticket) =>
        if s.resizing then Goto(s, t, TestRoom(main, ticket)) else Goto(s, t, Reload(ticket)).(resizing := true)
      case Reload(ticket) =>
        if s.tables == [] then s
        else
          var main := |s.tables| - 1;
          Goto(s, t, if ticket >= Half(Capacity(s, main)) then Allocate(main, ticket) else Unlock(main, ticket))
      case Allocate(main, ticket) => Goto(s, t, if granted then Publish(main, ticket) else GiveBack(ticket, true))
      case Publish(main, ticket) =>
        var c := Capacity(s, main);
        if c == 0 then s
        else
          Goto(s, t, Unlock(|s.tables|, ticket))
          .(tables := s.tables + [EmptyTable(GrownCapacity(2 * c, ticket), main)])
      case Unlock(main, ticket) => Goto(s, t, TestRoom(main, ticket)).(resizing := false)
      case TestRoom(main, ticket) =>
        Goto(s, t, if ticket < ThreeQuarters(Capacity(s, main)) then Create(main, ticket) else LoadAgain(ticket))
      case LoadAgain(ticket) =>
        if s.tables == [] then s else Goto(s, t, TestHalf(|s.tables| - 1, ticket))
      case Create(main, ticket) =>
        if granted
        then Goto(s, t, PutLoad(main, s.made + 1, 0)).(made := s.made + 1)
        else Goto(s, t, GiveBack(ticket, false))
      case GiveBack(ticket, locked) =>
        Goto(s, t, if locked then GiveUpLock else Done(NO_PRODUCER)).(count := s.count - 1)
      case GiveUpLock => Goto(s, t, Done(NO_PRODUCER)).(resizing := false)
      case Done(value) => Goto(s, t, Idle).(results := s.results[t := s.results[t] + [value]])
  }

  // newCount in the code
  function Ticket(s: State): nat { if s.count >= 0 then s.count + 1 else 0 }

  predicate Init(s: State) {
    && s.tables == [EmptyTable(INITIAL_HASH_SIZE, -1)]
    && s.count == 0 && !s.resizing && s.made == 0
    && |s.pcs| == |s.hash| == |s.results|
    && forall t :: 0 <= t < |s.pcs| ==> s.pcs[t].Idle? && s.results[t] == []
  }

  ghost predicate Stepped(s: State, s': State) {
    exists t, a :: Enabled(s, t, a) && s' == Step(s, t, a)
  }

  ghost predicate IsRun(run: seq<State>) {
    && |run| > 0 && Init(run[0])
    && forall i :: 0 <= i < |run| - 1 ==> Stepped(run[i], run[i + 1])
  }

  // ---- Tickets ----

  // Proof bookkeeping: the ticket each thread holds and has not given back (0 for none), and the
  // producer made for it (0 for none).
  datatype Ghost = Ghost(ticket: seq<nat>, producer: seq<nat>)

  // Threads whose ticket is in (0, m).
  function Holding(ticket: seq<nat>, m: nat): nat {
    if ticket == [] then 0 else (if 0 < ticket[0] < m then 1 else 0) + Holding(ticket[1..], m)
  }

  // Threads with any ticket.
  function Held(ticket: seq<nat>): nat {
    if ticket == [] then 0 else (if 0 < ticket[0] then 1 else 0) + Held(ticket[1..])
  }

  lemma {:induction false} TicketUpdate(ticket: seq<nat>, m: nat, t: nat, v: nat)
    requires t < |ticket|
    ensures Holding(ticket[t := v], m) + (if 0 < ticket[t] < m then 1 else 0)
        == Holding(ticket, m) + (if 0 < v < m then 1 else 0)
    ensures Held(ticket[t := v]) + (if 0 < ticket[t] then 1 else 0) == Held(ticket) + (if 0 < v then 1 else 0)
  {
    var q := ticket[t := v];
    if t == 0 {
      assert q[1..] == ticket[1..];
    } else {
      assert q[1..] == ticket[1..][t - 1 := v];
      TicketUpdate(ticket[1..], m, t - 1, v);
    }
  }

  lemma {:induction false} HoldingAtMostHeld(ticket: seq<nat>, m: nat)
    ensures Holding(ticket, m) <= Held(ticket)
  {
    if ticket == [] {
    } else {
      HoldingAtMostHeld(ticket[1..], m);
    }
  }

  // Fewer than m threads hold a ticket below m.  This survives give-backs, after which two
  // threads can hold equal tickets.
  ghost predicate TicketsOk(s: State, g: Ghost) {
    && s.count == Held(g.ticket)
    && forall m: nat {:trigger Holding(g.ticket, m)} :: m > 0 ==> Holding(g.ticket, m) < m
  }

  lemma TakeKeepsTickets(ticket: seq<nat>, t: nat, m: nat)
    requires t < |ticket| && ticket[t] == 0 && m > 0
    requires Holding(ticket, m) < m
    ensures Holding(ticket[t := Held(ticket) + 1], m) < m
  {
    TicketUpdate(ticket, m, t, Held(ticket) + 1);
    HoldingAtMostHeld(ticket, m);
  }

  // ---- The invariant ----

  // The first j probes for hash h meet keys, none of them EMPTY.
  ghost predicate Full(b: Table, h: nat, j: nat)
    requires 0 < b.capacity == |b.slots|
  {
    forall i :: 0 <= i < j ==> b.slots[At(h, i, b.capacity)].key != EMPTY
  }

  // ... and none of them is id.
  ghost predicate Missed(b: Table, h: nat, j: nat, id: nat)
    requires 0 < b.capacity == |b.slots|
  {
    forall i :: 0 <= i < j ==> b.slots[At(h, i, b.capacity)].key != EMPTY && b.slots[At(h, i, b.capacity)].key != id
  }

  ghost predicate HasKey(b: Table, id: nat) {
    exists p :: 0 <= p < |b.slots| && b.slots[p].key == id
  }

  ghost predicate Registered(s: State, id: nat, upTo: nat) {
    exists i :: 0 <= i <= upTo && i < |s.tables| && HasKey(s.tables[i], id)
  }

  ghost predicate Sizes(s: State, g: Ghost) {
    && |s.pcs| == |s.hash| == |s.results| == |g.ticket| == |g.producer|
    && |s.tables| > 0
    && (forall i :: 0 <= i < |s.tables| ==>
          4 <= s.tables[i].capacity == |s.tables[i].slots| && s.tables[i].older == i - 1)
    && (forall i, j :: 0 <= i < j < |s.tables| ==> s.tables[i].capacity <= s.tables[j].capacity)
  }

  // An occupied slot belongs to a thread whose ticket fits this table, is reached by that
  // thread's probes, and holds that thread's producer (once stored).
  ghost predicate SlotOk(s: State, g: Ghost, i: nat, p: nat)
    requires Sizes(s, g) && i < |s.tables| && p < s.tables[i].capacity
  {
    var b := s.tables[i];
    var x := b.slots[p];
    x.key != EMPTY ==>
      var t := x.key - 1;
      && t < |s.pcs|
      && 0 < g.ticket[t] < ThreeQuarters(b.capacity)
      && g.producer[t] != NO_PRODUCER
      && (x.value == g.producer[t] || (s.pcs[t].PutStore? && s.pcs[t].main == i))
      && exists j :: 0 <= j < b.capacity && p == At(s.hash[t], j, b.capacity) && Full(b, s.hash[t], j)
  }

  ghost predicate Distinct(b: Table) {
    forall p, q :: 0 <= p < q < |b.slots| && b.slots[p].key != EMPTY ==> b.slots[p].key != b.slots[q].key
  }

  ghost predicate SlotsOk(s: State, g: Ghost)
    requires Sizes(s, g)
  {
    && (forall i, p :: 0 <= i < |s.tables| && 0 <= p < s.tables[i].capacity ==> SlotOk(s, g, i, p))
    && (forall i :: 0 <= i < |s.tables| ==> Distinct(s.tables[i]))
  }

  predicate Locked(pc: Pc) {
    pc.Reload? || pc.Allocate? || pc.Publish? || pc.Unlock? || (pc.GiveBack? && pc.locked) || pc.GiveUpLock?
  }

  ghost predicate Newcomer(s: State, g: Ghost, t: nat)
    requires Sizes(s, g) && t < |s.pcs|
  {
    g.producer[t] == NO_PRODUCER && !Registered(s, Id(t), |s.tables|)
  }

  ghost predicate Settled(s: State, g: Ghost, t: nat, upTo: nat)
    requires Sizes(s, g) && t < |s.pcs|
  {
    g.producer[t] != NO_PRODUCER && g.ticket[t] > 0 && Registered(s, Id(t), upTo)
  }

  ghost predicate Putting(s: State, g: Ghost, t: nat, main: nat, value: nat, j: nat)
    requires Sizes(s, g) && t < |s.pcs|
  {
    && main < |s.tables| && j < s.tables[main].capacity
    && value == g.producer[t] != NO_PRODUCER
    && 0 < g.ticket[t] < ThreeQuarters(s.tables[main].capacity)
    && Full(s.tables[main], s.hash[t], j)
  }

  ghost predicate Waiting(s: State, g: Ghost, t: nat, ticket: nat)
    requires Sizes(s, g) && t < |s.pcs|
  {
    Newcomer(s, g, t) && g.ticket[t] == ticket > 0
  }

  ghost predicate PcOk(s: State, g: Ghost, t: nat)
    requires Sizes(s, g) && t < |s.pcs|
  {
    && (Locked(s.pcs[t]) ==> s.resizing)
    && match s.pcs[t]
       case Idle => Settled(s, g, t, |s.tables|) || (Newcomer(s, g, t) && g.ticket[t] == 0)
       case LoadMain => Settled(s, g, t, |s.tables|) || (Newcomer(s, g, t) && g.ticket[t] == 0)
       case Look(main, tab, j) =>
         && tab <= main < |s.tables| && j < s.tables[tab].capacity
         && Missed(s.tables[tab], s.hash[t], j, Id(t))
         && (forall i :: tab < i <= main ==> !HasKey(s.tables[i], Id(t)))
         && (Settled(s, g, t, tab) || (Newcomer(s, g, t) && g.ticket[t] == 0))
       case PutLoad(main, value, j) => Putting(s, g, t, main, value, j) && !HasKey(s.tables[main], Id(t))
       case PutCas(main, value, j) => Putting(s, g, t, main, value, j) && !HasKey(s.tables[main], Id(t))
       case PutStore(main, value, j) => Putting(s, g, t, main, value, j) && SlotAt(s, main, s.hash[t], j).key == Id(t)
       case TakeTicket(main) => main < |s.tables| && Newcomer(s, g, t) && g.ticket[t] == 0
       case TestHalf(main, ticket) => main < |s.tables| && Waiting(s, g, t, ticket)
       case TryLock(main, ticket) => main < |s.tables| && Waiting(s, g, t, ticket)
       case Reload(ticket) => Waiting(s, g, t, ticket)
       case Allocate(main, ticket) => main == |s.tables| - 1 && Waiting(s, g, t, ticket)
       case Publish(main, ticket) => main == |s.tables| - 1 && Waiting(s, g, t, ticket)
       case Unlock(main, ticket) => main < |s.tables| && Waiting(s, g, t, ticket)
       case TestRoom(main, ticket) => main < |s.tables| && Waiting(s, g, t, ticket)
       case LoadAgain(ticket) => Waiting(s, g, t, ticket)
       case Create(main, ticket) =>
         main < |s.tables| && Waiting(s, g, t, ticket) && ticket < ThreeQuarters(s.tables[main].capacity)
       case GiveBack(ticket, locked) => Waiting(s, g, t, ticket)
       case GiveUpLock => Newcomer(s, g, t) && g.ticket[t] == 0
       case Done(value) =>
         (value == g.producer[t] && Settled(s, g, t, |s.tables|))
         || (value == NO_PRODUCER && Newcomer(s, g, t) && g.ticket[t] == 0)
  }

  // Producers are numbered as they are made, one thread each.
  ghost predicate ProducersOk(s: State, g: Ghost)
    requires Sizes(s, g)
  {
    && (forall t :: 0 <= t < |g.producer| ==> g.producer[t] <= s.made)
    && (forall t, u :: 0 <= t < u < |g.producer| && g.producer[t] != NO_PRODUCER ==> g.producer[t] != g.producer[u])
  }

  // A call returns null or the thread's producer; null only before it has one.
  ghost predicate ResultsOk(s: State, g: Ghost, t: nat)
    requires Sizes(s, g) && t < |s.pcs|
  {
    && (forall k :: 0 <= k < |s.results[t]| ==> s.results[t][k] == NO_PRODUCER || s.results[t][k] == g.producer[t])
    && (forall k, l :: 0 <= k < l < |s.results[t]| && s.results[t][k] != NO_PRODUCER ==>
        s.results[t][l] == s.results[t][k])
  }

  ghost predicate OneLock(s: State) {
    forall t, u :: 0 <= t < u < |s.pcs| ==> !(Locked(s.pcs[t]) && Locked(s.pcs[u]))
  }

  ghost predicate Inv(s: State, g: Ghost) {
    && Sizes(s, g) && TicketsOk(s, g) && SlotsOk(s, g) && ProducersOk(s, g) && OneLock(s)
    && (forall t :: 0 <= t < |s.pcs| ==> PcOk(s, g, t))
    && (forall t :: 0 <= t < |s.pcs| ==> ResultsOk(s, g, t))
  }

  function Track(s: State, g: Ghost, t: nat, a: Action): Ghost
    requires Enabled(s, t, a) && |g.ticket| == |g.producer| == |s.pcs|
  {
    match s.pcs[t]
    case TakeTicket(_) => g.(ticket := g.ticket[t := Ticket(s)])
    case GiveBack(_, _) => g.(ticket := g.ticket[t := 0])
    case Create(_, _) => if a.Go? && a.granted then g.(producer := g.producer[t := s.made + 1]) else g
    case _ => g
  }

  // ---- A table is never full ----

  // Every slot is some probe.
  lemma ProbesCover(h: nat, p: nat, capacity: nat)
    requires p < capacity
    ensures var j := (p - h) % capacity; j < capacity && At(h, j, capacity) == p
  {
    var j := (p - h) % capacity;
    var q := (p - h) / capacity;
    assert h + j == p + capacity * (-q);
    ModShift(p, -q, capacity);
  }

  // Distinct numbers, all ids of threads with a ticket below m, are at most Holding(m) many.
  lemma {:induction false} IdsAtMostHolding(keys: set<nat>, ticket: seq<nat>, m: nat)
    requires forall k :: k in keys ==> 1 <= k <= |ticket| && 0 < ticket[k - 1] < m
    ensures |keys| <= Holding(ticket, m)
  {
    if keys == {} {
    } else {
      var x :| x in keys;
      IdsAtMostHolding(keys - {x}, ticket[x - 1 := 0], m);
      TicketUpdate(ticket, m, x - 1, 0);
    }
  }

  // Occupied slots among the first n.
  function Used(b: Table, n: nat): nat
    requires n <= |b.slots|
  {
    if n == 0 then 0 else Used(b, n - 1) + (if b.slots[n - 1].key != EMPTY then 1 else 0)
  }

  lemma {:induction false} KeysOfSlots(b: Table, n: nat) returns (keys: set<nat>)
    requires n <= |b.slots| && Distinct(b)
    ensures |keys| == Used(b, n)
    ensures forall k :: k in keys ==> k != EMPTY && exists p :: 0 <= p < n && b.slots[p].key == k
  {
    if n == 0 {
      keys := {};
    } else {
      keys := KeysOfSlots(b, n - 1);
      if b.slots[n - 1].key != EMPTY { keys := keys + {b.slots[n - 1].key}; }
    }
  }

  // Every table of capacity c has fewer than 3c/4 occupied slots.
  lemma QuarterFree(s: State, g: Ghost, i: nat)
    requires Sizes(s, g) && TicketsOk(s, g) && SlotsOk(s, g) && i < |s.tables|
    ensures Used(s.tables[i], s.tables[i].capacity) < ThreeQuarters(s.tables[i].capacity)
  {
    var b := s.tables[i];
    var keys := KeysOfSlots(b, b.capacity);
    var m := ThreeQuarters(b.capacity);
    forall k | k in keys ensures 1 <= k <= |g.ticket| && 0 < g.ticket[k - 1] < m {
      var p :| 0 <= p < b.capacity && b.slots[p].key == k;
      assert SlotOk(s, g, i, p);
    }
    IdsAtMostHolding(keys, g.ticket, m);
    assert Holding(g.ticket, m) < m;
  }

  lemma {:induction false} FreeSlot(b: Table, n: nat) returns (p: nat)
    requires n <= |b.slots| && Used(b, n) < n
    ensures p < n && b.slots[p].key == EMPTY
  {
    if b.slots[n - 1].key == EMPTY { p := n - 1; } else { p := FreeSlot(b, n - 1); }
  }

  // So a probe loop that has met only keys has not yet gone all the way round.
  lemma ProbesEnd(s: State, g: Ghost, i: nat, h: nat, j: nat)
    requires Sizes(s, g) && TicketsOk(s, g) && SlotsOk(s, g) && i < |s.tables|
    requires j <= s.tables[i].capacity && Full(s.tables[i], h, j)
    ensures j < s.tables[i].capacity
  {
    QuarterFree(s, g, i);
    var p := FreeSlot(s.tables[i], s.tables[i].capacity);
    ProbesCover(h, p, s.tables[i].capacity);
  }

  // ---- What a step of thread t leaves alone ----

  ghost predicate Frame(s: State, g: Ghost, s2: State, g2: Ghost, t: nat) {
    && Sizes(s, g) && Sizes(s2, g2) && t < |s.pcs| == |s2.pcs| && s2.hash == s.hash
    && |s.tables| <= |s2.tables|
    && (forall u :: 0 <= u < |s.pcs| && u != t ==>
          s2.pcs[u] == s.pcs[u] && g2.ticket[u] == g.ticket[u] && g2.producer[u] == g.producer[u]
              && s2.results[u] == s.results[u])
    && (forall i :: 0 <= i < |s.tables| ==> Grown(s.tables[i], s2.tables[i], Id(t)))
    && (forall i, p :: |s.tables| <= i < |s2.tables| && 0 <= p < |s2.tables[i].slots| ==>
        s2.tables[i].slots[p].key == EMPTY)
  }

  // Keys stay for ever, and only id is added; only id's value changes.
  ghost predicate Grown(b: Table, c: Table, id: nat) {
    && c.capacity == b.capacity && |c.slots| == |b.slots|
    && (forall p :: 0 <= p < |b.slots| ==>
          c.slots[p] == b.slots[p] || (c.slots[p].key == id && (b.slots[p].key == EMPTY || b.slots[p].key == id)))
  }

  // The two facts about its own program counter that a step of t relies on to stay in its lane.
  predicate InLane(s: State, t: nat, a: Action) {
    && Enabled(s, t, a)
    && (s.pcs[t].Publish? ==> s.pcs[t].main == |s.tables| - 1)
    && (s.pcs[t].PutStore? ==> SlotAt(s, s.pcs[t].main, s.hash[t], s.pcs[t].j).key == Id(t))
  }

  // Steps that change a table, or the list of tables.
  predicate WritesTables(pc: Pc) { pc.PutCas? || pc.PutStore? || pc.Publish? || pc.Create? || pc.Allocate? }

  lemma WriteSizes(s: State, g: Ghost, t: nat, a: Action)
    requires Sizes(s, g) && InLane(s, t, a) && WritesTables(s.pcs[t])
    ensures Sizes(Step(s, t, a), Track(s, g, t, a))
  {
  }

  lemma OtherSizes(s: State, g: Ghost, t: nat, a: Action)
    requires Sizes(s, g) && InLane(s, t, a) && !WritesTables(s.pcs[t])
    ensures Sizes(Step(s, t, a), Track(s, g, t, a))
  {
  }

  lemma StepFrame(s: State, g: Ghost, t: nat, a: Action)
    requires Sizes(s, g) && InLane(s, t, a)
    ensures Frame(s, g, Step(s, t, a), Track(s, g, t, a), t)
  {
    if WritesTables(s.pcs[t]) { WriteFrame(s, g, t, a); } else { OtherFrame(s, g, t, a); }
  }

  lemma WriteFrame(s: State, g: Ghost, t: nat, a: Action)
    requires Sizes(s, g) && InLane(s, t, a) && WritesTables(s.pcs[t])
    ensures Frame(s, g, Step(s, t, a), Track(s, g, t, a), t)
  {
    WriteSizes(s, g, t, a);
  }

  lemma OtherFrame(s: State, g: Ghost, t: nat, a: Action)
    requires Sizes(s, g) && InLane(s, t, a) && !WritesTables(s.pcs[t])
    ensures Frame(s, g, Step(s, t, a), Track(s, g, t, a), t)
  {
    OtherSizes(s, g, t, a);
  }

  lemma RegisteredKept(s: State, g: Ghost, s2: State, g2: Ghost, t: nat, id: nat, m: nat, m2: nat)
    requires Frame(s, g, s2, g2, t) && Registered(s, id, m) && m <= m2 && id != EMPTY
    ensures Registered(s2, id, m2)
  {
    var i :| 0 <= i <= m && i < |s.tables| && HasKey(s.tables[i], id);
    var p :| 0 <= p < |s.tables[i].slots| && s.tables[i].slots[p].key == id;
    assert s2.tables[i].slots[p].key == id;
  }

  lemma AbsentKept(s: State, g: Ghost, s2: State, g2: Ghost, t: nat, id: nat, i: nat)
    requires Frame(s, g, s2, g2, t) && id != EMPTY && id != Id(t) && i < |s2.tables|
    requires i < |s.tables| ==> !HasKey(s.tables[i], id)
    ensures !HasKey(s2.tables[i], id)
  {
    forall p | 0 <= p < |s2.tables[i].slots| ensures s2.tables[i].slots[p].key != id {
      if i < |s.tables| { assert s.tables[i].slots[p].key != id; }
    }
  }

  lemma NewcomerKept(s: State, g: Ghost, s2: State, g2: Ghost, t: nat, u: nat)
    requires Frame(s, g, s2, g2, t) && u < |s.pcs| && u != t && Newcomer(s, g, u)
    ensures Newcomer(s2, g2, u)
  {
    forall i | 0 <= i < |s2.tables| ensures !HasKey(s2.tables[i], Id(u)) { AbsentKept(s, g, s2, g2, t, Id(u), i); }
  }

  lemma OtherLook(s: State, g: Ghost, s2: State, g2: Ghost, t: nat, u: nat)
    requires Frame(s, g, s2, g2, t) && u < |s.pcs| && u != t && s.pcs[u].Look? && PcOk(s, g, u)
    ensures PcOk(s2, g2, u)
  {
    var pc := s.pcs[u];
    if Newcomer(s, g, u) { NewcomerKept(s, g, s2, g2, t, u); }
    if Settled(s, g, u, pc.tab) { RegisteredKept(s, g, s2, g2, t, Id(u), pc.tab, pc.tab); }
    forall i | pc.tab < i <= pc.main ensures !HasKey(s2.tables[i], Id(u)) { AbsentKept(s, g, s2, g2, t, Id(u), i); }
  }

  lemma OtherPut(s: State, g: Ghost, s2: State, g2: Ghost, t: nat, u: nat)
    requires Frame(s, g, s2, g2, t) && u < |s.pcs| && u != t && PcOk(s, g, u)
    requires s.pcs[u].PutLoad? || s.pcs[u].PutCas? || s.pcs[u].PutStore?
    ensures PcOk(s2, g2, u)
  {
    if !s.pcs[u].PutStore? { AbsentKept(s, g, s2, g2, t, Id(u), s.pcs[u].main); }
  }

  lemma OtherPc(s: State, g: Ghost, s2: State, g2: Ghost, t: nat, u: nat)
    requires Frame(s, g, s2, g2, t) && u < |s.pcs| && u != t && PcOk(s, g, u)
    requires Locked(s.pcs[u]) ==> s2.resizing && |s2.tables| == |s.tables|
    ensures PcOk(s2, g2, u)
  {
    var pc := s.pcs[u];
    if pc.Look? {
      OtherLook(s, g, s2, g2, t, u);
    } else if pc.PutLoad? || pc.PutCas? || pc.PutStore? {
      OtherPut(s, g, s2, g2, t, u);
    } else {
      if Newcomer(s, g, u) { NewcomerKept(s, g, s2, g2, t, u); }
      if Settled(s, g, u, |s.tables|) { RegisteredKept(s, g, s2, g2, t, Id(u), |s.tables|, |s2.tables|); }
    }
  }

  lemma OtherSlot(s: State, g: Ghost, s2: State, g2: Ghost, t: nat, i: nat, p: nat)
    requires Frame(s, g, s2, g2, t) && i < |s2.tables| && p < s2.tables[i].capacity
    requires i < |s.tables| ==> SlotOk(s, g, i, p)
    requires s2.tables[i].slots[p].key != Id(t)
    ensures SlotOk(s2, g2, i, p)
  {
    if i < |s.tables| && s.tables[i].slots[p].key != EMPTY {
      var u := s.tables[i].slots[p].key - 1;
      var j :| 0 <= j < s.tables[i].capacity && p == At(s.hash[u], j, s.tables[i].capacity)
          && Full(s.tables[i], s.hash[u], j);
      assert Full(s2.tables[i], s2.hash[u], j);
    }
  }

  // ---- Thread t's own part ----

  // A probe that meets EMPTY shows the id is not in that table.
  lemma NotInTable(s: State, g: Ghost, t: nat, tab: nat, j: nat)
    requires Sizes(s, g) && SlotsOk(s, g) && t < |s.pcs| && tab < |s.tables| && j < s.tables[tab].capacity
    requires Missed(s.tables[tab], s.hash[t], j, Id(t)) && SlotAt(s, tab, s.hash[t], j).key == EMPTY
    ensures !HasKey(s.tables[tab], Id(t))
  {
    var b, h := s.tables[tab], s.hash[t];
    var at := At(h, j, b.capacity);
    assert forall k :: 0 <= k < b.capacity && Full(b, h, k) ==> b.slots[At(h, k, b.capacity)].key != Id(t);
    forall p | 0 <= p < |b.slots| ensures b.slots[p].key != Id(t) { assert SlotOk(s, g, tab, p); }
  }

  // The producer in the table is the thread's own, and its ticket fits every newer table.
  lemma FoundSlot(s: State, g: Ghost, t: nat, tab: nat, main: nat, j: nat)
    requires Sizes(s, g) && SlotsOk(s, g) && t < |s.pcs| && tab <= main < |s.tables| && j < s.tables[tab].capacity
    requires !s.pcs[t].PutStore? && SlotAt(s, tab, s.hash[t], j).key == Id(t)
    ensures SlotAt(s, tab, s.hash[t], j).value == g.producer[t] != NO_PRODUCER
    ensures 0 < g.ticket[t] < ThreeQuarters(s.tables[main].capacity)
    ensures HasKey(s.tables[tab], Id(t))
  {
    var p := At(s.hash[t], j, s.tables[tab].capacity);
    assert SlotOk(s, g, tab, p);
    assert s.tables[tab].slots[p].key == Id(t);
    assert s.tables[tab].capacity <= s.tables[main].capacity;
  }

  lemma LookHit(s: State, g: Ghost, t: nat, ok: bool)
    requires Sizes(s, g) && SlotsOk(s, g) && Enabled(s, t, Go(ok)) && PcOk(s, g, t) && s.pcs[t].Look?
    requires SlotAt(s, s.pcs[t].tab, s.hash[t], s.pcs[t].j).key == Id(t)
    ensures PcOk(Step(s, t, Go(ok)), g, t)
  {
    FoundSlot(s, g, t, s.pcs[t].tab, s.pcs[t].main, s.pcs[t].j);
    assert Registered(s, Id(t), |s.tables|);
  }

  lemma LookOn(s: State, g: Ghost, t: nat, ok: bool)
    requires Sizes(s, g) && TicketsOk(s, g) && SlotsOk(s, g) && Enabled(s, t, Go(ok)) && PcOk(s, g, t) && s.pcs[t].Look?
    requires SlotAt(s, s.pcs[t].tab, s.hash[t], s.pcs[t].j).key !in {EMPTY, Id(t)}
    ensures PcOk(Step(s, t, Go(ok)), g, t)
  {
    ProbesEnd(s, g, s.pcs[t].tab, s.hash[t], s.pcs[t].j + 1);
  }

  lemma SettledBelow(s: State, g: Ghost, t: nat, tab: nat)
    requires Sizes(s, g) && t < |s.pcs| && tab < |s.tables| && Settled(s, g, t, tab) && !HasKey(s.tables[tab], Id(t))
    ensures tab > 0 && Settled(s, g, t, tab - 1)
  {
    var i :| 0 <= i <= tab && i < |s.tables| && HasKey(s.tables[i], Id(t));
    assert Registered(s, Id(t), tab - 1);
  }

  lemma LookMissPc(s: State, g: Ghost, t: nat, ok: bool)
    requires Sizes(s, g) && Enabled(s, t, Go(ok)) && PcOk(s, g, t) && s.pcs[t].Look?
    requires SlotAt(s, s.pcs[t].tab, s.hash[t], s.pcs[t].j).key == EMPTY && !HasKey(s.tables[s.pcs[t].tab], Id(t))
    ensures PcOk(Step(s, t, Go(ok)), g, t)
  {
    if Settled(s, g, t, s.pcs[t].tab) { SettledBelow(s, g, t, s.pcs[t].tab); }
  }

  lemma LookMiss(s: State, g: Ghost, t: nat, ok: bool)
    requires Sizes(s, g) && SlotsOk(s, g) && Enabled(s, t, Go(ok)) && PcOk(s, g, t) && s.pcs[t].Look?
    requires SlotAt(s, s.pcs[t].tab, s.hash[t], s.pcs[t].j).key == EMPTY
    ensures PcOk(Step(s, t, Go(ok)), g, t)
  {
    NotInTable(s, g, t, s.pcs[t].tab, s.pcs[t].j);
    LookMissPc(s, g, t, ok);
  }

  lemma OwnLook(s: State, g: Ghost, t: nat, ok: bool)
    requires Sizes(s, g) && TicketsOk(s, g) && SlotsOk(s, g) && Enabled(s, t, Go(ok)) && PcOk(s, g, t) && s.pcs[t].Look?
    ensures PcOk(Step(s, t, Go(ok)), g, t)
  {
    var key := SlotAt(s, s.pcs[t].tab, s.hash[t], s.pcs[t].j).key;
    if key == Id(t) {
      LookHit(s, g, t, ok);
    } else if key == EMPTY {
      LookMiss(s, g, t, ok);
    } else {
      LookOn(s, g, t, ok);
    }
  }

  lemma OwnPut(s: State, g: Ghost, t: nat, ok: bool)
    requires Sizes(s, g) && TicketsOk(s, g) && SlotsOk(s, g) && Enabled(s, t, Go(ok)) && PcOk(s, g, t)
    requires s.pcs[t].PutLoad? || s.pcs[t].PutCas?
    ensures PcOk(Step(s, t, Go(ok)), g, t)
  {
    var main, j := s.pcs[t].main, s.pcs[t].j;
    if SlotAt(s, main, s.hash[t], j).key != EMPTY { ProbesEnd(s, g, main, s.hash[t], j + 1); }
  }

  lemma OwnStore(s: State, g: Ghost, t: nat, ok: bool)
    requires Sizes(s, g) && Enabled(s, t, Go(ok)) && PcOk(s, g, t) && s.pcs[t].PutStore?
    ensures PcOk(Step(s, t, Go(ok)), g, t)
  {
    var main := s.pcs[t].main;
    var s2 := Step(s, t, Go(ok));
    assert s2.tables[main].slots[At(s.hash[t], s.pcs[t].j, s2.tables[main].capacity)].key == Id(t);
    assert HasKey(s2.tables[main], Id(t));
    assert Registered(s2, Id(t), |s2.tables|);
  }

  lemma OwnEnds(s: State, g: Ghost, t: nat, a: Action)
    requires Sizes(s, g) && Enabled(s, t, a) && PcOk(s, g, t)
    requires s.pcs[t].Idle? || s.pcs[t].LoadMain? || s.pcs[t].Done?
    requires Sizes(Step(s, t, a), Track(s, g, t, a))
    ensures PcOk(Step(s, t, a), Track(s, g, t, a), t)
  {
    if Settled(s, g, t, |s.tables|) {
      var i :| 0 <= i <= |s.tables| && i < |s.tables| && HasKey(s.tables[i], Id(t));
      assert Registered(s, Id(t), |s.tables| - 1);
    }
  }

  lemma OwnTicket(s: State, g: Ghost, t: nat, a: Action)
    requires Sizes(s, g) && Enabled(s, t, a) && PcOk(s, g, t) && s.count == Held(g.ticket)
    requires s.pcs[t].TakeTicket? || s.pcs[t].GiveBack? || s.pcs[t].GiveUpLock?
    requires Sizes(Step(s, t, a), Track(s, g, t, a))
    ensures PcOk(Step(s, t, a), Track(s, g, t, a), t)
  {
  }

  lemma OwnWait(s: State, g: Ghost, t: nat, a: Action)
    requires Sizes(s, g) && Enabled(s, t, a) && PcOk(s, g, t)
    requires s.pcs[t].TestHalf? || s.pcs[t].TestRoom? || s.pcs[t].LoadAgain? || s.pcs[t].TryLock?
    requires Sizes(Step(s, t, a), Track(s, g, t, a))
    ensures PcOk(Step(s, t, a), Track(s, g, t, a), t)
  {
  }

  lemma OwnLock(s: State, g: Ghost, t: nat, a: Action)
    requires Sizes(s, g) && Enabled(s, t, a) && PcOk(s, g, t)
    requires s.pcs[t].Reload? || s.pcs[t].Allocate? || s.pcs[t].Unlock?
    requires Sizes(Step(s, t, a), Track(s, g, t, a))
    ensures PcOk(Step(s, t, a), Track(s, g, t, a), t)
  {
  }

  lemma OwnPublish(s: State, g: Ghost, t: nat, a: Action)
    requires Sizes(s, g) && Enabled(s, t, a) && PcOk(s, g, t)
    requires s.pcs[t].Publish?
    requires Sizes(Step(s, t, a), Track(s, g, t, a))
    ensures PcOk(Step(s, t, a), Track(s, g, t, a), t)
  {
    var s2 := Step(s, t, a);
    forall i | 0 <= i < |s2.tables|
        ensures !HasKey(s2.tables[i], Id(t)) { if i < |s.tables| { assert s2.tables[i] == s.tables[i]; } }
  }

  lemma OwnCreate(s: State, g: Ghost, t: nat, a: Action)
    requires Sizes(s, g) && Enabled(s, t, a) && PcOk(s, g, t)
    requires s.pcs[t].Create?
    requires Sizes(Step(s, t, a), Track(s, g, t, a))
    ensures PcOk(Step(s, t, a), Track(s, g, t, a), t)
  {
    assert !HasKey(s.tables[s.pcs[t].main], Id(t));
  }

  // ---- The slots ----

  lemma OwnSlot(s: State, g: Ghost, t: nat, a: Action, i: nat, p: nat)
    requires Sizes(s, g) && SlotsOk(s, g) && Enabled(s, t, a) && PcOk(s, g, t)
    requires Frame(s, g, Step(s, t, a), Track(s, g, t, a), t)
    requires !s.pcs[t].PutCas? && !s.pcs[t].PutStore?
    requires i < |Step(s, t, a).tables| && p < Step(s, t, a).tables[i].capacity
    requires Step(s, t, a).tables[i].slots[p].key == Id(t)
    ensures SlotOk(Step(s, t, a), Track(s, g, t, a), i, p)
  {
    SameTable(s, t, a, i, p);
    assert SlotOk(s, g, i, p);
    assert HasKey(s.tables[i], Id(t));
    assert Registered(s, Id(t), |s.tables|);
  }

  // An instruction that writes no slot leaves those of the tables there are, and a new table is empty.
  lemma SameTable(s: State, t: nat, a: Action, i: nat, p: nat)
    requires Enabled(s, t, a) && !s.pcs[t].PutCas? && !s.pcs[t].PutStore?
    requires i < |Step(s, t, a).tables| && p < |Step(s, t, a).tables[i].slots|
    requires Step(s, t, a).tables[i].slots[p].key == Id(t)
    ensures i < |s.tables| && s.tables[i] == Step(s, t, a).tables[i]
  {
  }

  lemma CasSlot(s: State, g: Ghost, t: nat, ok: bool, i: nat, p: nat)
    requires Sizes(s, g) && SlotsOk(s, g) && Enabled(s, t, Go(ok)) && PcOk(s, g, t) && s.pcs[t].PutCas?
    requires Frame(s, g, Step(s, t, Go(ok)), g, t)
    requires i < |s.tables| && p < s.tables[i].capacity
    requires Step(s, t, Go(ok)).tables[i].slots[p].key == Id(t)
    ensures SlotOk(Step(s, t, Go(ok)), g, i, p)
  {
    var s2 := Step(s, t, Go(ok));
    var main, j, h := s.pcs[t].main, s.pcs[t].j, s.hash[t];
    if s.tables[i].slots[p].key == Id(t) {
      assert SlotOk(s, g, i, p);
      var k :| 0 <= k < s.tables[i].capacity && p == At(h, k, s.tables[i].capacity) && Full(s.tables[i], h, k);
      assert Full(s2.tables[i], h, k);
    } else {
      assert i == main && p == At(h, j, s.tables[main].capacity);
      assert Full(s2.tables[i], h, j);
    }
  }

  lemma StoreSlot(s: State, g: Ghost, t: nat, ok: bool, i: nat, p: nat)
    requires Sizes(s, g) && SlotsOk(s, g) && Enabled(s, t, Go(ok)) && PcOk(s, g, t) && s.pcs[t].PutStore?
    requires Frame(s, g, Step(s, t, Go(ok)), g, t)
    requires i < |s.tables| && p < s.tables[i].capacity
    requires Step(s, t, Go(ok)).tables[i].slots[p].key == Id(t)
    ensures SlotOk(Step(s, t, Go(ok)), g, i, p)
  {
    var s2 := Step(s, t, Go(ok));
    var main, j, h := s.pcs[t].main, s.pcs[t].j, s.hash[t];
    assert SlotOk(s, g, i, p);
    var k :| 0 <= k < s.tables[i].capacity && p == At(h, k, s.tables[i].capacity) && Full(s.tables[i], h, k);
    assert Full(s2.tables[i], h, k);
    if i == main {
      var q := At(h, j, s.tables[main].capacity);
      assert Distinct(s.tables[main]);
      assert s.tables[main].slots[q].key == Id(t) && s.tables[main].slots[p].key == Id(t);
      assert p == q;
    }
  }

  lemma DistinctKept(s: State, g: Ghost, t: nat, a: Action, i: nat)
    requires Sizes(s, g) && Enabled(s, t, a) && PcOk(s, g, t) && Frame(s, g, Step(s, t, a), Track(s, g, t, a), t)
    requires i < |Step(s, t, a).tables| && (i < |s.tables| ==> Distinct(s.tables[i]))
    ensures Distinct(Step(s, t, a).tables[i])
  {
    if i < |s.tables| && s.pcs[t].PutCas? && s.pcs[t].main == i {
      assert !HasKey(s.tables[i], Id(t));
    }
  }

  lemma SlotsKept(s: State, g: Ghost, t: nat, a: Action)
    requires Sizes(s, g) && SlotsOk(s, g) && Enabled(s, t, a) && PcOk(s, g, t)
    requires Frame(s, g, Step(s, t, a), Track(s, g, t, a), t)
    ensures SlotsOk(Step(s, t, a), Track(s, g, t, a))
  {
    var s2, g2 := Step(s, t, a), Track(s, g, t, a);
    forall i, p | 0 <= i < |s2.tables| && 0 <= p < s2.tables[i].capacity ensures SlotOk(s2, g2, i, p) {
      if i < |s.tables| { assert SlotOk(s, g, i, p); }
      if s2.tables[i].slots[p].key != Id(t) {
        OtherSlot(s, g, s2, g2, t, i, p);
      } else if s.pcs[t].PutCas? {
        CasSlot(s, g, t, a.granted, i, p);
      } else if s.pcs[t].PutStore? {
        StoreSlot(s, g, t, a.granted, i, p);
      } else {
        OwnSlot(s, g, t, a, i, p);
      }
    }
    forall i | 0 <= i < |s2.tables| ensures Distinct(s2.tables[i]) { DistinctKept(s, g, t, a, i); }
  }

  // ---- Tickets, producers, the lock, results ----

  lemma TicketsKept(s: State, g: Ghost, t: nat, a: Action)
    requires Sizes(s, g) && TicketsOk(s, g) && Enabled(s, t, a) && PcOk(s, g, t)
    ensures TicketsOk(Step(s, t, a), Track(s, g, t, a))
  {
    var g2 := Track(s, g, t, a);
    TicketUpdate(g.ticket, 0, t, g2.ticket[t]);
    assert g2.ticket == g.ticket[t := g2.ticket[t]];
    forall m: nat | m > 0 ensures Holding(g2.ticket, m) < m {
      TicketUpdate(g.ticket, m, t, g2.ticket[t]);
      assert Holding(g.ticket, m) < m;
      if s.pcs[t].TakeTicket? { TakeKeepsTickets(g.ticket, t, m); }
    }
  }

  lemma ProducersKept(s: State, g: Ghost, t: nat, a: Action)
    requires Sizes(s, g) && ProducersOk(s, g) && Enabled(s, t, a) && PcOk(s, g, t)
    requires Sizes(Step(s, t, a), Track(s, g, t, a))
    ensures ProducersOk(Step(s, t, a), Track(s, g, t, a))
  {
  }

  lemma LockPair(s: State, t: nat, a: Action, u: nat)
    requires Enabled(s, t, a) && u < |s.pcs| && u != t && !(Locked(s.pcs[t]) && Locked(s.pcs[u]))
    requires Locked(s.pcs[u]) ==> s.resizing
    ensures !(Locked(Step(s, t, a).pcs[t]) && Locked(s.pcs[u]))
  {
    if !Locked(s.pcs[t]) && s.resizing { LockNotTaken(s, t, a); }
  }

  lemma LockNotTaken(s: State, t: nat, a: Action)
    requires Enabled(s, t, a) && !Locked(s.pcs[t]) && s.resizing
    ensures !Locked(Step(s, t, a).pcs[t])
  {
  }

  lemma LockStays(s: State, t: nat, a: Action, u: nat)
    requires Enabled(s, t, a) && u < |s.pcs| && u != t && !(Locked(s.pcs[t]) && Locked(s.pcs[u])) && Locked(s.pcs[u])
    ensures s.resizing ==> Step(s, t, a).resizing
    ensures |Step(s, t, a).tables| == |s.tables|
  {
  }

  lemma OthersStay(s: State, t: nat, a: Action, u: nat)
    requires Enabled(s, t, a) && u < |s.pcs| && u != t
    ensures |Step(s, t, a).pcs| == |s.pcs| && Step(s, t, a).pcs[u] == s.pcs[u]
  {
    if WritesTables(s.pcs[t]) { OthersStayOnWrite(s, t, a, u); } else { OthersStayOnRead(s, t, a, u); }
  }

  lemma OthersStayOnWrite(s: State, t: nat, a: Action, u: nat)
    requires Enabled(s, t, a) && u < |s.pcs| && u != t && WritesTables(s.pcs[t])
    ensures |Step(s, t, a).pcs| == |s.pcs| && Step(s, t, a).pcs[u] == s.pcs[u]
  {
  }

  lemma OthersStayOnRead(s: State, t: nat, a: Action, u: nat)
    requires Enabled(s, t, a) && u < |s.pcs| && u != t && !WritesTables(s.pcs[t])
    ensures |Step(s, t, a).pcs| == |s.pcs| && Step(s, t, a).pcs[u] == s.pcs[u]
  {
  }

  lemma OneLockKept(s: State, t: nat, a: Action)
    requires OneLock(s) && Enabled(s, t, a)
    requires forall u :: 0 <= u < |s.pcs| && Locked(s.pcs[u]) ==> s.resizing
    ensures OneLock(Step(s, t, a))
    ensures forall u :: 0 <= u < |s.pcs| && u != t && Locked(s.pcs[u]) ==>
              Step(s, t, a).resizing && |Step(s, t, a).tables| == |s.tables|
  {
    var s2 := Step(s, t, a);
    forall u | 0 <= u < |s.pcs| && u != t
      ensures !(Locked(s2.pcs[t]) && Locked(s2.pcs[u])) && s2.pcs[u] == s.pcs[u] && |s2.pcs| == |s.pcs|
      ensures Locked(s.pcs[u]) ==> s2.resizing && |s2.tables| == |s.tables|
    {
      OthersStay(s, t, a, u);
      LockPair(s, t, a, u);
      if Locked(s.pcs[u]) { LockStays(s, t, a, u); }
    }
  }

  lemma ResultsKept(s: State, g: Ghost, t: nat, a: Action, u: nat)
    requires Sizes(s, g) && Enabled(s, t, a) && u < |s.pcs| && ResultsOk(s, g, u) && PcOk(s, g, t)
    requires Sizes(Step(s, t, a), Track(s, g, t, a))
    ensures ResultsOk(Step(s, t, a), Track(s, g, t, a), u)
  {
  }

  lemma StepKeeps(s: State, g: Ghost, t: nat, a: Action)
    requires Inv(s, g) && Enabled(s, t, a)
    ensures Inv(Step(s, t, a), Track(s, g, t, a))
  {
    var s2, g2 := Step(s, t, a), Track(s, g, t, a);
    assert PcOk(s, g, t);
    StepFrame(s, g, t, a);
    SlotsKept(s, g, t, a);
    TicketsKept(s, g, t, a);
    ProducersKept(s, g, t, a);
    forall u | 0 <= u < |s.pcs| && Locked(s.pcs[u]) ensures s.resizing { assert PcOk(s, g, u); }
    OneLockKept(s, t, a);
    OwnPc(s, g, t, a);
    forall u | 0 <= u < |s2.pcs| ensures PcOk(s2, g2, u) {
      assert PcOk(s, g, u);
      if u != t { OtherPc(s, g, s2, g2, t, u); }
    }
    forall u | 0 <= u < |s2.pcs| ensures ResultsOk(s2, g2, u) {
      assert ResultsOk(s, g, u);
      ResultsKept(s, g, t, a, u);
    }
  }

  lemma OwnPc(s: State, g: Ghost, t: nat, a: Action)
    requires Sizes(s, g) && TicketsOk(s, g) && SlotsOk(s, g) && Enabled(s, t, a) && PcOk(s, g, t)
    requires Sizes(Step(s, t, a), Track(s, g, t, a))
    ensures PcOk(Step(s, t, a), Track(s, g, t, a), t)
  {
    match s.pcs[t]
    case Look(_, _, _) => OwnLook(s, g, t, a.granted);
    case PutLoad(_, _, _) => OwnPut(s, g, t, a.granted);
    case PutCas(_, _, _) => OwnPut(s, g, t, a.granted);
    case PutStore(_, _, _) => OwnStore(s, g, t, a.granted);
    case Idle => OwnEnds(s, g, t, a);
    case LoadMain => OwnEnds(s, g, t, a);
    case Done(_) => OwnEnds(s, g, t, a);
    case TakeTicket(_) => OwnTicket(s, g, t, a);
    case GiveBack(_, _) => OwnTicket(s, g, t, a);
    case GiveUpLock => OwnTicket(s, g, t, a);
    case Reload(_) => OwnLock(s, g, t, a);
    case Allocate(_, _) => OwnLock(s, g, t, a);
    case Unlock(_, _) => OwnLock(s, g, t, a);
    case Publish(_, _) => OwnPublish(s, g, t, a);
    case Create(_, _) => OwnCreate(s, g, t, a);
    case _ => OwnWait(s, g, t, a);
  }
  // ---- What holds in every reachable state ----

  lemma InitInv(s: State) returns (g: Ghost)
    requires Init(s)
    ensures Inv(s, g)
  {
    g := Ghost(seq(|s.pcs|, _ => 0), seq(|s.pcs|, _ => NO_PRODUCER));
    forall m: nat ensures Holding(g.ticket, m) == 0 { NoTickets(g.ticket, m); }
    NoTickets(g.ticket, 0);
    assert Distinct(s.tables[0]);
    forall t | 0 <= t < |s.pcs| ensures PcOk(s, g, t) { assert Newcomer(s, g, t); }
  }

  lemma {:induction false} NoTickets(ticket: seq<nat>, m: nat)
    requires forall t :: 0 <= t < |ticket| ==> ticket[t] == 0
    ensures Holding(ticket, m) == 0 && Held(ticket) == 0
  {
    if ticket == [] {
    } else {
      NoTickets(ticket[1..], m);
    }
  }

  lemma {:induction false} RunKeeps(run: seq<State>, i: nat) returns (g: Ghost)
    requires IsRun(run) && i < |run|
    ensures Inv(run[i], g)
  {
    if i == 0 {
      g := InitInv(run[0]);
    } else {
      var before := RunKeeps(run, i - 1);
      assert Stepped(run[i - 1], run[i - 1 + 1]);
      var t, a :| Enabled(run[i - 1], t, a) && run[i] == Step(run[i - 1], t, a);
      StepKeeps(run[i - 1], before, t, a);
      g := Track(run[i - 1], before, t, a);
    }
  }

  // Once a thread has been given a producer, every later call returns that one, however the
  // tables have grown meanwhile, and whether or not allocations fail.
  lemma SameProducerForEver(run: seq<State>, i: nat, t: nat, k: nat, l: nat)
    requires IsRun(run) && i < |run| && t < |run[i].results| && k < l < |run[i].results[t]|
    requires run[i].results[t][k] != NO_PRODUCER
    ensures run[i].results[t][l] == run[i].results[t][k]
  {
    var g := RunKeeps(run, i);
    assert ResultsOk(run[i], g, t);
  }

  // Different threads never share a producer.
  lemma NeverShared(run: seq<State>, i: nat, t: nat, u: nat, k: nat, l: nat)
    requires IsRun(run) && i < |run| && t < |run[i].results| && u < |run[i].results|
    requires k < |run[i].results[t]| && l < |run[i].results[u]|
    requires run[i].results[t][k] == run[i].results[u][l] != NO_PRODUCER
    ensures t == u
  {
    var g := RunKeeps(run, i);
    assert ResultsOk(run[i], g, t) && ResultsOk(run[i], g, u);
    assert g.producer[t] == g.producer[u] != NO_PRODUCER;
  }

  // At every moment at least a quarter of the slots of every table are free, ...
  lemma AQuarterIsFree(run: seq<State>, i: nat, tab: nat)
    requires IsRun(run) && i < |run| && tab < |run[i].tables|
    ensures |run[i].tables[tab].slots| == run[i].tables[tab].capacity
    ensures 4 * Used(run[i].tables[tab], run[i].tables[tab].capacity) < 3 * run[i].tables[tab].capacity
  {
    var g := RunKeeps(run, i);
    QuarterFree(run[i], g, tab);
  }

  // ... so no probe loop goes round a table: the probe number stays below the capacity.
  lemma ProbeLoopsEnd(run: seq<State>, i: nat, t: nat)
    requires IsRun(run) && i < |run| && t < |run[i].pcs|
    ensures var pc := run[i].pcs[t];
            && (pc.Look? ==> pc.j < Capacity(run[i], pc.tab))
            && (pc.PutLoad? || pc.PutCas? || pc.PutStore? ==> pc.j < Capacity(run[i], pc.main))
  {
    var g := RunKeeps(run, i);
    assert PcOk(run[i], g, t);
  }

  // One thread at a time grows the table, so each new table's `older` is the newest before it.
  lemma OneGrower(run: seq<State>, i: nat, t: nat, u: nat)
    requires IsRun(run) && i < |run| && t < |run[i].pcs| && u < |run[i].pcs|
    requires Locked(run[i].pcs[t]) && Locked(run[i].pcs[u])
    ensures t == u
    ensures run[i].pcs[t].Publish? ==> run[i].pcs[t].main == |run[i].tables| - 1
  {
    var g := RunKeeps(run, i);
    assert PcOk(run[i], g, t);
  }

  // ---- Null is returned only when an allocation failed ----

  ghost predicate SteppedWell(s: State, s': State) {
    exists t, a :: Enabled(s, t, a) && (a.Go? ==> a.granted) && s' == Step(s, t, a)
  }

  predicate NoFailure(pc: Pc) { !pc.GiveBack? && !pc.GiveUpLock? && (pc.Done? ==> pc.value != NO_PRODUCER) }

  ghost predicate NoNull(s: State) {
    && (forall t :: 0 <= t < |s.pcs| ==> NoFailure(s.pcs[t]))
    && (forall t, k :: 0 <= t < |s.results| && 0 <= k < |s.results[t]| ==> s.results[t][k] != NO_PRODUCER)
  }

  lemma NoNullKept(s: State, g: Ghost, t: nat, a: Action)
    requires Inv(s, g) && NoNull(s) && Enabled(s, t, a) && (a.Go? ==> a.granted)
    ensures NoNull(Step(s, t, a))
  {
    var s2 := Step(s, t, a);
    assert PcOk(s, g, t);
    if s.pcs[t].Look? && SlotAt(s, s.pcs[t].tab, s.hash[t], s.pcs[t].j).key == Id(t) {
      FoundSlot(s, g, t, s.pcs[t].tab, s.pcs[t].main, s.pcs[t].j);
    }
    assert NoFailure(s.pcs[t]);
    GoesOnWell(s, g, t, a);
    assert s2.results == s.results || (s.pcs[t].Done? && s2.results == s.results[t := s.results[t] + [s.pcs[t].value]]);
    forall u | 0 <= u < |s2.pcs|
        ensures NoFailure(s2.pcs[u]) { if u != t { OthersStay(s, t, a, u); assert NoFailure(s.pcs[u]); } }
  }

  lemma GoesOnWell(s: State, g: Ghost, t: nat, a: Action)
    requires Sizes(s, g) && Enabled(s, t, a) && (a.Go? ==> a.granted) && PcOk(s, g, t) && NoFailure(s.pcs[t])
    requires s.pcs[t].Look? && SlotAt(s, s.pcs[t].tab, s.hash[t], s.pcs[t].j).key == Id(t) ==>
               SlotAt(s, s.pcs[t].tab, s.hash[t], s.pcs[t].j).value != NO_PRODUCER
    ensures NoFailure(Step(s, t, a).pcs[t])
  {
    if WritesTables(s.pcs[t]) { WritesWell(s, g, t, a); } else { ReadsWell(s, g, t, a); }
  }

  lemma WritesWell(s: State, g: Ghost, t: nat, a: Action)
    requires Sizes(s, g) && Enabled(s, t, a) && (a.Go? ==> a.granted) && PcOk(s, g, t) && WritesTables(s.pcs[t])
    ensures NoFailure(Step(s, t, a).pcs[t])
  {
  }

  lemma ReadsWell(s: State, g: Ghost, t: nat, a: Action)
    requires Sizes(s, g) && Enabled(s, t, a) && PcOk(s, g, t) && NoFailure(s.pcs[t]) && !WritesTables(s.pcs[t])
    requires s.pcs[t].Look? && SlotAt(s, s.pcs[t].tab, s.hash[t], s.pcs[t].j).key == Id(t) ==>
               SlotAt(s, s.pcs[t].tab, s.hash[t], s.pcs[t].j).value != NO_PRODUCER
    ensures NoFailure(Step(s, t, a).pcs[t])
  {
  }

  lemma NoNullStep(run: seq<State>, i: nat)
    requires IsRun(run) && i + 1 < |run| && SteppedWell(run[i], run[i + 1]) && NoNull(run[i])
    ensures NoNull(run[i + 1])
  {
    var g := RunKeeps(run, i);
    var t, a :| Enabled(run[i], t, a) && (a.Go? ==> a.granted) && run[i + 1] == Step(run[i], t, a);
    NoNullKept(run[i], g, t, a);
  }

  lemma {:induction false} NullOnlyIfAllocationFails(run: seq<State>, i: nat)
    requires IsRun(run) && i < |run|
    requires forall j :: 0 <= j < |run| - 1 ==> SteppedWell(run[j], run[j + 1])
    ensures NoNull(run[i])
  {
    if i == 0 {
    } else {
      NullOnlyIfAllocationFails(run, i - 1);
      NoNullStep(run, i - 1);
    }
  }

  // ---- A call that runs by itself ----

  // Thread t's next n instructions, nobody else running and every allocation succeeding.
  function Alone(s: State, t: nat, n: nat): State
    decreases n
  {
    if n == 0 || !Enabled(s, t, Go(true)) then s else Alone(Step(s, t, Go(true)), t, n - 1)
  }

  // While the flag is set some thread holds the lock, and will clear it.
  ghost predicate LockIsHeld(s: State) { s.resizing ==> exists t :: 0 <= t < |s.pcs| && Locked(s.pcs[t]) }

  lemma LockStep(s: State, t: nat, a: Action)
    requires Enabled(s, t, a) && LockIsHeld(s)
    ensures LockIsHeld(Step(s, t, a))
  {
    var s2 := Step(s, t, a);
    if s2.resizing && !Locked(s2.pcs[t]) {
      OwnLockStep(s, t, a);
      var u :| 0 <= u < |s.pcs| && Locked(s.pcs[u]);
      OthersStay(s, t, a, u);
      assert Locked(s2.pcs[u]);
    }
  }

  lemma OwnLockStep(s: State, t: nat, a: Action)
    requires Enabled(s, t, a) && Step(s, t, a).resizing && !Locked(Step(s, t, a).pcs[t])
    ensures s.resizing && !Locked(s.pcs[t])
  {
  }

  lemma {:induction false} RunLocks(run: seq<State>, i: nat)
    requires IsRun(run) && i < |run|
    ensures LockIsHeld(run[i])
  {
    if i == 0 {
    } else {
      RunLocks(run, i - 1);
      assert Stepped(run[i - 1], run[i - 1 + 1]);
      var t, a :| Enabled(run[i - 1], t, a) && run[i] == Step(run[i - 1], t, a);
      LockStep(run[i - 1], t, a);
    }
  }

  predicate HasMain(pc: Pc) {
    pc.Look? || pc.PutLoad? || pc.PutCas? || pc.PutStore? || pc.TakeTicket? || pc.TestHalf? || pc.TryLock?
    || pc.Allocate? || pc.Publish? || pc.Unlock? || pc.TestRoom? || pc.Create?
  }

  ghost predicate InNewest(s: State, t: nat) { s.tables != [] && HasKey(s.tables[|s.tables| - 1], Id(t)) }

  // A lone call: it works on the newest table, finds the lock free, and gets room at once.
  ghost predicate Lone(s: State, t: nat, results: seq<nat>)
    requires t < |s.pcs|
  {
    var pc := s.pcs[t];
    && (s.resizing <==> Locked(pc)) && (HasMain(pc) ==> pc.main == |s.tables| - 1)
    && t < |s.results| && s.results[t] == results
    && match pc
       case Unlock(main, ticket) => ticket < Half(Capacity(s, main))
       case TestRoom(main, ticket) => ticket < ThreeQuarters(Capacity(s, main))
       case Done(value) => value != NO_PRODUCER && InNewest(s, t)
       case Idle => false
       case LoadAgain(_) => false
       case GiveBack(_, _) => false
       case GiveUpLock => false
       case _ => true
  }

  // How far the call has got, and what is left of the loop it is in.
  function Phase(pc: Pc): nat {
    match pc
    case LoadMain => 15
    case Look(_, _, _) => 14
    case TakeTicket(_) => 13
    case TestHalf(_, _) => 12
    case TryLock(_, _) => 11
    case Reload(_) => 10
    case Allocate(_, _) => 9
    case Publish(_, _) => 8
    case Unlock(_, _) => 7
    case TestRoom(_, _) => 6
    case Create(_, _) => 5
    case PutLoad(_, _, _) => 4
    case PutCas(_, _, _) => 4
    case PutStore(_, _, _) => 3
    case Done(_) => 2
    case _ => 0
  }

  function TablesLeft(pc: Pc): nat { if pc.Look? then pc.tab else 0 }

  function Room(s: State, tab: nat, j: nat): nat { if j < Capacity(s, tab) then Capacity(s, tab) - j else 0 }

  function ProbesLeft(s: State, pc: Pc): nat {
    match pc
    case Look(_, tab, j) => Room(s, tab, j)
    case PutLoad(main, _, j) => 2 * Room(s, main, j) + 1
    case PutCas(main, _, j) => 2 * Room(s, main, j)
    case _ => 0
  }

  predicate Nearer(s: State, s2: State, t: nat)
    requires t < |s.pcs| && t < |s2.pcs|
  {
    var pc, pc2 := s.pcs[t], s2.pcs[t];
    || Phase(pc2) < Phase(pc)
    || (Phase(pc2) == Phase(pc) && TablesLeft(pc2) < TablesLeft(pc))
    || (Phase(pc2) == Phase(pc) && TablesLeft(pc2) == TablesLeft(pc) && ProbesLeft(s2, pc2) < ProbesLeft(s, pc))
  }

  lemma LoneLooks(s: State, g: Ghost, t: nat, results: seq<nat>)
    requires Sizes(s, g) && SlotsOk(s, g) && Enabled(s, t, Go(true)) && PcOk(s, g, t) && Lone(s, t, results)
    requires s.pcs[t].Look?
    ensures Lone(Step(s, t, Go(true)), t, results) && Nearer(s, Step(s, t, Go(true)), t)
  {
    var pc := s.pcs[t];
    if SlotAt(s, pc.tab, s.hash[t], pc.j).key == Id(t) {
      FoundSlot(s, g, t, pc.tab, pc.main, pc.j);
      assert s.tables[pc.tab].slots[At(s.hash[t], pc.j, s.tables[pc.tab].capacity)].key == Id(t);
    }
  }

  lemma LonePuts(s: State, g: Ghost, t: nat, results: seq<nat>)
    requires Sizes(s, g) && Enabled(s, t, Go(true)) && PcOk(s, g, t) && Lone(s, t, results)
    requires s.pcs[t].PutLoad? || s.pcs[t].PutCas? || s.pcs[t].PutStore?
    ensures Lone(Step(s, t, Go(true)), t, results) && Nearer(s, Step(s, t, Go(true)), t)
  {
    var s2, pc := Step(s, t, Go(true)), s.pcs[t];
    if pc.PutStore? {
      assert s2.tables[pc.main].slots[At(s.hash[t], pc.j, s.tables[pc.main].capacity)].key == Id(t);
    }
  }

  lemma LoneGrows(s: State, g: Ghost, t: nat, results: seq<nat>)
    requires Sizes(s, g) && Enabled(s, t, Go(true)) && PcOk(s, g, t) && Lone(s, t, results)
    requires !s.pcs[t].Look? && !s.pcs[t].PutLoad? && !s.pcs[t].PutCas? && !s.pcs[t].PutStore? && !s.pcs[t].Done?
    ensures Lone(Step(s, t, Go(true)), t, results) && Nearer(s, Step(s, t, Go(true)), t)
  {
  }

  lemma LoneNext(run: seq<State>, t: nat, results: seq<nat>)
    requires IsRun(run) && Enabled(run[|run| - 1], t, Go(true)) && Lone(run[|run| - 1], t, results)
    requires !run[|run| - 1].pcs[t].Done?
    ensures var s2 := Step(run[|run| - 1], t, Go(true));
            && IsRun(run + [s2]) && |s2.pcs| == |run[|run| - 1].pcs| && Lone(s2, t, results)
            && Nearer(run[|run| - 1], s2, t)
  {
    var s := run[|run| - 1];
    var g := RunKeeps(run, |run| - 1);
    assert PcOk(s, g, t);
    if s.pcs[t].Look? { LoneLooks(s, g, t, results); }
    else if s.pcs[t].PutLoad? || s.pcs[t].PutCas? || s.pcs[t].PutStore? { LonePuts(s, g, t, results); }
    else { LoneGrows(s, g, t, results); }
    OneMore(run, t, Go(true));
  }

  lemma OneMore(run: seq<State>, t: nat, a: Action)
    requires IsRun(run) && Enabled(run[|run| - 1], t, a)
    ensures IsRun(run + [Step(run[|run| - 1], t, a)])
  {
    var run2 := run + [Step(run[|run| - 1], t, a)];
    forall i | 0 <= i < |run2| - 1 ensures Stepped(run2[i], run2[i + 1]) {
      if i < |run| - 1 { assert Stepped(run[i], run[i + 1]); }
    }
  }

  // The call is over: it has returned a producer, which the newest table has under the thread's id.
  ghost predicate Returned(s: State, t: nat, results: seq<nat>) {
    && t < |s.pcs| == |s.results| && s.pcs[t].Idle? && !s.resizing && InNewest(s, t)
    && exists v :: v != NO_PRODUCER && s.results[t] == results + [v]
  }

  lemma LoneReturns(s: State, t: nat, results: seq<nat>)
    requires Enabled(s, t, Go(true)) && Lone(s, t, results) && s.pcs[t].Done?
    ensures Returned(Alone(s, t, 1), t, results)
  {
    var s2 := Step(s, t, Go(true));
    assert Alone(s, t, 1) == Alone(s2, t, 0);
    assert s2.results[t] == results + [s.pcs[t].value];
  }

  lemma {:induction false} LoneEnds(run: seq<State>, t: nat, results: seq<nat>) returns (n: nat)
    requires IsRun(run) && Enabled(run[|run| - 1], t, Go(true)) && Lone(run[|run| - 1], t, results)
    ensures Returned(Alone(run[|run| - 1], t, n), t, results)
    decreases Phase(run[|run| - 1].pcs[t]), TablesLeft(run[|run| - 1].pcs[t]),
              ProbesLeft(run[|run| - 1], run[|run| - 1].pcs[t])
  {
    var s := run[|run| - 1];
    if s.pcs[t].Done? {
      LoneReturns(s, t, results);
      n := 1;
    } else {
      LoneNext(run, t, results);
      n := LoneEnds(run + [Step(s, t, Go(true))], t, results);
      n := n + 1;
    }
  }

  // Whatever has happened before, a call that runs by itself, no other being under way and its
  // allocations succeeding, ends, and returns a producer; the id is then in the newest table.
  lemma LoneCallReturns(run: seq<State>, i: nat, t: nat) returns (n: nat)
    requires IsRun(run) && i < |run| && Enabled(run[i], t, Call)
    requires forall u :: 0 <= u < |run[i].pcs| ==> run[i].pcs[u].Idle?
    ensures Returned(Alone(Step(run[i], t, Call), t, n), t, run[i].results[t])
  {
    var s, r := run[i], run[..i + 1];
    RunLocks(run, i);
    forall j | 0 <= j < |r| - 1 ensures Stepped(r[j], r[j + 1]) { assert Stepped(run[j], run[j + 1]); }
    OneMore(r, t, Call);
    n := LoneEnds(r + [Step(s, t, Call)], t, s.results[t]);
  }

  // ---- The tables stay small ----

  function Most(a: nat, b: nat): nat { if a < b then b else a }

  predicate Fits(capacity: nat, threads: nat) {
    capacity > 0 && capacity % 4 == 0 && capacity <= Most(INITIAL_HASH_SIZE, 4 * threads)
  }

  lemma {:induction false} GrownIsTight(capacity: nat, ticket: nat, threads: nat)
    requires Fits(capacity, threads) && ticket <= threads
    ensures Fits(GrownCapacity(capacity, ticket), threads)
    decreases if ticket < Half(capacity) then 0 else 2 * ticket + 2 - capacity
  {
    if ticket < Half(capacity) {
    } else {
      DoubledFits(capacity, ticket, threads);
      GrownIsTight(2 * capacity, ticket, threads);
    }
  }

  lemma {:induction false} HeldBound(ticket: seq<nat>)
    ensures Held(ticket) <= |ticket|
    ensures (exists t :: 0 <= t < |ticket| && ticket[t] == 0) ==> Held(ticket) < |ticket|
  {
    if ticket == [] {
    } else {
      HeldBound(ticket[1..]);
      if t: nat :| 0 < t < |ticket| && ticket[t] == 0 { assert ticket[1..][t - 1] == 0; }
    }
  }

  // Growing, a thread holds a ticket that the newest table is too small for.
  predicate Growing(s: State, pc: Pc) {
    && (pc.Allocate? || pc.Publish? ==> pc.ticket >= Half(Capacity(s, pc.main)))
    && (HasTicket(pc) ==> pc.ticket <= |s.pcs|)
  }

  predicate HasTicket(pc: Pc) {
    pc.TestHalf? || pc.TryLock? || pc.Reload? || pc.Allocate? || pc.Publish? || pc.Unlock? || pc.TestRoom?
    || pc.LoadAgain? || pc.Create?
  }

  ghost predicate Small(s: State) {
    && (forall i :: 0 <= i < |s.tables| ==> Fits(s.tables[i].capacity, |s.pcs|))
    && (forall t :: 0 <= t < |s.pcs| ==> Growing(s, s.pcs[t]))
  }

  predicate SameTables(s: State, s2: State) {
    |s.tables| <= |s2.tables| && forall i :: 0 <= i < |s.tables| ==> s2.tables[i].capacity == s.tables[i].capacity
  }

  lemma CapacitiesStay(s: State, t: nat, a: Action)
    requires Enabled(s, t, a)
    ensures SameTables(s, Step(s, t, a)) && |Step(s, t, a).pcs| == |s.pcs|
    ensures !s.pcs[t].Publish? ==> |Step(s, t, a).tables| == |s.tables|
  {
  }

  lemma TicketFits(s: State, g: Ghost, t: nat, a: Action)
    requires Sizes(s, g) && TicketsOk(s, g) && Enabled(s, t, a) && PcOk(s, g, t) && s.pcs[t].TakeTicket?
    ensures Growing(Step(s, t, a), Step(s, t, a).pcs[t])
  {
    HeldBound(g.ticket);
  }

  lemma OwnGrowing(s: State, t: nat, a: Action)
    requires Enabled(s, t, a) && Growing(s, s.pcs[t]) && HasTicket(s.pcs[t]) && !WritesTables(s.pcs[t])
    ensures Growing(Step(s, t, a), Step(s, t, a).pcs[t])
  {
  }

  lemma NoTicketYet(s: State, t: nat, a: Action)
    requires Enabled(s, t, a) && !s.pcs[t].TakeTicket? && !HasTicket(s.pcs[t]) && !WritesTables(s.pcs[t])
    ensures !HasTicket(Step(s, t, a).pcs[t])
  {
    if s.pcs[t].Look? { LookHasNone(s, t, a); }
  }

  lemma LookHasNone(s: State, t: nat, a: Action)
    requires Enabled(s, t, a) && s.pcs[t].Look?
    ensures !HasTicket(Step(s, t, a).pcs[t])
  {
  }

  lemma OwnGrowingOnWrite(s: State, t: nat, a: Action)
    requires Enabled(s, t, a) && Growing(s, s.pcs[t]) && WritesTables(s.pcs[t])
    ensures Growing(Step(s, t, a), Step(s, t, a).pcs[t])
  {
  }

  lemma DoubledFits(capacity: nat, ticket: nat, threads: nat)
    requires Fits(capacity, threads) && Half(capacity) <= ticket <= threads
    ensures Fits(2 * capacity, threads)
  {
  }

  lemma PublishIsTight(s: State, g: Ghost, t: nat, a: Action)
    requires Sizes(s, g) && Enabled(s, t, a) && PcOk(s, g, t) && s.pcs[t].Publish? && Growing(s, s.pcs[t])
    requires Fits(s.tables[|s.tables| - 1].capacity, |s.pcs|)
    ensures var s2 := Step(s, t, a);
            |s2.tables| == |s.tables| + 1 && Fits(s2.tables[|s.tables|].capacity, |s.pcs|)
  {
    var c := Capacity(s, s.pcs[t].main);
    DoubledFits(c, s.pcs[t].ticket, |s.pcs|);
    GrownIsTight(2 * c, s.pcs[t].ticket, |s.pcs|);
  }

  lemma SmallStep(s: State, g: Ghost, t: nat, a: Action)
    requires Inv(s, g) && Small(s) && Enabled(s, t, a)
    ensures Small(Step(s, t, a))
  {
    var s2 := Step(s, t, a);
    assert PcOk(s, g, t);
    assert Growing(s, s.pcs[t]);
    CapacitiesStay(s, t, a);
    if s.pcs[t].TakeTicket? { TicketFits(s, g, t, a); }
    else if WritesTables(s.pcs[t]) { OwnGrowingOnWrite(s, t, a); }
    else if HasTicket(s.pcs[t]) { OwnGrowing(s, t, a); }
    else { NoTicketYet(s, t, a); }
    if s.pcs[t].Publish? { PublishIsTight(s, g, t, a); }
    forall u | 0 <= u < |s2.pcs| ensures Growing(s2, s2.pcs[u]) {
      assert PcOk(s, g, u);
      if u != t { OthersStay(s, t, a, u); }
    }
  }

  // No table has more than four slots for each thread, or the number it starts with.
  lemma {:induction false} TablesStaySmall(run: seq<State>, i: nat)
    requires IsRun(run) && i < |run|
    ensures forall j :: 0 <= j < |run[i].tables| ==>
              run[i].tables[j].capacity <= Most(INITIAL_HASH_SIZE, 4 * |run[i].pcs|)
    ensures Small(run[i])
  {
    if i == 0 {
    } else {
      TablesStaySmall(run, i - 1);
      var g := RunKeeps(run, i - 1);
      assert Stepped(run[i - 1], run[i - 1 + 1]);
      var t, a :| Enabled(run[i - 1], t, a) && run[i] == Step(run[i - 1], t, a);
      SmallStep(run[i - 1], g, t, a);
    }
  }

  // A thread goes back to wait for a bigger table only if its ticket does not fit three quarters of
  // the one it has looked at.
  lemma WaitsOnlyWhenFull(run: seq<State>, i: nat, t: nat, a: Action)
    requires IsRun(run) && i < |run| && Enabled(run[i], t, a)
    requires !run[i].pcs[t].LoadAgain? && Step(run[i], t, a).pcs[t].LoadAgain?
    ensures HasMain(run[i].pcs[t]) && run[i].pcs[t].main < |run[i].tables|
    ensures 4 * Step(run[i], t, a).pcs[t].ticket >= 3 * run[i].tables[run[i].pcs[t].main].capacity
  {
    TablesStaySmall(run, i);
    var g := RunKeeps(run, i);
    assert PcOk(run[i], g, t);
    LookGoesOn(run[i], t, a);
    WritesGoOn(run[i], t, a);
    FromTestRoom(run[i], t, a);
  }

  lemma LookGoesOn(s: State, t: nat, a: Action)
    requires Enabled(s, t, a)
    ensures s.pcs[t].Look? ==> !Step(s, t, a).pcs[t].LoadAgain?
  {
  }

  lemma WritesGoOn(s: State, t: nat, a: Action)
    requires Enabled(s, t, a)
    ensures WritesTables(s.pcs[t]) ==> !Step(s, t, a).pcs[t].LoadAgain?
  {
  }

  lemma FromTestRoom(s: State, t: nat, a: Action)
    requires Enabled(s, t, a) && !s.pcs[t].Look? && !WritesTables(s.pcs[t])
    requires !s.pcs[t].LoadAgain? && Step(s, t, a).pcs[t].LoadAgain?
    ensures s.pcs[t].TestRoom? && Step(s, t, a).pcs[t].ticket == s.pcs[t].ticket
    ensures s.pcs[t].ticket >= ThreeQuarters(Capacity(s, s.pcs[t].main))
  {
  }
}
