// The CAS free list that recycles blocks (src/libtools/utils/concurentqueue.hh:1232-1345),
// run by any number of threads.  Every atomic load, store, compare-exchange and fetch_add is
// one step; the schedule is arbitrary.  A node pointer is a number and 0 is nullptr.
module FreeList {
  import opened Modular

  const NULL: nat := 0
  const REFS_MASK: nat := 0x7FFF_FFFF
  const SHOULD_BE_ON_FREELIST: nat := 0x8000_0000
  const WORD: nat := 0x1_0000_0000

  // What add_knowing_refcount_is_zero goes back to: the end of add, or the loop of try_get
  // with the head that its failed compare-exchange observed.
  datatype After = Return | Resume(seen: nat)

  // The next instruction of a thread, with the locals it still needs.
  datatype Pc =
    | Idle
    // try_get
    | LoadHead
    | LoadRefs(h: nat)
    | CasRefs(h: nat, r: nat)
    | LoadNext(h: nat)
    | CasHead(h: nat, nx: nat)
    | DropTwo(h: nat)
    | DropOne(h: nat, seen: nat)
    // add_knowing_refcount_is_zero
    | LinkLoadHead(n: nat, k: After)
    | LinkStoreNext(n: nat, top: nat, k: After)
    | LinkStoreRefs(n: nat, top: nat, k: After)
    | LinkCas(n: nat, top: nat, k: After)
    | LinkDrop(n: nat, top: nat, k: After)

  // `owns` records which thread a node was handed to: (thread, node).
  datatype State = State(head: nat, next: map<nat, nat>, refs: map<nat, nat>, owns: set<(nat, nat)>, pcs: seq<Pc>)
  {
    function Refs(n: nat): nat { if n in refs then refs[n] else 0 }
    function Next(n: nat): nat { if n in next then next[n] else NULL }
  }

  // What the scheduler lets thread t do: run its next instruction, start an operation when
  // idle, make a new node, or hand a node it owns to another thread.
  datatype Action = Go | StartGet | StartAdd(n: nat) | Create(n: nat) | Pass(n: nat, to: nat)

  function FetchAdd(w: nat, d: nat): nat { (w + d) % WORD }

  // The loop test of try_get: nullptr ends the call.
  function LoopWith(h: nat): Pc { if h == NULL then Idle else LoadRefs(h) }

  function Continue(k: After): Pc {
    match k
    case Return => Idle
    case Resume(seen) => LoopWith(seen)
  }

  predicate Enabled(s: State, t: nat, a: Action) {
    && t < |s.pcs|
    && match a
       case Go => !s.pcs[t].Idle?
       case StartGet => s.pcs[t].Idle?
       case StartAdd(n) => s.pcs[t].Idle? && (t, n) in s.owns
       case Create(n) => n != NULL && n !in s.refs
       case Pass(n, to) => (t, n) in s.owns && to < |s.pcs|
  }

  function SetPc(s: State, t: nat, pc: Pc): State
    requires t < |s.pcs|
  {
    s.(pcs := s.pcs[t := pc])
  }

  function Step(s: State, t: nat, a: Action): State
    requires Enabled(s, t, a)
  {
    match a
    case Go => Execute(s, t)
    case StartGet => SetPc(s, t, LoadHead)
    case StartAdd(n) =>
      var was := s.Refs(n);
      SetPc(s, t, if was == 0 then LinkLoadHead(n, Return) else Idle)
      .(refs := s.refs[n := FetchAdd(was, SHOULD_BE_ON_FREELIST)], owns := s.owns - {(t, n)})
    case Create(n) =>
      s.(refs := s.refs[n := 0], next := s.next[n := NULL], owns := s.owns + {(t, n)})
    case Pass(n, to) =>
      s.(owns := s.owns - {(t, n)} + {(to, n)})
  }

  // One instruction of try_get or of add_knowing_refcount_is_zero.
  function Execute(s: State, t: nat): State
    requires t < |s.pcs| && !s.pcs[t].Idle?
  {
    match s.pcs[t]
    case LoadHead => SetPc(s, t, LoopWith(s.head))
    case LoadRefs(h) =>
      var r := s.Refs(h);
      SetPc(s, t, if r % SHOULD_BE_ON_FREELIST == 0 then LoadHead else CasRefs(h, r))
    case CasRefs(h, r) =>
      if s.Refs(h) == r
      then SetPc(s, t, LoadNext(h)).(refs := s.refs[h := FetchAdd(r, 1)])
      else SetPc(s, t, LoadHead)
    case LoadNext(h) => SetPc(s, t, CasHead(h, s.Next(h)))
    case CasHead(h, nx) =>
      if s.head == h
      then SetPc(s, t, DropTwo(h)).(head := nx)
      else SetPc(s, t, DropOne(h, s.head))
    case DropTwo(h) =>
      SetPc(s, t, Idle).(refs := s.refs[h := FetchAdd(s.Refs(h), WORD - 2)], owns := s.owns + {(t, h)})
    case DropOne(h, seen) =>
      var was := s.Refs(h);
      SetPc(s, t, if was == SHOULD_BE_ON_FREELIST + 1 then LinkLoadHead(h, Resume(seen)) else LoopWith(seen))
      .(refs := s.refs[h := FetchAdd(was, WORD - 1)])
    case LinkLoadHead(n, k) => SetPc(s, t, LinkStoreNext(n, s.head, k))
    case LinkStoreNext(n, top, k) => SetPc(s, t, LinkStoreRefs(n, top, k)).(next := s.next[n := top])
    case LinkStoreRefs(n, top, k) => SetPc(s, t, LinkCas(n, top, k)).(refs := s.refs[n := 1])
    case LinkCas(n, top, k) =>
      if s.head == top
      then SetPc(s, t, Continue(k)).(head := n)
      else SetPc(s, t, LinkDrop(n, s.head, k))
    case LinkDrop(n, top, k) =>
      var was := s.Refs(n);
      SetPc(s, t, if was == 1 then LinkStoreNext(n, top, k) else Continue(k))
      .(refs := s.refs[n := FetchAdd(was, SHOULD_BE_ON_FREELIST - 1)])
  }

  predicate Init(s: State) {
    && s.head == NULL && s.next == map[] && s.refs == map[] && s.owns == {}
    && (forall t :: 0 <= t < |s.pcs| ==> s.pcs[t].Idle?)
    && |s.pcs| < REFS_MASK
  }

  // A run: states joined by enabled steps.
  ghost predicate IsRun(run: seq<State>) {
    && |run| > 0 && Init(run[0])
    && forall i :: 0 <= i < |run| - 1 ==> Stepped(run[i], run[i + 1])
  }

  ghost predicate Stepped(s: State, s': State) {
    exists t, a :: Enabled(s, t, a) && s' == Step(s, t, a)
  }

  // ---- Reference counts ----

  // Between its increment of a node's count and its decrement, a thread holds a reference.
  predicate Holds(pc: Pc, n: nat) {
    (pc.LoadNext? || pc.CasHead? || pc.DropTwo? || pc.DropOne?) && pc.h == n
  }

  function Holders(pcs: seq<Pc>, n: nat): nat {
    if pcs == [] then 0 else (if Holds(pcs[0], n) then 1 else 0) + Holders(pcs[1..], n)
  }

  lemma {:induction false} HoldersBound(pcs: seq<Pc>, n: nat)
    ensures Holders(pcs, n) <= |pcs|
  {
    if pcs == [] {
    } else {
      HoldersBound(pcs[1..], n);
    }
  }

  lemma {:induction false} HoldersPositive(pcs: seq<Pc>, n: nat, t: nat)
    requires t < |pcs| && Holds(pcs[t], n)
    ensures Holders(pcs, n) > 0
  {
    if t == 0 {
    } else {
      HoldersPositive(pcs[1..], n, t - 1);
    }
  }

  // The holder that a positive count promises.
  lemma {:induction false} SomeHolder(pcs: seq<Pc>, n: nat) returns (t: nat)
    requires Holders(pcs, n) > 0
    ensures t < |pcs| && Holds(pcs[t], n)
  {
    if Holds(pcs[0], n) { t := 0; } else { t := SomeHolder(pcs[1..], n); t := t + 1; }
  }

  lemma {:induction false} HoldersZero(pcs: seq<Pc>, n: nat)
    requires forall t :: 0 <= t < |pcs| ==> !Holds(pcs[t], n)
    ensures Holders(pcs, n) == 0
  {
    if pcs == [] {
    } else {
      HoldersZero(pcs[1..], n);
    }
  }

  lemma {:induction false} HoldersUpdate(pcs: seq<Pc>, n: nat, t: nat, pc: Pc)
    requires t < |pcs|
    ensures Holders(pcs[t := pc], n) + (if Holds(pcs[t], n) then 1 else 0)
         == Holders(pcs, n) + (if Holds(pc, n) then 1 else 0)
  {
    var q := pcs[t := pc];
    if t == 0 {
      assert q[1..] == pcs[1..];
    } else {
      assert q[1..] == pcs[1..][t - 1 := pc];
      HoldersUpdate(pcs[1..], n, t - 1, pc);
    }
  }

  // ---- The invariant ----

  // Where a node is.  Nothing in Step looks at this: it is proof bookkeeping.
  datatype Role =
    | Owned(t: nat)    // handed to thread t, outside the list
    | Listed(at: nat)  // on the list, with `at` nodes below it
    | Linking(t: nat)  // thread t is putting it on the list
    | Waiting          // the should-be bit is set; a thread with a reference will link it
    | Taken(t: nat)    // off the list, thread t has still to drop the two references

  // `stack` is the list from its far end up to the head.
  datatype Ghost = Ghost(stack: seq<nat>, role: map<nat, Role>)

  function Top(stack: seq<nat>): nat { if stack == [] then NULL else stack[|stack| - 1] }
  function Below(stack: seq<nat>, i: nat): nat { if 0 < i <= |stack| then stack[i - 1] else NULL }

  // The thread that links n, before it has stored 1 in the count.
  predicate Early(pc: Pc, n: nat) {
    (pc.LinkLoadHead? || pc.LinkStoreNext? || pc.LinkStoreRefs?) && pc.n == n
  }

  predicate Late(pc: Pc, n: nat) {
    (pc.LinkCas? || pc.LinkDrop?) && pc.n == n
  }

  // The whole 32-bit count of node n (one for the list's own reference, one for each thread
  // holding the node, and the top bit for "should be on the free list") and its link.
  predicate NodeOk(s: State, g: Ghost, n: nat)
    requires n in g.role
  {
    var h := Holders(s.pcs, n);
    n != NULL && n in s.refs &&
    match g.role[n]
    case Owned(t) => s.Refs(n) == h && (t, n) in s.owns && t < |s.pcs|
    case Listed(i) => s.Refs(n) == 1 + h && i < |g.stack| && g.stack[i] == n && s.Next(n) == Below(g.stack, i)
    case Linking(t) =>
      && t < |s.pcs|
      && ((Early(s.pcs[t], n) && h == 0 && s.Refs(n) == SHOULD_BE_ON_FREELIST)
          || (Late(s.pcs[t], n) && s.Refs(n) == 1 + h))
    case Waiting => h > 0 && s.Refs(n) == SHOULD_BE_ON_FREELIST + h
    case Taken(t) => t < |s.pcs| && s.pcs[t] == DropTwo(n) && s.Refs(n) == 1 + h
  }

  predicate PcOk(s: State, g: Ghost, t: nat)
    requires t < |s.pcs|
  {
    match s.pcs[t]
    case Idle => true
    case LoadHead => true
    case LoadRefs(h) => h in g.role
    case CasRefs(h, r) => h in g.role && r % SHOULD_BE_ON_FREELIST != 0
    case LoadNext(h) => h in g.role
    case CasHead(h, nx) => h in g.role && s.Next(h) == nx
    case DropTwo(h) => h in g.role && g.role[h] == Taken(t)
    case DropOne(h, seen) => h in g.role && (seen == NULL || seen in g.role)
    case LinkLoadHead(n, k) => n in g.role && g.role[n] == Linking(t) && AfterOk(g, k)
    case LinkStoreNext(n, top, k) => n in g.role && g.role[n] == Linking(t) && AfterOk(g, k)
    case LinkStoreRefs(n, top, k) => n in g.role && g.role[n] == Linking(t) && s.Next(n) == top && AfterOk(g, k)
    case LinkCas(n, top, k) => n in g.role && g.role[n] == Linking(t) && s.Next(n) == top && AfterOk(g, k)
    case LinkDrop(n, top, k) => n in g.role && g.role[n] == Linking(t) && AfterOk(g, k)
  }

  predicate AfterOk(g: Ghost, k: After) {
    k.Resume? ==> k.seen == NULL || k.seen in g.role
  }

  ghost predicate Shape(s: State, g: Ghost) {
    && |s.pcs| < REFS_MASK
    && s.head == Top(g.stack)
    && (forall i :: 0 <= i < |g.stack| ==> g.stack[i] in g.role && g.role[g.stack[i]] == Listed(i))
    && (forall n :: n in s.refs ==> n in g.role)
    && (forall o :: o in s.owns ==> o.1 in g.role && g.role[o.1] == Owned(o.0))
  }

  ghost predicate Inv(s: State, g: Ghost) {
    && Shape(s, g)
    && (forall n {:trigger NodeOk(s, g, n)} :: n in g.role ==> NodeOk(s, g, n))
    && (forall t {:trigger PcOk(s, g, t)} :: 0 <= t < |s.pcs| ==> PcOk(s, g, t))
  }

  // How the bookkeeping follows a step.
  function Track(s: State, g: Ghost, t: nat, a: Action): Ghost
    requires Enabled(s, t, a)
  {
    match a
    case Go => TrackGo(s, g, t)
    case StartGet => g
    case StartAdd(n) => g.(role := g.role[n := if s.Refs(n) == 0 then Linking(t) else Waiting])
    case Create(n) => g.(role := g.role[n := Owned(t)])
    case Pass(n, to) => g.(role := g.role[n := Owned(to)])
  }

  function TrackGo(s: State, g: Ghost, t: nat): Ghost
    requires t < |s.pcs|
  {
    match s.pcs[t]
    case CasHead(h, nx) =>
      if s.head == h && g.stack != [] then Ghost(g.stack[..|g.stack| - 1], g.role[h := Taken(t)]) else g
    case DropTwo(h) => g.(role := g.role[h := Owned(t)])
    case DropOne(h, seen) =>
      if s.Refs(h) == SHOULD_BE_ON_FREELIST + 1 then g.(role := g.role[h := Linking(t)]) else g
    case LinkCas(n, top, k) =>
      if s.head == top then Ghost(g.stack + [n], g.role[n := Listed(|g.stack|)]) else g
    case LinkDrop(n, top, k) =>
      if s.Refs(n) == 1 then g else g.(role := g.role[n := Waiting])
    case _ => g
  }

  // ---- Each step keeps the invariant ----

  // A node that does not exist yet is held by nobody.
  lemma NoHolders(s: State, g: Ghost, n: nat)
    requires Inv(s, g) && n !in g.role
    ensures Holders(s.pcs, n) == 0
  {
    forall t | 0 <= t < |s.pcs| ensures !Holds(s.pcs[t], n) { assert PcOk(s, g, t); }
    HoldersZero(s.pcs, n);
  }

  // The node an instruction works on.
  function Target(pc: Pc): nat {
    match pc
    case Idle => NULL
    case LoadHead => NULL
    case LoadRefs(h) => h
    case CasRefs(h, r) => h
    case LoadNext(h) => h
    case CasHead(h, nx) => h
    case DropTwo(h) => h
    case DropOne(h, seen) => h
    case LinkLoadHead(n, k) => n
    case LinkStoreNext(n, top, k) => n
    case LinkStoreRefs(n, top, k) => n
    case LinkCas(n, top, k) => n
    case LinkDrop(n, top, k) => n
  }

  // Thread t's instruction, its own facts and those of the node it works on.
  ghost predicate At(s: State, g: Ghost, t: nat) {
    && Enabled(s, t, Go)
    && Shape(s, g)
    && PcOk(s, g, t)
    && (s.pcs[t].LoadHead? || (Target(s.pcs[t]) in g.role && NodeOk(s, g, Target(s.pcs[t]))))
  }

  lemma ReadShape(s: State, g: Ghost, t: nat)
    requires At(s, g, t)
    requires s.pcs[t].LoadHead? || s.pcs[t].LoadRefs? || s.pcs[t].LoadNext? || s.pcs[t].LinkLoadHead?
    ensures Shape(Execute(s, t), TrackGo(s, g, t))
  {
    HoldersBound(s.pcs, Target(s.pcs[t]));
  }

  lemma ReadPc(s: State, g: Ghost, t: nat, u: nat)
    requires At(s, g, t) && u < |s.pcs| && PcOk(s, g, u)
    requires s.pcs[t].LoadHead? || s.pcs[t].LoadRefs? || s.pcs[t].LoadNext? || s.pcs[t].LinkLoadHead?
    ensures PcOk(Execute(s, t), TrackGo(s, g, t), u)
  {
    var h := Target(s.pcs[t]);
    if Holds(s.pcs[u], h) { HoldersPositive(s.pcs, h, u); }
  }

  lemma ReadNode(s: State, g: Ghost, t: nat, n: nat)
    requires At(s, g, t) && n in g.role && NodeOk(s, g, n)
    requires s.pcs[t].LoadHead? || s.pcs[t].LoadRefs? || s.pcs[t].LoadNext? || s.pcs[t].LinkLoadHead?
    ensures n in TrackGo(s, g, t).role && NodeOk(Execute(s, t), TrackGo(s, g, t), n)
  {
    HoldersUpdate(s.pcs, n, t, Execute(s, t).pcs[t]);
    HoldersBound(s.pcs, n);
  }

  lemma CasRefsShape(s: State, g: Ghost, t: nat)
    requires At(s, g, t)
    requires s.pcs[t].CasRefs?
    ensures Shape(Execute(s, t), TrackGo(s, g, t))
  {
    HoldersBound(s.pcs, Target(s.pcs[t]));
  }

  lemma CasRefsPc(s: State, g: Ghost, t: nat, u: nat)
    requires At(s, g, t) && u < |s.pcs| && PcOk(s, g, u)
    requires s.pcs[t].CasRefs?
    ensures PcOk(Execute(s, t), TrackGo(s, g, t), u)
  {
    var h := Target(s.pcs[t]);
    if Holds(s.pcs[u], h) { HoldersPositive(s.pcs, h, u); }
  }

  lemma CasRefsNode(s: State, g: Ghost, t: nat, n: nat)
    requires At(s, g, t) && n in g.role && NodeOk(s, g, n)
    requires s.pcs[t].CasRefs?
    ensures n in TrackGo(s, g, t).role && NodeOk(Execute(s, t), TrackGo(s, g, t), n)
  {
    if s.Refs(n) == s.pcs[t].r && n == Target(s.pcs[t]) { CasRefsOwn(s, g, t); } else { CasRefsOther(s, g, t, n); }
  }

  // The count that the exchange replaces is neither 0 nor the bare bit, so 1 can be added to it.
  lemma CasRefsOwn(s: State, g: Ghost, t: nat)
    requires At(s, g, t)
    requires s.pcs[t].CasRefs? && s.Refs(s.pcs[t].h) == s.pcs[t].r
    ensures NodeOk(Execute(s, t), TrackGo(s, g, t), s.pcs[t].h)
  {
    var n := s.pcs[t].h;
    HoldersUpdate(s.pcs, n, t, Execute(s, t).pcs[t]);
    HoldersBound(s.pcs, n);
    assert Execute(s, t).Refs(n) == s.Refs(n) + 1;
  }

  lemma CasRefsOther(s: State, g: Ghost, t: nat, n: nat)
    requires At(s, g, t) && n in g.role && NodeOk(s, g, n)
    requires s.pcs[t].CasRefs? && (n == s.pcs[t].h ==> s.Refs(n) != s.pcs[t].r)
    ensures NodeOk(Execute(s, t), TrackGo(s, g, t), n)
  {
    HoldersUpdate(s.pcs, n, t, Execute(s, t).pcs[t]);
  }

  lemma CasHeadShape(s: State, g: Ghost, t: nat)
    requires At(s, g, t)
    requires s.pcs[t].CasHead?
    ensures Shape(Execute(s, t), TrackGo(s, g, t))
  {
    HoldersBound(s.pcs, Target(s.pcs[t]));
  }

  lemma CasHeadPc(s: State, g: Ghost, t: nat, u: nat)
    requires At(s, g, t) && u < |s.pcs| && PcOk(s, g, u)
    requires s.pcs[t].CasHead?
    ensures PcOk(Execute(s, t), TrackGo(s, g, t), u)
  {
    if u == t { CasHeadPcOwn(s, g, t); } else { CasHeadPcOther(s, g, t, u); }
  }

  lemma CasHeadPcOwn(s: State, g: Ghost, t: nat)
    requires At(s, g, t) && s.pcs[t].CasHead?
    ensures PcOk(Execute(s, t), TrackGo(s, g, t), t)
  {
  }

  lemma CasHeadPcOther(s: State, g: Ghost, t: nat, u: nat)
    requires At(s, g, t) && u < |s.pcs| && u != t && PcOk(s, g, u) && s.pcs[t].CasHead?
    ensures PcOk(Execute(s, t), TrackGo(s, g, t), u)
  {
  }

  lemma CasHeadNode(s: State, g: Ghost, t: nat, n: nat)
    requires At(s, g, t) && n in g.role && NodeOk(s, g, n)
    requires s.pcs[t].CasHead?
    ensures n in TrackGo(s, g, t).role && NodeOk(Execute(s, t), TrackGo(s, g, t), n)
  {
    if n == Target(s.pcs[t]) { CasHeadOwn(s, g, t); } else { CasHeadOther(s, g, t, n); }
  }

  lemma CasHeadOwn(s: State, g: Ghost, t: nat)
    requires At(s, g, t) && s.pcs[t].CasHead?
    ensures var n := Target(s.pcs[t]); n in TrackGo(s, g, t).role && NodeOk(Execute(s, t), TrackGo(s, g, t), n)
  {
    HoldersUpdate(s.pcs, Target(s.pcs[t]), t, Execute(s, t).pcs[t]);
    HoldersBound(s.pcs, Target(s.pcs[t]));
  }

  lemma CasHeadOther(s: State, g: Ghost, t: nat, n: nat)
    requires At(s, g, t) && n in g.role && NodeOk(s, g, n) && n != Target(s.pcs[t])
    requires s.pcs[t].CasHead?
    ensures n in TrackGo(s, g, t).role && NodeOk(Execute(s, t), TrackGo(s, g, t), n)
  {
    HoldersUpdate(s.pcs, n, t, Execute(s, t).pcs[t]);
    HoldersBound(s.pcs, n);
  }

  lemma DropTwoShape(s: State, g: Ghost, t: nat)
    requires At(s, g, t)
    requires s.pcs[t].DropTwo?
    ensures Shape(Execute(s, t), TrackGo(s, g, t))
  {
    HoldersBound(s.pcs, Target(s.pcs[t]));
  }

  lemma DropTwoPc(s: State, g: Ghost, t: nat, u: nat)
    requires At(s, g, t) && u < |s.pcs| && PcOk(s, g, u)
    requires s.pcs[t].DropTwo?
    ensures PcOk(Execute(s, t), TrackGo(s, g, t), u)
  {
    var h := Target(s.pcs[t]);
    if Holds(s.pcs[u], h) { HoldersPositive(s.pcs, h, u); }
  }

  lemma DropTwoNode(s: State, g: Ghost, t: nat, n: nat)
    requires At(s, g, t) && n in g.role && NodeOk(s, g, n)
    requires s.pcs[t].DropTwo?
    ensures n in TrackGo(s, g, t).role && NodeOk(Execute(s, t), TrackGo(s, g, t), n)
  {
    HoldersUpdate(s.pcs, n, t, Execute(s, t).pcs[t]);
    HoldersBound(s.pcs, n);
  }

  lemma DropOneShape(s: State, g: Ghost, t: nat)
    requires At(s, g, t)
    requires s.pcs[t].DropOne?
    ensures Shape(Execute(s, t), TrackGo(s, g, t))
  {
    HoldersBound(s.pcs, Target(s.pcs[t]));
  }

  lemma DropOnePc(s: State, g: Ghost, t: nat, u: nat)
    requires At(s, g, t) && u < |s.pcs| && PcOk(s, g, u)
    requires s.pcs[t].DropOne?
    ensures PcOk(Execute(s, t), TrackGo(s, g, t), u)
  {
    var h := Target(s.pcs[t]);
    HoldersBound(s.pcs, h);
    HoldersPositive(s.pcs, h, t);
    if Holds(s.pcs[u], h) { HoldersPositive(s.pcs, h, u); }
  }

  lemma DropOneNode(s: State, g: Ghost, t: nat, n: nat)
    requires At(s, g, t) && n in g.role && NodeOk(s, g, n)
    requires s.pcs[t].DropOne?
    ensures n in TrackGo(s, g, t).role && NodeOk(Execute(s, t), TrackGo(s, g, t), n)
  {
    HoldersUpdate(s.pcs, n, t, Execute(s, t).pcs[t]);
    HoldersBound(s.pcs, n);
  }

  lemma LinkStoreShape(s: State, g: Ghost, t: nat)
    requires At(s, g, t)
    requires s.pcs[t].LinkStoreNext? || s.pcs[t].LinkStoreRefs?
    ensures Shape(Execute(s, t), TrackGo(s, g, t))
  {
    HoldersBound(s.pcs, Target(s.pcs[t]));
  }

  lemma LinkStorePc(s: State, g: Ghost, t: nat, u: nat)
    requires At(s, g, t) && u < |s.pcs| && PcOk(s, g, u)
    requires s.pcs[t].LinkStoreNext? || s.pcs[t].LinkStoreRefs?
    ensures PcOk(Execute(s, t), TrackGo(s, g, t), u)
  {
    var h := Target(s.pcs[t]);
    if Holds(s.pcs[u], h) { HoldersPositive(s.pcs, h, u); }
  }

  lemma LinkStoreNode(s: State, g: Ghost, t: nat, n: nat)
    requires At(s, g, t) && n in g.role && NodeOk(s, g, n)
    requires s.pcs[t].LinkStoreNext? || s.pcs[t].LinkStoreRefs?
    ensures n in TrackGo(s, g, t).role && NodeOk(Execute(s, t), TrackGo(s, g, t), n)
  {
    HoldersUpdate(s.pcs, n, t, Execute(s, t).pcs[t]);
    HoldersBound(s.pcs, n);
  }

  lemma LinkCasShape(s: State, g: Ghost, t: nat)
    requires At(s, g, t)
    requires s.pcs[t].LinkCas?
    ensures Shape(Execute(s, t), TrackGo(s, g, t))
  {
    HoldersBound(s.pcs, Target(s.pcs[t]));
  }

  lemma LinkCasPc(s: State, g: Ghost, t: nat, u: nat)
    requires At(s, g, t) && u < |s.pcs| && PcOk(s, g, u)
    requires s.pcs[t].LinkCas?
    ensures PcOk(Execute(s, t), TrackGo(s, g, t), u)
  {
    if u == t { LinkCasPcOwn(s, g, t); } else { LinkCasPcOther(s, g, t, u); }
  }

  lemma LinkCasPcOwn(s: State, g: Ghost, t: nat)
    requires At(s, g, t) && s.pcs[t].LinkCas?
    ensures PcOk(Execute(s, t), TrackGo(s, g, t), t)
  {
  }

  lemma LinkCasPcOther(s: State, g: Ghost, t: nat, u: nat)
    requires At(s, g, t) && u < |s.pcs| && u != t && PcOk(s, g, u) && s.pcs[t].LinkCas?
    ensures PcOk(Execute(s, t), TrackGo(s, g, t), u)
  {
  }

  lemma LinkCasNode(s: State, g: Ghost, t: nat, n: nat)
    requires At(s, g, t) && n in g.role && NodeOk(s, g, n)
    requires s.pcs[t].LinkCas?
    ensures n in TrackGo(s, g, t).role && NodeOk(Execute(s, t), TrackGo(s, g, t), n)
  {
    if n == Target(s.pcs[t]) { LinkCasOwn(s, g, t); } else { LinkCasOther(s, g, t, n); }
  }

  lemma LinkCasOwn(s: State, g: Ghost, t: nat)
    requires At(s, g, t) && s.pcs[t].LinkCas?
    ensures var n := Target(s.pcs[t]); n in TrackGo(s, g, t).role && NodeOk(Execute(s, t), TrackGo(s, g, t), n)
  {
    var n := Target(s.pcs[t]);
    HoldersUpdate(s.pcs, n, t, Execute(s, t).pcs[t]);
    HoldersBound(s.pcs, n);
  }

  lemma LinkCasOther(s: State, g: Ghost, t: nat, n: nat)
    requires At(s, g, t) && n in g.role && NodeOk(s, g, n) && n != Target(s.pcs[t])
    requires s.pcs[t].LinkCas?
    ensures n in TrackGo(s, g, t).role && NodeOk(Execute(s, t), TrackGo(s, g, t), n)
  {
    HoldersUpdate(s.pcs, n, t, Execute(s, t).pcs[t]);
  }

  lemma LinkDropShape(s: State, g: Ghost, t: nat)
    requires At(s, g, t)
    requires s.pcs[t].LinkDrop?
    ensures Shape(Execute(s, t), TrackGo(s, g, t))
  {
    HoldersBound(s.pcs, Target(s.pcs[t]));
  }

  lemma LinkDropPc(s: State, g: Ghost, t: nat, u: nat)
    requires At(s, g, t) && u < |s.pcs| && PcOk(s, g, u)
    requires s.pcs[t].LinkDrop?
    ensures PcOk(Execute(s, t), TrackGo(s, g, t), u)
  {
    var h := Target(s.pcs[t]);
    if Holds(s.pcs[u], h) { HoldersPositive(s.pcs, h, u); }
  }

  lemma LinkDropNode(s: State, g: Ghost, t: nat, n: nat)
    requires At(s, g, t) && n in g.role && NodeOk(s, g, n)
    requires s.pcs[t].LinkDrop?
    ensures n in TrackGo(s, g, t).role && NodeOk(Execute(s, t), TrackGo(s, g, t), n)
  {
    HoldersUpdate(s.pcs, n, t, Execute(s, t).pcs[t]);
    HoldersBound(s.pcs, n);
  }

  lemma ShapeKept(s: State, g: Ghost, t: nat)
    requires At(s, g, t)
    ensures Shape(Execute(s, t), TrackGo(s, g, t))
  {
    match s.pcs[t]
    case CasRefs(_, _) => CasRefsShape(s, g, t);
    case CasHead(_, _) => CasHeadShape(s, g, t);
    case DropTwo(_) => DropTwoShape(s, g, t);
    case DropOne(_, _) => DropOneShape(s, g, t);
    case LinkStoreNext(_, _, _) => LinkStoreShape(s, g, t);
    case LinkStoreRefs(_, _, _) => LinkStoreShape(s, g, t);
    case LinkCas(_, _, _) => LinkCasShape(s, g, t);
    case LinkDrop(_, _, _) => LinkDropShape(s, g, t);
    case _ => ReadShape(s, g, t);
  }

  lemma PcKept(s: State, g: Ghost, t: nat, u: nat)
    requires At(s, g, t) && u < |s.pcs| && PcOk(s, g, u)
    ensures PcOk(Execute(s, t), TrackGo(s, g, t), u)
  {
    match s.pcs[t]
    case CasRefs(_, _) => CasRefsPc(s, g, t, u);
    case CasHead(_, _) => CasHeadPc(s, g, t, u);
    case DropTwo(_) => DropTwoPc(s, g, t, u);
    case DropOne(_, _) => DropOnePc(s, g, t, u);
    case LinkStoreNext(_, _, _) => LinkStorePc(s, g, t, u);
    case LinkStoreRefs(_, _, _) => LinkStorePc(s, g, t, u);
    case LinkCas(_, _, _) => LinkCasPc(s, g, t, u);
    case LinkDrop(_, _, _) => LinkDropPc(s, g, t, u);
    case _ => ReadPc(s, g, t, u);
  }

  lemma NodeKept(s: State, g: Ghost, t: nat, n: nat)
    requires At(s, g, t) && n in g.role && NodeOk(s, g, n)
    ensures n in TrackGo(s, g, t).role && NodeOk(Execute(s, t), TrackGo(s, g, t), n)
  {
    match s.pcs[t]
    case CasRefs(_, _) => CasRefsNode(s, g, t, n);
    case CasHead(_, _) => CasHeadNode(s, g, t, n);
    case DropTwo(_) => DropTwoNode(s, g, t, n);
    case DropOne(_, _) => DropOneNode(s, g, t, n);
    case LinkStoreNext(_, _, _) => LinkStoreNode(s, g, t, n);
    case LinkStoreRefs(_, _, _) => LinkStoreNode(s, g, t, n);
    case LinkCas(_, _, _) => LinkCasNode(s, g, t, n);
    case LinkDrop(_, _, _) => LinkDropNode(s, g, t, n);
    case _ => ReadNode(s, g, t, n);
  }

  lemma GoKeeps(s: State, g: Ghost, t: nat)
    requires Inv(s, g) && Enabled(s, t, Go)
    ensures Inv(Execute(s, t), TrackGo(s, g, t))
  {
    var s', g' := Execute(s, t), TrackGo(s, g, t);
    assert At(s, g, t) by { assert PcOk(s, g, t); }
    ShapeKept(s, g, t);
    forall u | 0 <= u < |s.pcs| ensures PcOk(s', g', u) { PcKept(s, g, t, u); }
    forall n | n in g.role ensures n in g'.role && NodeOk(s', g', n) { NodeKept(s, g, t, n); }
    RolesStay(s, g, t);
  }

  // An instruction changes the roles of known nodes only.
  lemma RolesStay(s: State, g: Ghost, t: nat)
    requires At(s, g, t)
    ensures forall n :: n in TrackGo(s, g, t).role ==> n in g.role
  {
  }

  lemma StartPc(s: State, g: Ghost, t: nat, a: Action, u: nat)
    requires Enabled(s, t, a) && !a.Go? && Shape(s, g) && u < |s.pcs| && PcOk(s, g, u)
    requires a.Create? ==> a.n !in g.role
    ensures PcOk(Step(s, t, a), Track(s, g, t, a), u)
  {
    if a.StartAdd? || a.Pass? { assert g.role[(t, a.n).1] == Owned((t, a.n).0); }
  }

  lemma StartNode(s: State, g: Ghost, t: nat, a: Action, n: nat)
    requires Enabled(s, t, a) && !a.Go? && Shape(s, g) && n in g.role && NodeOk(s, g, n)
    ensures NodeOk(Step(s, t, a), Track(s, g, t, a), n)
  {
    HoldersUpdate(s.pcs, n, t, Step(s, t, a).pcs[t]);
    assert Step(s, t, a).pcs == s.pcs[t := Step(s, t, a).pcs[t]];
    HoldersBound(s.pcs, n);
    if a.StartAdd? || a.Pass? { assert g.role[(t, a.n).1] == Owned((t, a.n).0); }
  }

  lemma StepKeeps(s: State, g: Ghost, t: nat, a: Action)
    requires Inv(s, g) && Enabled(s, t, a)
    ensures Inv(Step(s, t, a), Track(s, g, t, a))
  {
    if a.Go? {
      GoKeeps(s, g, t);
    } else {
      var s', g' := Step(s, t, a), Track(s, g, t, a);
      assert a.Create? ==> a.n !in g.role by { assert forall n :: n in g.role ==> NodeOk(s, g, n); }
      forall u | 0 <= u < |s'.pcs| ensures PcOk(s', g', u) { StartPc(s, g, t, a, u); }
      forall n | n in g.role ensures NodeOk(s', g', n) { StartNode(s, g, t, a, n); }
      if a.Create? { NoHolders(s, g, a.n); }
    }
  }

  // ---- What holds in every reachable state ----

  // The invariant holds all along every run, whatever the schedule.
  lemma {:induction false} RunKeeps(run: seq<State>, i: nat) returns (g: Ghost)
    requires IsRun(run) && i < |run|
    ensures Inv(run[i], g)
  {
    if i == 0 {
      g := Ghost([], map[]);
    } else {
      var before := RunKeeps(run, i - 1);
      assert Stepped(run[i - 1], run[i - 1 + 1]);
      var t, a :| Enabled(run[i - 1], t, a) && run[i] == Step(run[i - 1], t, a);
      StepKeeps(run[i - 1], before, t, a);
      g := Track(run[i - 1], before, t, a);
    }
  }

  // No node is in two hands at once, and none is in a hand while it can be reached from head.
  lemma OneOwner(run: seq<State>, i: nat, t: nat, u: nat, n: nat)
    requires IsRun(run) && i < |run| && (t, n) in run[i].owns
    ensures (u, n) in run[i].owns ==> u == t
    ensures run[i].head != n
    ensures run[i].Refs(n) == Holders(run[i].pcs, n) < SHOULD_BE_ON_FREELIST
  {
    var g := RunKeeps(run, i);
    assert g.role[(t, n).1] == Owned((t, n).0);
    if (u, n) in run[i].owns { assert g.role[(u, n).1] == Owned((u, n).0); }
    assert NodeOk(run[i], g, n);
    HoldersBound(run[i].pcs, n);
  }

  // try_get never hands out a node that somebody already has, and its should-be bit is clear, as asserted.
  lemma GetsUnowned(run: seq<State>, i: nat, t: nat)
    requires IsRun(run) && i < |run| && t < |run[i].pcs| && run[i].pcs[t].DropTwo?
    ensures forall o :: o in run[i].owns ==> o.1 != run[i].pcs[t].h
    ensures run[i].Refs(run[i].pcs[t].h) < SHOULD_BE_ON_FREELIST
  {
    var g := RunKeeps(run, i);
    assert PcOk(run[i], g, t);
    assert NodeOk(run[i], g, run[i].pcs[t].h);
    HoldersBound(run[i].pcs, run[i].pcs[t].h);
    forall o | o in run[i].owns ensures o.1 != run[i].pcs[t].h { assert g.role[o.1] == Owned(o.0); }
  }

  // The nodes reached from head, in order, each once, up to nullptr.
  ghost predicate IsChain(s: State, l: seq<nat>) {
    && s.head == (if l == [] then NULL else l[0])
    && (forall i, j :: 0 <= i < j < |l| ==> l[i] != l[j])
    && (forall i :: 0 <= i < |l| ==> l[i] != NULL && s.Next(l[i]) == Successor(l, i))
  }

  function Successor(l: seq<nat>, i: nat): nat {
    if i + 1 < |l| then l[i + 1] else NULL
  }

  function Reversed(stack: seq<nat>): seq<nat> {
    seq(|stack|, i requires 0 <= i < |stack| => stack[|stack| - 1 - i])
  }

  lemma ChainOfStack(s: State, g: Ghost)
    requires Inv(s, g)
    ensures IsChain(s, Reversed(g.stack))
  {
    var l := Reversed(g.stack);
    forall i | 0 <= i < |l| ensures l[i] != NULL && s.Next(l[i]) == Successor(l, i) {
      assert g.role[g.stack[|l| - 1 - i]] == Listed(|l| - 1 - i);
      assert NodeOk(s, g, l[i]);
    }
    ListedOnce(s, g);
  }

  lemma ListedOnce(s: State, g: Ghost)
    requires Shape(s, g)
    ensures forall i, j :: 0 <= i < j < |g.stack| ==> Reversed(g.stack)[i] != Reversed(g.stack)[j]
  {
    var l := Reversed(g.stack);
    forall i, j | 0 <= i < j < |l| ensures l[i] != l[j] {
      assert g.role[g.stack[|l| - 1 - i]] == Listed(|l| - 1 - i);
      assert g.role[g.stack[|l| - 1 - j]] == Listed(|l| - 1 - j);
    }
  }

  lemma HeadIsTop(s: State, g: Ghost, t: nat)
    requires Inv(s, g) && t < |s.pcs| && s.pcs[t].CasHead? && s.head == s.pcs[t].h
    ensures g.stack != [] && g.stack[|g.stack| - 1] == s.pcs[t].h && s.Refs(s.pcs[t].h) < SHOULD_BE_ON_FREELIST
    ensures TrackGo(s, g, t).stack == g.stack[..|g.stack| - 1]
  {
    assert PcOk(s, g, t);
    assert NodeOk(s, g, s.pcs[t].h);
    HoldersBound(s.pcs, s.pcs[t].h);
  }

  // No ABA: when try_get's compare-exchange on the head succeeds, the `next` it read earlier is
  // still the successor and the should-be bit is clear, so exactly the head is removed.
  lemma NoAba(run: seq<State>, i: nat, t: nat) returns (l: seq<nat>)
    requires IsRun(run) && i < |run| && t < |run[i].pcs|
    requires run[i].pcs[t].CasHead? && run[i].head == run[i].pcs[t].h
    ensures IsChain(run[i], l) && l != [] && l[0] == run[i].pcs[t].h
    ensures IsChain(Execute(run[i], t), l[1..])
    ensures run[i].Refs(l[0]) < SHOULD_BE_ON_FREELIST
  {
    var g := RunKeeps(run, i);
    var s := run[i];
    HeadIsTop(s, g, t);
    ChainOfStack(s, g);
    ChainAfter(s, g, t);
    l := Reversed(g.stack);
    WithoutTop(g.stack);
  }

  lemma ChainAfter(s: State, g: Ghost, t: nat)
    requires Inv(s, g) && Enabled(s, t, Go)
    ensures IsChain(Execute(s, t), Reversed(TrackGo(s, g, t).stack))
  {
    GoKeeps(s, g, t);
    ChainOfStack(Execute(s, t), TrackGo(s, g, t));
  }

  lemma WithoutTop(stack: seq<nat>)
    requires stack != []
    ensures Reversed(stack[..|stack| - 1]) == Reversed(stack)[1..]
    ensures Reversed(stack)[0] == stack[|stack| - 1]
  {
  }

  // The push of add_knowing_refcount_is_zero puts exactly its node on top; ABA on the head it
  // read is harmless.
  lemma PushesOne(run: seq<State>, i: nat, t: nat) returns (l: seq<nat>)
    requires IsRun(run) && i < |run| && t < |run[i].pcs|
    requires run[i].pcs[t].LinkCas? && run[i].head == run[i].pcs[t].top
    ensures IsChain(run[i], l) && IsChain(Execute(run[i], t), [run[i].pcs[t].n] + l)
  {
    var g := RunKeeps(run, i);
    var s := run[i];
    ChainOfStack(s, g);
    GoKeeps(s, g, t);
    ChainOfStack(Execute(s, t), TrackGo(s, g, t));
    l := Reversed(g.stack);
    assert Reversed(g.stack + [s.pcs[t].n]) == [s.pcs[t].n] + l;
  }

  lemma StackStays(s: State, g: Ghost, t: nat, a: Action)
    requires Enabled(s, t, a)
    requires a.Go? && s.pcs[t].CasHead? ==> s.head != s.pcs[t].h
    requires a.Go? && s.pcs[t].LinkCas? ==> s.head != s.pcs[t].top
    ensures Track(s, g, t, a).stack == g.stack
  {
  }

  // Every other instruction leaves the list as it is.
  lemma OthersLeaveList(run: seq<State>, i: nat, t: nat, a: Action) returns (l: seq<nat>)
    requires IsRun(run) && i < |run| && Enabled(run[i], t, a)
    requires a.Go? && run[i].pcs[t].CasHead? ==> run[i].head != run[i].pcs[t].h
    requires a.Go? && run[i].pcs[t].LinkCas? ==> run[i].head != run[i].pcs[t].top
    ensures IsChain(run[i], l) && IsChain(Step(run[i], t, a), l)
  {
    var g := RunKeeps(run, i);
    l := Reversed(g.stack);
    ChainOfStack(run[i], g);
    StepKeeps(run[i], g, t, a);
    StackStays(run[i], g, t, a);
    ChainOfStack(Step(run[i], t, a), Track(run[i], g, t, a));
  }

  // There is only one such sequence.
  lemma {:induction false} ChainAt(s: State, l: seq<nat>, l2: seq<nat>, k: nat)
    requires IsChain(s, l) && IsChain(s, l2) && k < |l|
    ensures k < |l2| && l[k] == l2[k]
  {
    if k == 0 {
    } else {
      ChainAt(s, l, l2, k - 1);
      assert s.Next(l[k - 1]) == Successor(l, k - 1) == l[k];
      assert s.Next(l2[k - 1]) == Successor(l2, k - 1);
    }
  }

  lemma ChainIsUnique(s: State, l: seq<nat>, l2: seq<nat>)
    requires IsChain(s, l) && IsChain(s, l2)
    ensures l == l2
  {
    if |l| > 0 { ChainAt(s, l, l2, |l| - 1); }
    if |l2| > 0 { ChainAt(s, l2, l, |l2| - 1); }
    forall k | 0 <= k < |l| ensures l[k] == l2[k] { ChainAt(s, l, l2, k); }
  }

  // ---- Where a node can be ----

  ghost predicate InHand(s: State, n: nat) { exists o :: o in s.owns && o.1 == n }
  ghost predicate BeingLinked(s: State, n: nat) {
    exists t :: 0 <= t < |s.pcs| && (Early(s.pcs[t], n) || Late(s.pcs[t], n))
  }

  ghost predicate BeingTaken(s: State, n: nat) { exists t :: 0 <= t < |s.pcs| && s.pcs[t] == DropTwo(n) }
  predicate LeftToHolders(s: State, n: nat) { s.Refs(n) > SHOULD_BE_ON_FREELIST && Holders(s.pcs, n) > 0 }

  // Nothing is lost and nothing is in two places: every node is either in one thread's hand,
  // or on the list, or being linked by a thread, or left (bit set) to a thread that holds it,
  // or on its way out of try_get.
  lemma ExactlyOnePlace(run: seq<State>, i: nat, n: nat) returns (l: seq<nat>)
    requires IsRun(run) && i < |run| && n in run[i].refs
    ensures IsChain(run[i], l)
    ensures One(InHand(run[i], n)) + One(n in l) + One(BeingLinked(run[i], n)) + One(LeftToHolders(run[i], n))
            + One(BeingTaken(run[i], n)) == 1
  {
    var s := run[i];
    var g := RunKeeps(run, i);
    ChainOfStack(s, g);
    l := Reversed(g.stack);
    assert NodeOk(s, g, n);
    HoldersBound(s.pcs, n);
    ListedIffInList(s, g, n);
    HandIffOwned(s, g, n);
    PlacesByRole(s, g, n);
  }

  // A node that has not been made yet is in none of these places.
  lemma NowhereYet(run: seq<State>, i: nat, n: nat) returns (l: seq<nat>)
    requires IsRun(run) && i < |run| && n !in run[i].refs && n != NULL
    ensures IsChain(run[i], l)
    ensures !InHand(run[i], n) && n !in l && !BeingLinked(run[i], n) && !LeftToHolders(run[i], n)
        && !BeingTaken(run[i], n)
  {
    var g := RunKeeps(run, i);
    ChainOfStack(run[i], g);
    l := Reversed(g.stack);
    UnknownNode(run[i], g, n);
  }

  lemma UnknownNode(s: State, g: Ghost, n: nat)
    requires Inv(s, g) && n !in s.refs && n != NULL
    ensures !InHand(s, n) && n !in Reversed(g.stack) && !BeingLinked(s, n) && !LeftToHolders(s, n) && !BeingTaken(s, n)
  {
    assert n !in g.role by { assert forall m :: m in g.role ==> NodeOk(s, g, m); }
    assert n !in Reversed(g.stack) by {
      forall j | 0 <= j < |g.stack| ensures g.stack[j] != n { }
    }
    forall t | 0 <= t < |s.pcs| ensures !Early(s.pcs[t], n) && !Late(s.pcs[t], n) && s.pcs[t] != DropTwo(n) {
      assert PcOk(s, g, t);
    }
  }

  lemma ListedIffInList(s: State, g: Ghost, n: nat)
    requires Inv(s, g) && n in g.role
    ensures n in Reversed(g.stack) <==> g.role[n].Listed?
  {
    var l := Reversed(g.stack);
    assert NodeOk(s, g, n);
    if g.role[n].Listed? { assert l[|l| - 1 - g.role[n].at] == n; }
    forall j | 0 <= j < |l| ensures g.role[l[j]].Listed? {
      assert g.role[g.stack[|l| - 1 - j]] == Listed(|l| - 1 - j);
    }
  }

  lemma HandIffOwned(s: State, g: Ghost, n: nat)
    requires Inv(s, g) && n in g.role
    ensures InHand(s, n) <==> g.role[n].Owned?
  {
    assert NodeOk(s, g, n);
    if g.role[n].Owned? { assert (g.role[n].t, n) in s.owns && (g.role[n].t, n).1 == n; }
    forall o | o in s.owns && o.1 == n ensures g.role[n].Owned? { assert g.role[o.1] == Owned(o.0); }
  }

  lemma PlacesByRole(s: State, g: Ghost, n: nat)
    requires Inv(s, g) && n in g.role
    ensures BeingLinked(s, n) <==> g.role[n].Linking?
    ensures BeingTaken(s, n) <==> g.role[n].Taken?
    ensures LeftToHolders(s, n) <==> g.role[n].Waiting?
  {
    assert NodeOk(s, g, n);
    HoldersBound(s.pcs, n);
    if g.role[n].Linking? || g.role[n].Taken? { var pc := s.pcs[g.role[n].t]; }
    forall t | 0 <= t < |s.pcs| && (Early(s.pcs[t], n) || Late(s.pcs[t], n))
        ensures g.role[n] == Linking(t) { assert PcOk(s, g, t); }
    forall t | 0 <= t < |s.pcs| && s.pcs[t] == DropTwo(n) ensures g.role[n] == Taken(t) { assert PcOk(s, g, t); }
  }

  ghost predicate BeingFinished(s: State, n: nat) { exists t :: 0 <= t < |s.pcs| && Late(s.pcs[t], n) }

  // The low 31 bits of a node's count are the list's reference, while it has one, and one for each
  // thread that holds the node; they never reach the top bit.
  lemma CountIsReferences(run: seq<State>, i: nat, n: nat) returns (l: seq<nat>)
    requires IsRun(run) && i < |run| && n in run[i].refs
    ensures IsChain(run[i], l)
    ensures run[i].Refs(n) % SHOULD_BE_ON_FREELIST
            == One(n in l || BeingFinished(run[i], n) || BeingTaken(run[i], n)) + Holders(run[i].pcs, n)
    ensures run[i].Refs(n) < WORD
  {
    var g := RunKeeps(run, i);
    ChainOfStack(run[i], g);
    l := Reversed(g.stack);
    assert NodeOk(run[i], g, n);
    ListedIffInList(run[i], g, n);
    PlacesByRole(run[i], g, n);
    FinishedByRole(run[i], g, n);
    CountByRole(run[i], g, n);
  }

  lemma FinishedByRole(s: State, g: Ghost, n: nat)
    requires n in g.role && NodeOk(s, g, n)
    requires forall t :: 0 <= t < |s.pcs| ==> PcOk(s, g, t)
    ensures BeingFinished(s, n) <==> g.role[n].Linking? && Late(s.pcs[g.role[n].t], n)
  {
    forall t | 0 <= t < |s.pcs| && Late(s.pcs[t], n) ensures g.role[n] == Linking(t) { assert PcOk(s, g, t); }
  }

  lemma CountByRole(s: State, g: Ghost, n: nat)
    requires |s.pcs| < REFS_MASK && n in g.role && NodeOk(s, g, n)
    ensures s.Refs(n) < WORD
    ensures s.Refs(n) % SHOULD_BE_ON_FREELIST == Holders(s.pcs, n)
      + One(g.role[n].Listed? || (g.role[n].Linking? && Late(s.pcs[g.role[n].t], n)) || g.role[n].Taken?)
  {
    HoldersBound(s.pcs, n);
  }

  // A node is linked by one thread at a time, so its next pointer has one writer.
  lemma OneLinker(run: seq<State>, i: nat, t: nat, u: nat, n: nat)
    requires IsRun(run) && i < |run| && t < |run[i].pcs| && u < |run[i].pcs|
    requires Early(run[i].pcs[t], n) || Late(run[i].pcs[t], n)
    requires Early(run[i].pcs[u], n) || Late(run[i].pcs[u], n)
    ensures t == u
  {
    var g := RunKeeps(run, i);
    assert PcOk(run[i], g, t) && PcOk(run[i], g, u);
  }

  lemma WaitingGoes(s: State, g: Ghost, t: nat, n: nat)
    requires At(s, g, t) && n in g.role && g.role[n].Waiting? && NodeOk(s, g, n)
    ensures n in TrackGo(s, g, t).role
    ensures TrackGo(s, g, t).role[n].Waiting? || Early(Execute(s, t).pcs[t], n)
  {
  }

  // A node left to its holders is never stranded: the instruction that drops its last reference
  // goes on to link it.
  lemma NeverStranded(run: seq<State>, i: nat, t: nat, n: nat)
    requires IsRun(run) && i < |run| && Enabled(run[i], t, Go) && LeftToHolders(run[i], n)
    ensures LeftToHolders(Execute(run[i], t), n) || Early(Execute(run[i], t).pcs[t], n)
  {
    var s := run[i];
    var g := RunKeeps(run, i);
    assert n in s.refs;
    PlacesByRole(s, g, n);
    assert At(s, g, t) by { assert PcOk(s, g, t); }
    WaitingGoes(s, g, t, n);
    GoKeeps(s, g, t);
    PlacesByRole(Execute(s, t), TrackGo(s, g, t), n);
  }

  // With no call in flight the nodes are exactly those in hand, with count 0, and those on the
  // list, with count 1.
  lemma AtRest(run: seq<State>, i: nat, n: nat) returns (l: seq<nat>)
    requires IsRun(run) && i < |run| && n in run[i].refs
    requires forall t :: 0 <= t < |run[i].pcs| ==> run[i].pcs[t].Idle?
    ensures IsChain(run[i], l)
    ensures (n in l && !InHand(run[i], n) && run[i].Refs(n) == 1)
        || (n !in l && InHand(run[i], n) && run[i].Refs(n) == 0)
  {
    var s := run[i];
    var g := RunKeeps(run, i);
    l := Reversed(g.stack);
    ChainOfStack(s, g);
    assert NodeOk(s, g, n);
    HoldersZero(s.pcs, n);
    ListedIffInList(s, g, n);
    HandIffOwned(s, g, n);
  }

  // ---- What the operations achieve ----

  // Thread t's next n instructions, nobody else running.
  function Alone(s: State, t: nat, n: nat): State
    decreases n
  {
    if n == 0 || !Enabled(s, t, Go) then s else Alone(Step(s, t, Go), t, n - 1)
  }

  ghost predicate AllIdle(s: State) { forall t :: 0 <= t < |s.pcs| ==> s.pcs[t].Idle? }

  // The first half of a lone try_get: it holds the head, and has read its successor.
  lemma HoldsHead(s: State, t: nat)
    requires t < |s.pcs| && s.pcs[t] == LoadHead && s.head != NULL && s.Refs(s.head) == 1
    ensures var s4 := Alone(s, t, 4);
            s4 == SetPc(s, t, CasHead(s.head, s.Next(s.head))).(refs := s.refs[s.head := 2])
  {
    var s1 := Step(s, t, Go);
    var s2 := Step(s1, t, Go);
    var s3 := Step(s2, t, Go);
    assert Alone(s, t, 4) == Alone(s1, t, 3) == Alone(s2, t, 2) == Alone(s3, t, 1) == Alone(Step(s3, t, Go), t, 0);
  }

  // The second: it takes it off the list, and drops both references.
  lemma TakesHead(s: State, t: nat, h: nat, nx: nat)
    requires t < |s.pcs| && s.pcs[t] == CasHead(h, nx) && s.head == h && s.Refs(h) == 2
    ensures Alone(s, t, 2) == SetPc(s, t, Idle).(head := nx, refs := s.refs[h := 0], owns := s.owns + {(t, h)})
  {
    var s1 := Step(s, t, Go);
    assert Alone(s, t, 2) == Alone(s1, t, 1) == Alone(Step(s1, t, Go), t, 0);
  }

  lemma {:induction false} AloneSplit(s: State, t: nat, m: nat, n: nat)
    ensures Alone(Alone(s, t, m), t, n) == Alone(s, t, m + n)
    decreases m
  {
    if m == 0 || !Enabled(s, t, Go) {
      if !Enabled(s, t, Go) { assert Alone(s, t, n) == s; }
    } else {
      AloneSplit(Step(s, t, Go), t, m - 1, n);
    }
  }

  lemma GetSteps(s: State, t: nat)
    requires t < |s.pcs| && s.pcs[t].Idle? && (s.head != NULL ==> s.Refs(s.head) == 1)
    ensures var s6 := Alone(Step(s, t, StartGet), t, 6);
            s6 == if s.head == NULL then s
                  else s.(head := s.Next(s.head), refs := s.refs[s.head := 0], owns := s.owns + {(t, s.head)})
    ensures s.head != NULL ==> Alone(Step(s, t, StartGet), t, 5).pcs == s.pcs[t := DropTwo(s.head)]
  {
    var s0 := Step(s, t, StartGet);
    if s.head == NULL {
      assert Alone(s0, t, 6) == Alone(Step(s0, t, Go), t, 5) == Step(s0, t, Go);
      assert Step(s0, t, Go).pcs == s.pcs;
    } else {
      HoldsHead(s0, t);
      TakesHead(Alone(s0, t, 4), t, s.head, s.Next(s.head));
      AloneSplit(s0, t, 4, 2);
      AloneSplit(s0, t, 4, 1);
      assert Alone(Alone(s0, t, 4), t, 1) == Alone(Step(Alone(s0, t, 4), t, Go), t, 0);
      assert Alone(s0, t, 6).pcs == s.pcs;
      assert Alone(s0, t, 6).refs == s.refs[s.head := 0];
    }
  }

  // A try_get that runs by itself takes the head of the list, whenever there is one.
  lemma LoneGetTakesHead(run: seq<State>, i: nat, t: nat) returns (l: seq<nat>)
    requires IsRun(run) && i < |run| && t < |run[i].pcs| && AllIdle(run[i])
    ensures IsChain(run[i], l)
    ensures var s, s6 := run[i], Alone(Step(run[i], t, StartGet), t, 6);
            && AllIdle(s6)
            && (l == [] ==> s6 == s)
            && (l != [] ==> s6.owns == s.owns + {(t, l[0])} && (t, l[0]) !in s.owns && IsChain(s6, l[1..]))
    ensures l != [] ==> Alone(Step(run[i], t, StartGet), t, 5).pcs == run[i].pcs[t := DropTwo(l[0])]
  {
    var s := run[i];
    if s.head == NULL {
      l := ChainInRun(run, i);
    } else {
      HeadIsKnown(run, i);
      l := AtRest(run, i, s.head);
    }
    GetSteps(s, t);
    if l != [] {
      var s6 := Alone(Step(s, t, StartGet), t, 6);
      forall k | 0 <= k < |l[1..]| ensures l[1..][k] != NULL && s6.Next(l[1..][k]) == Successor(l[1..], k) {
        assert l[1..][k] == l[k + 1];
      }
      NotInHand(s, t, l[0]);
    }
  }

  lemma NotInHand(s: State, t: nat, n: nat)
    requires !InHand(s, n)
    ensures (t, n) !in s.owns
  {
    var o := (t, n);
    assert o.1 == n;
  }

  lemma HeadIsKnown(run: seq<State>, i: nat)
    requires IsRun(run) && i < |run| && run[i].head != NULL
    ensures run[i].head in run[i].refs
  {
    var g := RunKeeps(run, i);
    assert g.role[g.stack[|g.stack| - 1]] == Listed(|g.stack| - 1);
    assert NodeOk(run[i], g, run[i].head);
  }

  lemma ChainInRun(run: seq<State>, i: nat) returns (l: seq<nat>)
    requires IsRun(run) && i < |run|
    ensures IsChain(run[i], l)
  {
    var g := RunKeeps(run, i);
    ChainOfStack(run[i], g);
    l := Reversed(g.stack);
  }

  lemma AddSteps(s: State, t: nat, n: nat)
    requires Enabled(s, t, StartAdd(n)) && s.Refs(n) == 0
    ensures Alone(Step(s, t, StartAdd(n)), t, 4)
            == s.(head := n, next := s.next[n := s.head], refs := s.refs[n := 1], owns := s.owns - {(t, n)})
  {
    var s0 := Step(s, t, StartAdd(n));
    var s1 := Step(s0, t, Go);
    var s2 := Step(s1, t, Go);
    var s3 := Step(s2, t, Go);
    var s4 := Step(s3, t, Go);
    assert Alone(s0, t, 4) == Alone(s1, t, 3) == Alone(s2, t, 2) == Alone(s3, t, 1) == Alone(s4, t, 0);
    assert s4.pcs == s.pcs && s4.refs == s.refs[n := 1];
  }

  // An add that runs by itself puts its node in front of the list.
  lemma LoneAddPutsInFront(run: seq<State>, i: nat, t: nat, n: nat) returns (l: seq<nat>)
    requires IsRun(run) && i < |run| && AllIdle(run[i]) && Enabled(run[i], t, StartAdd(n))
    ensures IsChain(run[i], l)
    ensures var s, s4 := run[i], Alone(Step(run[i], t, StartAdd(n)), t, 4);
            AllIdle(s4) && IsChain(s4, [n] + l) && s4.owns == s.owns - {(t, n)}
  {
    var s := run[i];
    var g := RunKeeps(run, i);
    assert g.role[(t, n).1] == Owned((t, n).0);
    assert NodeOk(s, g, n);
    l := AtRest(run, i, n);
    assert InHand(s, n) by { assert (t, n).1 == n; }
    AddSteps(s, t, n);
    var s4 := Alone(Step(s, t, StartAdd(n)), t, 4);
    var l2 := [n] + l;
    forall k | 0 <= k < |l2| ensures l2[k] != NULL && s4.Next(l2[k]) == Successor(l2, k) {
      if k > 0 { assert l2[k] == l[k - 1] && l2[k] != n; }
    }
  }

  predicate Links(pc: Pc) {
    pc.LinkLoadHead? || pc.LinkStoreNext? || pc.LinkStoreRefs? || pc.LinkCas? || pc.LinkDrop?
  }

  // Inside try_get; a link it does on the way is for another thread's add.
  predicate InGet(pc: Pc) { !pc.Idle? && (Links(pc) ==> pc.k.Resume?) }

  // It has seen an empty list since it last failed to take the head.
  predicate SawNull(pc: Pc) { (pc.DropOne? && pc.seen == NULL) || (Links(pc) && pc.k == Resume(NULL)) }

  lemma GoSeesNull(s: State, t: nat)
    requires t < |s.pcs| && InGet(s.pcs[t])
    ensures var pc := Execute(s, t).pcs[t];
            && (SawNull(pc) ==> s.head == NULL || SawNull(s.pcs[t]))
            && (pc.Idle? ==> s.head == NULL || SawNull(s.pcs[t]) || s.pcs[t].DropTwo?)
  {
  }

  lemma OthersKeepPc(s: State, t: nat, u: nat, a: Action)
    requires Enabled(s, u, a) && t < |s.pcs| && !s.pcs[t].Idle? && !(u == t && a.Go?)
    ensures t < |Step(s, u, a).pcs| && Step(s, u, a).pcs[t] == s.pcs[t]
  {
  }

  lemma SeeingNull(s: State, t: nat, s2: State)
    requires Stepped(s, s2) && t < |s.pcs| && t < |s2.pcs| && InGet(s.pcs[t])
    ensures SawNull(s2.pcs[t]) ==> s.head == NULL || SawNull(s.pcs[t])
    ensures s2.pcs[t].Idle? ==> s.head == NULL || SawNull(s.pcs[t]) || (s.pcs[t].DropTwo? && s2 == Step(s, t, Go))
  {
    var u, a :| Enabled(s, u, a) && s2 == Step(s, u, a);
    if u == t && a.Go? { GoSeesNull(s, t); } else { OthersKeepPc(s, t, u, a); }
  }

  lemma {:induction false} NullWasSeen(run: seq<State>, i: nat, j: nat, t: nat) returns (m: nat)
    requires IsRun(run) && i < j < |run| && t < |run[i].pcs| && run[i].pcs[t].Idle?
    requires forall k :: i < k <= j ==> t < |run[k].pcs| && InGet(run[k].pcs[t])
    requires SawNull(run[j].pcs[t])
    ensures i < m < j && run[m].head == NULL
    decreases j
  {
    assert Stepped(run[j - 1], run[j - 1 + 1]);
    assert j - 1 != i by {
      if j - 1 == i { StartsAtHead(run[i], t, run[j]); }
    }
    SeeingNull(run[j - 1], t, run[j]);
    if run[j - 1].head == NULL { m := j - 1; } else { m := NullWasSeen(run, i, j - 1, t); }
  }

  lemma StartsAtHead(s: State, t: nat, s2: State)
    requires Stepped(s, s2) && t < |s.pcs| && t < |s2.pcs| && s.pcs[t].Idle?
    ensures !SawNull(s2.pcs[t])
  {
    var u, a :| Enabled(s, u, a) && s2 == Step(s, u, a);
  }

  // Whatever the others do, a try_get that ends at run[j] without a node has seen the list empty
  // at some moment since it began after run[i].
  lemma GivesUpOnlyOnEmpty(run: seq<State>, i: nat, j: nat, t: nat) returns (m: nat)
    requires IsRun(run) && i + 1 < j < |run| && t < |run[i].pcs| && run[i].pcs[t].Idle?
    requires forall k :: i < k < j ==> t < |run[k].pcs| && InGet(run[k].pcs[t])
    requires t < |run[j].pcs| && run[j].pcs[t].Idle? && forall n :: (t, n) in run[j].owns ==> (t, n) in run[j - 1].owns
    ensures i < m < j && run[m].head == NULL
  {
    assert Stepped(run[j - 1], run[j - 1 + 1]);
    SeeingNull(run[j - 1], t, run[j]);
    if run[j - 1].pcs[t].DropTwo? { GetsUnowned(run, j - 1, t); }
    if run[j - 1].head == NULL { m := j - 1; } else { m := NullWasSeen(run, i, j - 1, t); }
  }
}
