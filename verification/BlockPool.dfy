// The two pools behind requisition_block (src/libtools/utils/concurentqueue.hh:2810-2879): an
// initial array of blocks handed out through a shared counter, and the free list; then the heap.
// Block n of the initial pool, counted from 1, is node n of FreeList; a block is made known to
// the free list's state when it is issued.
module BlockPool {
  import FL = FreeList
  import opened Modular

  const WORD: nat := 0x1_0000_0000_0000_0000

  // Where a thread is in requisition_block; `can` is the call's AllocationMode.  In Search its
  // next instruction is the one FreeList gives for try_get.
  datatype Call =
    | Outside
    | LoadIndex(can: bool)
    | FetchIndex(can: bool)
    | Search(can: bool)
    | Make

  datatype State = State(list: FL.State, index: nat, size: nat, calls: seq<Call>)

  // Run the next instruction; start requisition_block; get n from the allocator (or NULL);
  // call add_block_to_free_list; leave a block to another thread.
  datatype Action = Go | Requisition(can: bool) | Receive(n: nat) | Put(n: nat) | Hand(n: nat, to: nat)

  predicate Enabled(s: State, t: nat, a: Action) {
    && t < |s.calls| == |s.list.pcs|
    && match a
       case Go => if s.calls[t].Outside? || s.calls[t].Search? then !s.list.pcs[t].Idle? else !s.calls[t].Make?
       case Requisition(can) => s.calls[t].Outside? && s.list.pcs[t].Idle?
       case Receive(n) => s.calls[t].Make? && (n == FL.NULL || (n > s.size && n !in s.list.refs))
       case Put(n) => s.calls[t].Outside? && FL.Enabled(s.list, t, FL.StartAdd(n))
       case Hand(n, to) => FL.Enabled(s.list, t, FL.Pass(n, to))
  }

  // Block n goes to thread t.  A block that was issued before would now have two owners.
  function Issue(l: FL.State, t: nat, n: nat): FL.State {
    if t < |l.pcs| && n != FL.NULL && n !in l.refs then FL.Step(l, t, FL.Create(n)) else l.(owns := l.owns + {(t, n)})
  }

  function StartSearch(s: State, t: nat, can: bool): State
    requires t < |s.calls| == |s.list.pcs|
  {
    s.(list := FL.SetPc(s.list, t, FL.LoadHead), calls := s.calls[t := Search(can)])
  }

  function Step(s: State, t: nat, a: Action): State
    requires Enabled(s, t, a)
  {
    match a
    case Go => Execute(s, t)
    case Requisition(can) => s.(calls := s.calls[t := LoadIndex(can)])
    case Receive(n) =>
      s.(calls := s.calls[t := Outside], list := if n == FL.NULL then s.list else Issue(s.list, t, n))
    case Put(n) => s.(list := FL.Step(s.list, t, FL.StartAdd(n)))
    case Hand(n, to) => s.(list := FL.Step(s.list, t, FL.Pass(n, to)))
  }

  function Execute(s: State, t: nat): State
    requires Enabled(s, t, Go)
  {
    match s.calls[t]
    case Outside => s.(list := FL.Execute(s.list, t))
    case LoadIndex(can) =>
      if s.index >= s.size then StartSearch(s, t, can) else s.(calls := s.calls[t := FetchIndex(can)])
    case FetchIndex(can) =>
      var s' := s.(index := (s.index + 1) % WORD);
      if s.index < s.size
      then s'.(list := Issue(s.list, t, s.index + 1), calls := s.calls[t := Outside])
      else StartSearch(s', t, can)
    case Search(can) =>
      var l := FL.Execute(s.list, t);
      var found := s.list.pcs[t].DropTwo?;
      s.(list := l,
         calls := if !l.pcs[t].Idle? then s.calls
                  else s.calls[t := if found || !can then Outside else Make])
  }

  predicate Init(s: State) {
    && FL.Init(s.list) && s.index == 0
    && |s.calls| == |s.list.pcs| && s.size + |s.calls| < WORD
    && forall t :: 0 <= t < |s.calls| ==> s.calls[t].Outside?
  }

  ghost predicate IsRun(run: seq<State>) {
    && |run| > 0 && Init(run[0])
    && forall i :: 0 <= i < |run| - 1 ==> Stepped(run[i], run[i + 1])
  }

  ghost predicate Stepped(s: State, s': State) {
    exists t, a :: Enabled(s, t, a) && s' == Step(s, t, a)
  }

  // ---- The invariant ----

  // The threads that saw the counter below the size and have yet to add 1 to it.
  function Fetchers(calls: seq<Call>): (r: nat)
    ensures r <= |calls|
  {
    if calls == [] then 0 else (if calls[0].FetchIndex? then 1 else 0) + Fetchers(calls[1..])
  }

  lemma {:induction false} FetchersUpdate(calls: seq<Call>, t: nat, c: Call)
    requires t < |calls|
    ensures Fetchers(calls[t := c]) + (if calls[t].FetchIndex? then 1 else 0)
         == Fetchers(calls) + (if c.FetchIndex? then 1 else 0)
  {
    var q := calls[t := c];
    if t == 0 {
      assert q[1..] == calls[1..];
    } else {
      assert q[1..] == calls[1..][t - 1 := c];
      FetchersUpdate(calls[1..], t - 1, c);
    }
  }

  ghost predicate Inv(s: State) {
    && |s.calls| == |s.list.pcs|
    && s.size + |s.calls| < WORD
    && s.index + Fetchers(s.calls) <= s.size + |s.calls|
    && (forall n :: 0 < n <= s.size ==> (n in s.list.refs <==> n <= s.index))
    && (forall t :: 0 <= t < |s.calls| ==> CallOk(s, t))
  }

  predicate CallOk(s: State, t: nat)
    requires t < |s.calls| == |s.list.pcs|
  {
    match s.calls[t]
    case Outside => true
    case LoadIndex(can) => s.list.pcs[t].Idle?
    case FetchIndex(can) => s.list.pcs[t].Idle?
    case Search(can) => s.index >= s.size && !s.list.pcs[t].Idle?
    case Make => s.index >= s.size && s.list.pcs[t].Idle?
  }

  // ---- Each step keeps the invariant ----

  datatype Maybe = None | Some(move: FL.Action)

  // What a step does to the free list.
  function ListMove(s: State, t: nat, a: Action): Maybe
    requires Enabled(s, t, a)
  {
    match a
    case Go => (match s.calls[t]
      case Outside => Some(FL.Go)
      case LoadIndex(can) => if s.index >= s.size then Some(FL.StartGet) else None
      case FetchIndex(can) => if s.index < s.size then Some(FL.Create(s.index + 1)) else Some(FL.StartGet)
      case Search(can) => Some(FL.Go))
    case Requisition(can) => None
    case Receive(n) => if n == FL.NULL then None else Some(FL.Create(n))
    case Put(n) => Some(FL.StartAdd(n))
    case Hand(n, to) => Some(FL.Pass(n, to))
  }

  function Moved(l: FL.State, t: nat, m: Maybe): FL.State
    requires m.Some? ==> FL.Enabled(l, t, m.move)
  {
    if m.None? then l else FL.Step(l, t, m.move)
  }

  function Tracked(l: FL.State, g: FL.Ghost, t: nat, m: Maybe): FL.Ghost
    requires m.Some? ==> FL.Enabled(l, t, m.move)
  {
    if m.None? then g else FL.Track(l, g, t, m.move)
  }

  // Every step is a step of the free list, or leaves it alone: no block is issued twice.
  lemma ListMoves(s: State, t: nat, a: Action)
    requires Inv(s) && Enabled(s, t, a)
    ensures ListMove(s, t, a).Some? ==> FL.Enabled(s.list, t, ListMove(s, t, a).move)
    ensures Step(s, t, a).list == Moved(s.list, t, ListMove(s, t, a))
  {
    assert CallOk(s, t);
  }

  // An instruction of the free list makes no block known.
  lemma GoKnows(l: FL.State, g: FL.Ghost, t: nat)
    requires FL.At(l, g, t)
    ensures forall n :: n in FL.Execute(l, t).refs <==> n in l.refs
  {
  }

  // A step of the free list leaves the other threads alone and makes no block known unless it creates one.
  lemma ListFrame(l: FL.State, g: FL.Ghost, t: nat, m: FL.Action)
    requires FL.Inv(l, g) && FL.Enabled(l, t, m)
    ensures var l' := FL.Step(l, t, m);
      && |l'.pcs| == |l.pcs| && (forall u :: 0 <= u < |l.pcs| && u != t ==> l'.pcs[u] == l.pcs[u])
      && (forall n :: n in l'.refs <==> n in l.refs || m == FL.Create(n))
  {
    assert FL.PcOk(l, g, t);
    assert forall n :: n in g.role ==> FL.NodeOk(l, g, n);
    if m.Go? { GoKnows(l, g, t); }
    if m.StartAdd? { assert g.role[(t, m.n).1] == FL.Owned(t); }
  }

  lemma CallKept(s: State, t: nat, a: Action, u: nat)
    requires Enabled(s, t, a) && |s.calls| == |s.list.pcs| == |Step(s, t, a).list.pcs| && u < |s.calls|
    requires CallOk(s, t) && CallOk(s, u) && (s.calls[t].FetchIndex? ==> s.index + 1 < WORD)
    requires u != t ==> Step(s, t, a).list.pcs[u] == s.list.pcs[u]
    requires a.Receive? && a.n != FL.NULL ==> a.n !in s.list.refs
    requires s.calls[t].FetchIndex? && s.index < s.size ==> s.index + 1 !in s.list.refs
    ensures |Step(s, t, a).calls| == |s.calls| && CallOk(Step(s, t, a), u)
  {
  }

  lemma CountKept(s: State, t: nat, a: Action)
    requires Inv(s) && Enabled(s, t, a)
    ensures var s' := Step(s, t, a); s'.index + Fetchers(s'.calls) <= s.size + |s.calls| && s.index <= s'.index
    ensures s.calls[t].FetchIndex? ==> s.index + 1 < WORD
    ensures Step(s, t, a).index == if a.Go? && s.calls[t].FetchIndex? then s.index + 1 else s.index
  {
    var s' := Step(s, t, a);
    FetchersUpdate(s.calls, t, s'.calls[t]);
    FetchersUpdate(s.calls, t, Outside);
    assert s'.calls == s.calls[t := s'.calls[t]];
  }

  lemma StepKeeps(s: State, g: FL.Ghost, t: nat, a: Action)
    requires Inv(s) && FL.Inv(s.list, g) && Enabled(s, t, a)
    ensures Inv(Step(s, t, a))
    ensures ListMove(s, t, a).Some? ==> FL.Enabled(s.list, t, ListMove(s, t, a).move)
    ensures Step(s, t, a).list == Moved(s.list, t, ListMove(s, t, a))
    ensures FL.Inv(Step(s, t, a).list, Tracked(s.list, g, t, ListMove(s, t, a)))
  {
    var s', m := Step(s, t, a), ListMove(s, t, a);
    ListMoves(s, t, a);
    CountKept(s, t, a);
    if m.Some? {
      FL.StepKeeps(s.list, g, t, m.move);
      ListFrame(s.list, g, t, m.move);
    }
    assert CallOk(s, t);
    forall u | 0 <= u < |s.calls| ensures |s'.calls| == |s.calls| && CallOk(s', u) {
      assert CallOk(s, u);
      CallKept(s, t, a, u);
    }
  }

  // ---- What holds in every reachable state ----

  lemma OneMore(r: seq<FL.State>, t: nat, m: FL.Action) returns (r2: seq<FL.State>)
    requires FL.IsRun(r) && FL.Enabled(r[|r| - 1], t, m)
    ensures FL.IsRun(r2) && r2[|r2| - 1] == FL.Step(r[|r| - 1], t, m)
  {
    r2 := r + [FL.Step(r[|r| - 1], t, m)];
    assert FL.Stepped(r[|r| - 1], r2[|r|]);
  }

  lemma OneStep(s: State, s2: State, g: FL.Ghost, r: seq<FL.State>) returns (g2: FL.Ghost, r2: seq<FL.State>)
    requires Inv(s) && FL.Inv(s.list, g) && FL.IsRun(r) && r[|r| - 1] == s.list && Stepped(s, s2)
    ensures Inv(s2) && FL.Inv(s2.list, g2) && FL.IsRun(r2) && r2[|r2| - 1] == s2.list
  {
    var t, a :| Enabled(s, t, a) && s2 == Step(s, t, a);
    StepKeeps(s, g, t, a);
    var m := ListMove(s, t, a);
    g2 := Tracked(s.list, g, t, m);
    if m.Some? { r2 := OneMore(r, t, m.move); } else { r2 := r; }
  }

  // The invariant holds all along every run, and its free list is that of a run of FreeList.
  lemma {:induction false} RunKeeps(run: seq<State>, i: nat) returns (g: FL.Ghost, r: seq<FL.State>)
    requires IsRun(run) && i < |run|
    ensures Inv(run[i]) && FL.Inv(run[i].list, g)
    ensures FL.IsRun(r) && r[|r| - 1] == run[i].list
  {
    if i == 0 {
      g, r := FL.Ghost([], map[]), [run[0].list];
      NoFetchers(run[0].calls);
    } else {
      g, r := RunKeeps(run, i - 1);
      assert Stepped(run[i - 1], run[i - 1 + 1]);
      g, r := OneStep(run[i - 1], run[i], g, r);
    }
  }

  lemma {:induction false} NoFetchers(calls: seq<Call>)
    requires forall t :: 0 <= t < |calls| ==> calls[t].Outside?
    ensures Fetchers(calls) == 0
  {
    if calls == [] {
    } else {
      NoFetchers(calls[1..]);
    }
  }

  // A block of the initial array that nobody has been given yet.
  predicate Unissued(s: State, n: nat) { s.index < n <= s.size }

  lemma InHandOf(l: FL.State, n: nat)
    ensures forall t :: (t, n) in l.owns ==> FL.InHand(l, n)
  {
    forall t | (t, n) in l.owns ensures FL.InHand(l, n) { assert (t, n).1 == n; }
  }

  // Conservation: a block of the initial array, or one that was ever issued, is in exactly one
  // place: unissued, in one owner's hand, on the free list, or on its way onto it or off it.
  lemma BlockIsInOnePlace(run: seq<State>, i: nat, n: nat) returns (l: seq<nat>)
    requires IsRun(run) && i < |run|
    requires 0 < n <= run[i].size || n in run[i].list.refs
    ensures FL.IsChain(run[i].list, l)
    ensures var s := run[i].list;
      One(Unissued(run[i], n)) + One(FL.InHand(s, n)) + One(n in l) + One(FL.BeingLinked(s, n))
      + One(FL.LeftToHolders(s, n)) + One(FL.BeingTaken(s, n)) == 1
    ensures forall t, u :: (t, n) in run[i].list.owns && (u, n) in run[i].list.owns ==> t == u
  {
    var g, r := RunKeeps(run, i);
    if Unissued(run[i], n) {
      l := FL.NowhereYet(r, |r| - 1, n);
      InHandOf(run[i].list, n);
    } else {
      l := FL.ExactlyOnePlace(r, |r| - 1, n);
      forall t, u | (t, n) in run[i].list.owns && (u, n) in run[i].list.owns ensures t == u {
        FL.OneOwner(r, |r| - 1, t, u, n);
      }
    }
  }

  // Whatever source requisition_block takes a block from, nobody has that block.
  lemma RequisitionGivesUnowned(run: seq<State>, i: nat, t: nat, a: Action, n: nat)
    requires IsRun(run) && i < |run| && Enabled(run[i], t, a) && !a.Hand?
    requires (t, n) in Step(run[i], t, a).list.owns && (t, n) !in run[i].list.owns
    ensures !FL.InHand(run[i].list, n)
  {
    var g, r := RunKeeps(run, i);
    assert CallOk(run[i], t) && FL.PcOk(run[i].list, g, t);
    if run[i].list.pcs[t] == FL.DropTwo(n) { assert FL.NodeOk(run[i].list, g, n); }
    if n in run[i].list.refs {
      assert run[i].list.pcs[t] == FL.DropTwo(n);
      FL.GetsUnowned(r, |r| - 1, t);
    } else {
      var l := FL.NowhereYet(r, |r| - 1, n);
    }
  }

  // The counter overshoots the array by at most one for each thread, so it never wraps around to
  // issue a block again, and the blocks issued are exactly those below it.
  lemma CounterNeverWraps(run: seq<State>, i: nat, t: nat)
    requires IsRun(run) && i < |run|
    ensures run[i].index <= run[i].size + |run[i].calls| < WORD
    ensures Enabled(run[i], t, Go) && run[i].calls[t].FetchIndex? ==> Execute(run[i], t).index == run[i].index + 1
    ensures forall n :: 0 < n <= run[i].size ==> (n in run[i].list.refs <==> n <= run[i].index)
  {
    var g, r := RunKeeps(run, i);
    if t < |run[i].calls| && run[i].calls[t].FetchIndex? { FetchersUpdate(run[i].calls, t, Outside); }
  }

  // The heap is asked for a block only when the whole initial array has been issued.
  lemma HeapComesLast(run: seq<State>, i: nat, t: nat, n: nat)
    requires IsRun(run) && i < |run| && t < |run[i].calls|
    requires run[i].calls[t].Make? || run[i].calls[t].Search?
    ensures !Unissued(run[i], n)
  {
    var g, r := RunKeeps(run, i);
    assert CallOk(run[i], t);
  }

  // ---- What a call achieves ----

  // Thread t's next n instructions, nobody else running; they stop where it asks the heap.
  function Alone(s: State, t: nat, n: nat): State
    decreases n
  {
    if n == 0 || !Enabled(s, t, Go) then s else Alone(Step(s, t, Go), t, n - 1)
  }

  ghost predicate Quiet(s: State) { FL.AllIdle(s.list) && forall t :: 0 <= t < |s.calls| ==> s.calls[t].Outside? }

  lemma {:induction false} AloneSplit(s: State, t: nat, m: nat, n: nat)
    ensures Alone(Alone(s, t, m), t, n) == Alone(s, t, m + n)
    decreases m
  {
    if m == 0 || !Enabled(s, t, Go) {
      if !Enabled(s, t, Go) { assert Alone(s, t, n) == s; }
    } else {
      AloneSplit(Step(s, t, Go), t, m - 1, n);
    }
  }

  predicate Working(l: FL.State, t: nat) { t < |l.pcs| && !l.pcs[t].Idle? }

  // While its try_get is not over, the search is that of the list.
  lemma {:induction false} SearchFollows(s: State, t: nat, n: nat)
    requires t < |s.calls| == |s.list.pcs| && s.calls[t].Search? && Working(FL.Alone(s.list, t, n), t)
    ensures Alone(s, t, n) == s.(list := FL.Alone(s.list, t, n))
    decreases n
  {
    if n == 0 {
    } else {
      assert Working(s.list, t);
      var l := FL.Execute(s.list, t);
      assert FL.Alone(s.list, t, n) == FL.Alone(l, t, n - 1);
      assert Working(l, t);
      SearchFollows(s.(list := l), t, n - 1);
    }
  }

  // A search that runs by itself, on an empty list and on one that is not.
  lemma SearchFails(s: State, t: nat, can: bool)
    requires t < |s.calls| == |s.list.pcs| && s.calls[t] == Search(can) && s.list.pcs[t] == FL.LoadHead
    requires s.list.head == FL.NULL
    ensures var s2 := Alone(s, t, 6);
            s2 == s.(list := FL.SetPc(s.list, t, FL.Idle), calls := s.calls[t := if can then Make else Outside])
  {
    assert Alone(s, t, 6) == Alone(Step(s, t, Go), t, 5) == Step(s, t, Go);
  }

  lemma SearchTakes(s: State, t: nat, can: bool)
    requires t < |s.calls| == |s.list.pcs| && s.calls[t] == Search(can) && s.list.pcs[t].DropTwo?
    ensures Alone(s, t, 1) == s.(list := FL.Alone(s.list, t, 1), calls := s.calls[t := Outside])
  {
    assert Alone(s, t, 1) == Alone(Step(s, t, Go), t, 0);
    assert FL.Alone(s.list, t, 1) == FL.Alone(FL.Step(s.list, t, FL.Go), t, 0);
  }

  lemma SearchFinds(s: State, t: nat, can: bool)
    requires t < |s.calls| == |s.list.pcs| && s.calls[t] == Search(can)
    requires var l := FL.Alone(s.list, t, 5); |l.pcs| == |s.list.pcs| && l.pcs[t].DropTwo?
    ensures Alone(s, t, 6) == s.(list := FL.Alone(s.list, t, 6), calls := s.calls[t := Outside])
  {
    SearchFollows(s, t, 5);
    AloneSplit(s, t, 5, 1);
    FL.AloneSplit(s.list, t, 5, 1);
    SearchTakes(s.(list := FL.Alone(s.list, t, 5)), t, can);
  }

  // The first instructions of a lone call: it takes the counter's next block, or turns to the list.
  lemma IndexFirst(s: State, t: nat, can: bool)
    requires Enabled(s, t, Requisition(can)) && s.size < WORD - 1
    ensures var s8 := Alone(Step(s, t, Requisition(can)), t, 8);
            s8 == if s.index < s.size
                  then s.(index := s.index + 1, list := Issue(s.list, t, s.index + 1))
                  else Alone(StartSearch(s, t, can), t, 7)
  {
    var s1 := Step(s, t, Requisition(can));
    var s2 := Step(s1, t, Go);
    assert Alone(s1, t, 8) == Alone(s2, t, 7);
    if s.index < s.size {
      var s3 := Step(s2, t, Go);
      assert s3.calls == s.calls;
      assert Alone(s2, t, 7) == Alone(s3, t, 6) == s3;
    } else {
      assert s2 == StartSearch(s, t, can);
    }
  }

  lemma FromArray(s: State, t: nat, can: bool, l: seq<nat>)
    requires Enabled(s, t, Requisition(can)) && Quiet(s) && s.index < s.size < WORD - 1 && FL.IsChain(s.list, l)
    requires s.index + 1 !in s.list.refs && s.index + 1 !in l
    ensures var s8 := Alone(Step(s, t, Requisition(can)), t, 8);
            Quiet(s8) && s8.index == s.index + 1 && s8.list.owns == s.list.owns + {(t, s.index + 1)}
            && FL.IsChain(s8.list, l)
  {
    IndexFirst(s, t, can);
  }

  lemma FromList(s: State, t: nat, can: bool)
    requires Enabled(s, t, Requisition(can)) && s.index >= s.size && s.size < WORD - 1
    requires var l := FL.Alone(FL.Step(s.list, t, FL.StartGet), t, 5); |l.pcs| == |s.list.pcs| && l.pcs[t].DropTwo?
    ensures Alone(Step(s, t, Requisition(can)), t, 8)
            == s.(list := FL.Alone(FL.Step(s.list, t, FL.StartGet), t, 6))
  {
    IndexFirst(s, t, can);
    var s0 := StartSearch(s, t, can);
    AloneSplit(s0, t, 6, 1);
    SearchFinds(s0, t, can);
    assert s0.calls[t := Outside] == s.calls;
    assert !Enabled(Alone(s0, t, 6), t, Go);
  }

  lemma FromHeap(s: State, t: nat, can: bool)
    requires Enabled(s, t, Requisition(can)) && s.index >= s.size && s.size < WORD - 1 && s.list.head == FL.NULL
    ensures Alone(Step(s, t, Requisition(can)), t, 8) == if can then s.(calls := s.calls[t := Make]) else s
  {
    IndexFirst(s, t, can);
    var s0 := StartSearch(s, t, can);
    AloneSplit(s0, t, 6, 1);
    SearchFails(s0, t, can);
    assert s0.calls[t := Outside] == s.calls && FL.SetPc(s0.list, t, FL.Idle) == s.list;
  }

  // Then, while the array has no more, what a lone try_get of the list finds.
  lemma ListNext(s: State, t: nat, can: bool, l: seq<nat>)
    requires Enabled(s, t, Requisition(can)) && Quiet(s) && s.index >= s.size && s.size < WORD - 1 && l != []
    requires FL.Alone(FL.Step(s.list, t, FL.StartGet), t, 5).pcs == s.list.pcs[t := FL.DropTwo(l[0])]
    requires FL.AllIdle(FL.Alone(FL.Step(s.list, t, FL.StartGet), t, 6))
    ensures var s8 := Alone(Step(s, t, Requisition(can)), t, 8);
            Quiet(s8) && s8.index == s.index && s8.list == FL.Alone(FL.Step(s.list, t, FL.StartGet), t, 6)
  {
    FromList(s, t, can);
  }

  lemma HeapLast(s: State, t: nat, can: bool, n: nat)
    requires Enabled(s, t, Requisition(can)) && Quiet(s) && s.index >= s.size && s.size < WORD - 1
    requires FL.IsChain(s.list, []) && (n == FL.NULL || (n > s.size && n !in s.list.refs))
    ensures var s8 := Alone(Step(s, t, Requisition(can)), t, 8);
            if !can then s8 == s
            else
              Enabled(s8, t, Receive(n)) && var s9 := Step(s8, t, Receive(n));
              Quiet(s9) && s9.list.owns == s.list.owns + (if n == FL.NULL then {} else {(t, n)})
                  && FL.IsChain(s9.list, [])
  {
    FromHeap(s, t, can);
    assert s.calls[t := Outside] == s.calls;
  }

  // A requisition_block that runs by itself takes the next block of the initial array; if there is
  // none, the head of the free list; if that is empty, whatever the heap gives, if it may ask it.
  // Only when all three are dry, or it may not ask, does it end with nothing.
  lemma LoneRequisition(run: seq<State>, i: nat, t: nat, can: bool, n: nat) returns (l: seq<nat>)
    requires IsRun(run) && i < |run| && Enabled(run[i], t, Requisition(can)) && Quiet(run[i])
    requires n == FL.NULL || (n > run[i].size && n !in run[i].list.refs)
    ensures FL.IsChain(run[i].list, l)
    ensures var s, s8 := run[i], Alone(Step(run[i], t, Requisition(can)), t, 8);
            if s.index < s.size then
              Quiet(s8) && s8.index == s.index + 1 && s8.list.owns == s.list.owns + {(t, s.index + 1)}
              && FL.IsChain(s8.list, l)
            else if l != [] then
              Quiet(s8) && s8.index == s.index && s8.list.owns == s.list.owns + {(t, l[0])}
              && FL.IsChain(s8.list, l[1..])
            else if can then
              Enabled(s8, t, Receive(n)) && var s9 := Step(s8, t, Receive(n));
              Quiet(s9) && s9.list.owns == s.list.owns + (if n == FL.NULL then {} else {(t, n)})
                  && FL.IsChain(s9.list, [])
            else s8 == s
  {
    var s := run[i];
    var r := ListRun(run, i);
    l := FL.LoneGetTakesHead(r, |r| - 1, t);
    if s.index < s.size {
      ChainKnown(r, s.list, s.index + 1, l);
      FromArray(s, t, can, l);
    } else if l != [] {
      ListNext(s, t, can, l);
    } else {
      HeapLast(s, t, can, n);
    }
  }

  lemma ListRun(run: seq<State>, i: nat) returns (r: seq<FL.State>)
    requires IsRun(run) && i < |run|
    ensures FL.IsRun(r) && r[|r| - 1] == run[i].list
    ensures |run[i].calls| > 0 ==> run[i].size < WORD - 1
    ensures run[i].index < run[i].size ==> run[i].index + 1 !in run[i].list.refs
  {
    var g;
    g, r := RunKeeps(run, i);
  }

  lemma ChainKnown(r: seq<FL.State>, list: FL.State, n: nat, l: seq<nat>)
    requires FL.IsRun(r) && r[|r| - 1] == list && FL.IsChain(list, l) && n !in list.refs && n != FL.NULL
    ensures n !in l
  {
    var l2 := FL.NowhereYet(r, |r| - 1, n);
    FL.ChainIsUnique(list, l, l2);
  }

  // Whatever the others do, a call that ends has got a block, which it did not have before, unless
  // the heap gave nothing, or try_get found the list empty and the call may not ask the heap.
  lemma CallGetsABlock(run: seq<State>, i: nat, t: nat, a: Action) returns (n: nat)
    requires IsRun(run) && i < |run| && Enabled(run[i], t, a)
    requires !run[i].calls[t].Outside? && Step(run[i], t, a).calls[t].Outside? && a != Receive(FL.NULL)
    requires run[i].calls[t] == Search(false) ==> run[i].list.pcs[t].DropTwo?
    ensures (t, n) in Step(run[i], t, a).list.owns && (t, n) !in run[i].list.owns
  {
    var s := run[i];
    var g, r := RunKeeps(run, i);
    assert CallOk(s, t);
    if s.calls[t].Search? {
      n := s.list.pcs[t].h;
      FL.GetsUnowned(r, |r| - 1, t);
      TakesNew(s.list, t);
    } else {
      n := if a.Receive? then a.n else s.index + 1;
      var l := FL.NowhereYet(r, |r| - 1, n);
      FL.NotInHand(s.list, t, n);
    }
  }

  lemma TakesNew(l: FL.State, t: nat)
    requires t < |l.pcs| && l.pcs[t].DropTwo? && forall o :: o in l.owns ==> o.1 != l.pcs[t].h
    ensures (t, l.pcs[t].h) in FL.Execute(l, t).owns && (t, l.pcs[t].h) !in l.owns
  {
    var o := (t, l.pcs[t].h);
    assert o.1 == l.pcs[t].h;
  }
}
