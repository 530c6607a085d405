// The free list is lock-free: its calls retry only because another thread's exchange on the head has
// succeeded, so among any n * (6n + 16) instructions of n threads, with no new call, one such exchange does.
module FreeListProgress {
  import opened FreeList

  // The instruction is a compare-exchange on the head that succeeds: a node is taken, or put on the list.
  predicate Succeeds(s: State, t: nat) {
    t < |s.pcs| && ((s.pcs[t].CasHead? && s.head == s.pcs[t].h) || (s.pcs[t].LinkCas? && s.head == s.pcs[t].top))
  }

  // ---- What a thread has left to do while the head stays ----

  // After a failed exchange that saw `seen`.
  function ExitLeft(head: nat, seen: nat): nat { if seen == NULL then 0 else if seen == head then 4 else 9 }

  function AfterLeft(head: nat, k: After): nat { if k.Resume? then ExitLeft(head, k.seen) else 0 }

  function Max(a: nat, b: nat): nat { if a < b then b else a }

  // The instructions of a thread, if the counts of the head do not change; those that work on what is
  // no longer the head, or no longer its count, lead to one more try.
  function Left(head: nat, refs: nat, pc: Pc): nat {
    match pc
    case Idle => 0
    case LoadHead => 5
    case LoadRefs(h) => if h == head then 4 else 9
    case CasRefs(h, r) => if h != head then 8 else if r == refs then 3 else 6
    case LoadNext(h) => if h == head then 2 else 7
    case CasHead(h, _) => if h == head then 1 else 6
    case DropTwo(_) => 1
    case DropOne(_, seen) => 1 + Max(4, ExitLeft(head, seen))
    case LinkLoadHead(_, _) => 4
    case LinkStoreNext(_, top, _) => if top == head then 3 else 13
    case LinkStoreRefs(_, top, _) => if top == head then 2 else 12
    case LinkCas(_, top, _) => if top == head then 1 else 11
    case LinkDrop(_, top, k) => if top == head then 1 + Max(3, AfterLeft(head, k)) else 14
  }

  // How often a thread can still change the count of the head: by taking a reference, after which it
  // keeps it until an exchange on the head succeeds, and by dropping one it has from before.
  function Changes(head: nat, pc: Pc): nat {
    (if pc.Idle? || ((pc.LoadNext? || pc.CasHead?) && pc.h == head) then 0 else 1)
    + (if pc.DropOne? && pc.h == head then 1 else 0)
  }

  function Score(head: nat, refs: nat, n: nat, pc: Pc): nat { (3 * n + 1) * Changes(head, pc) + Left(head, refs, pc) }

  function Sum(head: nat, refs: nat, n: nat, pcs: seq<Pc>): nat {
    if pcs == [] then 0 else Sum(head, refs, n, pcs[..|pcs| - 1]) + Score(head, refs, n, pcs[|pcs| - 1])
  }

  function Potential(s: State): nat { Sum(s.head, s.Refs(s.head), |s.pcs|, s.pcs) }

  function Bound(n: nat): nat { n * (6 * n + 16) }

  lemma ScoreBound(head: nat, refs: nat, n: nat, pc: Pc)
    ensures Score(head, refs, n, pc) <= 6 * n + 16
  {
    assert (3 * n + 1) * Changes(head, pc) <= (3 * n + 1) * 2;
  }

  lemma {:induction false} SumBound(head: nat, refs: nat, n: nat, pcs: seq<Pc>)
    ensures Sum(head, refs, n, pcs) <= |pcs| * (6 * n + 16)
    ensures |pcs| == n ==> Sum(head, refs, n, pcs) <= Bound(n)
  {
    if pcs == [] {
    } else {
      SumBound(head, refs, n, pcs[..|pcs| - 1]);
      ScoreBound(head, refs, n, pcs[|pcs| - 1]);
      assert |pcs| * (6 * n + 16) == (|pcs| - 1) * (6 * n + 16) + (6 * n + 16);
    }
  }

  // A change of the head's count costs every thread that has loaded it one more try.
  lemma OthersScore(head: nat, refs: nat, refs2: nat, n: nat, pc: Pc)
    ensures Score(head, refs2, n, pc) <= Score(head, refs, n, pc) + (if refs == refs2 then 0 else 3)
  {
  }

  lemma {:induction false} OthersSum(head: nat, refs: nat, refs2: nat, n: nat, pcs: seq<Pc>)
    ensures Sum(head, refs2, n, pcs) <= Sum(head, refs, n, pcs) + (if refs == refs2 then 0 else 3 * |pcs|)
  {
    if pcs == [] {
    } else {
      OthersSum(head, refs, refs2, n, pcs[..|pcs| - 1]);
      OthersScore(head, refs, refs2, n, pcs[|pcs| - 1]);
    }
  }

  lemma {:induction false} SumUpdate(head: nat, refs: nat, n: nat, pcs: seq<Pc>, t: nat, pc: Pc)
    requires t < |pcs|
    ensures Sum(head, refs, n, pcs[t := pc]) + Score(head, refs, n, pcs[t])
        == Sum(head, refs, n, pcs) + Score(head, refs, n, pc)
  {
    var last, q := |pcs| - 1, pcs[t := pc];
    if t == last {
      assert q[..last] == pcs[..last];
    } else {
      assert q[..last] == pcs[..last][t := pc];
      SumUpdate(head, refs, n, pcs[..last], t, pc);
    }
  }

  // ---- An instruction that is no such exchange ----

  // The head is listed, so it has a count that is not 0, and nobody links it or has taken it.
  ghost predicate HeadOk(s: State, t: nat) {
    && t < |s.pcs| && !s.pcs[t].Idle?
    && (s.head != NULL ==> 0 < s.Refs(s.head) < SHOULD_BE_ON_FREELIST)
    && (s.pcs[t].DropTwo? ==> s.pcs[t].h != s.head)
    && (s.pcs[t].LinkStoreRefs? || s.pcs[t].LinkDrop? ==> s.pcs[t].n != s.head)
    && (!s.pcs[t].LoadHead? ==> Target(s.pcs[t]) != NULL)
  }

  lemma HeadIsListed(s: State, g: Ghost, t: nat)
    requires Inv(s, g) && Enabled(s, t, Go)
    ensures HeadOk(s, t)
  {
    assert PcOk(s, g, t);
    var h := Target(s.pcs[t]);
    if h in g.role { assert NodeOk(s, g, h); }
    if s.head != NULL {
      assert g.role[g.stack[|g.stack| - 1]] == Listed(|g.stack| - 1);
      assert NodeOk(s, g, s.head);
      HoldersBound(s.pcs, s.head);
    }
  }

  // Nearer to the end: by one instruction, or by one change of the head's count.
  predicate Lower(s: State, t: nat)
    requires t < |s.pcs| && !s.pcs[t].Idle?
  {
    var s2, n := Execute(s, t), |s.pcs|;
    && s2.head == s.head && |s2.pcs| == n && s2.pcs == s.pcs[t := s2.pcs[t]]
    && Score(s.head, s2.Refs(s.head), n, s2.pcs[t]) + (if s2.Refs(s.head) == s.Refs(s.head) then 1 else 3 * n + 1)
       <= Score(s.head, s.Refs(s.head), n, s.pcs[t])
  }

  lemma CountScore(s: State, t: nat)
    requires HeadOk(s, t) && (s.pcs[t].CasRefs? || s.pcs[t].DropOne?)
    ensures Lower(s, t)
  {
  }

  lemma GetScore(s: State, t: nat)
    requires HeadOk(s, t) && !Succeeds(s, t)
    requires s.pcs[t].LoadHead? || s.pcs[t].LoadRefs? || s.pcs[t].LoadNext? || s.pcs[t].CasHead? || s.pcs[t].DropTwo?
    ensures Lower(s, t)
  {
  }

  lemma LinkScore(s: State, t: nat)
    requires HeadOk(s, t) && !Succeeds(s, t)
    requires s.pcs[t].LinkLoadHead? || s.pcs[t].LinkStoreNext? || s.pcs[t].LinkStoreRefs? || s.pcs[t].LinkCas?
    ensures Lower(s, t)
  {
  }

  lemma DropScore(s: State, t: nat)
    requires HeadOk(s, t) && s.pcs[t].LinkDrop?
    ensures Lower(s, t)
  {
  }

  lemma OwnScore(s: State, t: nat)
    requires HeadOk(s, t) && !Succeeds(s, t)
    ensures Lower(s, t)
  {
    match s.pcs[t]
    case CasRefs(_, _) => CountScore(s, t);
    case DropOne(_, _) => CountScore(s, t);
    case LinkLoadHead(_, _) => LinkScore(s, t);
    case LinkStoreNext(_, _, _) => LinkScore(s, t);
    case LinkStoreRefs(_, _, _) => LinkScore(s, t);
    case LinkCas(_, _, _) => LinkScore(s, t);
    case LinkDrop(_, _, _) => DropScore(s, t);
    case _ => GetScore(s, t);
  }

  lemma GoLowers(s: State, g: Ghost, t: nat)
    requires Inv(s, g) && Enabled(s, t, Go) && !Succeeds(s, t)
    ensures Execute(s, t).head == s.head && |Execute(s, t).pcs| == |s.pcs| && Potential(Execute(s, t)) < Potential(s)
  {
    HeadIsListed(s, g, t);
    OwnScore(s, t);
    PotentialFalls(s, t);
  }

  lemma PotentialFalls(s: State, t: nat)
    requires t < |s.pcs| && !s.pcs[t].Idle? && Lower(s, t)
    ensures Potential(Execute(s, t)) < Potential(s)
  {
    var s2, n := Execute(s, t), |s.pcs|;
    SumUpdate(s.head, s2.Refs(s.head), n, s.pcs, t, s2.pcs[t]);
    SumUpdate(s.head, s.Refs(s.head), n, s.pcs, t, Idle);
    SumUpdate(s.head, s2.Refs(s.head), n, s.pcs, t, Idle);
    OthersSum(s.head, s.Refs(s.head), s2.Refs(s.head), n, s.pcs[t := Idle]);
  }

  // ---- Runs ----

  datatype Event = Event(t: nat, a: Action)

  // A run with the actions taken, acts[i] from run[i].
  ghost predicate Does(run: seq<State>, acts: seq<Event>) {
    && |run| == |acts| + 1 && Init(run[0])
    && forall i :: 0 <= i < |acts| ==> Took(run, acts, i)
  }

  predicate Took(run: seq<State>, acts: seq<Event>, i: nat) {
    i < |acts| && i + 1 < |run| && ByAction(run[i], acts[i], run[i + 1])
  }

  predicate ByAction(s: State, e: Event, s2: State) { Enabled(s, e.t, e.a) && s2 == Step(s, e.t, e.a) }

  lemma DoesIsRun(run: seq<State>, acts: seq<Event>)
    requires Does(run, acts)
    ensures IsRun(run)
  {
    forall i | 0 <= i < |run| - 1 ensures Stepped(run[i], run[i + 1]) { assert Took(run, acts, i); }
  }

  // Instructions among acts[i..j].
  function Instructions(acts: seq<Event>, i: nat, j: nat): nat
    requires j <= |acts|
    decreases j
  {
    if j <= i then 0 else Instructions(acts, i, j - 1) + (if acts[j - 1].a.Go? then 1 else 0)
  }

  // Neither a call nor an exchange on the head that succeeds.
  predicate Idles(s: State, e: Event) { !e.a.StartGet? && !e.a.StartAdd? && (e.a.Go? ==> !Succeeds(s, e.t)) }

  lemma ElsewhereStays(s: State, g: Ghost, e: Event)
    requires Inv(s, g) && Enabled(s, e.t, e.a) && (e.a.Create? || e.a.Pass?)
    ensures var s2 := Step(s, e.t, e.a); s2.head == s.head && s2.pcs == s.pcs && Potential(s2) == Potential(s)
  {
    if s.head != NULL {
      assert g.role[g.stack[|g.stack| - 1]] == Listed(|g.stack| - 1);
      assert NodeOk(s, g, s.head);
    }
  }

  lemma StepFalls(run: seq<State>, acts: seq<Event>, k: nat)
    requires Does(run, acts) && k < |acts| && Idles(run[k], acts[k])
    ensures |run[k + 1].pcs| == |run[k].pcs|
    ensures Potential(run[k + 1]) + (if acts[k].a.Go? then 1 else 0) <= Potential(run[k])
  {
    DoesIsRun(run, acts);
    var g := RunKeeps(run, k);
    assert Took(run, acts, k);
    if acts[k].a.Go? { GoLowers(run[k], g, acts[k].t); } else { ElsewhereStays(run[k], g, acts[k]); }
  }

  ghost predicate Retrying(run: seq<State>, acts: seq<Event>, i: nat, j: nat) {
    forall k :: i <= k < j && k < |acts| && k < |run| ==> Idles(run[k], acts[k])
  }

  lemma {:induction false} Falls(run: seq<State>, acts: seq<Event>, i: nat, j: nat)
    requires Does(run, acts) && i <= j < |run| && Retrying(run, acts, i, j)
    ensures |run[j].pcs| == |run[i].pcs| && Instructions(acts, i, j) + Potential(run[j]) <= Potential(run[i])
    decreases j
  {
    if i == j {
    } else {
      assert Idles(run[j - 1], acts[j - 1]);
      Falls(run, acts, i, j - 1);
      StepFalls(run, acts, j - 1);
    }
  }

  // However the threads interfere with each other, they cannot go on retrying: while no call starts
  // and no node is taken or put on the list, all of them together have at most that many instructions.
  lemma LockFree(run: seq<State>, acts: seq<Event>, i: nat, j: nat)
    requires Does(run, acts) && i <= j < |run| && Retrying(run, acts, i, j)
    ensures Instructions(acts, i, j) <= Bound(|run[i].pcs|)
  {
    Falls(run, acts, i, j);
    SumBound(run[i].head, run[i].Refs(run[i].head), |run[i].pcs|, run[i].pcs);
  }

  // ---- All calls end ----

  // A call of try_get can take one node, as long as it has not.
  function MayTake(pc: Pc): nat { if InGet(pc) && !pc.DropTwo? then 1 else 0 }

  function Takers(pcs: seq<Pc>): nat {
    if pcs == [] then 0 else Takers(pcs[..|pcs| - 1]) + MayTake(pcs[|pcs| - 1])
  }

  lemma {:induction false} TakersUpdate(pcs: seq<Pc>, t: nat, pc: Pc)
    requires t < |pcs|
    ensures Takers(pcs[t := pc]) + MayTake(pcs[t]) == Takers(pcs) + MayTake(pc)
  {
    var last, q := |pcs| - 1, pcs[t := pc];
    if t == last {
      assert q[..last] == pcs[..last];
    } else {
      assert q[..last] == pcs[..last][t := pc];
      TakersUpdate(pcs[..last], t, pc);
    }
  }

  // A node that add was called for can be put on the list once.
  predicate Unlisted(r: Role) { r.Linking? || r.Waiting? }

  function Pending(role: map<nat, Role>): set<nat> { set n | n in role && Unlisted(role[n]) }

  lemma PendingUpdate(role: map<nat, Role>, n: nat, r: Role)
    ensures |Pending(role[n := r])| + (if n in role && Unlisted(role[n]) then 1 else 0)
         == |Pending(role)| + (if Unlisted(r) then 1 else 0)
  {
    var p, q := Pending(role), Pending(role[n := r]);
    assert q == (if Unlisted(r) then p + {n} else p - {n});
  }

  function Due(s: State, g: Ghost): nat { Takers(s.pcs) + |Pending(g.role)| }

  // An instruction brings no new exchange, and one that succeeds uses one up.
  lemma TakersAfter(s: State, t: nat)
    requires t < |s.pcs| && !s.pcs[t].Idle?
    ensures Execute(s, t).pcs == s.pcs[t := Execute(s, t).pcs[t]]
    ensures MayTake(Execute(s, t).pcs[t]) + (if s.pcs[t].CasHead? && Succeeds(s, t) then 1 else 0) <= MayTake(s.pcs[t])
  {
  }

  lemma PendingAfter(s: State, g: Ghost, t: nat)
    requires Inv(s, g) && Enabled(s, t, Go)
    ensures |Pending(TrackGo(s, g, t).role)| + (if s.pcs[t].LinkCas? && Succeeds(s, t) then 1 else 0)
         == |Pending(g.role)|
  {
    var h, role2 := Target(s.pcs[t]), TrackGo(s, g, t).role;
    RolesAfter(s, g, t);
    if h in role2 { PendingUpdate(g.role, h, role2[h]); }
  }

  // Only the role of the node it works on changes, from pending to listed or else stays pending, or not.
  lemma RolesAfter(s: State, g: Ghost, t: nat)
    requires Inv(s, g) && Enabled(s, t, Go)
    ensures var role, role2, h := g.role, TrackGo(s, g, t).role, Target(s.pcs[t]);
            && (role2 == role || (h in role && h in role2 && role2 == role[h := role2[h]]))
            && (h in role && h in role2 ==>
                  if s.pcs[t].LinkCas? && Succeeds(s, t) then Unlisted(role[h]) && !Unlisted(role2[h])
                  else Unlisted(role[h]) == Unlisted(role2[h]))
  {
    var pc, h := s.pcs[t], Target(s.pcs[t]);
    assert PcOk(s, g, t);
    if h in g.role { assert NodeOk(s, g, h); }
    if Holds(pc, h) { HoldersPositive(s.pcs, h, t); }
    HoldersBound(s.pcs, h);
    if s.head != NULL { assert g.role[g.stack[|g.stack| - 1]] == Listed(|g.stack| - 1); }
  }

  lemma DueAfterGo(s: State, g: Ghost, t: nat)
    requires Inv(s, g) && Enabled(s, t, Go)
    ensures Due(Execute(s, t), TrackGo(s, g, t)) + (if Succeeds(s, t) then 1 else 0) <= Due(s, g)
  {
    TakersAfter(s, t);
    PendingAfter(s, g, t);
    TakersUpdate(s.pcs, t, Execute(s, t).pcs[t]);
  }

  predicate Starts(a: Action) { a.StartGet? || a.StartAdd? }

  lemma DueAfterOther(s: State, g: Ghost, e: Event)
    requires Inv(s, g) && Enabled(s, e.t, e.a) && !e.a.Go?
    ensures var s2, g2 := Step(s, e.t, e.a), Track(s, g, e.t, e.a);
            |s2.pcs| == |s.pcs| && Due(s2, g2) <= Due(s, g) + (if Starts(e.a) then 1 else 0)
  {
    match e.a
    case StartGet => TakersUpdate(s.pcs, e.t, LoadHead);
    case StartAdd(n) =>
      assert g.role[(e.t, n).1] == Owned((e.t, n).0);
      TakersUpdate(s.pcs, e.t, Step(s, e.t, e.a).pcs[e.t]);
      PendingUpdate(g.role, n, Track(s, g, e.t, e.a).role[n]);
    case Create(n) =>
      assert n !in g.role by { assert forall m :: m in g.role ==> NodeOk(s, g, m); }
      PendingUpdate(g.role, n, Owned(e.t));
    case Pass(n, to) =>
      assert g.role[(e.t, n).1] == Owned((e.t, n).0);
      PendingUpdate(g.role, n, Owned(to));
  }

  // What all the calls under way may still do, if m bounds what lies between two exchanges.
  function Budget(m: nat, s: State, g: Ghost): nat { m * Due(s, g) + Potential(s) }

  lemma Retries(m: nat, due: nat, due2: nat, p: nat, p2: nat)
    requires due2 <= due && p2 <= p
    ensures m * due2 + p2 <= m * due + p
    ensures p2 < p ==> m * due2 + p2 < m * due + p
  {
    assert m * due2 <= m * due;
  }

  lemma UsesUp(m: nat, due: nat, due2: nat, p: nat, p2: nat)
    requires due2 < due && p2 <= m && p > 0
    ensures m * due2 + p2 < m * due + p
  {
    assert m * (due2 + 1) <= m * due;
  }

  lemma Adds(m: nat, due: nat, due2: nat, p: nat, p2: nat)
    requires due2 <= due + 1 && p2 <= m
    ensures m * due2 + p2 <= m * due + p + 2 * m
  {
    assert m * due2 <= m * (due + 1);
  }

  lemma PotentialBound(s: State)
    ensures Potential(s) <= Bound(|s.pcs|)
  {
    SumBound(s.head, s.Refs(s.head), |s.pcs|, s.pcs);
  }

  lemma GoSpends(s: State, g: Ghost, t: nat, m: nat)
    requires Inv(s, g) && Enabled(s, t, Go) && Potential(Execute(s, t)) <= m
    ensures |Execute(s, t).pcs| == |s.pcs| && Budget(m, Execute(s, t), TrackGo(s, g, t)) < Budget(m, s, g)
  {
    var s2, g2 := Execute(s, t), TrackGo(s, g, t);
    DueAfterGo(s, g, t);
    TakersAfter(s, t);
    if Succeeds(s, t) {
      WorkLeft(s, t);
      UsesUp(m, Due(s, g), Due(s2, g2), Potential(s), Potential(s2));
    } else {
      GoLowers(s, g, t);
      Retries(m, Due(s, g), Due(s2, g2), Potential(s), Potential(s2));
    }
  }

  lemma WorkLeft(s: State, t: nat)
    requires t < |s.pcs| && !s.pcs[t].Idle?
    ensures Potential(s) > 0
  {
    SumUpdate(s.head, s.Refs(s.head), |s.pcs|, s.pcs, t, Idle);
    ScoreSigns(s.head, s.Refs(s.head), |s.pcs|, s.pcs[t]);
    ScoreSigns(s.head, s.Refs(s.head), |s.pcs|, Idle);
  }

  lemma ScoreSigns(head: nat, refs: nat, n: nat, pc: Pc)
    ensures pc.Idle? <==> Score(head, refs, n, pc) == 0
  {
    assert (3 * n + 1) * Changes(head, pc) >= 0;
    assert pc.Idle? ==> (3 * n + 1) * Changes(head, pc) == (3 * n + 1) * 0;
    assert !pc.Idle? ==> Left(head, refs, pc) > 0;
  }

  lemma OthersBudget(s: State, g: Ghost, e: Event, m: nat)
    requires Inv(s, g) && Enabled(s, e.t, e.a) && !e.a.Go? && Potential(Step(s, e.t, e.a)) <= m
    ensures var s2, g2 := Step(s, e.t, e.a), Track(s, g, e.t, e.a);
            |s2.pcs| == |s.pcs| && Budget(m, s2, g2) <= Budget(m, s, g) + (if Starts(e.a) then 2 * m else 0)
  {
    var s2, g2 := Step(s, e.t, e.a), Track(s, g, e.t, e.a);
    DueAfterOther(s, g, e);
    if Starts(e.a) {
      Adds(m, Due(s, g), Due(s2, g2), Potential(s), Potential(s2));
    } else {
      ElsewhereStays(s, g, e);
      Retries(m, Due(s, g), Due(s2, g2), Potential(s), Potential(s2));
    }
  }

  // Calls started among acts[..i].
  function Started(acts: seq<Event>, i: nat): nat
    requires i <= |acts|
  {
    if i == 0 then 0 else Started(acts, i - 1) + (if Starts(acts[i - 1].a) then 1 else 0)
  }

  lemma SameThreads(s: State, t: nat, a: Action)
    requires Enabled(s, t, a)
    ensures |Step(s, t, a).pcs| == |s.pcs|
  {
  }

  lemma Spends(run: seq<State>, acts: seq<Event>, k: nat, g: Ghost, m: nat) returns (g2: Ghost)
    requires Does(run, acts) && k < |acts| && Inv(run[k], g) && m == Bound(|run[k].pcs|)
    ensures Inv(run[k + 1], g2) && |run[k + 1].pcs| == |run[k].pcs|
    ensures Budget(m, run[k + 1], g2) + (if acts[k].a.Go? then 1 else 0)
            <= Budget(m, run[k], g) + (if Starts(acts[k].a) then 2 * m else 0)
  {
    assert Took(run, acts, k);
    g2 := Track(run[k], g, acts[k].t, acts[k].a);
    StepKeeps(run[k], g, acts[k].t, acts[k].a);
    SameThreads(run[k], acts[k].t, acts[k].a);
    PotentialBound(run[k + 1]);
    if acts[k].a.Go? { GoSpends(run[k], g, acts[k].t, m); } else { OthersBudget(run[k], g, acts[k], m); }
  }

  lemma {:induction false} Spent(run: seq<State>, acts: seq<Event>, i: nat, m: nat) returns (g: Ghost)
    requires Does(run, acts) && i < |run| && m == Bound(|run[0].pcs|)
    ensures Inv(run[i], g) && |run[i].pcs| == |run[0].pcs|
    ensures Instructions(acts, 0, i) + Budget(m, run[i], g) <= 2 * m * Started(acts, i)
  {
    if i == 0 {
      g := FirstGhost(run[0], m);
    } else {
      var before := Spent(run, acts, i - 1, m);
      g := Spends(run, acts, i - 1, before, m);
      OneCallMore(m, Started(acts, i - 1));
    }
  }

  lemma OneCallMore(m: nat, c: nat)
    ensures 2 * m * (c + 1) == 2 * m * c + 2 * m
  {
  }

  lemma FirstGhost(s: State, m: nat) returns (g: Ghost)
    requires Init(s)
    ensures Inv(s, g) && Budget(m, s, g) == 0
  {
    g := Ghost([], map[]);
    NobodyWorks(s.pcs, s.head, s.Refs(s.head), |s.pcs|);
    assert Pending(g.role) == {};
  }

  lemma {:induction false} NobodyWorks(pcs: seq<Pc>, head: nat, refs: nat, n: nat)
    requires forall t :: 0 <= t < |pcs| ==> pcs[t].Idle?
    ensures Takers(pcs) == 0 && Sum(head, refs, n, pcs) == 0
  {
    if pcs == [] {
    } else {
      NobodyWorks(pcs[..|pcs| - 1], head, refs, n);
    }
  }

  // So calls end: however n threads are scheduled, c calls take at most 2c * n * (6n + 16) instructions
  // together.
  lemma CallsEnd(run: seq<State>, acts: seq<Event>, i: nat)
    requires Does(run, acts) && i < |run|
    ensures Instructions(acts, 0, i) <= 2 * Bound(|run[0].pcs|) * Started(acts, i)
  {
    var g := Spent(run, acts, i, Bound(|run[0].pcs|));
  }
}
