// How any number of consumers share one sub-queue's four indices: tailIndex, headIndex,
// dequeueOptimisticCount and dequeueOvercommit.  This is the first half of dequeue and of
// dequeue_bulk, the same in both kinds of producer
// (src/libtools/utils/concurentqueue.hh:1748-1795, 2032-2054, 2336-2348, 2558-2580).
// A single dequeue is a bulk dequeue with max 1: both tests compare opt - over with tail, and
// min(1, desired) is 1.  The indices are unbounded here; Circular gives the w-bit reading.
module Counters {

  datatype Pc =
    | Idle
    | LoadOver(max: nat, tail: nat)
    | LoadOpt(max: nat, tail: nat, over: nat)
    | AddOpt(over: nat, want: nat)
    | Recheck(over: nat, my: nat, want: nat)
    | AddOver(refund: nat)
    | Refund(give: nat, refund: nat)
    | AddHead(give: nat)
    | Claimed(first: nat, count: nat)

  // `owner[k]` is the consumer that claimed index k.
  datatype State = State(tail: nat, head: nat, opt: nat, over: nat, owner: seq<nat>, pcs: seq<Pc>)

  // Publish(n) is the producer storing a tail n further on.  Finish ends a claim.
  datatype Action = Publish(n: nat) | Start(max: nat) | Go | Finish

  function Min(a: nat, b: nat): nat { if a < b then a else b }

  predicate Enabled(s: State, t: nat, a: Action) {
    match a
    case Publish(n) => true
    case Start(max) => t < |s.pcs| && s.pcs[t].Idle?
    case Go => t < |s.pcs| && !s.pcs[t].Idle? && !s.pcs[t].Claimed?
    case Finish => t < |s.pcs| && s.pcs[t].Claimed?
  }

  function Step(s: State, t: nat, a: Action): State
    requires Enabled(s, t, a)
  {
    match a
    case Publish(n) => s.(tail := s.tail + n)
    case Start(max) => s.(pcs := s.pcs[t := LoadOver(max, s.tail)])
    case Finish => s.(pcs := s.pcs[t := Idle])
    case Go =>
      match s.pcs[t]
      case LoadOver(max, tail) => s.(pcs := s.pcs[t := LoadOpt(max, tail, s.over)])
      case LoadOpt(max, tail, over) =>
        var desired := tail - (s.opt - over);
        s.(pcs := s.pcs[t := if desired > 0 then AddOpt(over, Min(desired, max)) else Idle])
      case AddOpt(over, want) =>
        s.(opt := s.opt + want, pcs := s.pcs[t := Recheck(over, s.opt, want)])
      case Recheck(over, my, want) =>
        var actual := s.tail - (my - over);
        s.(pcs := s.pcs[t :=
          if actual <= 0 then AddOver(want)
          else if actual < want then Refund(actual, want - actual)
          else AddHead(want)])
      case AddOver(refund) => s.(over := s.over + refund, pcs := s.pcs[t := Idle])
      case Refund(give, refund) => s.(over := s.over + refund, pcs := s.pcs[t := AddHead(give)])
      case AddHead(give) =>
        s.(head := s.head + give, owner := s.owner + seq(give, _ => t), pcs := s.pcs[t := Claimed(s.head, give)])
  }

  predicate Init(s: State) {
    && s.tail == s.head == s.opt == s.over == 0 && s.owner == []
    && forall t :: 0 <= t < |s.pcs| ==> s.pcs[t].Idle?
  }

  ghost predicate Stepped(s: State, s': State) {
    exists t, a :: Enabled(s, t, a) && s' == Step(s, t, a)
  }

  ghost predicate IsRun(run: seq<State>) {
    && |run| > 0 && Init(run[0])
    && forall i :: 0 <= i < |run| - 1 ==> Stepped(run[i], run[i + 1])
  }

  // ---- Sums over the threads ----

  // What is added up: indices granted but not yet taken from head, amounts to be refunded,
  // requests not yet decided, and of those the ones whose ticket is below a bound.
  datatype Kind = Granted | Refused | Wanted | WantedBelow(bound: nat)

  function Weight(pc: Pc, k: Kind): nat {
    match k
    case Granted => if pc.Refund? || pc.AddHead? then pc.give else 0
    case Refused => if pc.Refund? || pc.AddOver? then pc.refund else 0
    case Wanted => if pc.Recheck? then pc.want else 0
    case WantedBelow(b) => if pc.Recheck? && pc.my < b then pc.want else 0
  }

  function Total(pcs: seq<Pc>, k: Kind): nat {
    if pcs == [] then 0 else Weight(pcs[0], k) + Total(pcs[1..], k)
  }

  lemma {:induction false} TotalUpdate(pcs: seq<Pc>, k: Kind, t: nat, pc: Pc)
    requires t < |pcs|
    ensures Total(pcs[t := pc], k) + Weight(pcs[t], k) == Total(pcs, k) + Weight(pc, k)
  {
    var q := pcs[t := pc];
    if t == 0 {
      assert q[1..] == pcs[1..];
    } else {
      assert q[1..] == pcs[1..][t - 1 := pc];
      TotalUpdate(pcs[1..], k, t - 1, pc);
    }
  }

  lemma {:induction false} TotalMonotone(pcs: seq<Pc>, b: nat)
    ensures Total(pcs, WantedBelow(b)) <= Total(pcs, Wanted)
  {
    if pcs == [] {
    } else {
      TotalMonotone(pcs[1..], b);
    }
  }

  // Raising the bound past thread x's ticket adds at least x's request.
  lemma {:induction false} TotalBelowGrows(pcs: seq<Pc>, x: nat, b: nat)
    requires x < |pcs| && pcs[x].Recheck? && pcs[x].my < b
    ensures Total(pcs, WantedBelow(pcs[x].my)) + pcs[x].want <= Total(pcs, WantedBelow(b))
  {
    var m := pcs[x].my;
    if x == 0 {
      TotalBelowMonotone(pcs[1..], m, b);
    } else {
      TotalBelowGrows(pcs[1..], x - 1, b);
    }
  }

  lemma {:induction false} TotalBelowMonotone(pcs: seq<Pc>, a: nat, b: nat)
    requires a <= b
    ensures Total(pcs, WantedBelow(a)) <= Total(pcs, WantedBelow(b))
  {
    if pcs == [] {
    } else {
      TotalBelowMonotone(pcs[1..], a, b);
    }
  }

  lemma {:induction false} TotalZero(pcs: seq<Pc>, k: Kind)
    requires forall t :: 0 <= t < |pcs| ==> Weight(pcs[t], k) == 0
    ensures Total(pcs, k) == 0
  {
    if pcs == [] {
    } else {
      TotalZero(pcs[1..], k);
    }
  }

  // ---- The invariant ----

  // Everything ever granted, taken from head or not.
  function Grants(s: State): nat { s.head + Total(s.pcs, Granted) }

  // The amounts balance, and no more was granted than was published.
  ghost predicate Sums(s: State) {
    && s.opt == Grants(s) + s.over + Total(s.pcs, Refused) + Total(s.pcs, Wanted)
    && Grants(s) <= s.tail
    && |s.owner| == s.head
  }

  // An undecided request [my, my + want): either everything granted so far, and everything still
  // undecided below it, fits under my less the refunds it saw; or there is room for all of it.
  predicate Room(s: State, pc: Pc)
    requires pc.Recheck?
  {
    var below := Grants(s) + Total(s.pcs, WantedBelow(pc.my));
    below + pc.over <= pc.my || below + pc.want <= s.tail
  }

  predicate PcOk(s: State, t: nat)
    requires t < |s.pcs|
  {
    match s.pcs[t]
    case LoadOpt(max, tail, over) => over <= s.over
    case AddOpt(over, want) => over <= s.over
    case Recheck(over, my, want) => over <= my && my + want <= s.opt && (want > 0 ==> Room(s, s.pcs[t]))
    case Claimed(first, count) => first + count <= s.head
        && forall k :: first <= k < first + count && k < |s.owner| ==> s.owner[k] == t
    case _ => true
  }

  predicate Apart(p: Pc, q: Pc) {
    p.Recheck? && q.Recheck? && p.want > 0 && q.want > 0 ==> p.my + p.want <= q.my || q.my + q.want <= p.my
  }

  ghost predicate Inv(s: State) {
    && Sums(s)
    && (forall t {:trigger PcOk(s, t)} :: 0 <= t < |s.pcs| ==> PcOk(s, t))
    && (forall t, u {:trigger Apart(s.pcs[t], s.pcs[u])} :: 0 <= t < u < |s.pcs| ==> Apart(s.pcs[t], s.pcs[u]))
  }

  // ---- Each step keeps it ----

  // The sums after thread t has moved to pc.
  lemma SumsMoved(s: State, t: nat, s2: State, pc: Pc)
    requires Sums(s) && t < |s.pcs| && s2.pcs == s.pcs[t := pc] && s2.tail == s.tail && |s2.owner| == s2.head
    requires
      s2.opt - s.opt + Weight(s.pcs[t], Granted) + Weight(s.pcs[t], Refused) + Weight(s.pcs[t], Wanted)
      == s2.head - s.head + s2.over - s.over + Weight(pc, Granted) + Weight(pc, Refused) + Weight(pc, Wanted)
    requires s2.head + Weight(pc, Granted) <= s.head + Weight(s.pcs[t], Granted)
        || s2.head + Total(s.pcs, Granted) + Weight(pc, Granted) <= s.tail
    ensures Sums(s2)
  {
    TotalUpdate(s.pcs, Granted, t, pc);
    TotalUpdate(s.pcs, Refused, t, pc);
    TotalUpdate(s.pcs, Wanted, t, pc);
  }

  lemma SumsKept(s: State, t: nat, a: Action)
    requires Sums(s) && Enabled(s, t, a) && (t < |s.pcs| ==> PcOk(s, t))
    ensures Sums(Step(s, t, a))
  {
    if !a.Publish? { SumsMoved(s, t, Step(s, t, a), Step(s, t, a).pcs[t]); }
  }

  // Another thread's undecided request keeps its room.
  lemma RoomKept(s: State, t: nat, a: Action, u: nat)
    requires Sums(s) && Enabled(s, t, a) && t < |s.pcs| && u < |s.pcs| && u != t
    requires PcOk(s, t) && PcOk(s, u) && Apart(s.pcs[t], s.pcs[u]) && s.pcs[u].Recheck? && s.pcs[u].want > 0
    ensures Room(Step(s, t, a), s.pcs[u])
  {
    var s' := Step(s, t, a);
    var x := s.pcs[u];
    if !a.Publish? {
      TotalUpdate(s.pcs, Granted, t, s'.pcs[t]);
      TotalUpdate(s.pcs, WantedBelow(x.my), t, s'.pcs[t]);
      if a.Go? && s.pcs[t].Recheck? && x.my < s.pcs[t].my {
        TotalBelowGrows(s.pcs, u, s.pcs[t].my);
      }
    }
  }

  // A fresh ticket has room: every refund it saw belongs to an earlier ticket.
  lemma RoomOfNew(s: State, t: nat)
    requires Sums(s) && Enabled(s, t, Go) && PcOk(s, t) && s.pcs[t].AddOpt?
    ensures Room(Step(s, t, Go), Step(s, t, Go).pcs[t])
  {
    var s' := Step(s, t, Go);
    TotalUpdate(s.pcs, Granted, t, s'.pcs[t]);
    TotalUpdate(s.pcs, WantedBelow(s.opt), t, s'.pcs[t]);
    TotalMonotone(s.pcs, s.opt);
  }

  lemma PcKept(s: State, t: nat, a: Action, u: nat)
    requires Sums(s) && Enabled(s, t, a) && u < |s.pcs| && PcOk(s, u)
    requires t < |s.pcs| ==> PcOk(s, t) && (t != u ==> Apart(s.pcs[t], s.pcs[u]))
    ensures PcOk(Step(s, t, a), u)
  {
    if s.pcs[u].Recheck? && s.pcs[u].want > 0 && u != t && t < |s.pcs| { RoomKept(s, t, a, u); }
    if u == t && s.pcs[t].AddOpt? && a.Go? { RoomOfNew(s, t); }
  }

  lemma ApartKept(s: State, t: nat, a: Action, u: nat, v: nat)
    requires Enabled(s, t, a) && u < v < |s.pcs| && PcOk(s, u) && PcOk(s, v) && Apart(s.pcs[u], s.pcs[v])
    ensures Apart(Step(s, t, a).pcs[u], Step(s, t, a).pcs[v])
  {
  }

  lemma StepKeeps(s: State, t: nat, a: Action)
    requires Inv(s) && Enabled(s, t, a)
    ensures Inv(Step(s, t, a))
  {
    var s' := Step(s, t, a);
    if t < |s.pcs| { assert PcOk(s, t); }
    SumsKept(s, t, a);
    forall u | 0 <= u < |s'.pcs| ensures PcOk(s', u) {
      assert PcOk(s, u);
      if t < u { assert Apart(s.pcs[t], s.pcs[u]); }
      if u < t < |s.pcs| { assert Apart(s.pcs[u], s.pcs[t]); }
      PcKept(s, t, a, u);
    }
    forall u, v | 0 <= u < v < |s'.pcs| ensures Apart(s'.pcs[u], s'.pcs[v]) {
      assert PcOk(s, u) && PcOk(s, v);
      ApartKept(s, t, a, u, v);
    }
  }

  lemma InitInv(s: State)
    requires Init(s)
    ensures Inv(s)
  {
    TotalZero(s.pcs, Granted);
    TotalZero(s.pcs, Refused);
    TotalZero(s.pcs, Wanted);
  }

  lemma {:induction false} RunKeeps(run: seq<State>, i: nat)
    requires IsRun(run) && i < |run|
    ensures Inv(run[i])
  {
    if i == 0 {
      InitInv(run[0]);
    } else {
      RunKeeps(run, i - 1);
      assert Stepped(run[i - 1], run[i - 1 + 1]);
      var t, a :| Enabled(run[i - 1], t, a) && run[i] == Step(run[i - 1], t, a);
      StepKeeps(run[i - 1], t, a);
    }
  }

  // ---- What holds in every reachable state ----

  // Whatever the mix of single and bulk dequeuers, the indices granted never pass tailIndex, so
  // headIndex does not either, not even after every pending fetch_add on it.
  lemma HeadNeverPassesTail(run: seq<State>, i: nat)
    requires IsRun(run) && i < |run|
    ensures run[i].head + Total(run[i].pcs, Granted) <= run[i].tail
  {
    RunKeeps(run, i);
  }

  // The assertion in the code: the overcommit a thread read is at most its own ticket.
  lemma OvercommitBelowTicket(run: seq<State>, i: nat, t: nat)
    requires IsRun(run) && i < |run| && t < |run[i].pcs| && run[i].pcs[t].Recheck?
    ensures run[i].pcs[t].over <= run[i].pcs[t].my
  {
    RunKeeps(run, i);
    assert PcOk(run[i], t);
  }

  predicate InClaim(pc: Pc, k: nat) { pc.Claimed? && pc.first <= k < pc.first + pc.count }

  predicate Claims(s: State, t: nat, k: nat) { t < |s.pcs| && InClaim(s.pcs[t], k) }

  lemma ClaimedOnce(s: State, t: nat, u: nat, k: nat)
    requires Inv(s) && Claims(s, t, k) && Claims(s, u, k)
    ensures t == u && k < s.head <= s.tail
  {
    assert PcOk(s, t) && PcOk(s, u);
    assert k < |s.owner|;
    assert s.owner[k] == t && s.owner[k] == u;
  }

  // Claims lie below head, so below tail, and two consumers never hold the same index.
  lemma ClaimsAreDisjoint(run: seq<State>, i: nat, t: nat, u: nat, k: nat)
    requires IsRun(run) && i < |run| && Claims(run[i], t, k) && Claims(run[i], u, k)
    ensures t == u && k < run[i].head <= run[i].tail
  {
    RunKeeps(run, i);
    ClaimedOnce(run[i], t, u, k);
  }

  // The claimed indices are always a prefix, and a claim, once made, is never undone or remade.
  lemma {:induction false} ClaimsFormAPrefix(run: seq<State>, i: nat, j: nat)
    requires IsRun(run) && i <= j < |run|
    ensures |run[i].owner| == run[i].head && run[i].owner <= run[j].owner
  {
    RunKeeps(run, i);
    if i == j {
    } else {
      ClaimsFormAPrefix(run, i, j - 1);
      assert Stepped(run[j - 1], run[j - 1 + 1]);
    }
  }

  predicate InFlight(pc: Pc) { !pc.Idle? && !pc.Claimed? }

  // With no dequeue in flight the counters have caught up.
  lemma CountersAtRest(run: seq<State>, i: nat)
    requires IsRun(run) && i < |run|
    requires forall t :: 0 <= t < |run[i].pcs| ==> !InFlight(run[i].pcs[t])
    ensures run[i].opt - run[i].over == run[i].head
  {
    RunKeeps(run, i);
    TotalZero(run[i].pcs, Granted);
    TotalZero(run[i].pcs, Refused);
    TotalZero(run[i].pcs, Wanted);
  }

  // One thread's call, nobody else running.
  function Alone(s: State, t: nat, n: nat): State
    requires t < |s.pcs|
    ensures |Alone(s, t, n).pcs| == |s.pcs|
    decreases n
  {
    if n == 0 || !Enabled(s, t, Go) then s else Alone(Step(s, t, Go), t, n - 1)
  }

  // So a sub-queue that holds items never refuses a dequeue that runs by itself: the call gets
  // the first min(max, size) items, at once and in order, and leaves the counters caught up.
  lemma AloneNeverRefused(run: seq<State>, i: nat, t: nat, max: nat)
    requires IsRun(run) && i < |run| && t < |run[i].pcs| && max > 0
    requires forall u :: 0 <= u < |run[i].pcs| ==> !InFlight(run[i].pcs[u])
    requires run[i].pcs[t].Idle?
    ensures var s, size := run[i], run[i].tail - run[i].head;
            var s' := Alone(Step(s, t, Start(max)), t, 6);
            && (size > 0 ==> s'.pcs[t] == Claimed(s.head, Min(max, size)) && s'.head == s.head + Min(max, size))
            && (size == 0 ==> s'.pcs[t] == Idle && s'.head == s.head)
            && s'.opt - s'.over == s'.head && s'.tail == s.tail
  {
    CountersAtRest(run, i);
    RunKeeps(run, i);
    var s0 := Step(run[i], t, Start(max));
    assert Alone(s0, t, 6) == Alone(Step(s0, t, Go), t, 5);
    var s1 := Step(s0, t, Go);
    assert Alone(s1, t, 5) == Alone(Step(s1, t, Go), t, 4);
    var s2 := Step(s1, t, Go);
    if s2.pcs[t].AddOpt? {
      var s3 := Step(s2, t, Go);
      assert Alone(s2, t, 4) == Alone(s3, t, 3);
      var s4 := Step(s3, t, Go);
      assert Alone(s3, t, 3) == Alone(s4, t, 2);
      var s5 := Step(s4, t, Go);
      assert Alone(s4, t, 2) == Alone(s5, t, 1);
      assert Alone(s5, t, 1) == s5;
    } else {
      assert Alone(s2, t, 4) == s2;
    }
  }

  // ---- No request is cut short without need ----

  // A ticket is at most what was granted, is still undecided below it, or was given back.
  predicate Charged(s: State, pc: Pc)
    requires pc.Recheck?
  {
    pc.my <= Grants(s) + Total(s.pcs, WantedBelow(pc.my)) + s.over + Total(s.pcs, Refused)
  }

  lemma {:induction false} AllBelow(pcs: seq<Pc>, b: nat)
    requires forall t :: 0 <= t < |pcs| && pcs[t].Recheck? && pcs[t].want > 0 ==> pcs[t].my < b
    ensures Total(pcs, WantedBelow(b)) == Total(pcs, Wanted)
  {
    if pcs == [] {
    } else {
      AllBelow(pcs[1..], b);
    }
  }

  lemma ChargedNew(s: State, t: nat)
    requires Inv(s) && Enabled(s, t, Go) && s.pcs[t].AddOpt?
    ensures Charged(Step(s, t, Go), Step(s, t, Go).pcs[t])
  {
    var s' := Step(s, t, Go);
    forall u | 0 <= u < |s.pcs| && s.pcs[u].Recheck? && s.pcs[u].want > 0
        ensures s.pcs[u].my < s.opt { assert PcOk(s, u); }
    AllBelow(s.pcs, s.opt);
    TotalUpdate(s.pcs, Granted, t, s'.pcs[t]);
    TotalUpdate(s.pcs, Refused, t, s'.pcs[t]);
    TotalUpdate(s.pcs, WantedBelow(s.opt), t, s'.pcs[t]);
  }

  lemma ChargedKept(s: State, t: nat, a: Action, u: nat)
    requires Enabled(s, t, a) && t < |s.pcs| && u < |s.pcs| && u != t
    requires s.pcs[u].Recheck? && Charged(s, s.pcs[u]) && s.pcs[u].my <= s.opt
    ensures Charged(Step(s, t, a), s.pcs[u])
  {
    var s', my := Step(s, t, a), s.pcs[u].my;
    if !a.Publish? {
      TotalUpdate(s.pcs, Granted, t, s'.pcs[t]);
      TotalUpdate(s.pcs, Refused, t, s'.pcs[t]);
      TotalUpdate(s.pcs, WantedBelow(my), t, s'.pcs[t]);
      WeightsKept(s, t, a, my);
    }
  }

  // What a step of t takes from one place of the sum it puts in another.
  lemma WeightsKept(s: State, t: nat, a: Action, my: nat)
    requires Enabled(s, t, a) && t < |s.pcs| && !a.Publish? && my <= s.opt
    ensures var s', pc := Step(s, t, a), s.pcs[t];
            s.head + s.over + Weight(pc, Granted) + Weight(pc, Refused) + Weight(pc, WantedBelow(my))
            <= s'.head + s'.over + Weight(s'.pcs[t], Granted) + Weight(s'.pcs[t], Refused)
               + Weight(s'.pcs[t], WantedBelow(my))
  {
  }

  lemma ChargedStep(s: State, t: nat, a: Action, u: nat)
    requires Inv(s) && Enabled(s, t, a) && u < |s.pcs| && Step(s, t, a).pcs[u].Recheck?
    requires s.pcs[u].Recheck? ==> Charged(s, s.pcs[u])
    ensures Charged(Step(s, t, a), Step(s, t, a).pcs[u])
  {
    assert PcOk(s, u);
    if a.Publish? {
    } else if u == t {
      ChargedNew(s, t);
    } else {
      ChargedKept(s, t, a, u);
    }
  }

  lemma {:induction false} RunCharged(run: seq<State>, i: nat, u: nat)
    requires IsRun(run) && i < |run| && u < |run[i].pcs| && run[i].pcs[u].Recheck?
    ensures Charged(run[i], run[i].pcs[u])
  {
    if i == 0 {
    } else {
      RunKeeps(run, i - 1);
      assert Stepped(run[i - 1], run[i - 1 + 1]);
      var t, a :| Enabled(run[i - 1], t, a) && run[i] == Step(run[i - 1], t, a);
      if run[i - 1].pcs[u].Recheck? { RunCharged(run, i - 1, u); }
      ChargedStep(run[i - 1], t, a, u);
    }
  }

  // Whatever the others do, a request is granted in full, or all the room there is: what was
  // published, less what is granted, what is undecided with an earlier ticket, and the refunds made
  // since it read the overcommit.
  lemma NoNeedlessRefusal(run: seq<State>, i: nat, t: nat)
    requires IsRun(run) && i < |run| && t < |run[i].pcs| && run[i].pcs[t].Recheck?
    ensures var s, pc, s' := run[i], run[i].pcs[t], Step(run[i], t, Go);
            var granted := Grants(s') - Grants(s);
            var unseen := s.over + Total(s.pcs, Refused) - pc.over;
            && granted <= pc.want
            && (granted == pc.want || granted >= s.tail - Grants(s) - Total(s.pcs, WantedBelow(pc.my)) - unseen)
  {
    RunCharged(run, i, t);
    TotalUpdate(run[i].pcs, Granted, t, Step(run[i], t, Go).pcs[t]);
  }

  // ---- A dequeue that runs by itself, one instruction at a time ----

  // The rest of a lone call that began with head at `first`, and is to claim all it can of `max` items.
  predicate Lone(s: State, t: nat, first: nat, max: nat)
    requires t < |s.pcs| && first <= s.tail
  {
    var all := Min(s.tail - first, max);
    match s.pcs[t]
    case Idle => s.head == first == s.tail
    case LoadOver(m, tail) => m == max && tail == s.tail && s.head == first && s.opt == s.over + first
    case LoadOpt(m, tail, over) => m == max && tail == s.tail && over == s.over && s.head == first
        && s.opt == s.over + first
    case AddOpt(over, want) => want == all && over == s.over && s.head == first && s.opt == s.over + first
        && first < s.tail
    case Recheck(over, my, want) => want == all && my == over + first && s.head == first && first < s.tail
    case AddHead(give) => give == all && s.head == first
    case Claimed(f, count) => f == first && count == all && s.head == first + count
    case _ => false
  }

  lemma LoneStep(s: State, t: nat, first: nat, max: nat)
    requires Enabled(s, t, Go) && first <= s.tail && max > 0 && Lone(s, t, first, max)
    ensures Step(s, t, Go).tail == s.tail && Lone(Step(s, t, Go), t, first, max)
  {
  }

  lemma LoneStart(s: State, t: nat, max: nat)
    requires Inv(s) && Enabled(s, t, Start(max))
    requires forall u :: 0 <= u < |s.pcs| ==> !InFlight(s.pcs[u])
    ensures s.head <= s.tail && Lone(Step(s, t, Start(max)), t, s.head, max)
  {
    TotalZero(s.pcs, Granted);
    TotalZero(s.pcs, Refused);
    TotalZero(s.pcs, Wanted);
  }

  // How many instructions on the counters a call still has before its claim, at most.
  function Before(pc: Pc): nat {
    match pc
    case LoadOver(_, _) => 6
    case LoadOpt(_, _, _) => 5
    case AddOpt(_, _) => 4
    case Recheck(_, _, _) => 3
    case Refund(_, _) => 2
    case AddHead(_) => 1
    case AddOver(_) => 1
    case _ => 0
  }

  // The items a call may still claim, at most.
  function Wish(pc: Pc): nat {
    match pc
    case LoadOver(max, _) => max
    case LoadOpt(max, _, _) => max
    case AddOpt(_, want) => want
    case Recheck(_, _, want) => want
    case Refund(give, _) => give
    case AddHead(give) => give
    case Claimed(_, count) => count
    case _ => 0
  }

  // Every instruction brings a call nearer to its claim, or its end.
  lemma CallsEnd(s: State, t: nat)
    requires Enabled(s, t, Go)
    ensures Before(Step(s, t, Go).pcs[t]) < Before(s.pcs[t]) && Wish(Step(s, t, Go).pcs[t]) <= Wish(s.pcs[t])
  {
  }
}
