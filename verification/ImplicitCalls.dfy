// Whole calls on ImplicitQueue: what becomes of the item passed to enqueue, when a call is refused,
// how many instructions a call has, and what a dequeue that runs by itself receives.
module ImplicitCalls {
  import C = Counters
  import opened ImplicitInvariant
  import opened ImplicitQueue
  import opened ImplicitRuns
  import opened ImplicitSteps
  import opened SubQueue

  // A proper run with the actions taken, acts[i] from run[i].
  ghost predicate Does(run: seq<State>, acts: seq<Action>) {
    && |run| == |acts| + 1 && Init(run[0]) && run[0].headers != []
    && forall i :: 0 <= i < |acts| ==> Took(run, acts, i)
  }

  ghost predicate Took(run: seq<State>, acts: seq<Action>, i: nat) {
    i < |acts| && i + 1 < |run| && ByAction(run[i], acts[i], run[i + 1])
  }

  ghost predicate ByAction(s: State, a: Action, s2: State) {
    Enabled(s, a) && AsksFor(a, 1) && (Safe(s, a) ==> s2 == Step(s, a))
  }

  lemma DoesIsProper(run: seq<State>, acts: seq<Action>)
    requires Does(run, acts)
    ensures IsProperRun(run)
  {
    forall i | 0 <= i < |run| - 1 ensures Stepped(run[i], run[i + 1], 1) {
      assert Took(run, acts, i);
    }
  }

  // Every proper run is one.
  lemma {:induction false} ActionsOf(run: seq<State>) returns (acts: seq<Action>)
    requires IsProperRun(run)
    ensures Does(run, acts)
    decreases |run|
  {
    if |run| == 1 {
      acts := [];
    } else {
      var last := |run| - 2;
      assert Stepped(run[last], run[last + 1], 1);
      var a :| ByAction(run[last], a, run[last + 1]);
      var most := run[..|run| - 1];
      forall i | 0 <= i < |most| - 1 ensures Stepped(most[i], most[i + 1], 1) {
        assert Stepped(run[i], run[i + 1], 1);
      }
      acts := ActionsOf(most);
      forall i | 0 <= i < |acts + [a]| ensures Took(run, acts + [a], i) {
        if i < |acts| { assert Took(most, acts, i); }
      }
      acts := acts + [a];
    }
  }

  lemma StepIs(run: seq<State>, acts: seq<Action>, i: nat)
    requires Does(run, acts) && i < |acts|
    ensures Enabled(run[i], acts[i]) && AsksFor(acts[i], 1)
    ensures Safe(run[i], acts[i]) && run[i + 1] == Step(run[i], acts[i])
  {
    DoesIsProper(run, acts);
    assert Took(run, acts, i);
    EveryStepIsSafe(run, i, acts[i]);
  }

  // ---- What becomes of an enqueue ----

  // The enqueue is refused: too far ahead of head, or out of memory, or no block to be had.
  predicate Refused(s: State, a: Action) {
    a.Produce? &&
    match s.prod
    case LoadHead(x) => s.ctr.tail + BLOCK_SIZE - s.ctr.head >= HALF
    case Grow(x) => a.c.Fail?
    case Requisition(x, e) => !a.c.Pick? && !a.c.Fresh?
    case _ => false
  }

  // Putting the index back after a refusal.
  predicate Undoing(p: Producer) { p.Rewind? || p.NullEntry? }

  // The call of x under way, begun when `items` was as given; `refused` tells of its past.
  predicate InCall(s: State, x: int, items: seq<int>, refused: bool) {
    !s.prod.Idle? && s.prod.x == x && s.items == items && (Undoing(s.prod) <==> refused)
  }

  lemma ProduceInCall(s: State, c: Choice, x: int, items: seq<int>, refused: bool)
    requires Enabled(s, Produce(c)) && SafeProduce(s, c) && InCall(s, x, items, refused)
    ensures var s2, r := ProduceStep(s, c), refused || Refused(s, Produce(c));
            if s2.prod.Idle? then s2.items == (if r then items else items + [x]) else InCall(s2, x, items, r)
  {
  }

  lemma OthersLeaveProducer(s: State, a: Action)
    requires Enabled(s, a) && Safe(s, a) && !a.Produce? && !s.prod.Idle?
    ensures Step(s, a).prod == s.prod && Step(s, a).items == s.items
  {
  }

  lemma CallStep(s: State, a: Action, x: int, items: seq<int>, refused: bool)
    requires Enabled(s, a) && Safe(s, a) && InCall(s, x, items, refused)
    ensures var s2, r := Step(s, a), refused || Refused(s, a);
            if s2.prod.Idle? then s2.items == (if r then items else items + [x]) else InCall(s2, x, items, r)
  {
    if a.Produce? { ProduceInCall(s, a.c, x, items, refused); } else { OthersLeaveProducer(s, a); }
  }

  ghost predicate RefusedIn(run: seq<State>, acts: seq<Action>, i: nat, j: nat) {
    exists m :: i <= m < j && m < |acts| && m < |run| && Refused(run[m], acts[m])
  }

  // Step i calls enqueue(x), which is not over before step j.
  ghost predicate Calls(run: seq<State>, acts: seq<Action>, i: nat, j: nat, x: int) {
    Does(run, acts) && i < j < |run| && acts[i] == Enqueue(x) && forall k :: i < k < j ==> !run[k].prod.Idle?
  }

  lemma {:induction false} CallSoFar(run: seq<State>, acts: seq<Action>, i: nat, j: nat, x: int)
    requires Calls(run, acts, i, j, x)
    ensures var items, r := run[i].items, RefusedIn(run, acts, i, j);
            if run[j].prod.Idle? then run[j].items == (if r then items else items + [x])
            else InCall(run[j], x, items, r)
    decreases j
  {
    StepIs(run, acts, j - 1);
    if j == i + 1 {
    } else {
      CallSoFar(run, acts, i, j - 1, x);
      CallStep(run[j - 1], acts[j - 1], x, run[i].items, RefusedIn(run, acts, i, j - 1));
      assert RefusedIn(run, acts, i, j) <==> RefusedIn(run, acts, i, j - 1) || Refused(run[j - 1], acts[j - 1]);
    }
  }

  // Whatever the consumers and the other producers do meanwhile, an enqueue of x that is over at
  // run[j] has appended x, and nothing else, unless the code's own test or an allocation or the
  // pool refused it; then it has appended nothing.
  lemma EnqueueAppendsItsItem(run: seq<State>, acts: seq<Action>, i: nat, j: nat, x: int)
    requires Calls(run, acts, i, j, x) && run[j].prod.Idle?
    ensures RefusedIn(run, acts, i, j) ==> run[j].items == run[i].items
    ensures !RefusedIn(run, acts, i, j) ==> run[j].items == run[i].items + [x]
  {
    CallSoFar(run, acts, i, j, x);
  }

  // ---- Calls end ----

  // How many instructions an enqueue still has, at most.
  function ToDo(p: Producer): nat {
    match p
    case Idle => 0
    case LoadHead(_) => 12
    case TestKey(_) => 11
    case TestValue(_) => 10
    case Grow(_) => 9
    case AssertKey(_) => 8
    case SetKey(_, _) => 7
    case SetTail(_, _) => 6
    case Requisition(_, _) => 5
    case ResetCount(_, _, _) => 4
    case SetValue(_, _, _) => 3
    case Construct(_) => 2
    case PublishTail(_) => 1
    case Rewind(_, _) => 2
    case NullEntry(_, _) => 1
  }

  // The producer's own instructions among acts[i..j].
  function Produced(acts: seq<Action>, i: nat, j: nat): nat
    requires j <= |acts|
    decreases j
  {
    if j <= i then 0 else Produced(acts, i, j - 1) + (if acts[j - 1].Produce? then 1 else 0)
  }

  lemma ToDoShrinks(s: State, c: Choice)
    requires Enabled(s, Produce(c)) && SafeProduce(s, c)
    ensures ToDo(ProduceStep(s, c).prod) < ToDo(s.prod)
  {
  }

  lemma ToDoAfter(run: seq<State>, acts: seq<Action>, k: nat)
    requires Does(run, acts) && k < |acts|
    ensures acts[k].Enqueue? ==> ToDo(run[k + 1].prod) <= 12
    ensures !run[k].prod.Idle? ==> ToDo(run[k + 1].prod) + (if acts[k].Produce? then 1 else 0) <= ToDo(run[k].prod)
  {
    StepIs(run, acts, k);
    var s, a := run[k], acts[k];
    if !s.prod.Idle? {
      if a.Produce? { ToDoShrinks(s, a.c); } else { OthersLeaveProducer(s, a); }
    }
  }

  lemma {:induction false} CallInstructions(run: seq<State>, acts: seq<Action>, i: nat, j: nat, x: int)
    requires Calls(run, acts, i, j, x)
    ensures Produced(acts, i + 1, j) + ToDo(run[j].prod) <= 12
    decreases j
  {
    ToDoAfter(run, acts, j - 1);
    if j == i + 1 {
    } else {
      CallInstructions(run, acts, i, j - 1, x);
    }
  }

  // An enqueue is over after twelve instructions of its own, whatever anybody else does.
  lemma EnqueueIsWaitFree(run: seq<State>, acts: seq<Action>, i: nat, j: nat, x: int)
    requires Calls(run, acts, i, j, x)
    ensures Produced(acts, i + 1, j) <= 12 && (Produced(acts, i + 1, j) == 12 ==> run[j].prod.Idle?)
  {
    CallInstructions(run, acts, i, j, x);
  }

  // The instructions a dequeue still has, at most, for the items of its claim from i on.
  function LeftOf(pc: Taker, cpc: C.Pc): nat {
    var limit := if cpc.Claimed? then cpc.first + cpc.count else 0;
    match pc
    case Off => 0
    case LoadIndex => 5 * C.Wish(cpc) + 4
    case LoadTail(_) => 5 * C.Wish(cpc) + 3
    case LoadKey(_, _) => 5 * C.Wish(cpc) + 2
    case LoadBlock(_, _, i) => 5 * Rest(i, limit) + 1
    case Take(_, _, _, _, _, i) => 5 * Rest(i, limit)
    case Count(_, _, _, _, _, i) => 5 * Rest(i, limit) + 4
    case ClearEntry(_, _, _, _, i) => 5 * Rest(i, limit) + 3
    case Release(_, _, _, _, i) => 5 * Rest(i, limit) + 2
    case Finished => 1
  }

  function Rest(i: nat, limit: nat): nat { if i < limit then limit - i else 0 }

  // All of a dequeue: on the counters, then on its items.
  function CallLeft(s: State, t: nat): nat
    requires t < |s.takers| == |s.ctr.pcs|
  {
    var cpc := s.ctr.pcs[t];
    if s.takers[t].Off? then (if cpc.Idle? || cpc.Claimed? then 0 else 5 * C.Wish(cpc) + 4 + C.Before(cpc))
    else LeftOf(s.takers[t], cpc)
  }

  lemma ClaimShrinks(s: State, t: nat)
    requires Enabled(s, Claim(t))
    ensures CallLeft(Step(s, Claim(t)), t) < CallLeft(s, t)
  {
    C.CallsEnd(s.ctr, t);
  }

  // A consumer has something left of its claim to find or to take.
  predicate HasRest(pc: Taker, cpc: C.Pc) {
    cpc.Claimed? && cpc.count > 0 && (pc.LoadBlock? || pc.Take? ==> pc.i < cpc.first + cpc.count)
  }

  lemma FetchShrinksLeft(s: State, t: nat)
    requires Enabled(s, Fetch(t)) && SafeFetch(s, t) && HasRest(s.takers[t], s.ctr.pcs[t])
    ensures CallLeft(FetchStep(s, t), t) < CallLeft(s, t)
  {
  }

  lemma FetchShrinks(s: State, g: Ghost, t: nat)
    requires Takers(s, g) && Enabled(s, Fetch(t)) && SafeFetch(s, t)
    ensures CallLeft(FetchStep(s, t), t) < CallLeft(s, t)
  {
    assert TakerOk(s.takers[t], s.ctr.pcs[t], t, s.headers, g.hg, g, s.got, s.ctr.tail);
    FetchShrinksLeft(s, t);
  }

  // Consumer t's own instructions among acts[i..j].
  function Fetched(acts: seq<Action>, t: nat, i: nat, j: nat): nat
    requires j <= |acts|
    decreases j
  {
    if j <= i then 0 else Fetched(acts, t, i, j - 1) + (if IsOf(acts[j - 1], t) then 1 else 0)
  }

  predicate IsOf(a: Action, t: nat) { a == Claim(t) || a == Fetch(t) }

  lemma OthersLeaveTaker(s: State, a: Action, t: nat)
    requires Enabled(s, a) && Safe(s, a) && t < |s.takers| == |s.ctr.pcs| && !IsOf(a, t) && !(a.Dequeue? && a.t == t)
    ensures var s2 := Step(s, a);
            && t < |s2.takers| == |s2.ctr.pcs| && s2.takers[t] == s.takers[t] && s2.ctr.pcs[t] == s.ctr.pcs[t]
  {
    match a
    case Dequeue(u, max) =>
    case Claim(u) =>
    case Fetch(u) => OthersFetch(s, u, t);
    case _ =>
  }

  lemma OthersFetch(s: State, u: nat, t: nat)
    requires Enabled(s, Fetch(u)) && SafeFetch(s, u) && t < |s.takers| == |s.ctr.pcs| && u != t
    ensures var s2 := FetchStep(s, u);
            && t < |s2.takers| == |s2.ctr.pcs| && s2.takers[t] == s.takers[t] && s2.ctr.pcs[t] == s.ctr.pcs[t]
  {
  }

  lemma LeftShrinks(run: seq<State>, i: nat, t: nat, a: Action)
    requires IsProperRun(run) && i < |run| && IsOf(a, t) && Enabled(run[i], a) && Safe(run[i], a)
    ensures CallLeft(Step(run[i], a), t) < CallLeft(run[i], t)
  {
    if a.Claim? {
      ClaimShrinks(run[i], t);
    } else {
      var g := RunKeeps(run, i);
      FetchShrinks(run[i], g, t);
    }
  }

  lemma LeftAfter(run: seq<State>, acts: seq<Action>, k: nat, t: nat)
    requires Does(run, acts) && k < |acts| && t < |run[k].takers| == |run[k].ctr.pcs|
    ensures var s, s2, a := run[k], run[k + 1], acts[k];
            && t < |s2.takers| == |s2.ctr.pcs|
            && (a.Dequeue? && a.t == t ==> CallLeft(s2, t) == 5 * a.max + 10)
            && (IsOf(a, t) ==> CallLeft(s2, t) < CallLeft(s, t))
            && (!IsOf(a, t) && !(a.Dequeue? && a.t == t) ==> CallLeft(s2, t) == CallLeft(s, t))
  {
    StepIs(run, acts, k);
    DoesIsProper(run, acts);
    var a := acts[k];
    if IsOf(a, t) { LeftShrinks(run, k, t, a); }
    else if !(a.Dequeue? && a.t == t) { OthersLeaveTaker(run[k], a, t); }
  }

  lemma {:induction false} LeftInCall(run: seq<State>, acts: seq<Action>, i: nat, j: nat, t: nat, max: nat)
    requires Does(run, acts) && i < j < |run| && acts[i] == Dequeue(t, max)
    requires forall k :: i < k < j ==> !(acts[k].Dequeue? && acts[k].t == t)
    ensures t < |run[j].takers| == |run[j].ctr.pcs| && Fetched(acts, t, i + 1, j) + CallLeft(run[j], t) <= 5 * max + 10
    decreases j
  {
    if j == i + 1 {
      StepIs(run, acts, i);
    } else {
      LeftInCall(run, acts, i, j - 1, t, max);
    }
    LeftAfter(run, acts, j - 1, t);
  }

  // A dequeue is over after 5 * max + 10 instructions of its own, whatever anybody else does.
  lemma DequeueIsWaitFree(run: seq<State>, acts: seq<Action>, i: nat, j: nat, t: nat, max: nat)
    requires Does(run, acts) && i < j < |run| && acts[i] == Dequeue(t, max)
    requires forall k :: i < k < j ==> !(acts[k].Dequeue? && acts[k].t == t)
    ensures t < |run[j].takers| == |run[j].ctr.pcs| && Fetched(acts, t, i + 1, j) <= 5 * max + 10
    ensures Fetched(acts, t, i + 1, j) == 5 * max + 10 ==> run[j].takers[t].Off? && run[j].ctr.pcs[t].Idle?
  {
    LeftInCall(run, acts, i, j, t, max);
    DoesIsProper(run, acts);
    LeftMeansOver(run, j, t);
  }

  lemma LeftMeansOver(run: seq<State>, j: nat, t: nat)
    requires IsProperRun(run) && j < |run| && t < |run[j].takers| == |run[j].ctr.pcs|
    ensures CallLeft(run[j], t) == 0 ==> run[j].takers[t].Off? && run[j].ctr.pcs[t].Idle?
  {
    var g := RunKeeps(run, j);
    var s := run[j];
    assert TakerOk(s.takers[t], s.ctr.pcs[t], t, s.headers, g.hg, g, s.got, s.ctr.tail);
  }

  // ---- A dequeue that runs by itself ----

  // Consumer t's next n instructions, nobody else running.
  function Alone(s: State, t: nat, n: nat): State
    decreases n
  {
    if n == 0 then s
    else if Enabled(s, Claim(t)) then Alone(Step(s, Claim(t)), t, n - 1)
    else if Enabled(s, Fetch(t)) && Safe(s, Fetch(t)) then Alone(Step(s, Fetch(t)), t, n - 1)
    else s
  }

  ghost predicate OthersOff(s: State, t: nat) { forall u :: 0 <= u < |s.takers| && u != t ==> s.takers[u].Off? }

  // The call of t that began with head at `first`.
  predicate AloneSoFar(s: State, t: nat, first: nat, max: nat) {
    && t < |s.takers| == |s.ctr.pcs| && first <= s.ctr.tail
    && var all := C.Min(s.ctr.tail - first, max);
       if s.takers[t].Off?
       then (s.ctr.pcs[t].Idle? && s.ctr.head == first + all)
           || (C.InFlight(s.ctr.pcs[t]) && C.Lone(s.ctr, t, first, max))
       else s.ctr.pcs[t] == C.Claimed(first, all) && s.ctr.head == first + all
  }

  lemma AloneClaim(s: State, t: nat, first: nat, max: nat)
    requires AloneSoFar(s, t, first, max) && OthersOff(s, t) && Enabled(s, Claim(t)) && max > 0
    ensures var s2 := Step(s, Claim(t));
            AloneSoFar(s2, t, first, max) && OthersOff(s2, t) && s2.items == s.items && s2.ctr.tail == s.ctr.tail
  {
    C.LoneStep(s.ctr, t, first, max);
  }

  lemma AloneFetch(s: State, t: nat, first: nat, max: nat)
    requires AloneSoFar(s, t, first, max) && OthersOff(s, t) && Enabled(s, Fetch(t)) && Safe(s, Fetch(t))
    ensures var s2 := Step(s, Fetch(t));
            AloneSoFar(s2, t, first, max) && OthersOff(s2, t) && s2.items == s.items && s2.ctr.tail == s.ctr.tail
  {
  }

  // What a consumer does next may follow any proper run.
  lemma GoOn(run: seq<State>, a: Action)
    requires IsProperRun(run) && Enabled(Last(run), a) && AsksFor(a, 1)
    ensures Safe(Last(run), a) && IsProperRun(run + [Step(Last(run), a)])
  {
    EveryStepIsSafe(run, |run| - 1, a);
    var run2 := run + [Step(Last(run), a)];
    forall i | 0 <= i < |run2| - 1 ensures Stepped(run2[i], run2[i + 1], 1) {
      if i < |run| - 1 { assert Stepped(run[i], run[i + 1], 1); }
    }
  }

  // The call is over.
  predicate Over(s: State, t: nat, first: nat, max: nat) {
    && t < |s.takers| == |s.ctr.pcs| && first <= s.ctr.tail && s.takers[t].Off? && s.ctr.pcs[t].Idle?
    && s.ctr.head == first + C.Min(s.ctr.tail - first, max)
  }

  lemma NotOver(s: State, t: nat, first: nat, max: nat) returns (a: Action)
    requires AloneSoFar(s, t, first, max)
    ensures !Over(s, t, first, max) ==> IsOf(a, t) && Enabled(s, a)
  {
    a := if s.takers[t].Off? then Claim(t) else Fetch(t);
  }

  lemma AloneOver(s: State, t: nat, first: nat, max: nat, n: nat)
    requires Over(s, t, first, max)
    ensures Alone(s, t, n) == s
  {
  }

  lemma AloneGoesOn(s: State, t: nat, n: nat, a: Action)
    requires n > 0 && IsOf(a, t) && Enabled(s, a) && Safe(s, a)
    ensures Alone(s, t, n) == Alone(Step(s, a), t, n - 1)
  {
  }

  ghost predicate AloneAt(s: State, t: nat, first: nat, max: nat, items: seq<int>) {
    AloneSoFar(s, t, first, max) && OthersOff(s, t) && s.items == items
  }

  lemma {:induction false} AloneEnds(run: seq<State>, t: nat, first: nat, max: nat, items: seq<int>, n: nat)
    returns (run2: seq<State>)
    requires IsProperRun(run) && AloneAt(Last(run), t, first, max, items) && CallLeft(Last(run), t) <= n && max > 0
    ensures IsProperRun(run2) && Last(run2) == Alone(Last(run), t, n)
    ensures AloneAt(Last(run2), t, first, max, items) && Over(Last(run2), t, first, max)
    decreases n
  {
    var s := Last(run);
    if Over(s, t, first, max) {
      AloneOver(s, t, first, max, n);
      run2 := run;
    } else {
      var a := NotOver(s, t, first, max);
      GoOn(run, a);
      LeftShrinks(run, |run| - 1, t, a);
      if a.Claim? { AloneClaim(s, t, first, max); } else { AloneFetch(s, t, first, max); }
      AloneGoesOn(s, t, n, a);
      run2 := AloneEnds(run + [Step(s, a)], t, first, max, items, n - 1);
    }
  }

  // A dequeue that runs by itself, no other being under way, ends after at most 5 * max + 10
  // instructions, and it has received the first min(max, size) items.
  lemma LoneDequeueGetsTheFirstItems(run: seq<State>, i: nat, t: nat, max: nat)
    requires IsProperRun(run) && i < |run| && t < |run[i].takers| == |run[i].ctr.pcs| && max > 0
    requires forall u :: 0 <= u < |run[i].takers| ==> run[i].takers[u].Off? && run[i].ctr.pcs[u].Idle?
    ensures var s, s2 := run[i], Alone(Step(run[i], Dequeue(t, max)), t, 5 * max + 10);
            && s.ctr.head <= s.ctr.tail && t < |s2.takers| == |s2.ctr.pcs|
            && s2.takers[t].Off? && s2.ctr.pcs[t].Idle? && s2.items == s.items
            && s2.ctr.head == s.ctr.head + C.Min(s.ctr.tail - s.ctr.head, max)
            && forall k :: 0 <= k < s2.ctr.head ==> k < |s.items| && k in s2.got && s2.got[k] == s.items[k]
  {
    var s := run[i];
    AloneStarts(run, i, t, max);
    var run1 := run[..i + 1] + [Step(s, Dequeue(t, max))];
    var run2 := AloneEnds(run1, t, s.ctr.head, max, s.items, 5 * max + 10);
    TailIsItems(run, i);
    TailIsItems(run2, |run2| - 1);
    forall k | 0 <= k < Last(run2).ctr.head
      ensures k < |s.items| && k in Last(run2).got && Last(run2).got[k] == s.items[k]
    {
      NothingIsLost(run2, |run2| - 1, k);
    }
  }

  lemma AloneStarts(run: seq<State>, i: nat, t: nat, max: nat)
    requires IsProperRun(run) && i < |run| && Enabled(run[i], Dequeue(t, max)) && OthersOff(run[i], t) && max > 0
    requires forall u :: 0 <= u < |run[i].takers| ==> run[i].ctr.pcs[u].Idle?
    ensures var s, s1 := run[i], Step(run[i], Dequeue(t, max));
            && IsProperRun(run[..i + 1] + [s1])
            && s.ctr.head <= s.ctr.tail && AloneAt(s1, t, s.ctr.head, max, s.items) && CallLeft(s1, t) <= 5 * max + 10
  {
    var g := RunKeeps(run, i);
    C.LoneStart(run[i].ctr, t, max);
    var r := run[..i + 1];
    forall j | 0 <= j < |r| - 1 ensures Stepped(r[j], r[j + 1], 1) { assert Stepped(run[j], run[j + 1], 1); }
    GoOn(r, Dequeue(t, max));
  }
}
