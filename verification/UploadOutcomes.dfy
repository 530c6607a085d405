// How an upload ends: a task fails only on a part that was damaged, and always does on one that
// was; every upload can be finished, and one without damage and broken sockets ends with every part
// stored.
module UploadOutcomes {
  import opened Parts
  import opened Upload

  // A run with the actions taken, acts[i] from run[i].
  ghost predicate Does(k: Config, run: seq<State>, acts: seq<Action>) {
    && |run| == |acts| + 1 && Init(k, run[0])
    && forall i :: 0 <= i < |acts| ==> Took(k, run, acts, i)
  }

  ghost predicate Took(k: Config, run: seq<State>, acts: seq<Action>, i: nat) {
    i < |acts| && i + 1 < |run| && ByAction(k, run[i], acts[i], run[i + 1])
  }

  ghost predicate ByAction(k: Config, s: State, a: Action, s2: State) {
    Enabled(k, s, a) && (Safe(k, s, a) ==> s2 == Step(k, s, a))
  }

  lemma DoesIsRun(k: Config, run: seq<State>, acts: seq<Action>)
    requires Does(k, run, acts)
    ensures IsRun(k, run)
  {
    forall i | 0 <= i < |run| - 1 ensures Stepped(k, run[i], run[i + 1]) {
      assert Took(k, run, acts, i);
    }
  }

  // Every run is one.
  lemma {:induction false} ActionsOf(k: Config, run: seq<State>) returns (acts: seq<Action>)
    requires IsRun(k, run)
    ensures Does(k, run, acts)
    decreases |run|
  {
    if |run| == 1 {
      acts := [];
    } else {
      var last := |run| - 2;
      assert Stepped(k, run[last], run[last + 1]);
      var a :| ByAction(k, run[last], a, run[last + 1]);
      var most := run[..|run| - 1];
      forall i | 0 <= i < |most| - 1 ensures Stepped(k, most[i], most[i + 1]) {
        assert Stepped(k, run[i], run[i + 1]);
      }
      acts := ActionsOf(k, most);
      forall i | 0 <= i < |acts + [a]| ensures Took(k, run, acts + [a], i) {
        if i < |acts| { assert Took(k, most, acts, i); }
      }
      acts := acts + [a];
    }
  }

  lemma StepIs(k: Config, run: seq<State>, acts: seq<Action>, i: nat)
    requires Does(k, run, acts) && k.Sendable() && i < |acts|
    ensures Inv(k, run[i]) && Enabled(k, run[i], acts[i]) && run[i + 1] == Step(k, run[i], acts[i])
  {
    DoesIsRun(k, run, acts);
    RunKeeps(k, run, i);
    assert Took(k, run, acts, i);
    IsSafe(k, run[i], acts[i]);
  }

  // ---- Who fails ----

  predicate Damaged(acts: seq<Action>, t: nat, i: nat) {
    exists j :: 0 <= j < i && j < |acts| && acts[j].Damage? && acts[j].t == t
  }

  // Nothing of task t is damaged: what travels has its hash, and is not refused.
  predicate Sound(k: Config, s: State, t: nat) {
    && t < |s.tasks| == |s.wires| && !s.tasks[t].Thrown?
    && (s.wires[t].Part? ==> k.hash(s.wires[t].data) == s.wires[t].sha)
    && (s.wires[t].Answer? ==> s.wires[t].success)
  }

  lemma SoundStep(k: Config, s: State, a: Action, t: nat)
    requires Enabled(k, s, a) && Sound(k, s, t) && !(a.Damage? && a.t == t)
    ensures Sound(k, Step(k, s, a), t)
  {
  }

  lemma {:induction false} SoundSoFar(k: Config, run: seq<State>, acts: seq<Action>, i: nat, t: nat)
    requires Does(k, run, acts) && k.Sendable() && i < |run| && t < |k.nb| && !Damaged(acts, t, i)
    ensures Sound(k, run[i], t)
  {
    if i == 0 {
    } else {
      StepIs(k, run, acts, i - 1);
      assert !(acts[i - 1].Damage? && acts[i - 1].t == t);
      SoundSoFar(k, run, acts, i - 1, t);
      SoundStep(k, run[i - 1], acts[i - 1], t);
    }
  }

  // In every run, with broken sockets or not, a task fails only if one of its parts was damaged.
  lemma ThrownOnlyIfDamaged(k: Config, run: seq<State>, acts: seq<Action>, i: nat, t: nat)
    requires Does(k, run, acts) && k.Sendable() && i < |run| && t < |run[i].tasks| && run[i].tasks[t].Thrown?
    ensures exists j :: 0 <= j < i && acts[j].Damage? && acts[j].t == t
  {
    DoesIsRun(k, run, acts);
    RunKeeps(k, run, i);
    if !Damaged(acts, t, i) { SoundSoFar(k, run, acts, i, t); }
  }

  // The part n of task t is refused, or will be.
  predicate Doomed(k: Config, s: State, t: nat, n: nat) {
    && t < |s.tasks| == |s.wires|
    && (s.tasks[t].Thrown?
        || (s.tasks[t] == Sent(n)
            && ((s.wires[t].Part? && k.hash(s.wires[t].data) != s.wires[t].sha) || s.wires[t] == Answer(false))))
  }

  lemma DoomedStep(k: Config, s: State, a: Action, t: nat, n: nat)
    requires Enabled(k, s, a) && Doomed(k, s, t, n) && !(a.Break? && a.t == t)
    ensures Doomed(k, Step(k, s, a), t, n)
  {
  }

  lemma DamageDooms(k: Config, s: State, a: Action) returns (n: nat)
    requires Inv(k, s) && Enabled(k, s, a) && a.Damage?
    ensures s.tasks[a.t] == Sent(n) && Doomed(k, Step(k, s, a), a.t, n)
  {
    assert TaskOk(k, s, a.t);
    n := s.tasks[a.t].n;
  }

  lemma StaysDoomed(k: Config, run: seq<State>, acts: seq<Action>, i: nat, t: nat, n: nat)
    requires Does(k, run, acts) && k.Sendable() && i < |acts| && Doomed(k, run[i], t, n)
    requires !(acts[i].Break? && acts[i].t == t)
    ensures Doomed(k, run[i + 1], t, n)
  {
    StepIs(k, run, acts, i);
    DoomedStep(k, run[i], acts[i], t, n);
  }

  lemma DoomedByDamage(k: Config, run: seq<State>, acts: seq<Action>, i: nat) returns (n: nat)
    requires Does(k, run, acts) && k.Sendable() && i < |acts| && acts[i].Damage?
    ensures acts[i].t < |run[i].tasks| && run[i].tasks[acts[i].t] == Sent(n) && Doomed(k, run[i + 1], acts[i].t, n)
  {
    StepIs(k, run, acts, i);
    n := DamageDooms(k, run[i], acts[i]);
  }

  // A task whose part was damaged never gets past that part, unless its socket breaks afterwards.
  lemma {:induction false} DamageIsNoticed(k: Config, run: seq<State>, acts: seq<Action>, j: nat, i: nat, t: nat)
    returns (n: nat)
    requires Does(k, run, acts) && k.Sendable() && j < i < |run| && acts[j].Damage? && acts[j].t == t
    requires forall m :: j < m < i ==> !(acts[m].Break? && acts[m].t == t)
    ensures t < |run[j].tasks| && run[j].tasks[t] == Sent(n) && Doomed(k, run[i], t, n)
    decreases i
  {
    if i == j + 1 {
      n := DoomedByDamage(k, run, acts, j);
    } else {
      n := DamageIsNoticed(k, run, acts, j, i - 1, t);
      StaysDoomed(k, run, acts, i - 1, t, n);
    }
  }

  // Nothing of task t from part n on has been counted.
  ghost predicate Uncounted(k: Config, s: State, t: nat, n: nat)
    requires t < |k.nb|
  {
    forall m :: n <= m < RangeOf(k.nb, t).end ==> m !in s.counted
  }

  lemma UncountedStep(k: Config, s: State, a: Action, t: nat, n: nat)
    requires Inv(k, s) && Enabled(k, s, a) && t < |k.nb| && Doomed(k, s, t, n) && Uncounted(k, s, t, n)
    requires n >= RangeOf(k.nb, t).begin
    ensures Uncounted(k, Step(k, s, a), t, n)
  {
    assert TaskOk(k, s, a.t);
    if a.t < t { RangesDescend(k.nb, a.t, t); }
    if t < a.t { RangesDescend(k.nb, t, a.t); }
  }

  lemma UncountedAtFirst(k: Config, s: State, a: Action, n: nat)
    requires Inv(k, s) && Enabled(k, s, a) && a.Damage? && s.tasks[a.t] == Sent(n)
    ensures InRange(RangeOf(k.nb, a.t), n) && Uncounted(k, Step(k, s, a), a.t, n)
  {
    assert TaskOk(k, s, a.t);
    forall m | n <= m < RangeOf(k.nb, a.t).end ensures m !in s.counted { assert PartOk(k, s, a.t, m); }
  }

  lemma {:induction false} StaysUncounted(k: Config, run: seq<State>, acts: seq<Action>, j: nat, i: nat, t: nat)
    returns (n: nat)
    requires Does(k, run, acts) && k.Sendable() && j < i < |run| && acts[j].Damage? && acts[j].t == t
    requires forall m :: j < m < i ==> !(acts[m].Break? && acts[m].t == t)
    ensures t < |k.nb| && t < |run[j].tasks| && run[j].tasks[t] == Sent(n) && InRange(RangeOf(k.nb, t), n)
    ensures Doomed(k, run[i], t, n) && Uncounted(k, run[i], t, n)
    decreases i
  {
    StepIs(k, run, acts, i - 1);
    if i == j + 1 {
      n := DamageIsNoticed(k, run, acts, j, i, t);
      UncountedAtFirst(k, run[j], acts[j], n);
    } else {
      n := StaysUncounted(k, run, acts, j, i - 1, t);
      StaysDoomed(k, run, acts, i - 1, t, n);
      UncountedStep(k, run[i - 1], acts[i - 1], t, n);
    }
  }

  lemma CountBound(k: Config, s: State, t: nat, n: nat)
    requires Inv(k, s) && t < |k.nb| && InRange(RangeOf(k.nb, t), n) && Uncounted(k, s, t, n)
    ensures |s.counted| + (RangeOf(k.nb, t).end - n) <= k.Total()
  {
    var end := RangeOf(k.nb, t).end;
    var rest := Upto(end) - Upto(n);
    assert Upto(end) == rest + Upto(n);
    SubsetSize(s.counted + rest, Upto(k.Total()));
    assert s.counted * rest == {};
  }

  // Progress never counts the part that was damaged, or its task's later ones; so when there is a
  // later one, the loop of request_upload that waits for progress to reach the number of parts never
  // ends, and the failure is never reported.
  lemma DamageStopsProgress(k: Config, run: seq<State>, acts: seq<Action>, j: nat, i: nat, t: nat) returns (n: nat)
    requires Does(k, run, acts) && k.Sendable() && j < i < |run| && acts[j].Damage? && acts[j].t == t
    requires forall m :: j < m < i ==> !(acts[m].Break? && acts[m].t == t)
    ensures t < |k.nb| && t < |run[j].tasks| && run[j].tasks[t] == Sent(n) && InRange(RangeOf(k.nb, t), n)
    ensures run[i].progress + (RangeOf(k.nb, t).end - n) <= k.Total() + 1
    ensures n + 1 < RangeOf(k.nb, t).end ==> run[i].progress < k.Total()
  {
    n := StaysUncounted(k, run, acts, j, i, t);
    DoesIsRun(k, run, acts);
    RunKeeps(k, run, i);
    CountBound(k, run[i], t, n);
  }

  // ---- Every upload can be finished ----

  // What the tasks and the storages do by themselves.
  predicate Steady(a: Action) { a.Go? || a.Store? || a.Receive? }

  ghost predicate AllOver(s: State) { forall t :: 0 <= t < |s.tasks| ==> s.tasks[t].Returned? || s.tasks[t].Thrown? }

  // The steps that task t and its storage still have, at most.
  function TaskLeft(k: Config, s: State, t: nat): nat
    requires t < |k.nb| == |s.tasks| == |s.wires|
  {
    var end := RangeOf(k.nb, t).end;
    match s.tasks[t]
    case Ready(n) => if n <= end then 3 * (end - n) + 1 else 0
    case Sent(n) => if n < end then 3 * (end - n) - (if s.wires[t].Part? then 0 else 1) else 0
    case _ => 0
  }

  function Left(k: Config, s: State, m: nat): nat
    requires m <= |k.nb| == |s.tasks| == |s.wires|
  {
    if m == 0 then 0 else Left(k, s, m - 1) + TaskLeft(k, s, m - 1)
  }

  lemma TaskLeftShrinks(k: Config, s: State, a: Action, t: nat)
    requires Inv(k, s) && Enabled(k, s, a) && Steady(a) && t < |k.nb|
    ensures var s2 := Step(k, s, a);
            if t == a.t then TaskLeft(k, s2, t) < TaskLeft(k, s, t) else TaskLeft(k, s2, t) == TaskLeft(k, s, t)
  {
    assert TaskOk(k, s, a.t);
  }

  lemma {:induction false} LeftShrinks(k: Config, s: State, a: Action, m: nat)
    requires Inv(k, s) && Enabled(k, s, a) && Steady(a) && m <= |k.nb|
    ensures var s2 := Step(k, s, a);
            if a.t < m then Left(k, s2, m) < Left(k, s, m) else Left(k, s2, m) == Left(k, s, m)
  {
    if m == 0 {
    } else {
      LeftShrinks(k, s, a, m - 1);
      TaskLeftShrinks(k, s, a, m - 1);
    }
  }

  lemma {:induction false} LeftAtFirst(k: Config, s: State, m: nat)
    requires Init(k, s) && m <= |k.nb|
    ensures Left(k, s, m) == 3 * Sum(k.nb[..m]) + m
  {
    if m == 0 {
    } else {
      LeftAtFirst(k, s, m - 1);
      SumStep(k.nb, m - 1);
    }
  }

  // A task that is not over can go on, or its storage can.
  lemma NextOf(k: Config, s: State, t: nat) returns (a: Action)
    requires Inv(k, s) && t < |k.nb| && !s.tasks[t].Returned? && !s.tasks[t].Thrown?
    ensures Steady(a) && Enabled(k, s, a)
  {
    assert TaskOk(k, s, t);
    a := if s.tasks[t].Ready? then Go(t) else if s.wires[t].Part? then Store(t) else Receive(t);
  }

  lemma Longer(k: Config, run: seq<State>, acts: seq<Action>, a: Action)
    requires Does(k, run, acts) && Enabled(k, run[|acts|], a)
    ensures Does(k, run + [Step(k, run[|acts|], a)], acts + [a])
  {
    var run2, acts2 := run + [Step(k, run[|acts|], a)], acts + [a];
    forall i | 0 <= i < |acts2| ensures Took(k, run2, acts2, i) {
      if i < |acts| { assert Took(k, run, acts, i); }
    }
  }

  // Whatever has happened so far, without further damage or failure all tasks come to their ends.
  lemma {:induction false} CanFinish(k: Config, run: seq<State>, acts: seq<Action>)
    returns (run2: seq<State>, acts2: seq<Action>)
    requires Does(k, run, acts) && k.Sendable()
    ensures Does(k, run2, acts2) && run <= run2 && acts <= acts2 && AllOver(run2[|acts2|])
    ensures forall i :: |acts| <= i < |acts2| ==> Steady(acts2[i])
    decreases var s := run[|acts|]; if |s.tasks| == |s.wires| == |k.nb| then Left(k, s, |k.nb|) else 0
  {
    var s := run[|acts|];
    DoesIsRun(k, run, acts);
    RunKeeps(k, run, |acts|);
    if AllOver(s) {
      run2, acts2 := run, acts;
    } else {
      var t :| 0 <= t < |s.tasks| && !s.tasks[t].Returned? && !s.tasks[t].Thrown?;
      var a := NextOf(k, s, t);
      Longer(k, run, acts, a);
      LeftShrinks(k, s, a, |k.nb|);
      run2, acts2 := CanFinish(k, run + [Step(k, s, a)], acts + [a]);
    }
  }

  // And they cannot go on for ever: a run without damage or failure has three steps a part and one a
  // task, at most.
  lemma {:induction false} SteadyRunsEnd(k: Config, run: seq<State>, acts: seq<Action>, i: nat)
    requires Does(k, run, acts) && k.Sendable() && i < |run| && forall j :: 0 <= j < i ==> Steady(acts[j])
    ensures |k.nb| == |run[i].tasks| == |run[i].wires| && i + Left(k, run[i], |k.nb|) <= 3 * k.Total() + |k.nb|
  {
    if i == 0 {
      LeftAtFirst(k, run[0], |k.nb|);
      assert k.nb[..|k.nb|] == k.nb;
    } else {
      SteadyRunsEnd(k, run, acts, i - 1);
      LeftAfter(k, run, acts, i - 1);
    }
  }

  lemma LeftAfter(k: Config, run: seq<State>, acts: seq<Action>, i: nat)
    requires Does(k, run, acts) && k.Sendable() && i < |acts| && Steady(acts[i])
    ensures |k.nb| == |run[i].tasks| == |run[i].wires| == |run[i + 1].tasks| == |run[i + 1].wires|
    ensures Left(k, run[i + 1], |k.nb|) < Left(k, run[i], |k.nb|)
  {
    StepIs(k, run, acts, i);
    LeftShrinks(k, run[i], acts[i], |k.nb|);
  }

  lemma {:induction false} SteadyIsUnbroken(k: Config, run: seq<State>, acts: seq<Action>, i: nat)
    requires Does(k, run, acts) && k.Sendable() && i < |run| && forall j :: 0 <= j < i ==> Steady(acts[j])
    ensures Unbroken(run[i])
  {
    if i == 0 {
    } else {
      SteadyIsUnbroken(k, run, acts, i - 1);
      StepIs(k, run, acts, i - 1);
      SteadyBreaksNothing(k, run[i - 1], acts[i - 1]);
    }
  }

  lemma SteadyBreaksNothing(k: Config, s: State, a: Action)
    requires Enabled(k, s, a) && Steady(a) && Unbroken(s)
    ensures Unbroken(Step(k, s, a))
  {
  }

  ghost predicate AllReturned(s: State) { forall t :: 0 <= t < |s.tasks| ==> s.tasks[t].Returned? }

  // When no part is damaged and no socket breaks, no task fails, and once none can go on every part
  // is stored and progress says so.
  lemma SteadyUploadIsStored(k: Config, run: seq<State>, acts: seq<Action>, i: nat)
    requires Does(k, run, acts) && k.Sendable() && i < |run| && forall j :: 0 <= j < i ==> Steady(acts[j])
    ensures forall t :: 0 <= t < |run[i].tasks| ==> !run[i].tasks[t].Thrown?
    ensures (forall a :: Steady(a) ==> !Enabled(k, run[i], a)) ==> AllReturned(run[i])
    ensures AllReturned(run[i]) ==>
              run[i].progress == k.Total() + 1 && forall n :: 0 <= n < k.Total() ==> Stored(k, run[i], n)
  {
    var s := run[i];
    DoesIsRun(k, run, acts);
    RunKeeps(k, run, i);
    SteadyIsUnbroken(k, run, acts, i);
    forall t | 0 <= t < |s.tasks| ensures !s.tasks[t].Thrown? { SoundSoFar(k, run, acts, i, t); }
    if !AllReturned(s) {
      var t :| 0 <= t < |s.tasks| && !s.tasks[t].Returned?;
      var a := NextOf(k, s, t);
    } else {
      AllCounted(k, s);
      forall n | 0 <= n < k.Total() ensures Stored(k, s, n) { AllPartsStored(k, run, i, n); }
    }
  }

  // So there is an upload that stores every part.
  lemma UploadSucceeds(k: Config, s0: State) returns (run: seq<State>, acts: seq<Action>)
    requires Init(k, s0) && k.Sendable()
    ensures Does(k, run, acts) && run[0] == s0 && (forall i :: 0 <= i < |acts| ==> Steady(acts[i]))
    ensures var s := run[|acts|];
            AllReturned(s) && s.progress == k.Total() + 1 && forall n :: 0 <= n < k.Total() ==> Stored(k, s, n)
  {
    run, acts := CanFinish(k, [s0], []);
    SteadyUploadIsStored(k, run, acts, |acts|);
  }
}
