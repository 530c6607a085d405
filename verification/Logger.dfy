// The logger's active object (src/libtools/utils/logger.cc:8-34) over the queue's try_dequeue
// (src/libtools/utils/concurentqueue.hh:923-954).  Each thread's messages go to its own sub-queue,
// which is a FIFO queue; the runner takes a message from any sub-queue, or none.  An enqueue fails
// when an allocation does, and Active::Send does not look at its result.
module Logger {

  // Stop is the message the destructor sends; it sets done_.
  datatype Message = Print(x: int) | Stop

  datatype Runner = Test | Pull | Execute(t: nat, m: Message) | Exited

  // `told` says whether the enqueue of Stop succeeded.
  datatype Destructor = NotYet | Joining(t: nat, told: bool)

  // `tried[t]` is everything thread t has passed to Send and `sent[t]` what was enqueued of it, of
  // which the runner has taken the first `taken[t]`; `failed` are the threads an enqueue has failed
  // for; `ran` is what has been executed, in order, with its sender.
  datatype State = State(
    tried: seq<seq<Message>>, sent: seq<seq<Message>>, failed: set<nat>, taken: seq<nat>,
    done: bool, runner: Runner, destructor: Destructor, ran: seq<(nat, Message)>)

  // `ok` is the result of the enqueue.
  datatype Action =
    | Send(t: nat, x: int, ok: bool)     // Active::Send, from any thread
    | Destroy(t: nat, ok: bool)          // ~Active sends Stop and joins
    | Go                                 // the loop test of Run, or the call of the message
    | Dequeue(t: nat)                    // try_dequeue succeeds on thread t's sub-queue
    | Sleep                              // try_dequeue returns false

  predicate Enabled(s: State, a: Action) {
    && |s.taken| == |s.sent| == |s.tried|
    && match a
       // a thread inside the destructor sends nothing more
       case Send(t, x, ok) => t < |s.sent| && !(s.destructor.Joining? && s.destructor.t == t)
       case Destroy(t, ok) => t < |s.sent| && s.destructor.NotYet?
       case Go => s.runner.Test? || (s.runner.Execute? && s.runner.t < |s.sent|)
       case Dequeue(t) => s.runner.Pull? && t < |s.sent| && s.taken[t] < |s.sent[t]|
       // try_dequeue may miss a message that arrives while it looks
       case Sleep => s.runner.Pull?
  }

  function Enqueue(s: State, t: nat, m: Message, ok: bool): State
    requires t < |s.sent| == |s.tried|
  {
    var tried := s.tried[t := s.tried[t] + [m]];
    if ok then s.(tried := tried, sent := s.sent[t := s.sent[t] + [m]])
        else s.(tried := tried, failed := s.failed + {t})
  }

  function Step(s: State, a: Action): State
    requires Enabled(s, a)
  {
    match a
    case Send(t, x, ok) => Enqueue(s, t, Print(x), ok)
    case Destroy(t, ok) => Enqueue(s, t, Stop, ok).(destructor := Joining(t, ok))
    case Go =>
      (match s.runner
       case Execute(t, m) => s.(runner := Test, ran := s.ran + [(t, m)], done := s.done || m.Stop?)
       case _ => s.(runner := if s.done then Exited else Pull))
    case Dequeue(t) => s.(runner := Execute(t, s.sent[t][s.taken[t]]), taken := s.taken[t := s.taken[t] + 1])
    case Sleep => s.(runner := Test)
  }

  ghost predicate Init(s: State) {
    && |s.taken| == |s.sent| == |s.tried| && s.failed == {}
    && (forall t :: 0 <= t < |s.sent| ==> s.tried[t] == [] && s.sent[t] == [] && s.taken[t] == 0)
    && !s.done && s.runner == Test && s.destructor == NotYet && s.ran == []
  }

  ghost predicate Stepped(s: State, s': State) {
    exists a :: Enabled(s, a) && s' == Step(s, a)
  }

  ghost predicate IsRun(run: seq<State>) {
    && |run| > 0 && Init(run[0])
    && forall i :: 0 <= i < |run| - 1 ==> Stepped(run[i], run[i + 1])
  }

  // What has been executed of thread t's messages.
  function Of(ran: seq<(nat, Message)>, t: nat): seq<Message> {
    if ran == [] then []
    else Of(ran[..|ran| - 1], t) + (if ran[|ran| - 1].0 == t then [ran[|ran| - 1].1] else [])
  }

  lemma OfAppend(ran: seq<(nat, Message)>, e: (nat, Message), t: nat)
    ensures Of(ran + [e], t) == Of(ran, t) + (if e.0 == t then [e.1] else [])
  {
    assert (ran + [e])[..|ran|] == ran;
  }

  // The message of t that is about to be executed.
  function InHand(r: Runner, t: nat): seq<Message> {
    if r.Execute? && r.t == t then [r.m] else []
  }

  // Of what t has enqueued, the messages taken are those executed and the one about to be.
  predicate TakenOk(sent: seq<Message>, taken: nat, ran: seq<(nat, Message)>, r: Runner, t: nat) {
    taken <= |sent| && Of(ran, t) + InHand(r, t) == sent[..taken]
  }

  // Only the destroying thread enqueues Stop, once and last.
  predicate StopOk(sent: seq<Message>, d: Destructor, t: nat) {
    && (forall i :: 0 <= i < |sent| && sent[i].Stop? ==> d == Joining(t, true) && i == |sent| - 1)
    && (d == Joining(t, true) ==> |sent| > 0 && sent[|sent| - 1].Stop?)
  }

  predicate ThreadOk(s: State, t: nat)
    requires t < |s.sent| == |s.taken| == |s.tried|
  {
    && TakenOk(s.sent[t], s.taken[t], s.ran, s.runner, t)
    && StopOk(s.sent[t], s.destructor, t)
    && (t !in s.failed ==> s.sent[t] == s.tried[t])
    && (Stop in Of(s.ran, t) ==> s.done)
  }

  ghost predicate Inv(s: State) {
    && |s.taken| == |s.sent| == |s.tried|
    && (forall t {:trigger ThreadOk(s, t)} :: 0 <= t < |s.sent| ==> ThreadOk(s, t))
    && (s.runner.Execute? ==>
          s.runner.t < |s.sent|
          && (s.runner.m.Stop? ==>
                s.destructor == Joining(s.runner.t, true) && s.taken[s.runner.t] == |s.sent[s.runner.t]|))
    && (s.destructor.Joining? ==> s.destructor.t < |s.sent|)
    && (s.done ==> s.destructor.Joining? && s.destructor.told && !s.runner.Execute?)
    && (s.done ==> s.taken[s.destructor.t] == |s.sent[s.destructor.t]|)
    && (s.runner.Exited? ==> s.done)
    && (s.done ==> |s.ran| > 0 && s.ran[|s.ran| - 1] == (s.destructor.t, Stop))
    && (s.done ==> !s.runner.Pull?)
  }

  lemma EnqueueTaken(sent: seq<Message>, m: Message, taken: nat, ran: seq<(nat, Message)>, r: Runner, t: nat)
    requires TakenOk(sent, taken, ran, r, t)
    ensures TakenOk(sent + [m], taken, ran, r, t)
  {
    assert (sent + [m])[..taken] == sent[..taken];
  }

  lemma DequeueTaken(sent: seq<Message>, taken: nat, ran: seq<(nat, Message)>, r: Runner, t: nat, u: nat, m: Message)
    requires TakenOk(sent, taken, ran, r, t) && !r.Execute? && (u == t ==> taken < |sent| && sent[taken] == m)
    ensures TakenOk(sent, if u == t then taken + 1 else taken, ran, Execute(u, m), t)
  {
    if u == t { assert sent[..taken + 1] == sent[..taken] + [sent[taken]]; }
  }

  lemma ExecuteTaken(sent: seq<Message>, taken: nat, ran: seq<(nat, Message)>, r: Runner, t: nat)
    requires TakenOk(sent, taken, ran, r, t) && r.Execute?
    ensures TakenOk(sent, taken, ran + [(r.t, r.m)], Test, t)
  {
    OfAppend(ran, (r.t, r.m), t);
  }

  lemma ExecuteKept(s: State, t: nat)
    requires Enabled(s, Go) && s.runner.Execute? && t < |s.sent| && ThreadOk(s, t)
    ensures ThreadOk(Step(s, Go), t)
  {
    ExecuteTaken(s.sent[t], s.taken[t], s.ran, s.runner, t);
    OfAppend(s.ran, (s.runner.t, s.runner.m), t);
  }

  lemma ThreadKept(s: State, a: Action, t: nat)
    requires Enabled(s, a) && t < |s.sent| && ThreadOk(s, t) && (s.destructor.Joining? ==> !a.Destroy?)
    requires (a.Send? || a.Destroy?) && a.t < |s.sent| ==> StopOk(s.sent[a.t], s.destructor, a.t)
    ensures ThreadOk(Step(s, a), t)
  {
    match a
    case Send(u, x, ok) => if u == t && ok { EnqueueTaken(s.sent[t], Print(x), s.taken[t], s.ran, s.runner, t); }
    case Destroy(u, ok) => if u == t && ok { EnqueueTaken(s.sent[t], Stop, s.taken[t], s.ran, s.runner, t); }
    case Go => if s.runner.Execute? { ExecuteKept(s, t); }
    case Dequeue(u) => DequeueTaken(s.sent[t], s.taken[t], s.ran, s.runner, t, u, s.sent[u][s.taken[u]]);
    case Sleep =>
  }

  lemma StepKeeps(s: State, a: Action)
    requires Inv(s) && Enabled(s, a)
    ensures Inv(Step(s, a))
  {
    var s2 := Step(s, a);
    if a.Send? || a.Destroy? || a.Dequeue? { assert ThreadOk(s, a.t); }
    forall t | 0 <= t < |s2.sent| ensures ThreadOk(s2, t) {
      assert ThreadOk(s, t);
      ThreadKept(s, a, t);
    }
  }

  lemma {:induction false} RunKeeps(run: seq<State>, i: nat)
    requires IsRun(run) && i < |run|
    ensures Inv(run[i])
  {
    if i == 0 {
    } else {
      RunKeeps(run, i - 1);
      assert Stepped(run[i - 1], run[i - 1 + 1]);
      var a :| Enabled(run[i - 1], a) && run[i] == Step(run[i - 1], a);
      StepKeeps(run[i - 1], a);
    }
  }

  // ---- What was passed to Send ----

  // A run with the actions taken, acts[i] from run[i].
  ghost predicate Does(run: seq<State>, acts: seq<Action>) {
    && |run| == |acts| + 1 && Init(run[0])
    && forall i :: 0 <= i < |acts| ==> Took(run, acts, i)
  }

  predicate Took(run: seq<State>, acts: seq<Action>, i: nat) {
    i < |acts| && i + 1 < |run| && ByAction(run[i], acts[i], run[i + 1])
  }

  predicate ByAction(s: State, a: Action, s2: State) { Enabled(s, a) && s2 == Step(s, a) }

  lemma DoesIsRun(run: seq<State>, acts: seq<Action>)
    requires Does(run, acts)
    ensures IsRun(run)
  {
    forall i | 0 <= i < |run| - 1 ensures Stepped(run[i], run[i + 1]) { assert Took(run, acts, i); }
  }

  lemma OneMore(run: seq<State>, acts: seq<Action>, a: Action, s: State)
    requires Does(run, acts) && ByAction(run[|run| - 1], a, s)
    ensures Does(run + [s], acts + [a])
  {
    forall i | 0 <= i < |acts + [a]| ensures Took(run + [s], acts + [a], i) {
      if i < |acts| { assert Took(run, acts, i); }
    }
  }

  // Every run is one.
  lemma {:induction false} ActionsOf(run: seq<State>) returns (acts: seq<Action>)
    requires IsRun(run)
    ensures Does(run, acts)
    decreases |run|
  {
    if |run| == 1 {
      acts := [];
    } else {
      var last := |run| - 2;
      assert Stepped(run[last], run[last + 1]);
      var a :| ByAction(run[last], a, run[last + 1]);
      var most := run[..|run| - 1];
      forall i | 0 <= i < |most| - 1 ensures Stepped(most[i], most[i + 1]) { assert Stepped(run[i], run[i + 1]); }
      acts := ActionsOf(most);
      assert run == most + [run[last + 1]];
      OneMore(most, acts, a, run[last + 1]);
      acts := acts + [a];
    }
  }

  // What thread t passes to Send, and what of it is enqueued, by one action.
  function Passes(a: Action, t: nat): seq<Message> {
    match a
    case Send(u, x, ok) => if u == t then [Print(x)] else []
    case Destroy(u, ok) => if u == t then [Stop] else []
    case _ => []
  }

  predicate Succeeds(a: Action) { a.Send? || a.Destroy? ==> a.ok }

  function TriedBy(acts: seq<Action>, t: nat, i: nat): seq<Message>
    requires i <= |acts|
  {
    if i == 0 then [] else TriedBy(acts, t, i - 1) + Passes(acts[i - 1], t)
  }

  function SentBy(acts: seq<Action>, t: nat, i: nat): seq<Message>
    requires i <= |acts|
  {
    if i == 0 then [] else SentBy(acts, t, i - 1) + (if Succeeds(acts[i - 1]) then Passes(acts[i - 1], t) else [])
  }

  // Every enqueue of thread t's messages has succeeded.
  predicate NoneFailed(acts: seq<Action>, t: nat, i: nat)
    requires i <= |acts|
  {
    forall j :: 0 <= j < i && Passes(acts[j], t) != [] ==> Succeeds(acts[j])
  }

  lemma {:induction false} AllSent(acts: seq<Action>, t: nat, i: nat)
    requires i <= |acts| && NoneFailed(acts, t, i)
    ensures SentBy(acts, t, i) == TriedBy(acts, t, i)
  {
    if i == 0 {
    } else {
      AllSent(acts, t, i - 1);
      if Passes(acts[i - 1], t) == [] { assert SentBy(acts, t, i - 1) + [] == SentBy(acts, t, i - 1); }
    }
  }

  lemma SendStep(s: State, a: Action, t: nat)
    requires Enabled(s, a) && t < |s.sent|
    ensures var s2 := Step(s, a);
            && |s2.sent| == |s2.tried| == |s.sent| && s2.tried[t] == s.tried[t] + Passes(a, t)
            && s2.sent[t] == s.sent[t] + (if Succeeds(a) then Passes(a, t) else [])
  {
  }

  // The sub-queue of t holds what t passed to Send, unaltered and in order, less what failed.
  lemma {:induction false} SentIsWhatWasPassed(run: seq<State>, acts: seq<Action>, i: nat, t: nat)
    requires Does(run, acts) && i < |run| && t < |run[0].sent|
    ensures |run[i].sent| == |run[i].tried| == |run[0].sent|
    ensures run[i].tried[t] == TriedBy(acts, t, i) && run[i].sent[t] == SentBy(acts, t, i)
  {
    if i == 0 {
    } else {
      SentIsWhatWasPassed(run, acts, i - 1, t);
      assert Took(run, acts, i - 1);
      SendStep(run[i - 1], acts[i - 1], t);
    }
  }

  // ---- What holds in every run ----

  // Each thread's executed messages are a prefix of those it passed to Send whose enqueue succeeded,
  // in the order it sent them; of all it sent, if none failed.
  lemma ExecutedInOrder(run: seq<State>, acts: seq<Action>, i: nat, t: nat)
    requires Does(run, acts) && i < |run| && t < |run[0].sent|
    ensures Of(run[i].ran, t) <= SentBy(acts, t, i)
    ensures NoneFailed(acts, t, i) ==> Of(run[i].ran, t) <= TriedBy(acts, t, i)
  {
    DoesIsRun(run, acts);
    RunKeeps(run, i);
    SentIsWhatWasPassed(run, acts, i, t);
    var s := run[i];
    assert ThreadOk(s, t);
    assert Of(s.ran, t) <= Of(s.ran, t) + InHand(s.runner, t);
    if NoneFailed(acts, t, i) { AllSent(acts, t, i); }
  }

  lemma DestroyerIsServed(run: seq<State>, i: nat)
    requires IsRun(run) && i < |run| && run[i].runner.Exited?
    ensures var s := run[i];
            && s.destructor.Joining? && s.destructor.t < |s.sent|
            && Of(s.ran, s.destructor.t) == s.sent[s.destructor.t]
            && |s.ran| > 0 && s.ran[|s.ran| - 1] == (s.destructor.t, Stop)
  {
    RunKeeps(run, i);
    var s := run[i];
    assert ThreadOk(s, s.destructor.t);
    assert s.sent[s.destructor.t][..|s.sent[s.destructor.t]|] == s.sent[s.destructor.t];
  }

  // When Run has returned, everything the destroying thread passed to Send and enqueued has been
  // executed, so all of it if no enqueue of its failed, and nothing after the destructor's own message.
  lemma NothingOfTheDestroyerIsLost(run: seq<State>, acts: seq<Action>, i: nat)
    requires Does(run, acts) && i < |run| && run[i].runner.Exited?
    ensures var s := run[i];
            && s.destructor.Joining? && s.destructor.t < |run[0].sent|
            && Of(s.ran, s.destructor.t) == SentBy(acts, s.destructor.t, i)
            && (NoneFailed(acts, s.destructor.t, i) ==> Of(s.ran, s.destructor.t) == TriedBy(acts, s.destructor.t, i))
            && |s.ran| > 0 && s.ran[|s.ran| - 1] == (s.destructor.t, Stop)
  {
    DoesIsRun(run, acts);
    DestroyerIsServed(run, i);
    var t := run[i].destructor.t;
    SameThreads(run, i);
    SentIsWhatWasPassed(run, acts, i, t);
    if NoneFailed(acts, t, i) { AllSent(acts, t, i); }
  }

  lemma {:induction false} SameThreads(run: seq<State>, i: nat)
    requires IsRun(run) && i < |run|
    ensures |run[i].sent| == |run[0].sent|
  {
    if i == 0 {
    } else {
      SameThreads(run, i - 1);
      assert Stepped(run[i - 1], run[i - 1 + 1]);
    }
  }

  // Once done_ is set the runner can only leave.
  lemma DoneMeansLeaving(run: seq<State>, i: nat)
    requires IsRun(run) && i < |run| && run[i].done
    ensures run[i].runner.Test? || run[i].runner.Exited?
  {
    RunKeeps(run, i);
  }

  // If the destructor's own message is lost, Run never returns and the destructor joins for ever.
  lemma {:induction false} LostStopNeverEnds(run: seq<State>, i: nat, j: nat)
    requires IsRun(run) && i <= j < |run| && run[i].destructor.Joining? && !run[i].destructor.told
    ensures run[j].destructor == run[i].destructor && !run[j].done && !run[j].runner.Exited?
  {
    RunKeeps(run, j);
    if i == j {
    } else {
      LostStopNeverEnds(run, i, j - 1);
      assert Stepped(run[j - 1], run[j - 1 + 1]);
    }
  }

  // ---- Whose messages are certain to run ----

  // Every message of thread u that was enqueued has been executed when Run has returned, in every run
  // in which thread d destroys the object.
  ghost predicate NeverLoses(s0: State, d: nat, u: nat) {
    forall run: seq<State> :: IsRun(run) && run[0] == s0 ==> KeptAtExit(run[|run| - 1], d, u)
  }

  predicate KeptAtExit(s: State, d: nat, u: nat) {
    s.runner.Exited? && s.destructor == Joining(d, true) && u < |s.sent| ==> Of(s.ran, u) == s.sent[u]
  }

  // That is so for the destroying thread, and for no other.
  lemma OnlyTheDestroyerIsSafe(s0: State, d: nat, u: nat)
    requires Init(s0) && d < |s0.sent| && u < |s0.sent|
    ensures NeverLoses(s0, d, u) <==> u == d
  {
    if u == d {
      forall run: seq<State> | IsRun(run) && run[0] == s0 ensures KeptAtExit(run[|run| - 1], d, u) {
        if run[|run| - 1].runner.Exited? { DestroyerIsServed(run, |run| - 1); }
      }
    } else {
      var run := OthersMayLoseMessages(s0, d, u, 7);
      assert !KeptAtExit(run[|run| - 1], d, u);
    }
  }

  lemma Extended(run: seq<State>, a: Action) returns (run2: seq<State>)
    requires IsRun(run) && Enabled(run[|run| - 1], a)
    ensures IsRun(run2) && run2[0] == run[0] && run2[|run2| - 1] == Step(run[|run| - 1], a)
  {
    run2 := run + [Step(run[|run| - 1], a)];
    assert Stepped(run2[|run| - 1], run2[|run|]);
    forall i | 0 <= i < |run2| - 1 ensures Stepped(run2[i], run2[i + 1]) {
      if i < |run| - 1 { assert Stepped(run[i], run[i + 1]); }
    }
  }

  // Once the destructor's message is enqueued, the runner can come to its end, so that the destructor
  // returns, whatever has happened so far.
  lemma {:induction false} CanExit(run: seq<State>) returns (run2: seq<State>)
    requires IsRun(run) && var s := run[|run| - 1]; s.destructor.Joining? && s.destructor.told
    ensures IsRun(run2) && run2[0] == run[0] && run2[|run2| - 1].runner.Exited?
    decreases ToRun(run[|run| - 1])
  {
    var s := run[|run| - 1];
    RunKeeps(run, |run| - 1);
    assert ThreadOk(s, s.destructor.t);
    if s.runner.Exited? {
      run2 := run;
    } else {
      var a := if s.runner.Pull? then Dequeue(s.destructor.t) else Go;
      NextShrinks(s, a);
      run2 := Extended(run, a);
      run2 := CanExit(run2);
    }
  }

  function ToRun(s: State): nat {
    if s.destructor.NotYet? || s.destructor.t >= |s.sent| || s.destructor.t >= |s.taken| then 0
    else
      var sent, taken := |s.sent[s.destructor.t]|, s.taken[s.destructor.t];
      3 * (if taken < sent then sent - taken else 0)
      + (match s.runner case Exited => 0 case Pull => 1 case Test => 2 case Execute(_, _) => 3)
  }

  // The runner takes and executes what the destroying thread has enqueued, up to Stop.
  lemma NextShrinks(s: State, a: Action)
    requires Inv(s) && s.destructor.Joining? && s.destructor.told && !s.runner.Exited?
    requires a == if s.runner.Pull? then Dequeue(s.destructor.t) else Go
    ensures Enabled(s, a) && ToRun(Step(s, a)) < ToRun(s) && Step(s, a).destructor == s.destructor
  {
    var t := s.destructor.t;
    assert ThreadOk(s, t);
    assert s.sent[t][..|s.sent[t]|] == s.sent[t];
  }

  // Until Stop is taken, the runner can come to execute whatever any thread has enqueued.
  lemma {:induction false} CanExecute(run: seq<State>, u: nat) returns (run2: seq<State>)
    requires IsRun(run) && StillRuns(run[|run| - 1]) && u < |run[|run| - 1].sent|
    ensures IsRun(run2) && run2[0] == run[0] && |run2[|run2| - 1].sent| == |run[|run| - 1].sent|
    ensures run2[|run2| - 1].sent == run[|run| - 1].sent && Of(run2[|run2| - 1].ran, u) == run[|run| - 1].sent[u]
    decreases Waiting(run[|run| - 1], u)
  {
    var s := run[|run| - 1];
    RunKeeps(run, |run| - 1);
    assert ThreadOk(s, u);
    assert s.sent[u][..|s.sent[u]|] == s.sent[u];
    if s.taken[u] == |s.sent[u]| && !s.runner.Execute? {
      run2 := run;
    } else {
      var a := if s.runner.Pull? then Dequeue(u) else Go;
      run2 := Extended(run, a);
      if a.Dequeue? && s.sent[u][s.taken[u]].Stop? {
        run2 := Extended(run2, Go);
        RunKeeps(run2, |run2| - 1);
        assert ThreadOk(run2[|run2| - 1], u);
      } else {
        run2 := CanExecute(run2, u);
      }
    }
  }

  predicate StillRuns(s: State) {
    |s.taken| == |s.sent| == |s.tried| && !s.done && !s.runner.Exited? && (s.runner.Execute? ==> !s.runner.m.Stop?)
  }

  function Waiting(s: State, u: nat): nat
    requires u < |s.sent|
  {
    (if u < |s.taken| && s.taken[u] < |s.sent[u]| then 3 * (|s.sent[u]| - s.taken[u]) else 0)
    + (match s.runner case Exited => 0 case Pull => 1 case Test => 2 case Execute(_, _) => 3)
  }

  // Thread u's message and then thread d's Stop are enqueued; nothing has run yet.
  lemma BothSend(s0: State, d: nat, u: nat, x: int) returns (run: seq<State>)
    requires Init(s0) && d < |s0.sent| && u < |s0.sent| && u != d
    ensures IsRun(run) && run[0] == s0
    ensures var s := run[|run| - 1];
            && |s.sent| == |s0.sent| == |s.taken| == |s.tried| && s.sent[u] == s.tried[u] == [Print(x)]
            && s.sent[d] == [Stop]
            && s.taken[d] == 0 && s.failed == {} && s.destructor == Joining(d, true) && s.runner == Test && !s.done
            && s.ran == []
  {
    run := [s0];
    run := Extended(run, Send(u, x, true));
    run := Extended(run, Destroy(d, true));
  }

  // Stop is taken first, and ends the loop.
  lemma StopFirst(run: seq<State>, d: nat) returns (run2: seq<State>)
    requires IsRun(run)
    requires var s := run[|run| - 1];
             && d < |s.sent| == |s.taken| == |s.tried| && s.sent[d] == [Stop] && s.taken[d] == 0
             && s.runner == Test && !s.done && s.ran == []
    ensures IsRun(run2) && run2[0] == run[0]
    ensures var s, s2 := run[|run| - 1], run2[|run2| - 1];
            s2 == s.(runner := Exited, done := true, taken := s.taken[d := 1], ran := [(d, Stop)])
  {
    run2 := Extended(run, Go);
    run2 := Extended(run2, Dequeue(d));
    run2 := Extended(run2, Go);
    run2 := Extended(run2, Go);
  }

  // Any message of any other thread may never be executed, although it was enqueued first.
  lemma OthersMayLoseMessages(s0: State, d: nat, u: nat, x: int) returns (run: seq<State>)
    requires Init(s0) && d < |s0.sent| && u < |s0.sent| && u != d
    ensures IsRun(run) && run[0] == s0
    ensures var s := run[|run| - 1];
            && |s.sent| == |s0.sent| == |s.tried| && s.runner.Exited? && s.destructor == Joining(d, true)
            && s.failed == {}
            && s.sent[u] == s.tried[u] == [Print(x)] && Of(s.ran, u) == []
  {
    run := BothSend(s0, d, u, x);
    run := StopFirst(run, d);
    OfAppend([], (d, Stop), u);
    assert [] + [(d, Stop)] == [(d, Stop)];
  }
}
