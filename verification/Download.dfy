// The download: each task asks one storage for one part and copies it into the mapped file at
// partnum * (fsize / parts), while the other tasks do the same
// (src/client/client.cc:255-279, 298-345).  Copying one byte is one step.
module Download {
  import B = Binary32
  import opened Parts
  import opened Upload

  datatype Task = Asked | Copying(j: nat) | Done

  // `written` is history: the bytes of the file that have been copied.
  datatype State = State(buffer: Bytes, tasks: seq<Task>, written: set<nat>, progress: nat)

  datatype Action = Arrive(t: nat) | Copy(t: nat)

  // Task t fetches part nums[t]; the master gave one location for each part.
  ghost predicate OneLocationPerPart(k: Config, nums: seq<nat>) {
    && |nums| == k.Total() > 0
    && (forall t :: 0 <= t < |nums| ==> nums[t] < k.Total())
    && (forall n :: 0 <= n < k.Total() ==> n in nums)
  }

  // The master names parts of the file.
  predicate AsksForParts(k: Config, nums: seq<nat>) { forall t :: 0 <= t < |nums| ==> nums[t] < k.Total() }

  // Every part asked for lies in the file.
  ghost predicate Fetchable(k: Config, nums: seq<nat>) { forall t :: 0 <= t < |nums| ==> k.FitsPart(nums[t]) }

  predicate Enabled(k: Config, nums: seq<nat>, s: State, a: Action) {
    && |s.tasks| == |nums| && k.Total() > 0
    && match a
       case Arrive(t) => t < |nums| && s.tasks[t].Asked?
       case Copy(t) => t < |nums| && s.tasks[t].Copying?
  }

  function Target(k: Config, n: nat, j: nat): nat
    requires k.Total() > 0
  {
    Offset(|k.file|, n, k.Total()) + j
  }

  // memcpy stays inside the mapped file, for all the bytes that the storage has for the part.
  predicate Safe(k: Config, nums: seq<nat>, s: State, a: Action)
    requires Enabled(k, nums, s, a)
  {
    match a
    case Arrive(t) => true
    case Copy(t) => s.tasks[t].j < |k.Chunk(nums[t])| ==> Target(k, nums[t], s.tasks[t].j) < |s.buffer|
  }

  function Step(k: Config, nums: seq<nat>, s: State, a: Action): State
    requires Enabled(k, nums, s, a) && Safe(k, nums, s, a)
  {
    match a
    case Arrive(t) => s.(tasks := s.tasks[t := Copying(0)])
    case Copy(t) =>
      var j, n := s.tasks[t].j, nums[t];
      if j < |k.Chunk(n)| then
        s.(tasks := s.tasks[t := Copying(j + 1)],
           buffer := s.buffer[Target(k, n, j) := k.Chunk(n)[j]], written := s.written + {Target(k, n, j)})
      else s.(tasks := s.tasks[t := Done], progress := s.progress + 1)
  }

  ghost predicate Init(k: Config, nums: seq<nat>, s: State) {
    && AsksForParts(k, nums)
    && |s.buffer| == |k.file| && (forall p :: 0 <= p < |s.buffer| ==> s.buffer[p] == 0)
    && |s.tasks| == |nums| && (forall t :: 0 <= t < |nums| ==> s.tasks[t].Asked?)
    && s.written == {} && s.progress == 1
  }

  ghost predicate Stepped(k: Config, nums: seq<nat>, s: State, s': State) {
    exists a :: Enabled(k, nums, s, a) && (Safe(k, nums, s, a) ==> s' == Step(k, nums, s, a))
  }

  ghost predicate IsRun(k: Config, nums: seq<nat>, run: seq<State>) {
    && |run| > 0 && Init(k, nums, run[0])
    && forall i :: 0 <= i < |run| - 1 ==> Stepped(k, nums, run[i], run[i + 1])
  }

  // ---- The invariant ----

  predicate TaskOk(k: Config, n: nat, task: Task, written: set<nat>)
    requires k.Total() > 0
  {
    match task
    case Asked => true
    case Copying(j) => j <= |k.Chunk(n)| && forall i :: 0 <= i < j ==> Target(k, n, i) in written
    case Done => forall i :: 0 <= i < |k.Chunk(n)| ==> Target(k, n, i) in written
  }

  // Whatever the interleaving, a byte of the buffer is the file's if it has been written, else 0.
  ghost predicate Inv(k: Config, nums: seq<nat>, s: State) {
    && AsksForParts(k, nums) && |s.buffer| == |k.file| && |s.tasks| == |nums| && k.Total() > 0
    && (forall p :: 0 <= p < |s.buffer| ==> s.buffer[p] == if p in s.written then k.file[p] else 0)
    && (forall p :: p in s.written ==> p < |k.file| && Covered(|k.file|, k.Total(), k.c, p))
    && (forall t :: 0 <= t < |nums| ==> TaskOk(k, nums[t], s.tasks[t], s.written))
  }

  lemma ChunkByte(k: Config, n: nat, j: nat)
    requires n < k.Total() && j < |k.Chunk(n)| && Target(k, n, j) < |k.file|
    ensures k.Chunk(n)[j] == k.file[Target(k, n, j)] && Covers(|k.file|, n, k.Total(), k.c, Target(k, n, j))
  {
    assert k.Chunk(n)[j] == k.ByteAt(Target(k, n, j));
  }

  lemma IsSafe(k: Config, nums: seq<nat>, s: State, a: Action)
    requires Inv(k, nums, s) && Enabled(k, nums, s, a) && Fetchable(k, nums)
    ensures Safe(k, nums, s, a)
  {
    if a.Copy? { assert k.FitsPart(nums[a.t]); }
  }

  lemma StepKeeps(k: Config, nums: seq<nat>, s: State, a: Action)
    requires Inv(k, nums, s) && Enabled(k, nums, s, a) && Safe(k, nums, s, a)
    ensures Inv(k, nums, Step(k, nums, s, a))
  {
    if a.Copy? && s.tasks[a.t].j < |k.Chunk(nums[a.t])| { ChunkByte(k, nums[a.t], s.tasks[a.t].j); }
  }

  lemma {:induction false} RunKeeps(k: Config, nums: seq<nat>, run: seq<State>, i: nat)
    requires IsRun(k, nums, run) && i < |run| && k.Total() > 0 && Fetchable(k, nums)
    ensures Inv(k, nums, run[i])
  {
    if i == 0 {
    } else {
      RunKeeps(k, nums, run, i - 1);
      assert Stepped(k, nums, run[i - 1], run[i - 1 + 1]);
      var a :| Enabled(k, nums, run[i - 1], a)
          && (Safe(k, nums, run[i - 1], a) ==> run[i] == Step(k, nums, run[i - 1], a));
      IsSafe(k, nums, run[i - 1], a);
      StepKeeps(k, nums, run[i - 1], a);
    }
  }

  // ---- When every copy is in bounds ----

  ghost predicate SafeThroughout(k: Config, nums: seq<nat>, run: seq<State>) {
    forall i, a :: 0 <= i < |run| && Enabled(k, nums, run[i], a) ==> Safe(k, nums, run[i], a)
  }

  // Exactly when every part asked for lies in the file: no interleaving can help, or hurt.
  lemma EveryCopyIsInBounds(k: Config, nums: seq<nat>, s0: State)
    requires Init(k, nums, s0) && k.Total() > 0
    ensures (forall run: seq<State> :: IsRun(k, nums, run) && run[0] == s0 ==> SafeThroughout(k, nums, run)) <==>
        Fetchable(k, nums)
  {
    if Fetchable(k, nums) {
      forall run: seq<State> | IsRun(k, nums, run) && run[0] == s0 ensures SafeThroughout(k, nums, run) {
        forall i, a | 0 <= i < |run| && Enabled(k, nums, run[i], a) ensures Safe(k, nums, run[i], a) {
          RunKeeps(k, nums, run, i);
          IsSafe(k, nums, run[i], a);
        }
      }
    } else {
      var t: nat :| t < |nums| && !k.FitsPart(nums[t]);
      OffsetInFile(|k.file|, nums[t], k.Total());
      var run := CopyTo(k, nums, s0, t, |k.file| - Offset(|k.file|, nums[t], k.Total()));
      assert !Safe(k, nums, run[|run| - 1], Copy(t));
    }
  }

  lemma OffsetInFile(fsize: nat, n: nat, parts: nat)
    requires n < parts
    ensures Offset(fsize, n, parts) <= fsize
  {
    DivRange(fsize, parts);
    MulMono(n, parts, fsize / parts);
  }

  // Task t copies j bytes, all inside the mapped file.
  lemma {:induction false} CopyTo(k: Config, nums: seq<nat>, s0: State, t: nat, j: nat) returns (run: seq<State>)
    requires Init(k, nums, s0) && k.Total() > 0 && t < |nums|
    requires j <= |k.Chunk(nums[t])| && Target(k, nums[t], j) <= |k.file|
    ensures IsRun(k, nums, run) && run[0] == s0
    ensures var s := run[|run| - 1]; |s.tasks| == |nums| && s.tasks[t] == Copying(j) && |s.buffer| == |k.file|
    decreases j
  {
    if j == 0 {
      run := Extended(k, nums, [s0], Arrive(t));
    } else {
      run := CopyTo(k, nums, s0, t, j - 1);
      run := Extended(k, nums, run, Copy(t));
    }
  }

  lemma Extended(k: Config, nums: seq<nat>, run: seq<State>, a: Action) returns (run2: seq<State>)
    requires IsRun(k, nums, run) && Enabled(k, nums, run[|run| - 1], a) && Safe(k, nums, run[|run| - 1], a)
    ensures IsRun(k, nums, run2) && run <= run2 && run2[|run2| - 1] == Step(k, nums, run[|run| - 1], a)
  {
    run2 := run + [Step(k, nums, run[|run| - 1], a)];
    assert Stepped(k, nums, run2[|run| - 1], run2[|run|]);
    forall i | 0 <= i < |run2| - 1 ensures Stepped(k, nums, run2[i], run2[i + 1]) {
      if i < |run| - 1 { assert Stepped(k, nums, run[i], run[i + 1]); }
    }
  }

  // ---- What holds in every run ----

  lemma InBoundsFetchable(k: Config, nums: seq<nat>)
    requires k.Total() > 0 && InBounds(|k.file|, k.Total(), k.c) && AsksForParts(k, nums)
    ensures Fetchable(k, nums)
  {
  }

  // When every task is done, a byte that some part covers is the file's.
  lemma CoveredIsRestored(k: Config, nums: seq<nat>, run: seq<State>, i: nat, p: nat, n: nat)
    requires IsRun(k, nums, run) && i < |run| && OneLocationPerPart(k, nums)
    requires forall t :: 0 <= t < |run[i].tasks| ==> run[i].tasks[t].Done?
    requires InBounds(|k.file|, k.Total(), k.c)
    requires p < |k.file| && n < k.Total() && Covers(|k.file|, n, k.Total(), k.c, p)
    ensures p < |run[i].buffer| && run[i].buffer[p] == k.file[p]
  {
    InBoundsFetchable(k, nums);
    RunKeeps(k, nums, run, i);
    assert n in nums;
    var t :| 0 <= t < |nums| && nums[t] == n;
    assert TaskOk(k, nums[t], run[i].tasks[t], run[i].written);
    var j: nat := p - Offset(|k.file|, n, k.Total());
    assert Target(k, n, j) in run[i].written;
  }

  // A byte that no part covers never gets its value.
  lemma UncoveredIsLost(k: Config, nums: seq<nat>, run: seq<State>, i: nat, p: nat)
    requires IsRun(k, nums, run) && i < |run| && k.Total() > 0 && Fetchable(k, nums)
    requires p < |k.file| && forall n :: 0 <= n < k.Total() ==> !Covers(|k.file|, n, k.Total(), k.c, p)
    ensures p < |run[i].buffer| && run[i].buffer[p] == 0
  {
    RunKeeps(k, nums, run, i);
  }

  // Upload then download: if the cut is clean, every part can be sent, and every complete download,
  // in whatever order its tasks run, gives back the file.
  lemma CleanCutRestores(k: Config, nums: seq<nat>, run: seq<State>, i: nat)
    requires IsRun(k, nums, run) && i < |run| && OneLocationPerPart(k, nums)
    requires k.Total() * k.c < WORD && |k.file| < WORD && Clean(|k.file|, k.Total(), k.c)
    requires forall t :: 0 <= t < |run[i].tasks| ==> run[i].tasks[t].Done?
    ensures InBounds(|k.file|, k.Total(), k.c) && run[i].buffer == k.file
  {
    CutsCleanlyIff(|k.file|, k.Total(), k.c);
    InBoundsFetchable(k, nums);
    RunKeeps(k, nums, run, i);
    forall p | 0 <= p < |k.file| ensures run[i].buffer[p] == k.file[p] {
      assert Covered(|k.file|, k.Total(), k.c, p);
      var n: nat :| n < k.Total() && Covers(|k.file|, n, k.Total(), k.c, p);
      assert Fits(|k.file|, n, k.Total(), k.c);
      CoveredIsRestored(k, nums, run, i, p, n);
    }
  }

  // If it is not, then either some part cannot be sent, since it reaches outside the file, or there
  // is a byte that no download restores in any file where it is not zero.
  lemma OtherCutsLose(k: Config) returns (p: nat)
    requires k.Total() > 0 && k.Total() * k.c < WORD && |k.file| < WORD && !Clean(|k.file|, k.Total(), k.c)
    ensures InBounds(|k.file|, k.Total(), k.c) ==> p < |k.file|
    ensures InBounds(|k.file|, k.Total(), k.c) && k.file[p] != 0 ==>
              forall nums: seq<nat>, run: seq<State>, i :: IsRun(k, nums, run) && 0 <= i < |run| ==>
                  run[i].buffer != k.file
  {
    CutsCleanlyIff(|k.file|, k.Total(), k.c);
    p := 0;
    if InBounds(|k.file|, k.Total(), k.c) {
      p :| 0 <= p < |k.file| && !Covered(|k.file|, k.Total(), k.c, p);
      forall nums: seq<nat>, run: seq<State>, i | IsRun(k, nums, run) && 0 <= i < |run| && k.file[p] != 0
          ensures run[i].buffer != k.file {
        InBoundsFetchable(k, nums);
        UncoveredIsLost(k, nums, run, i, p);
      }
    }
  }

  // The whole journey of a file below 16 MiB, with the quotient the code computes: it comes back
  // whenever the number of parts divides its size.
  lemma SmallFileComesBack(k: Config, nums: seq<nat>, run: seq<State>, i: nat)
    requires IsRun(k, nums, run) && i < |run| && OneLocationPerPart(k, nums)
    requires |k.file| < B.PRECISION && k.Total() < 0x1_0000_0000 && B.FloatCeil(|k.file|, k.Total(), k.c)
    requires |k.file| % k.Total() == 0
    requires forall t :: 0 <= t < |run[i].tasks| ==> run[i].tasks[t].Done?
    ensures InBounds(|k.file|, k.Total(), k.c) && run[i].buffer == k.file
  {
    B.SmallSizesAreExact(|k.file|, k.Total(), k.c);
    B.SmallFilesCutCleanly(|k.file|, k.Total(), k.c);
    NoOverflow(|k.file|, k.Total(), k.c);
    CleanCutRestores(k, nums, run, i);
  }

  lemma NoOverflow(fsize: nat, parts: nat, c: nat)
    requires parts > 0 && RoundedUp(c, fsize, parts) && fsize < B.PRECISION && parts < 0x1_0000_0000
    ensures parts * c < WORD
  {
    if c > 0 { assert parts * c == parts * (c - 1) + parts; }
  }

  // ---- Progress, and the end ----

  function Finished(tasks: seq<Task>): (n: nat)
    ensures n <= |tasks|
  {
    if tasks == [] then 0 else Finished(tasks[..|tasks| - 1]) + (if tasks[|tasks| - 1].Done? then 1 else 0)
  }

  lemma {:induction false} FinishedUpdate(tasks: seq<Task>, t: nat, task: Task)
    requires t < |tasks|
    ensures Finished(tasks[t := task]) + (if tasks[t].Done? then 1 else 0)
        == Finished(tasks) + (if task.Done? then 1 else 0)
  {
    var last, q := |tasks| - 1, tasks[t := task];
    if t == last {
      assert q[..last] == tasks[..last];
    } else {
      assert q[..last] == tasks[..last][t := task];
      FinishedUpdate(tasks[..last], t, task);
    }
  }

  lemma {:induction false} NoneFinished(tasks: seq<Task>)
    requires forall t :: 0 <= t < |tasks| ==> !tasks[t].Done?
    ensures Finished(tasks) == 0
  {
    if tasks == [] {
    } else {
      NoneFinished(tasks[..|tasks| - 1]);
    }
  }

  lemma {:induction false} AllFinished(tasks: seq<Task>)
    ensures Finished(tasks) == |tasks| <==> forall t :: 0 <= t < |tasks| ==> tasks[t].Done?
  {
    if tasks == [] {
    } else {
      AllFinished(tasks[..|tasks| - 1]);
    }
  }

  lemma RunStep(k: Config, nums: seq<nat>, run: seq<State>, i: nat) returns (a: Action)
    requires IsRun(k, nums, run) && i + 1 < |run| && k.Total() > 0 && Fetchable(k, nums)
    ensures Inv(k, nums, run[i]) && Enabled(k, nums, run[i], a) && Safe(k, nums, run[i], a)
    ensures run[i + 1] == Step(k, nums, run[i], a)
  {
    RunKeeps(k, nums, run, i);
    assert Stepped(k, nums, run[i], run[i + 1]);
    a :| Enabled(k, nums, run[i], a) && (Safe(k, nums, run[i], a) ==> run[i + 1] == Step(k, nums, run[i], a));
    IsSafe(k, nums, run[i], a);
  }

  lemma {:induction false} ProgressIsFinished(k: Config, nums: seq<nat>, run: seq<State>, i: nat)
    requires IsRun(k, nums, run) && i < |run| && k.Total() > 0 && Fetchable(k, nums)
    ensures |run[i].tasks| == |nums| && run[i].progress == 1 + Finished(run[i].tasks)
  {
    if i == 0 {
      NoneFinished(run[0].tasks);
    } else {
      ProgressIsFinished(k, nums, run, i - 1);
      var a := RunStep(k, nums, run, i - 1);
      FinishedUpdate(run[i - 1].tasks, a.t, run[i].tasks[a.t]);
    }
  }

  // Progress counts the tasks that are done, from 1 on, so the loop that waits for it to reach the
  // number of tasks ends when at most one of them is still at work; only the join waits for that one.
  lemma ProgressCountsTasks(k: Config, nums: seq<nat>, run: seq<State>, i: nat)
    requires IsRun(k, nums, run) && i < |run| && k.Total() > 0 && Fetchable(k, nums)
    ensures run[i].progress == 1 + Finished(run[i].tasks)
    ensures run[i].progress < |nums| <==> Finished(run[i].tasks) + 1 < |run[i].tasks|
    ensures run[i].progress == |nums| + 1 <==> forall t :: 0 <= t < |run[i].tasks| ==> run[i].tasks[t].Done?
  {
    ProgressIsFinished(k, nums, run, i);
    AllFinished(run[i].tasks);
  }

  // The steps a task still has.
  function TaskLeft(k: Config, n: nat, task: Task): nat
    requires k.Total() > 0
  {
    match task
    case Asked => |k.Chunk(n)| + 2
    case Copying(j) => if j <= |k.Chunk(n)| then |k.Chunk(n)| - j + 1 else 0
    case Done => 0
  }

  function Left(k: Config, nums: seq<nat>, tasks: seq<Task>, m: nat): nat
    requires k.Total() > 0 && m <= |nums| == |tasks|
  {
    if m == 0 then 0 else Left(k, nums, tasks, m - 1) + TaskLeft(k, nums[m - 1], tasks[m - 1])
  }

  lemma {:induction false} LeftUpdate(k: Config, nums: seq<nat>, tasks: seq<Task>, m: nat, t: nat, task: Task)
    requires k.Total() > 0 && m <= |nums| == |tasks| && t < |tasks|
    requires TaskLeft(k, nums[t], task) < TaskLeft(k, nums[t], tasks[t])
    ensures if t < m then Left(k, nums, tasks[t := task], m) < Left(k, nums, tasks, m)
            else Left(k, nums, tasks[t := task], m) == Left(k, nums, tasks, m)
  {
    if m == 0 {
    } else {
      LeftUpdate(k, nums, tasks, m - 1, t, task);
    }
  }

  lemma LeftShrinks(k: Config, nums: seq<nat>, s: State, a: Action)
    requires Inv(k, nums, s) && Enabled(k, nums, s, a) && Safe(k, nums, s, a)
    ensures Left(k, nums, Step(k, nums, s, a).tasks, |nums|) < Left(k, nums, s.tasks, |nums|)
  {
    assert TaskOk(k, nums[a.t], s.tasks[a.t], s.written);
    LeftUpdate(k, nums, s.tasks, |nums|, a.t, Step(k, nums, s, a).tasks[a.t]);
  }

  predicate AllDone(s: State) { forall t :: 0 <= t < |s.tasks| ==> s.tasks[t].Done? }

  // No download goes on for ever, and one that cannot go on is complete.
  lemma {:induction false} DownloadsEnd(k: Config, nums: seq<nat>, run: seq<State>, i: nat)
    requires IsRun(k, nums, run) && i < |run| && k.Total() > 0 && Fetchable(k, nums)
    ensures |run[i].tasks| == |nums| == |run[0].tasks|
    ensures i + Left(k, nums, run[i].tasks, |nums|) <= Left(k, nums, run[0].tasks, |nums|)
    ensures (forall a :: !Enabled(k, nums, run[i], a)) ==> AllDone(run[i])
  {
    RunKeeps(k, nums, run, i);
    if i == 0 {
    } else {
      DownloadsEnd(k, nums, run, i - 1);
      var a := RunStep(k, nums, run, i - 1);
      LeftShrinks(k, nums, run[i - 1], a);
    }
    if !AllDone(run[i]) { var a := NextTask(k, nums, run[i]); }
  }

  lemma NextTask(k: Config, nums: seq<nat>, s: State) returns (a: Action)
    requires |s.tasks| == |nums| && k.Total() > 0 && !AllDone(s)
    ensures Enabled(k, nums, s, a)
  {
    var t: nat :| t < |s.tasks| && !s.tasks[t].Done?;
    a := if s.tasks[t].Asked? then Arrive(t) else Copy(t);
  }

  lemma OneMore(k: Config, nums: seq<nat>, run: seq<State>) returns (run2: seq<State>)
    requires IsRun(k, nums, run) && k.Total() > 0 && Fetchable(k, nums) && !AllDone(run[|run| - 1])
    ensures IsRun(k, nums, run2) && run <= run2
    ensures |run2[|run2| - 1].tasks| == |run[|run| - 1].tasks| == |nums|
    ensures Left(k, nums, run2[|run2| - 1].tasks, |nums|) < Left(k, nums, run[|run| - 1].tasks, |nums|)
  {
    var s := run[|run| - 1];
    RunKeeps(k, nums, run, |run| - 1);
    var a := NextTask(k, nums, s);
    IsSafe(k, nums, s, a);
    LeftShrinks(k, nums, s, a);
    run2 := Extended(k, nums, run, a);
  }

  // Whatever has been copied so far, the download can be completed.
  lemma {:induction false} CanComplete(k: Config, nums: seq<nat>, run: seq<State>) returns (run2: seq<State>)
    requires IsRun(k, nums, run) && k.Total() > 0 && Fetchable(k, nums)
    ensures IsRun(k, nums, run2) && run <= run2 && AllDone(run2[|run2| - 1])
    decreases var s := run[|run| - 1]; if |s.tasks| == |nums| then Left(k, nums, s.tasks, |nums|) else 0
  {
    if AllDone(run[|run| - 1]) {
      run2 := run;
    } else {
      run2 := OneMore(k, nums, run);
      run2 := CanComplete(k, nums, run2);
    }
  }
}
