// The upload protocol: request_upload shares the parts out among storages, one task a storage sends
// its parts one by one and waits for each acknowledgement, and a storage checks the hash before it
// stores and acknowledges (src/client/client.cc:129-152, 177-216,
// src/storage/storage_callbacks.cc:14-60, src/libtools/network/session.cc:140-175, 229-262).
// Tasks and storages run concurrently; each send, store and receive is one step.
module Upload {
  import opened Parts

  // ---- Sharing out the parts ----

  function Sum(nb: seq<nat>): nat { if nb == [] then 0 else nb[0] + Sum(nb[1..]) }

  datatype Range = Range(begin: nat, end: nat)

  // Task t sends the nb[t] parts just below those of the tasks before it.
  function RangeOf(nb: seq<nat>, t: nat): (r: Range)
    requires t < |nb|
    ensures r.begin + nb[t] == r.end <= Sum(nb)
  {
    SumSplit(nb, t);
    SumSplit(nb, t + 1);
    SumStep(nb, t);
    Range(Sum(nb) - Sum(nb[..t + 1]), Sum(nb) - Sum(nb[..t]))
  }

  lemma {:induction false} SumSplit(nb: seq<nat>, t: nat)
    requires t <= |nb|
    ensures Sum(nb) == Sum(nb[..t]) + Sum(nb[t..])
  {
    if t > 0 {
      SumSplit(nb[1..], t - 1);
      assert nb[..t][1..] == nb[1..][..t - 1];
    } else {
      assert nb[..0] == [] && nb[0..] == nb;
    }
  }

  lemma SumStep(nb: seq<nat>, t: nat)
    requires t < |nb|
    ensures Sum(nb[..t + 1]) == Sum(nb[..t]) + nb[t]
  {
    SumSplit(nb[..t + 1], t);
    assert nb[..t + 1][..t] == nb[..t] && nb[..t + 1][t..] == [nb[t]];
    assert Sum([nb[t]]) == nb[t] + Sum([]) by { assert [nb[t]][1..] == []; }
  }

  // The loops of request_upload.
  method ShareOut(nb: seq<nat>) returns (total: nat, ranges: seq<Range>)
    ensures total == Sum(nb) && |ranges| == |nb|
    ensures forall t :: 0 <= t < |nb| ==> ranges[t] == RangeOf(nb, t)
  {
    total := 0;
    var i := 0;
    while i < |nb|
      invariant i <= |nb| && total == Sum(nb[..i])
    {
      SumStep(nb, i);
      total := total + nb[i];
      i := i + 1;
    }
    assert nb[..|nb|] == nb;
    var parts := total;
    ranges := [];
    i := 0;
    while i < |nb|
      invariant i <= |nb| && parts == total - Sum(nb[..i]) && |ranges| == i
      invariant forall t :: 0 <= t < i ==> ranges[t] == RangeOf(nb, t)
    {
      SumStep(nb, i);
      SumSplit(nb, i + 1);
      ranges := ranges + [Range(parts - nb[i], parts)];
      parts := parts - nb[i];
      i := i + 1;
    }
  }

  predicate InRange(r: Range, n: nat) { r.begin <= n < r.end }

  // Every part belongs to exactly one task.
  lemma {:induction false} RangesPartition(nb: seq<nat>, n: nat) returns (t: nat)
    requires n < Sum(nb)
    ensures t < |nb| && InRange(RangeOf(nb, t), n)
    ensures forall u :: 0 <= u < |nb| && InRange(RangeOf(nb, u), n) ==> u == t
  {
    assert nb[..|nb|] == nb;
    t := Owner(nb, n, |nb|);
    forall u | 0 <= u < |nb| && InRange(RangeOf(nb, u), n) ensures u == t {
      if u < t { RangesDescend(nb, u, t); }
      if t < u { RangesDescend(nb, t, u); }
    }
  }

  lemma {:induction false} Owner(nb: seq<nat>, n: nat, m: nat) returns (t: nat)
    requires m <= |nb| && Sum(nb) - Sum(nb[..m]) <= n < Sum(nb)
    ensures t < m && InRange(RangeOf(nb, t), n)
  {
    assert nb[..0] == [];
    if m > 0 {
      SumStep(nb, m - 1);
      if n < Sum(nb) - Sum(nb[..m - 1]) { t := m - 1; } else { t := Owner(nb, n, m - 1); }
    }
  }

  lemma {:induction false} RangesDescend(nb: seq<nat>, t: nat, u: nat)
    requires t < u < |nb|
    ensures RangeOf(nb, u).end <= RangeOf(nb, t).begin
  {
    PrefixMono(nb, t + 1, u);
  }

  lemma {:induction false} PrefixMono(nb: seq<nat>, a: nat, b: nat)
    requires a <= b <= |nb|
    ensures Sum(nb[..a]) <= Sum(nb[..b])
  {
    if a == b {
    } else {
      SumStep(nb, b - 1);
      PrefixMono(nb, a, b - 1);
    }
  }

  // ---- The protocol ----

  type Bytes = seq<int>

  // What does not change during an upload: the file, the parts given to each storage, the rounded
  // quotient and the hash function.
  datatype Config = Config(file: Bytes, nb: seq<nat>, c: nat, hash: Bytes -> int) {
    function Total(): nat { Sum(nb) }

    // Part n lies inside the mapped file.
    predicate FitsPart(n: nat) { Total() > 0 && Fits(|file|, n, Total(), c) }

    // Every part does.
    ghost predicate Sendable() { Total() > 0 ==> InBounds(|file|, Total(), c) }

    // The bytes of part n, as many as get_part_size says.  Outside the file the value given here does
    // not matter: an instruction that reads there is unsafe.
    function Chunk(n: nat): Bytes
      requires Total() > 0
    {
      seq(PartSize(|file|, n, Total(), c), j requires 0 <= j => ByteAt(Offset(|file|, n, Total()) + j))
    }

    function ByteAt(p: nat): int { if p < |file| then file[p] else 0 }
  }

  lemma ChunkIsSlice(k: Config, n: nat)
    requires k.FitsPart(n)
    ensures var offset, size := Offset(|k.file|, n, k.Total()), PartSize(|k.file|, n, k.Total(), k.c);
            k.Chunk(n) == k.file[offset..offset + size]
  {
  }

  // Between a task and its storage: nothing, a part with its hash, an answer, or a broken socket.
  datatype Wire = Quiet | Part(n: nat, data: Bytes, sha: int) | Answer(success: bool) | Broken

  datatype Task = Ready(n: nat) | Sent(n: nat) | Returned | Thrown

  // `disks[t]` is what task t's storage holds for this file.  History: `counted`, the parts for which
  // progress was incremented, and `unanswered`, those of them counted without any answer.
  datatype State = State(tasks: seq<Task>, wires: seq<Wire>,
      disks: seq<map<nat, Bytes>>, progress: nat, counted: set<nat>, unanswered: set<nat>)

  datatype Action =
    | Go(t: nat)                      // the task's loop test, and the send of a part
    | Damage(t: nat, data: Bytes)     // a change in transit that the hash tells
    | Store(t: nat)                   // the storage handles a part
    | Receive(t: nat)                 // recv_ack
    | Break(t: nat)                   // the socket fails

  ghost predicate Enabled(k: Config, s: State, a: Action) {
    && |s.tasks| == |s.wires| == |s.disks| == |k.nb|
    && match a
       case Go(t) => t < |s.tasks| && s.tasks[t].Ready?
       case Damage(t, data) => t < |s.tasks| && s.wires[t].Part? && k.hash(data) != s.wires[t].sha
       case Store(t) => t < |s.tasks| && s.wires[t].Part?
       case Receive(t) => t < |s.tasks| && s.tasks[t].Sent? && (s.wires[t].Answer? || s.wires[t].Broken?)
       case Break(t) => t < |s.tasks| && !s.wires[t].Broken?
  }

  // Hashing and sending a part reads it from the mapped file, broken socket or not.
  ghost predicate Safe(k: Config, s: State, a: Action)
    requires Enabled(k, s, a)
  {
    a.Go? && s.tasks[a.t].n < RangeOf(k.nb, a.t).end ==> k.FitsPart(s.tasks[a.t].n)
  }

  ghost function Step(k: Config, s: State, a: Action): State
    requires Enabled(k, s, a)
  {
    match a
    case Go(t) =>
      var n := s.tasks[t].n;
      if n < RangeOf(k.nb, t).end then
        // blocking_send reports a failure to nobody
        s.(tasks := s.tasks[t := Sent(n)],
           wires := if s.wires[t].Broken? then s.wires else s.wires[t := Part(n, k.Chunk(n), k.hash(k.Chunk(n)))])
      else s.(tasks := s.tasks[t := Returned])
    case Damage(t, data) => s.(wires := s.wires[t := s.wires[t].(data := data)])
    case Store(t) =>
      var p := s.wires[t];
      if k.hash(p.data) != p.sha then s.(wires := s.wires[t := Answer(false)])
      else
        var disk: map<nat, Bytes> := s.disks[t][p.n := p.data];
        s.(wires := s.wires[t := Answer(true)], disks := s.disks[t := disk])
    case Receive(t) =>
      var n := s.tasks[t].n;
      if s.wires[t].Broken? then
        // blocking_receive swallows the failure, so recv_ack returns as if there had been an answer
        s.(tasks := s.tasks[t := Ready(n + 1)], progress := s.progress + 1, counted := s.counted + {n},
            unanswered := s.unanswered + {n})
      else if s.wires[t].success then
        s.(tasks := s.tasks[t := Ready(n + 1)], wires := s.wires[t := Quiet], progress := s.progress + 1,
            counted := s.counted + {n})
      else s.(tasks := s.tasks[t := Thrown], wires := s.wires[t := Quiet])
    case Break(t) => s.(wires := s.wires[t := Broken])
  }

  ghost predicate Init(k: Config, s: State) {
    && |s.tasks| == |s.wires| == |s.disks| == |k.nb|
    && (forall t :: 0 <= t < |k.nb| ==>
        s.tasks[t] == Ready(RangeOf(k.nb, t).begin) && s.wires[t] == Quiet && s.disks[t] == map[])
    && s.progress == 1 && s.counted == {} && s.unanswered == {}
  }

  // An unsafe instruction may do anything at all.
  ghost predicate Stepped(k: Config, s: State, s': State) {
    exists a :: Enabled(k, s, a) && (Safe(k, s, a) ==> s' == Step(k, s, a))
  }

  ghost predicate IsRun(k: Config, run: seq<State>) {
    && |run| > 0 && Init(k, run[0])
    && forall i :: 0 <= i < |run| - 1 ==> Stepped(k, run[i], run[i + 1])
  }

  // ---- The invariant ----

  // Part n is on the disk of task t's storage, byte for byte, with the hash that was sent.
  predicate StoredBy(k: Config, s: State, t: nat, n: nat) {
    t < |s.disks| && n in s.disks[t] && k.Total() > 0 && s.disks[t][n] == k.Chunk(n)
  }

  predicate Stored(k: Config, s: State, n: nat) {
    exists t :: 0 <= t < |s.disks| && StoredBy(k, s, t, n)
  }

  // Parts of range r that a task in this state has gone past.
  predicate Past(task: Task, n: nat) {
    match task
    case Ready(m) => n < m
    case Sent(m) => n < m
    case Returned => true
    case Thrown => false
  }

  predicate TaskOk(k: Config, s: State, t: nat)
    requires |s.tasks| == |s.wires| == |s.disks| == |k.nb| && t < |k.nb|
  {
    var r := RangeOf(k.nb, t);
    && (s.tasks[t].Ready? ==> r.begin <= s.tasks[t].n <= r.end && (s.wires[t].Quiet? || s.wires[t].Broken?))
    && (s.tasks[t].Sent? ==> InRange(r, s.tasks[t].n) && !s.wires[t].Quiet?)
    && (s.wires[t].Part? ==>
          && s.tasks[t].Sent? && s.wires[t].n == s.tasks[t].n && k.Total() > 0
          && s.wires[t].sha == k.hash(k.Chunk(s.wires[t].n))
          && (k.hash(s.wires[t].data) == s.wires[t].sha ==> s.wires[t].data == k.Chunk(s.wires[t].n)))
    && (s.wires[t].Answer? ==> s.tasks[t].Sent? && (s.wires[t].success ==> StoredBy(k, s, t, s.tasks[t].n)))
  }

  ghost predicate PartOk(k: Config, s: State, t: nat, n: nat)
    requires |s.tasks| == |s.wires| == |s.disks| == |k.nb| && t < |k.nb|
  {
    InRange(RangeOf(k.nb, t), n) ==>
      && (n in s.counted ==> s.tasks[t].Thrown? || Past(s.tasks[t], n))
      && (Past(s.tasks[t], n) ==> n in s.counted)
      && (n in s.counted && n !in s.unanswered ==> StoredBy(k, s, t, n))
      && (n in s.unanswered ==> s.wires[t].Broken?)
  }

  ghost predicate Inv(k: Config, s: State) {
    && |s.tasks| == |s.wires| == |s.disks| == |k.nb|
    && (forall t {:trigger TaskOk(k, s, t)} :: 0 <= t < |k.nb| ==> TaskOk(k, s, t))
    && (forall t, n {:trigger PartOk(k, s, t, n)} :: 0 <= t < |k.nb| && 0 <= n ==> PartOk(k, s, t, n))
    && s.progress == 1 + |s.counted|
    && (forall n :: n in s.counted ==> n < k.Total())
    && s.unanswered <= s.counted
  }

  lemma InitInv(k: Config, s: State)
    requires Init(k, s)
    ensures Inv(k, s)
  {
  }

  function Actor(a: Action): nat { a.t }

  // Another task's step does not matter: its parts are others.
  lemma OtherTask(k: Config, s: State, a: Action, t: nat, n: nat)
    requires Inv(k, s) && Enabled(k, s, a) && t < |k.nb| && t != Actor(a)
    ensures TaskOk(k, Step(k, s, a), t) && PartOk(k, Step(k, s, a), t, n)
  {
    assert TaskOk(k, s, t) && TaskOk(k, s, Actor(a)) && PartOk(k, s, t, n);
    if InRange(RangeOf(k.nb, t), n) && InRange(RangeOf(k.nb, Actor(a)), n) {
      if t < Actor(a) { RangesDescend(k.nb, t, Actor(a)); } else { RangesDescend(k.nb, Actor(a), t); }
    }
  }

  lemma OwnTask(k: Config, s: State, a: Action, n: nat)
    requires Inv(k, s) && Enabled(k, s, a)
    ensures TaskOk(k, Step(k, s, a), Actor(a)) && PartOk(k, Step(k, s, a), Actor(a), n)
  {
    assert TaskOk(k, s, Actor(a)) && PartOk(k, s, Actor(a), n);
    if s.tasks[Actor(a)].Sent? { assert PartOk(k, s, Actor(a), s.tasks[Actor(a)].n); }
  }

  lemma CountKept(k: Config, s: State, a: Action)
    requires Inv(k, s) && Enabled(k, s, a)
    ensures var s2 := Step(k, s, a);
            s2.progress == 1 + |s2.counted| && s2.unanswered <= s2.counted
                && forall n :: n in s2.counted ==> n < k.Total()
  {
    assert TaskOk(k, s, Actor(a));
    if s.tasks[Actor(a)].Sent? { assert PartOk(k, s, Actor(a), s.tasks[Actor(a)].n); }
  }

  lemma StepKeeps(k: Config, s: State, a: Action)
    requires Inv(k, s) && Enabled(k, s, a)
    ensures Inv(k, Step(k, s, a))
  {
    var s2 := Step(k, s, a);
    CountKept(k, s, a);
    forall t | 0 <= t < |k.nb| ensures TaskOk(k, s2, t) {
      if t == Actor(a) { OwnTask(k, s, a, 0); } else { OtherTask(k, s, a, t, 0); }
    }
    forall t, n | 0 <= t < |k.nb| && 0 <= n ensures PartOk(k, s2, t, n) {
      if t == Actor(a) { OwnTask(k, s, a, n); } else { OtherTask(k, s, a, t, n); }
    }
  }

  lemma IsSafe(k: Config, s: State, a: Action)
    requires Inv(k, s) && Enabled(k, s, a) && k.Sendable()
    ensures Safe(k, s, a)
  {
    assert TaskOk(k, s, Actor(a));
  }

  lemma {:induction false} RunKeeps(k: Config, run: seq<State>, i: nat)
    requires IsRun(k, run) && i < |run| && k.Sendable()
    ensures Inv(k, run[i])
    decreases i, 0
  {
    if i == 0 {
      InitInv(k, run[0]);
    } else {
      var a := RunStep(k, run, i - 1);
      StepKeeps(k, run[i - 1], a);
    }
  }

  // One step of a run.
  lemma {:induction false} RunStep(k: Config, run: seq<State>, i: nat) returns (a: Action)
    requires IsRun(k, run) && i + 1 < |run| && k.Sendable()
    ensures Inv(k, run[i]) && Enabled(k, run[i], a) && run[i + 1] == Step(k, run[i], a)
    decreases i, 1
  {
    RunKeeps(k, run, i);
    assert Stepped(k, run[i], run[i + 1]);
    a :| Enabled(k, run[i], a) && (Safe(k, run[i], a) ==> run[i + 1] == Step(k, run[i], a));
    IsSafe(k, run[i], a);
  }

  // ---- What holds in every run ----

  lemma CountedIsStored(k: Config, s: State, n: nat)
    requires Inv(k, s) && n in s.counted && n !in s.unanswered
    ensures Stored(k, s, n)
  {
    var t := RangesPartition(k.nb, n);
    assert PartOk(k, s, t, n);
    assert StoredBy(k, s, t, n);
  }

  lemma {:induction false} SubsetSize(a: set<nat>, b: set<nat>)
    requires a <= b
    ensures |a| <= |b|
  {
    if a == {} {
    } else {
      var x :| x in a;
      SubsetSize(a - {x}, b - {x});
    }
  }

  // The parts of the file that some storage holds exactly as sent.
  function StoredParts(k: Config, s: State, n: nat): (r: set<nat>)
    ensures forall m: nat :: m in r <==> m < n && Stored(k, s, m)
  {
    if n == 0 then {} else StoredParts(k, s, n - 1) + (if Stored(k, s, n - 1) then {n - 1} else {})
  }

  // In every run, with failures or without: the parts progress counts are stored exactly, but for
  // those that were counted because a broken socket gave no answer.
  lemma ProgressIsStored(k: Config, run: seq<State>, i: nat)
    requires IsRun(k, run) && k.Sendable() && i < |run|
    ensures run[i].progress - 1 <= |StoredParts(k, run[i], k.Total())| + |run[i].unanswered|
  {
    RunKeeps(k, run, i);
    var s := run[i];
    var answered := s.counted - s.unanswered;
    forall n | n in answered ensures n in StoredParts(k, s, k.Total()) { CountedIsStored(k, s, n); }
    SubsetSize(answered, StoredParts(k, s, k.Total()));
    assert s.counted == answered + s.unanswered;
  }

  // No socket has failed so far: a socket that has stays broken.
  predicate Unbroken(s: State) { forall t :: 0 <= t < |s.wires| ==> !s.wires[t].Broken? }

  lemma UnbrokenAnswers(k: Config, s: State)
    requires Inv(k, s) && Unbroken(s)
    ensures s.unanswered == {}
  {
    forall n: nat | n < k.Total() ensures n !in s.unanswered {
      var t := RangesPartition(k.nb, n);
      assert PartOk(k, s, t, n);
    }
  }

  // Without such failures progress never runs ahead of what is stored.
  lemma UnbrokenProgress(k: Config, run: seq<State>, i: nat)
    requires IsRun(k, run) && k.Sendable() && i < |run| && Unbroken(run[i])
    ensures run[i].progress - 1 <= |StoredParts(k, run[i], k.Total())|
  {
    RunKeeps(k, run, i);
    UnbrokenAnswers(k, run[i]);
    ProgressIsStored(k, run, i);
  }

  // When every task has returned without throwing, progress says that every part was sent.
  lemma AllCounted(k: Config, s: State)
    requires Inv(k, s) && forall t :: 0 <= t < |s.tasks| ==> s.tasks[t].Returned?
    ensures s.counted == Upto(k.Total()) && s.progress == k.Total() + 1
  {
    forall m | 0 <= m < k.Total() ensures m in s.counted {
      var t := RangesPartition(k.nb, m);
      assert PartOk(k, s, t, m);
    }
    assert s.counted == Upto(k.Total());
  }

  // If no socket has failed by then, the storages hold every part.
  lemma AllPartsStored(k: Config, run: seq<State>, i: nat, n: nat)
    requires IsRun(k, run) && k.Sendable() && i < |run| && n < k.Total() && Unbroken(run[i])
    requires forall t :: 0 <= t < |run[i].tasks| ==> run[i].tasks[t].Returned?
    ensures Stored(k, run[i], n) && run[i].progress == k.Total() + 1
    ensures k.FitsPart(n)
  {
    RunKeeps(k, run, i);
    AllCounted(k, run[i]);
    UnbrokenAnswers(k, run[i]);
    CountedIsStored(k, run[i], n);
  }

  function Upto(n: nat): (r: set<nat>)
    ensures forall m: nat :: m in r <==> m < n
    ensures |r| == n
  {
    if n == 0 then {} else Upto(n - 1) + {n - 1}
  }

  // A storage never holds anything under a part's number but that part, and only its task's parts.
  lemma {:induction false} NothingElseStored(k: Config, run: seq<State>, i: nat, t: nat, n: nat)
    requires IsRun(k, run) && k.Sendable() && i < |run| && t < |run[i].disks| && n in run[i].disks[t]
    ensures k.Total() > 0 && run[i].disks[t][n] == k.Chunk(n)
    ensures t < |k.nb| && InRange(RangeOf(k.nb, t), n)
    decreases i
  {
    if i == 0 {
    } else {
      var a := RunStep(k, run, i - 1);
      assert TaskOk(k, run[i - 1], Actor(a));
      if n in run[i - 1].disks[t] { NothingElseStored(k, run, i - 1, t, n); }
    }
  }

  // ---- What a broken socket does ----

  predicate Breaks(run: seq<State>, j: nat, t: nat) {
    j + 1 < |run| && t < |run[j].wires| && t < |run[j + 1].wires| && !run[j].wires[t].Broken?
        && run[j + 1].wires[t].Broken?
  }

  predicate OnDisk(s: State, t: nat, n: nat) { t < |s.disks| && n in s.disks[t] }

  // What is on disk t stays there; if socket t is broken it stays so, and brings nothing more.
  predicate OnlyGrows(s: State, s2: State, t: nat, n: nat)
    requires t < |s.wires| && t < |s2.wires|
  {
    && (OnDisk(s, t, n) ==> OnDisk(s2, t, n))
    && (s.wires[t].Broken? ==> s2.wires[t].Broken? && (OnDisk(s2, t, n) ==> OnDisk(s, t, n)))
  }

  lemma DiskStep(k: Config, run: seq<State>, i: nat, t: nat, n: nat)
    requires IsRun(k, run) && k.Sendable() && i + 1 < |run| && t < |k.nb|
    ensures |run[i].wires| == |run[i + 1].wires| == |k.nb| && OnlyGrows(run[i], run[i + 1], t, n)
    ensures Breaks(run, i, t) ==> (OnDisk(run[i + 1], t, n) ==> OnDisk(run[i], t, n))
  {
    var a := RunStep(k, run, i);
    DiskKept(k, run[i], a, t, n);
  }

  lemma DiskKept(k: Config, s: State, a: Action, t: nat, n: nat)
    requires Enabled(k, s, a) && t < |k.nb|
    ensures var s2 := Step(k, s, a);
            && |s2.wires| == |k.nb| && OnlyGrows(s, s2, t, n)
            && (s2.wires[t].Broken? ==> OnDisk(s2, t, n) ==> OnDisk(s, t, n))
  {
  }

  lemma {:induction false} DisksOnlyGrow(k: Config, run: seq<State>, j: nat, i: nat, t: nat, n: nat)
    requires IsRun(k, run) && k.Sendable() && j <= i < |run| && t < |k.nb|
    ensures |run[j].wires| == |run[i].wires| == |k.nb| && OnlyGrows(run[j], run[i], t, n)
  {
    if i == j {
      RunKeeps(k, run, j);
    } else {
      DisksOnlyGrow(k, run, j, i - 1, t, n);
      DiskStep(k, run, i - 1, t, n);
    }
  }

  // The moment a socket that is broken by now broke.
  lemma {:induction false} BrokeAt(k: Config, run: seq<State>, i: nat, t: nat) returns (j: nat)
    requires IsRun(k, run) && k.Sendable() && i < |run| && t < |k.nb|
    requires |run[i].wires| == |k.nb| && run[i].wires[t].Broken?
    ensures j < i && Breaks(run, j, t)
  {
    assert i > 0;
    RunKeeps(k, run, i - 1);
    if run[i - 1].wires[t].Broken? {
      j := BrokeAt(k, run, i - 1, t);
    } else {
      j := i - 1;
    }
  }

  // A part that progress counts is missing exactly when its task's socket broke before it was stored.
  lemma MissingIffBrokenBefore(k: Config, run: seq<State>, i: nat, t: nat, n: nat)
    requires IsRun(k, run) && k.Sendable() && i < |run| && t < |k.nb| && InRange(RangeOf(k.nb, t), n)
        && n in run[i].counted
    ensures !Stored(k, run[i], n) <==> exists j :: 0 <= j < i && Breaks(run, j, t) && !OnDisk(run[j], t, n)
  {
    var s := run[i];
    RunKeeps(k, run, i);
    StoredIffOnDisk(k, run, i, t, n);
    if !Stored(k, s, n) {
      assert PartOk(k, s, t, n);
      var j := BrokeAt(k, run, i, t);
      DisksOnlyGrow(k, run, j, i, t, n);
    }
    forall j | 0 <= j < i && Breaks(run, j, t) && !OnDisk(run[j], t, n) ensures !OnDisk(s, t, n) {
      DiskStep(k, run, j, t, n);
      DisksOnlyGrow(k, run, j + 1, i, t, n);
    }
  }

  lemma StoredIffOnDisk(k: Config, run: seq<State>, i: nat, t: nat, n: nat)
    requires IsRun(k, run) && k.Sendable() && i < |run| && t < |k.nb| && InRange(RangeOf(k.nb, t), n)
    ensures Stored(k, run[i], n) <==> OnDisk(run[i], t, n)
  {
    RunKeeps(k, run, i);
    if OnDisk(run[i], t, n) {
      NothingElseStored(k, run, i, t, n);
      assert StoredBy(k, run[i], t, n);
    }
    forall u | 0 <= u < |run[i].disks| && StoredBy(k, run[i], u, n) ensures u == t {
      NothingElseStored(k, run, i, u, n);
      if u < t { RangesDescend(k.nb, u, t); }
      if t < u { RangesDescend(k.nb, t, u); }
    }
  }

  lemma Extended(k: Config, run: seq<State>, a: Action) returns (run2: seq<State>)
    requires IsRun(k, run) && Inv(k, run[|run| - 1]) && Enabled(k, run[|run| - 1], a)
    ensures IsRun(k, run2) && run2[0] == run[0] && run2[|run2| - 1] == Step(k, run[|run| - 1], a)
    ensures Inv(k, run2[|run2| - 1])
  {
    StepKeeps(k, run[|run| - 1], a);
    run2 := run + [Step(k, run[|run| - 1], a)];
    assert Stepped(k, run2[|run| - 1], run2[|run|]);
    forall i | 0 <= i < |run2| - 1 ensures Stepped(k, run2[i], run2[i + 1]) {
      if i < |run| - 1 { assert Stepped(k, run[i], run[i + 1]); }
    }
  }

  // The first m sockets are broken, and nothing has been sent.
  lemma {:induction false} BreakAll(k: Config, s0: State, m: nat) returns (run: seq<State>)
    requires Init(k, s0) && m <= |k.nb|
    ensures IsRun(k, run) && run[0] == s0 && Inv(k, run[|run| - 1])
    ensures var s := run[|run| - 1];
            && s == s0.(wires := s.wires) && |s.wires| == |k.nb|
            && (forall t :: 0 <= t < |k.nb| ==> (s.wires[t].Broken? <==> t < m))
  {
    if m == 0 {
      run := [s0];
      InitInv(k, s0);
    } else {
      run := BreakAll(k, s0, m - 1);
      run := Extended(k, run, Break(m - 1));
    }
  }

  // Task t goes through its parts to the end, over a broken socket.
  lemma {:induction false} Drain(k: Config, run: seq<State>, t: nat) returns (run2: seq<State>)
    requires IsRun(k, run) && Inv(k, run[|run| - 1])
    requires var s := run[|run| - 1];
             t < |k.nb| && s.wires[t].Broken? && s.tasks[t].Ready? && s.tasks[t].n <= RangeOf(k.nb, t).end
    ensures IsRun(k, run2) && run2[0] == run[0] && Inv(k, run2[|run2| - 1])
    ensures var s, s2 := run[|run| - 1], run2[|run2| - 1];
            s2.tasks == s.tasks[t := Returned] && s2.wires == s.wires && s2.disks == s.disks
    decreases RangeOf(k.nb, t).end - run[|run| - 1].tasks[t].n
  {
    run2 := Extended(k, run, Go(t));
    if run[|run| - 1].tasks[t].n == RangeOf(k.nb, t).end {
    } else {
      run2 := Extended(k, run2, Receive(t));
      run2 := Drain(k, run2, t);
    }
  }

  lemma {:induction false} DrainAll(k: Config, s0: State, m: nat) returns (run: seq<State>)
    requires Init(k, s0) && m <= |k.nb|
    ensures IsRun(k, run) && run[0] == s0 && Inv(k, run[|run| - 1])
    ensures var s := run[|run| - 1];
            && s.disks == s0.disks && (forall t :: 0 <= t < |k.nb| ==> s.wires[t].Broken?)
            && (forall t :: 0 <= t < |k.nb| ==> s.tasks[t] == if t < m then Returned else s0.tasks[t])
  {
    if m == 0 {
      run := BreakAll(k, s0, |k.nb|);
    } else {
      run := DrainAll(k, s0, m - 1);
      run := Drain(k, run, m - 1);
    }
  }

  // Whatever is uploaded, by however many tasks: if the sockets are broken from the start, every task
  // returns (unless it fails on a part outside the file), progress says that everything was sent, and
  // nothing is stored.
  lemma BrokenSocketsCount(k: Config, s0: State) returns (run: seq<State>)
    requires Init(k, s0)
    ensures IsRun(k, run) && run[0] == s0
    ensures var s := run[|run| - 1];
            && (forall t :: 0 <= t < |s.tasks| ==> s.tasks[t].Returned?)
            && s.progress == k.Total() + 1 && StoredParts(k, s, k.Total()) == {}
  {
    run := DrainAll(k, s0, |k.nb|);
    var s := run[|run| - 1];
    AllCounted(k, s);
    assert forall n :: !Stored(k, s, n);
  }

  // ---- When every instruction is safe ----

  ghost predicate SafeThroughout(k: Config, run: seq<State>) {
    forall i, a :: 0 <= i < |run| && Enabled(k, run[i], a) ==> Safe(k, run[i], a)
  }

  // Every part must lie in the file, and it is enough that every one does: for one that does not, the
  // code hashes and sends what lies outside the mapping.
  lemma SafeIffInBounds(k: Config, s0: State)
    requires Init(k, s0)
    ensures (forall run: seq<State> :: IsRun(k, run) && run[0] == s0 ==> SafeThroughout(k, run)) <==> k.Sendable()
  {
    if k.Sendable() {
      forall run: seq<State> | IsRun(k, run) && run[0] == s0 ensures SafeThroughout(k, run) {
        forall i, a | 0 <= i < |run| && Enabled(k, run[i], a) ensures Safe(k, run[i], a) {
          RunKeeps(k, run, i);
          IsSafe(k, run[i], a);
        }
      }
    } else {
      var n: nat :| n < k.Total() && !Fits(|k.file|, n, k.Total(), k.c);
      var run, t := ReadsOutside(k, s0, n);
      assert !Safe(k, run[|run| - 1], Go(t));
    }
  }

  // The task of a part that does not fit comes to send it, or another such part.
  lemma ReadsOutside(k: Config, s0: State, n: nat) returns (run: seq<State>, t: nat)
    requires Init(k, s0) && n < k.Total() && !k.FitsPart(n)
    ensures IsRun(k, run) && run[0] == s0 && Enabled(k, run[|run| - 1], Go(t)) && !Safe(k, run[|run| - 1], Go(t))
  {
    t := RangesPartition(k.nb, n);
    run := [s0];
    InitInv(k, s0);
    run := Extended(k, run, Break(t));
    run := ComeTo(k, run, t, n);
  }

  lemma {:induction false} ComeTo(k: Config, run: seq<State>, t: nat, n: nat) returns (run2: seq<State>)
    requires IsRun(k, run) && Inv(k, run[|run| - 1])
    requires var s := run[|run| - 1];
             t < |k.nb| && s.wires[t].Broken? && s.tasks[t].Ready? && s.tasks[t].n <= n < RangeOf(k.nb, t).end
                 && !k.FitsPart(n)
    ensures IsRun(k, run2) && run2[0] == run[0] && Enabled(k, run2[|run2| - 1], Go(t))
        && !Safe(k, run2[|run2| - 1], Go(t))
    decreases n - run[|run| - 1].tasks[t].n
  {
    if !k.FitsPart(run[|run| - 1].tasks[t].n) {
      run2 := run;
    } else {
      run2 := Extended(k, run, Go(t));
      run2 := Extended(k, run2, Receive(t));
      run2 := ComeTo(k, run2, t, n);
    }
  }
}
