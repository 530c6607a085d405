// What happens to an explicit producer when a dequeue_bulk asks for no items: it may look up a block
// that nobody has claimed anything in, and read an index entry while the producer writes it.
module ExplicitFaults {
  import C = Counters
  import opened ExplicitQueue
  import opened ExplicitRuns
  import opened Modular
  import opened SubQueue

  // One more step of a run.
  lemma Extended(run: seq<State>, a: Action) returns (run2: seq<State>)
    requires IsRun(run, 0) && Enabled(Last(run), a) && Safe(Last(run), a)
    ensures IsRun(run2, 0) && Last(run2) == Step(Last(run), a)
  {
    run2 := run + [Step(Last(run), a)];
    assert Stepped(run2[|run| - 1], run2[|run|], 0);
    forall i | 0 <= i < |run2| - 1 ensures Stepped(run2[i], run2[i + 1], 0) {
      if i < |run| - 1 { assert Stepped(run[i], run[i + 1], 0); }
    }
  }

  // ---- One block, filled by the producer ----

  // Storage with an item in the first n cells.
  function CellsOf(n: nat): seq<Cell> {
    seq(BLOCK_SIZE, i requires 0 <= i => if i < n then Item(7) else Raw)
  }

  function Unset(): seq<bool> { seq(BLOCK_SIZE, _ => false) }

  function NewEntries(): seq<Entry> { seq(INITIAL_SIZE, _ => Entry(0, 0)) }

  // Two consumers, and two blocks in the pool.
  function Start(): State {
    State(C.State(0, 0, 0, 0, [], [C.Idle, C.Idle]), [Block(CellsOf(0), Unset(), 0), Block(CellsOf(0), Unset(), 0)],
          [Header(NewEntries(), -1)], INITIAL_SIZE, 0, 0, NULL, {0, 1}, {}, Idle, [Off, Off], map[], [])
  }

  // The first block has been opened, and n items enqueued.
  function Filled(n: nat): State {
    State(C.State(n, 0, 0, 0, [], [C.Idle, C.Idle]), [Block(CellsOf(n), Unset(), 0), Block(CellsOf(0), Unset(), 0)],
          [Header(NewEntries(), 0)], INITIAL_SIZE, 1, 1, 0, {1}, {}, Idle, [Off, Off], map[], seq(n, _ => 7))
  }

  // Resetting flags that are not set.
  lemma {:induction false} ResetAll(run: seq<State>, b: nat, i: nat) returns (run2: seq<State>)
    requires IsRun(run, 0) && i < BLOCK_SIZE && Last(run).prod == ResetNew(7, b, i)
    requires Usable(Last(run), b) && Last(run).blocks[b].empty == Unset()
    ensures IsRun(run2, 0) && Last(run2) == Last(run).(prod := Link(7, b))
    decreases BLOCK_SIZE - i
  {
    var next := Extended(run, Produce(Fail));
    assert Unset()[i := false] == Unset();
    assert Last(next).blocks == Last(run).blocks;
    if i + 1 == BLOCK_SIZE {
      run2 := next;
    } else {
      run2 := ResetAll(next, b, i + 1);
    }
  }

  lemma BlockIsTaken() returns (run: seq<State>)
    ensures IsRun(run, 0) && Last(run) == Start().(prod := ResetNew(7, 0, 0), free := {1})
  {
    assert INITIAL_SIZE == IntPow2(4);
    run := [Start()];
    run := Extended(run, Enqueue(7));
    run := Extended(run, Produce(Fail));
    run := Extended(run, Produce(Pick(0)));
  }

  lemma BlockIsLinked() returns (run: seq<State>)
    ensures IsRun(run, 0) && Last(run) == Start().(prod := SetBase(7), used := 1, tailBlock := 0, free := {1})
  {
    run := BlockIsTaken();
    run := ResetAll(run, 0, 0);
    run := Extended(run, Produce(Fail));
  }

  lemma EntryIsSet() returns (run: seq<State>)
    ensures IsRun(run, 0) && Last(run) == Start().(prod := SetFront(7), used := 1, tailBlock := 0, free := {1})
  {
    run := BlockIsLinked();
    assert NewEntries()[0 := Entry(0, 0)] == NewEntries();
    run := Extended(run, Produce(Fail));
    run := Extended(run, Produce(Fail));
    assert Last(run).headers == Start().headers;
  }

  lemma BlockIsOpen() returns (run: seq<State>)
    ensures IsRun(run, 0) && Last(run) == Filled(0).(prod := Construct(7))
  {
    run := EntryIsSet();
    run := Extended(run, Produce(Fail));
  }

  lemma AddOne(run: seq<State>, n: nat) returns (run2: seq<State>)
    requires n < BLOCK_SIZE && IsRun(run, 0) && Last(run) == Filled(n).(prod := Construct(7))
    ensures IsRun(run2, 0) && Last(run2) == Filled(n + 1)
  {
    run2 := Extended(run, Produce(Fail));
    run2 := Extended(run2, Produce(Fail));
    assert Last(run2).blocks[0].cells == CellsOf(n + 1);
    assert Last(run2).items == Filled(n + 1).items;
  }

  lemma {:induction false} Fill(n: nat) returns (run: seq<State>)
    requires 0 < n <= BLOCK_SIZE
    ensures IsRun(run, 0) && Last(run) == Filled(n)
  {
    if n == 1 {
      run := BlockIsOpen();
    } else {
      run := Fill(n - 1);
      run := Extended(run, Enqueue(7));
    }
    run := AddOne(run, n - 1);
  }

  // ---- A consumer that asks for nothing, behind one that takes everything ----

  lemma Asking() returns (run: seq<State>)
    ensures IsRun(run, 0)
    ensures Last(run) == Filled(BLOCK_SIZE).(ctr := C.State(BLOCK_SIZE, 0, 0, 0, [], [C.AddOpt(0, 0), C.Idle]))
  {
    run := Fill(BLOCK_SIZE);
    run := Extended(run, Dequeue(0, 0));
    run := Extended(run, Claim(0));
    run := Extended(run, Claim(0));
  }

  lemma Ticket() returns (run: seq<State>)
    ensures IsRun(run, 0)
    ensures Last(run) == Filled(BLOCK_SIZE).(ctr := C.State(BLOCK_SIZE, 0, 0, 0, [], [C.AddHead(0), C.Idle]))
  {
    run := Asking();
    run := Extended(run, Claim(0));
    run := Extended(run, Claim(0));
  }

  function AllClaimed(pc: C.Pc, taker: Taker): State {
    Filled(BLOCK_SIZE).(
      ctr := C.State(BLOCK_SIZE, BLOCK_SIZE, BLOCK_SIZE, 0, seq(BLOCK_SIZE, _ => 1), [pc, C.Claimed(0, BLOCK_SIZE)]),
      takers := [taker, LoadIndex])
  }

  lemma AskingForAll() returns (run: seq<State>)
    ensures IsRun(run, 0)
    ensures Last(run) == Filled(BLOCK_SIZE).(
              ctr := C.State(BLOCK_SIZE, 0, 0, 0, [], [C.AddHead(0), C.AddOpt(0, BLOCK_SIZE)]))
  {
    run := Ticket();
    run := Extended(run, Dequeue(1, BLOCK_SIZE));
    run := Extended(run, Claim(1));
    run := Extended(run, Claim(1));
  }

  lemma FullClaim() returns (run: seq<State>)
    ensures IsRun(run, 0) && Last(run) == AllClaimed(C.AddHead(0), Off)
  {
    run := AskingForAll();
    run := Extended(run, Claim(1));
    run := Extended(run, Claim(1));
    run := Extended(run, Claim(1));
  }

  // Consumer 0 claims nothing at index 32, which has no block yet, and computes where its entry is.
  lemma EmptyClaim() returns (run: seq<State>)
    ensures IsRun(run, 0) && Last(run) == AllClaimed(C.Claimed(BLOCK_SIZE, 0), LoadBlock(0, 1, BLOCK_SIZE))
  {
    run := FullClaim();
    run := Extended(run, Claim(0));
    run := Extended(run, Fetch(0));
    run := Extended(run, Fetch(0));
    assert SlotFor(Last(run), 0, 0, BLOCK_SIZE) == 1;
    run := Extended(run, Fetch(0));
  }

  // Meanwhile the producer takes the other block to open it there.
  lemma NextBlock() returns (run: seq<State>)
    ensures IsRun(run, 0)
    ensures Last(run) == AllClaimed(C.Claimed(BLOCK_SIZE, 0), LoadBlock(0, 1, BLOCK_SIZE)).(prod := ResetNew(7, 1, 0),
        free := {})
  {
    run := EmptyClaim();
    run := Extended(run, Enqueue(7));
    run := Extended(run, Produce(Fail));
    run := Extended(run, Produce(Fail));
    run := Extended(run, Produce(Pick(1)));
  }

  // Consumer 0 is about to read the entry that the producer is about to write.
  lemma EntryIsRead() returns (run: seq<State>)
    ensures IsRun(run, 0)
    ensures var s := Last(run);
            && Enabled(s, Produce(Fail)) && s.prod == SetBase(7) && !Safe(s, Produce(Fail))
            && Enabled(s, Fetch(0)) && s.ctr.pcs[0] == C.Claimed(BLOCK_SIZE, 0)
            && Reads(s.takers[0], Current(s), s.prFront)
  {
    run := NextBlock();
    run := ResetAll(run, 1, 0);
    run := Extended(run, Produce(Fail));
    assert Reads(Last(run).takers[0], Current(Last(run)), Last(run).prFront);
  }

  // ---- When every instruction is safe ----

  ghost predicate SafeThroughout(run: seq<State>) {
    forall i, a :: 0 <= i < |run| && Enabled(run[i], a) ==> Safe(run[i], a)
  }

  // Callers must ask for at least one item, and it is enough that they do.
  lemma SafeIffItemsAreAskedFor(least: nat)
    ensures (forall run: seq<State> :: IsRun(run, least) ==> SafeThroughout(run)) <==> least > 0
  {
    if least > 0 {
      forall run: seq<State> | IsRun(run, least) ensures SafeThroughout(run) {
        AskingMore(run, least);
        forall i, a | 0 <= i < |run| && Enabled(run[i], a) ensures Safe(run[i], a) { EveryStepIsSafe(run, i, a); }
      }
    } else {
      var run := EntryIsRead();
      assert !Safe(run[|run| - 1], Produce(Fail));
    }
  }

  lemma AskingMore(run: seq<State>, least: nat)
    requires IsRun(run, least) && least > 0
    ensures IsProperRun(run)
  {
    forall i | 0 <= i < |run| - 1 ensures Stepped(run[i], run[i + 1], 1) { assert Stepped(run[i], run[i + 1], least); }
  }
}
