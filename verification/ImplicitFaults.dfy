// What happens to an implicit producer when its callers or the allocator do not do as expected: a
// dequeue_bulk that asks for no items can return a block twice, and a producer whose first index
// could not be allocated follows a null pointer.  Both conditions are exact.
module ImplicitFaults {
  import C = Counters
  import opened ImplicitQueue
  import opened ImplicitRuns
  import opened SubQueue

  // One more step of a run.
  lemma Extended(run: seq<State>, least: nat, a: Action) returns (run2: seq<State>)
    requires IsRun(run, least) && Enabled(Last(run), a) && AsksFor(a, least) && Safe(Last(run), a)
    ensures IsRun(run2, least) && run2[0] == run[0] && Last(run2) == Step(Last(run), a)
  {
    run2 := run + [Step(Last(run), a)];
    assert Stepped(run2[|run| - 1], run2[|run|], least);
    forall i | 0 <= i < |run2| - 1 ensures Stepped(run2[i], run2[i + 1], least) {
      if i < |run| - 1 { assert Stepped(run[i], run[i + 1], least); }
    }
  }

  // ---- One block, filled by the producer ----

  // Storage with an item in the cells from lo to hi.
  function CellsOf(lo: nat, hi: nat): seq<Cell> {
    seq(BLOCK_SIZE, i requires 0 <= i => if lo <= i < hi then Item(7) else Raw)
  }

  function Slots(): seq<nat> { seq(INITIAL_INDEX_SIZE, i requires 0 <= i => i) }

  function FreshEntries(): seq<Entry> { seq(INITIAL_INDEX_SIZE, i requires 0 <= i => Entry(INVALID_BLOCK_BASE, NULL)) }

  // Two consumers, and one block in the pool.
  function Start(): State {
    State(C.State(0, 0, 0, 0, [], [C.Idle, C.Idle]), [Block(CellsOf(0, 0), 0)], FreshEntries(),
          [Header(INITIAL_INDEX_SIZE - 1, Slots())], 0, {0}, {}, Idle, [Off, Off], map[], [])
  }

  // The block has been opened, and n items enqueued.
  function Filled(n: nat): State {
    State(C.State(n, 0, 0, 0, [], [C.Idle, C.Idle]), [Block(CellsOf(0, n), 0)], FreshEntries()[0 := Entry(0, 1)],
          [Header(0, Slots())], 0, {}, {}, Idle, [Off, Off], map[], seq(n, _ => 7))
  }

  lemma KeyIsSet(least: nat) returns (run: seq<State>)
    ensures IsRun(run, least) && run[0].headers != []
    ensures Last(run) == Start().(prod := SetTail(7, 0), entries := FreshEntries()[0 := Entry(0, NULL)])
  {
    run := [Start()];
    run := Extended(run, least, Enqueue(7));
    run := Extended(run, least, Produce(Fail));
    assert NextPos(Start()) == 0;
    run := Extended(run, least, Produce(Fail));
    run := Extended(run, least, Produce(Fail));
  }

  lemma BlockIsOpen(least: nat) returns (run: seq<State>)
    ensures IsRun(run, least) && run[0].headers != []
    ensures Last(run) == Filled(0).(prod := Construct(7))
  {
    run := KeyIsSet(least);
    assert NextPos(Last(run)) == 0;
    run := Extended(run, least, Produce(Fail));
    run := Extended(run, least, Produce(Pick(0)));
    run := Extended(run, least, Produce(Fail));
    run := Extended(run, least, Produce(Fail));
    assert Last(run).entries == FreshEntries()[0 := Entry(0, 1)];
  }

  lemma AddOne(run: seq<State>, least: nat, n: nat) returns (run2: seq<State>)
    requires n < BLOCK_SIZE && IsRun(run, least) && Last(run) == Filled(n).(prod := Construct(7))
    ensures IsRun(run2, least) && run2[0] == run[0] && Last(run2) == Filled(n + 1)
  {
    run2 := Extended(run, least, Produce(Fail));
    run2 := Extended(run2, least, Produce(Fail));
    assert Last(run2).blocks[0].cells == CellsOf(0, n + 1);
    assert Last(run2).items == Filled(n + 1).items;
  }

  lemma {:induction false} Fill(least: nat, n: nat) returns (run: seq<State>)
    requires 0 < n <= BLOCK_SIZE
    ensures IsRun(run, least) && run[0].headers != [] && Last(run) == Filled(n)
  {
    if n == 1 {
      run := BlockIsOpen(least);
    } else {
      run := Fill(least, n - 1);
      run := Extended(run, least, Enqueue(7));
    }
    run := AddOne(run, least, n - 1);
  }

  // ---- A consumer that asks for nothing, and one that takes everything ----

  // Consumer 0 has claimed no items, and is about to add 0 to the count of the block it found.
  function Waiting(): State {
    Filled(BLOCK_SIZE).(ctr := C.State(BLOCK_SIZE, 0, 0, 0, [], [C.Claimed(0, 0), C.Idle]),
        takers := [Count(0, 0, 0, 0, 0, 0), Off])
  }

  lemma EmptyClaim() returns (run: seq<State>)
    ensures IsRun(run, 0) && run[0].headers != []
    ensures Last(run) == Filled(BLOCK_SIZE).(ctr := C.State(BLOCK_SIZE, 0, 0, 0, [], [C.Claimed(0, 0), C.Idle]),
        takers := [LoadIndex, Off])
  {
    run := Fill(0, BLOCK_SIZE);
    run := Extended(run, 0, Dequeue(0, 0));
    run := Extended(run, 0, Claim(0));
    run := Extended(run, 0, Claim(0));
    run := Extended(run, 0, Claim(0));
    run := Extended(run, 0, Claim(0));
    run := Extended(run, 0, Claim(0));
  }

  lemma AskForNothing() returns (run: seq<State>)
    ensures IsRun(run, 0) && run[0].headers != [] && Last(run) == Waiting()
  {
    run := EmptyClaim();
    run := Extended(run, 0, Fetch(0));
    run := Extended(run, 0, Fetch(0));
    assert SlotFor(Last(run), 0, 0, 0) == 0;
    run := Extended(run, 0, Fetch(0));
    run := Extended(run, 0, Fetch(0));
  }

  // Consumer 1 has claimed all the items, and taken n of them.
  function Taking(n: nat): State {
    Waiting().(
      ctr := C.State(BLOCK_SIZE, BLOCK_SIZE, BLOCK_SIZE, 0, seq(BLOCK_SIZE, _ => 1),
          [C.Claimed(0, 0), C.Claimed(0, BLOCK_SIZE)]),
      takers := [Count(0, 0, 0, 0, 0, 0), if n < BLOCK_SIZE then Take(0, 0, 0, 0, 0, n) else Count(0, 0, 0, 0, 0, n)],
      blocks := [Block(CellsOf(n, BLOCK_SIZE), 0)],
      got := map k | k in Range(0, n) :: 7)
  }

  lemma FullClaim() returns (run: seq<State>)
    ensures IsRun(run, 0) && run[0].headers != []
    ensures Last(run) == Taking(0).(takers := [Count(0, 0, 0, 0, 0, 0), LoadIndex])
  {
    run := AskForNothing();
    run := Extended(run, 0, Dequeue(1, BLOCK_SIZE));
    run := Extended(run, 0, Claim(1));
    run := Extended(run, 0, Claim(1));
    run := Extended(run, 0, Claim(1));
    run := Extended(run, 0, Claim(1));
    run := Extended(run, 0, Claim(1));
  }

  lemma AskForAll() returns (run: seq<State>)
    ensures IsRun(run, 0) && run[0].headers != [] && Last(run) == Taking(0)
  {
    run := FullClaim();
    run := Extended(run, 0, Fetch(1));
    run := Extended(run, 0, Fetch(1));
    assert SlotFor(Last(run), 0, 0, 0) == 0;
    run := Extended(run, 0, Fetch(1));
    run := Extended(run, 0, Fetch(1));
  }

  lemma {:induction false} TakeSome(n: nat) returns (run: seq<State>)
    requires n <= BLOCK_SIZE
    ensures IsRun(run, 0) && run[0].headers != [] && Last(run) == Taking(n)
  {
    if n == 0 {
      run := AskForAll();
    } else {
      run := TakeSome(n - 1);
      run := Extended(run, 0, Fetch(1));
      assert Last(run).blocks[0].cells == CellsOf(n, BLOCK_SIZE);
      assert Last(run).got == Taking(n).got;
    }
  }

  // A consumer that has claimed nothing is about to add 0 to the count of a block that is in the pool
  // already.  The count is BLOCK_SIZE, so set_many_empty would say that the block has just become
  // empty, and the consumer would return it to the pool once more.
  lemma ReturnedTwice() returns (run: seq<State>)
    ensures IsRun(run, 0) && run[0].headers != []
    ensures var s := Last(run);
            && Enabled(s, Fetch(0)) && s.ctr.pcs[0] == C.Claimed(0, 0) && s.takers[0] == Count(0, 0, 0, 0, 0, 0)
            && 0 in s.free && |s.blocks| == 1 && s.blocks[0].finished == BLOCK_SIZE && !Safe(s, Fetch(0))
  {
    run := TakeSome(BLOCK_SIZE);
    run := Extended(run, 0, Fetch(1));
    run := Extended(run, 0, Fetch(1));
    run := Extended(run, 0, Fetch(1));
  }

  // ---- When every instruction is safe ----

  ghost predicate SafeThroughout(run: seq<State>) {
    forall i, a :: 0 <= i < |run| && Enabled(run[i], a) ==> Safe(run[i], a)
  }

  // Callers must ask for at least one item, and it is enough that they do.
  lemma SafeIffItemsAreAskedFor(least: nat)
    ensures (forall run: seq<State> :: IsRun(run, least) && run[0].headers != [] ==> SafeThroughout(run)) <==> least > 0
  {
    if least > 0 {
      forall run: seq<State> | IsRun(run, least) && run[0].headers != [] ensures SafeThroughout(run) {
        AskingMore(run, least);
        forall i, a | 0 <= i < |run| && Enabled(run[i], a) ensures Safe(run[i], a) { EveryStepIsSafe(run, i, a); }
      }
    } else {
      var run := ReturnedTwice();
      assert !Safe(run[|run| - 1], Fetch(0));
    }
  }

  lemma AskingMore(run: seq<State>, least: nat)
    requires IsRun(run, least) && least > 0
    ensures IsRun(run, 1)
  {
    forall i | 0 <= i < |run| - 1 ensures Stepped(run[i], run[i + 1], 1) { assert Stepped(run[i], run[i + 1], least); }
  }

  // The constructor must have got its index, and it is enough that it did.
  lemma SafeIffIndexed(s: State)
    requires Init(s)
    ensures (forall run: seq<State> :: IsRun(run, 1) && run[0] == s ==> SafeThroughout(run)) <==> s.headers != []
  {
    if s.headers != [] {
      forall run: seq<State> | IsRun(run, 1) && run[0] == s ensures SafeThroughout(run) {
        forall i, a | 0 <= i < |run| && Enabled(run[i], a) ensures Safe(run[i], a) { EveryStepIsSafe(run, i, a); }
      }
    } else {
      var run := NullIndex(s);
      assert !Safe(run[|run| - 1], Produce(Fail));
    }
  }

  // The first enqueue looks for an entry through the null pointer.
  lemma NullIndex(s: State) returns (run: seq<State>)
    requires Init(s) && s.headers == []
    ensures IsRun(run, 1) && run[0] == s
    ensures Last(run).prod == TestKey(7) && Enabled(Last(run), Produce(Fail)) && !Safe(Last(run), Produce(Fail))
  {
    run := [s];
    run := Extended(run, 1, Enqueue(7));
    run := Extended(run, 1, Produce(Fail));
  }
}
