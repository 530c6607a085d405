// When the implicit producer's block index doubles: only while every entry of the current one serves
// a block that is not finished.
module ImplicitGrowth {
  import C = Counters
  import opened ImplicitInvariant
  import opened ImplicitQueue
  import opened ImplicitRuns
  import opened ImplicitSteps
  import opened Modular
  import opened SubQueue

  function Cap(s: State): nat { if s.headers == [] then 0 else |s.headers[Current(s)].index| }

  // The entry at block n's position has never been used.
  predicate FreshAt(s: State, hg: HeaderGhost, n: nat) {
    var p := Pos(s.headers, hg, Current(s), n);
    InHeader(s, Current(s), p) && EntryAt(s, Current(s), p).key == INVALID_BLOCK_BASE
  }

  // The positions that no block from low on has are free for the blocks to come, and unused; the
  // producer looks at an entry's value only when there are none.
  ghost predicate Unused(s: State, g: Ghost) {
    && SameLengths(s.headers, g.hg)
    && (forall n {:trigger FreshAt(s, g.hg, n)} :: |g.ent| <= n < g.low + Cap(s) ==> FreshAt(s, g.hg, n))
    && (s.prod.TestValue? || s.prod.Grow? ==> |g.ent| > |g.blk| || |g.ent| >= g.low + Cap(s))
  }

  predicate KeysKept(s: State, s2: State) {
    && |s.headers| == |s2.headers| > 0 && s2.headers[Current(s)].index == s.headers[Current(s)].index
    && |s.entries| == |s2.entries| && forall e :: 0 <= e < |s.entries| ==> s2.entries[e].key == s.entries[e].key
  }

  lemma FreshKept(s: State, hg: HeaderGhost, s2: State, n: nat)
    requires KeysKept(s, s2) && FreshAt(s, hg, n)
    ensures FreshAt(s2, hg, n)
  {
  }

  lemma UnusedKept(s: State, g: Ghost, s2: State, g2: Ghost)
    requires Unused(s, g) && KeysKept(s, s2) && g2.hg == g.hg && g2.low == g.low && |g2.ent| == |g.ent|
    requires s2.prod.TestValue? || s2.prod.Grow? ==> |g2.ent| > |g2.blk| || |g2.ent| >= g2.low + Cap(s2)
    ensures Unused(s2, g2)
  {
    forall n: nat | |g2.ent| <= n < g2.low + Cap(s2) ensures FreshAt(s2, g2.hg, n) {
      assert FreshAt(s, g.hg, n);
      FreshKept(s, g.hg, s2, n);
    }
  }

  lemma FetchKeepsKeys(s: State, t: nat)
    requires Enabled(s, Fetch(t)) && SafeFetch(s, t) && s.headers != []
    ensures KeysKept(s, FetchStep(s, t)) && FetchStep(s, t).prod == s.prod
  {
  }

  // Of the producer's instructions, all but two.
  lemma ProduceKeepsKeys(s: State, g: Ghost, c: Choice)
    requires Enabled(s, Produce(c)) && SafeProduce(s, c) && s.headers != [] && !s.prod.SetKey?
    requires !(s.prod.Grow? && !c.Fail?)
    ensures var s2, g2 := ProduceStep(s, c), TrackProduce(s, g, c);
            && KeysKept(s, s2) && g2.hg == g.hg && g2.low == g.low && g2.ent == g.ent
            && (s2.prod.TestValue? || s2.prod.Grow? ==> (s.prod.TestKey? || s.prod.TestValue?) && g2 == g)
  {
  }

  // If the entry after the tail has been used, no unused one is left.
  lemma UsedIsFull(s: State, g: Ghost)
    requires Inv(s, g) && Unused(s, g) && s.prod.TestKey? && InHeader(s, Current(s), NextPos(s))
    requires EntryAt(s, Current(s), NextPos(s)).key != INVALID_BLOCK_BASE
    ensures |g.ent| > |g.blk| || |g.ent| >= g.low + Cap(s)
  {
    assert HeaderOk(s.headers, |s.entries|, g.ent, g.low, g.hg, Current(s));
    NextPosIs(s, g);
    assert |g.ent| == |g.blk| < g.low + Cap(s) ==> FreshAt(s, g.hg, |g.blk|);
  }

  // Taking an unused entry leaves the others unused.
  lemma SetKeyFresh(s: State, g: Ghost, c: Choice, n: nat)
    requires Inv(s, g) && Enabled(s, Produce(c)) && SafeProduce(s, c) && s.prod.SetKey?
    requires |g.blk| < n < |g.blk| + Cap(s) && FreshAt(s, g.hg, n)
    ensures FreshAt(ProduceStep(s, c), g.hg, n)
  {
    var cur, nb := Current(s), |g.blk|;
    var p, q := Pos(s.headers, g.hg, cur, nb), Pos(s.headers, g.hg, cur, n);
    ModApart(nb + g.hg.shift[cur], n + g.hg.shift[cur], Cap(s));
    assert HeaderOk(s.headers, |s.entries|, g.ent, g.low, g.hg, cur);
    assert s.headers[cur].index[p] == s.prod.e;
    assert p < q || q < p;
  }

  lemma FreshSame(s: State, hg: HeaderGhost, hg2: HeaderGhost, n: nat)
    requires hg2.shift == hg.shift && FreshAt(s, hg, n)
    ensures FreshAt(s, hg2, n)
  {
  }

  lemma SetKeyUnused(s: State, g: Ghost, c: Choice)
    requires Inv(s, g) && Unused(s, g) && Enabled(s, Produce(c)) && SafeProduce(s, c) && s.prod.SetKey?
    ensures Unused(ProduceStep(s, c), TrackProduce(s, g, c))
  {
    var s2, g2 := ProduceStep(s, c), TrackProduce(s, g, c);
    forall n: nat | |g2.ent| <= n < g2.low + Cap(s2) ensures FreshAt(s2, g2.hg, n) {
      assert FreshAt(s, g.hg, n);
      SetKeyFresh(s, g, c, n);
      FreshSame(s2, g.hg, g2.hg, n);
    }
  }

  // The new half of a doubled index.
  lemma GrowFresh(s: State, g: Ghost, c: Choice, n: nat)
    requires Inv(s, g) && Enabled(s, Produce(c)) && SafeProduce(s, c) && s.prod.Grow? && !c.Fail?
    requires |g.blk| <= n < |g.blk| + Cap(s)
    ensures FreshAt(ProduceStep(s, c), TrackProduce(s, g, c).hg, n)
  {
    var s2, g2, cap := ProduceStep(s, c), TrackProduce(s, g, c), Cap(s);
    GrownPos(cap, |g.blk|, n);
    assert Pos(s2.headers, g2.hg, Current(s2), n) == cap + n - |g.blk|;
    assert s2.headers[Current(s2)].index[cap + n - |g.blk|] == |s.entries| + (n - |g.blk|);
  }

  lemma GrowUnused(s: State, g: Ghost, c: Choice)
    requires Inv(s, g) && Unused(s, g) && Enabled(s, Produce(c)) && SafeProduce(s, c) && s.prod.Grow? && !c.Fail?
    ensures Unused(ProduceStep(s, c), TrackProduce(s, g, c))
  {
    var s2, g2 := ProduceStep(s, c), TrackProduce(s, g, c);
    forall n: nat | |g2.ent| <= n < g2.low + Cap(s2) ensures FreshAt(s2, g2.hg, n) { GrowFresh(s, g, c, n); }
  }

  lemma UnusedProduce(s: State, g: Ghost, c: Choice)
    requires Inv(s, g) && Unused(s, g) && Enabled(s, Produce(c)) && SafeProduce(s, c)
    ensures Unused(ProduceStep(s, c), TrackProduce(s, g, c))
  {
    if s.prod.SetKey? {
      SetKeyUnused(s, g, c);
    } else if s.prod.Grow? && !c.Fail? {
      GrowUnused(s, g, c);
    } else {
      ProduceKeepsKeys(s, g, c);
      if s.prod.TestKey? && ProduceStep(s, c).prod.TestValue? { UsedIsFull(s, g); }
      UnusedKept(s, g, ProduceStep(s, c), TrackProduce(s, g, c));
    }
  }

  lemma UnusedElse(s: State, g: Ghost, a: Action)
    requires Unused(s, g) && Enabled(s, a) && Safe(s, a) && !a.Produce?
    ensures Unused(Step(s, a), Track(s, g, a))
  {
    if a.Fetch? { FetchKeepsKeys(s, a.t); }
    UnusedKept(s, g, Step(s, a), Track(s, g, a));
  }

  lemma UnusedStep(s: State, g: Ghost, a: Action)
    requires Inv(s, g) && Unused(s, g) && Enabled(s, a) && Safe(s, a)
    ensures Unused(Step(s, a), Track(s, g, a))
  {
    if a.Produce? { UnusedProduce(s, g, a.c); } else { UnusedElse(s, g, a); }
  }

  lemma {:induction false} RunUnused(run: seq<State>, i: nat) returns (g: Ghost)
    requires IsProperRun(run) && i < |run|
    ensures Inv(run[i], g) && Accounted(run[i].ctr, g.done) && Unused(run[i], g)
  {
    if i == 0 {
      g := InitInv(run[0]);
    } else {
      var g0 := RunUnused(run, i - 1);
      assert Stepped(run[i - 1], run[i - 1 + 1], 1);
      var a :| Enabled(run[i - 1], a) && AsksFor(a, 1) && (Safe(run[i - 1], a) ==> run[i] == Step(run[i - 1], a));
      StepKeeps(run[i - 1], g0, a);
      StepAccounts(run[i - 1], g0, a);
      UnusedStep(run[i - 1], g0, a);
      g := Track(run[i - 1], g0, a);
    }
  }

  // With no dequeue under way and an index that is not full of blocks in use, the entry after the
  // tail is free.
  lemma EntryIsFree(s: State, g: Ghost)
    requires Inv(s, g) && Accounted(s.ctr, g.done) && Unused(s, g) && s.prod.TestValue?
    requires forall t :: 0 <= t < |s.takers| ==> s.takers[t].Off?
    requires s.ctr.tail - s.ctr.head <= BLOCK_SIZE * (Cap(s) - 1)
    ensures InHeader(s, Current(s), NextPos(s)) && EntryAt(s, Current(s), NextPos(s)).value == NULL
  {
    var cur, nb, cap := Current(s), |g.blk|, Cap(s);
    assert HeaderOk(s.headers, |s.entries|, g.ent, g.low, g.hg, cur);
    NextPosIs(s, g);
    if |g.ent| > nb {
      assert EntryOk(s.entries, g.ent, g.blk, g.retired, true, nb);
    } else {
      ModTurn(g.low + g.hg.shift[cur], cap);
      assert Pos(s.headers, g.hg, cur, nb) == Pos(s.headers, g.hg, cur, g.low);
      assert EntryOk(s.entries, g.ent, g.blk, g.retired, true, g.low);
      assert BlockOk(s.blocks, g.blk, g.low, g.done, g.closer, g.retired, g.released, g.user, g.low);
      ReleasedAtRest(s, g, g.low);
    }
  }

  // The index doubles only when it must: while no dequeue is under way an enqueue asks for memory only
  // if more than BLOCK_SIZE * (capacity - 1) items are waiting.
  lemma GrowsOnlyWhenFull(run: seq<State>, i: nat, c: Choice)
    requires IsProperRun(run) && i < |run| && Enabled(run[i], Produce(c))
    requires forall t :: 0 <= t < |run[i].takers| ==> run[i].takers[t].Off?
    requires run[i].ctr.tail - run[i].ctr.head <= BLOCK_SIZE * (Cap(run[i]) - 1)
    ensures SafeProduce(run[i], c)
    ensures run[i].prod.TestKey? || run[i].prod.TestValue? ==> !ProduceStep(run[i], c).prod.Grow?
  {
    var g := RunUnused(run, i);
    EveryStepIsSafe(run, i, Produce(c));
    if run[i].prod.TestValue? { EntryIsFree(run[i], g); }
  }
}
