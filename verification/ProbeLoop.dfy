// The probing loops of get_or_add_implicit_producer, over the arrays of one table and with one thread
// at a time (src/libtools/utils/concurentqueue.hh:3182-3213, 3263-3282).  ProducerHash shows that a
// quarter of every table stays free and interleaves the steps of any number of threads.
module ProbeLoop {
  import opened Modular
  import opened P = ProducerHash

  // The id is where a search from h finds it: no slot before it on the way is empty.
  predicate Findable(keys: seq<nat>, h: nat, id: nat) {
    |keys| > 0
    && forall j :: 0 <= j < |keys| && keys[At(h, j, |keys|)] == id ==> NoneEmpty(keys, h, j)
  }

  predicate NoneEmpty(keys: seq<nat>, h: nat, n: nat)
    requires |keys| > 0
  {
    forall i :: 0 <= i < n ==> keys[At(h, i, |keys|)] != EMPTY
  }

  class Probed {
    var keys: array<nat>
    var values: array<nat>

    ghost predicate Valid()
      reads this
    {
      0 < keys.Length == values.Length && keys != values
    }

    constructor (capacity: nat)
      requires capacity > 0
      ensures Valid() && fresh(keys) && fresh(values) && keys.Length == capacity
      ensures forall p :: 0 <= p < capacity ==> keys[p] == EMPTY
    {
      keys := new nat[capacity](_ => EMPTY);
      values := new nat[capacity](_ => NO_PRODUCER);
    }

    // The search: up to the id, or to an empty slot.
    method Find(h: nat, id: nat) returns (found: bool, p: nat)
      requires Valid() && id != EMPTY && Findable(keys[..], h, id)
      requires exists f :: 0 <= f < keys.Length && keys[f] == EMPTY
      ensures found <==> id in keys[..]
      ensures p < keys.Length && (found ==> keys[p] == id)
    {
      ghost var free := FreeProbe(keys[..], h);
      p := h % keys.Length;
      ghost var j := 0;
      while true
        invariant j <= free && p == At(h, j, keys.Length)
        invariant forall i :: 0 <= i < j ==> keys[At(h, i, keys.Length)] != id && keys[At(h, i, keys.Length)] != EMPTY
        decreases free - j
      {
        if keys[p] == id { return true, p; }
        if keys[p] == EMPTY {
          StopsAtEmpty(keys[..], h, id, j);
          return false, p;
        }
        Onward(h, j, keys.Length);
        p := (p + 1) % keys.Length;
        j := j + 1;
      }
    }

    // The insertion's search: to the first empty slot, met by probe number j.
    method FirstEmpty(h: nat) returns (p: nat, ghost j: nat)
      requires Valid() && exists f :: 0 <= f < keys.Length && keys[f] == EMPTY
      ensures p == At(h, j, keys.Length) < keys.Length && j < keys.Length
      ensures keys[p] == EMPTY && NoneEmpty(keys[..], h, j)
    {
      ghost var free := FreeProbe(keys[..], h);
      p := h % keys.Length;
      j := 0;
      while keys[p] != EMPTY
        invariant j <= free && p == At(h, j, keys.Length) < keys.Length
        invariant NoneEmpty(keys[..], h, j)
        decreases free - j
      {
        Onward(h, j, keys.Length);
        p := (p + 1) % keys.Length;
        j := j + 1;
      }
    }

    method Add(h: nat, id: nat, value: nat) returns (p: nat)
      requires Valid() && id != EMPTY && id !in keys[..]
      requires exists f :: 0 <= f < keys.Length && keys[f] == EMPTY
      modifies keys, values
      ensures p < keys.Length && old(keys[p]) == EMPTY
      ensures keys[..] == old(keys[..])[p := id] && values[..] == old(values[..])[p := value]
      ensures Findable(keys[..], h, id)
      ensures OthersFindable(old(keys[..]), keys[..], id)
    {
      ghost var j;
      p, j := FirstEmpty(h);
      ghost var was := keys[..];
      AddedIsFindable(was, h, id, j, p);
      OthersStayFindable(was, p, id);
      keys[p] := id;
      values[p] := value;
      assert keys[..] == was[p := id];
    }
  }

  // Every other id that could be found still can.
  ghost predicate OthersFindable(keys: seq<nat>, keys2: seq<nat>, id: nat) {
    forall g, other :: other != id && other != EMPTY && Findable(keys, g, other) ==> Findable(keys2, g, other)
  }

  // A free slot, and when it is met by a search from h.
  lemma FreeProbe(keys: seq<nat>, h: nat) returns (j: nat)
    requires exists f :: 0 <= f < |keys| && keys[f] == EMPTY
    ensures j < |keys| && keys[At(h, j, |keys|)] == EMPTY
  {
    var f: nat :| f < |keys| && keys[f] == EMPTY;
    ProbesCover(h, f, |keys|);
    j := (f - h) % |keys|;
  }

  lemma Onward(h: nat, j: nat, capacity: nat)
    requires capacity > 0
    ensures (At(h, j, capacity) + 1) % capacity == At(h, j + 1, capacity)
  {
    ModAdd(h + j, 1, capacity);
  }

  // An empty slot on the way: the id is nowhere.
  lemma StopsAtEmpty(keys: seq<nat>, h: nat, id: nat, j: nat)
    requires Findable(keys, h, id) && j < |keys| && keys[At(h, j, |keys|)] == EMPTY && id != EMPTY
    requires forall i :: 0 <= i < j ==> keys[At(h, i, |keys|)] != id
    ensures id !in keys
  {
    forall q | 0 <= q < |keys| ensures keys[q] != id {
      ProbesCover(h, q, |keys|);
      var m := (q - h) % |keys|;
      assert keys[At(h, m, |keys|)] == id ==> NoneEmpty(keys, h, m);
    }
  }

  lemma AddedIsFindable(keys: seq<nat>, h: nat, id: nat, j: nat, p: nat)
    requires |keys| > 0 && j < |keys| && NoneEmpty(keys, h, j) && id != EMPTY && id !in keys && p == At(h, j, |keys|)
    ensures Findable(keys[p := id], h, id)
  {
    var keys2 := keys[p := id];
    forall m | 0 <= m < |keys2| && keys2[At(h, m, |keys2|)] == id ensures NoneEmpty(keys2, h, m) {
      if m < j { ModApart(h + m, h + j, |keys|); }
      if j < m { ModApart(h + j, h + m, |keys|); }
    }
  }

  lemma OthersStayFindable(keys: seq<nat>, p: nat, id: nat)
    requires p < |keys| && id != EMPTY
    ensures OthersFindable(keys, keys[p := id], id)
  {
    var keys2 := keys[p := id];
    forall g: nat, other: nat | other != id && Findable(keys, g, other) ensures Findable(keys2, g, other) {
      forall j | 0 <= j < |keys2| && keys2[At(g, j, |keys2|)] == other ensures NoneEmpty(keys2, g, j) {
        assert NoneEmpty(keys, g, j);
      }
    }
  }
}
