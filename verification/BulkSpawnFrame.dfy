/** The frame object itself, updated in place. Each method is a function of the source executed by one
    thread with nobody else moving; the step system interleaves the same memory operations. */
module BulkSpawnFrame {
  import opened BulkSpawn

  /** What `extract_continuation` comes back with: the slot of a stored continuation, or a slot whose
      owner has not stored yet, on which the source spins. */
  datatype Extracted = Found(index: nat) | MustWait(index: nat)

  function Count(b: seq<bool>): nat {
    if b == [] then 0 else Count(b[..|b| - 1]) + if b[|b| - 1] then 1 else 0
  }

  lemma {:induction false} CountBound(b: seq<bool>, k: nat)
    requires k <= |b|
    ensures Count(b[..k]) <= Count(b) && Count(b) <= Count(b[..k]) + |b| - k
  {
    if k == |b| {
      assert b[..k] == b;
    } else {
      assert b[..|b| - 1][..k] == b[..k];
      CountBound(b[..|b| - 1], k);
    }
  }

  function Total(b: seq<nat>): nat {
    if b == [] then 0 else Total(b[..|b| - 1]) + b[|b| - 1]
  }

  lemma {:induction false} TotalBound(b: seq<nat>, k: nat)
    requires k <= |b|
    ensures Total(b[..k]) <= Total(b)
  {
    if k == |b| {
      assert b[..k] == b;
    } else {
      assert b[..|b| - 1][..k] == b[..k];
      TotalBound(b[..|b| - 1], k);
    }
  }

  lemma Prefixes(b: seq<bool>, c: seq<nat>, i: nat)
    requires i < |b| == |c|
    ensures Count(b[..i + 1]) == Count(b[..i]) + if b[i] then 1 else 0
    ensures Total(c[..i + 1]) == Total(c[..i]) + c[i]
    ensures Count(b[..i + 1]) <= Count(b) && Total(c[..i + 1]) <= Total(c)
  {
    assert b[..i + 1][..i] == b[..i] && c[..i + 1][..i] == c[..i];
    CountBound(b, i + 1);
    TotalBound(c, i + 1);
  }

  lemma NothingYet(b: seq<bool>, c: seq<nat>, t: seq<Slot>)
    ensures Count(b[..0]) == 0 && Total(c[..0]) == 0 && Tombstoned(t, []) == t
  {
  }

  /** Slots with tombstones in the given places; a negative place is none. */
  function Tombstoned(t: seq<Slot>, places: seq<int>): (t': seq<Slot>)
    ensures |t'| == |t|
  {
    if places == [] then t
    else
      var u := Tombstoned(t, places[..|places| - 1]);
      var c := places[|places| - 1];
      if 0 <= c < |u| then u[c := Tombstone] else u
  }

  lemma TombstonedMore(t: seq<Slot>, places: seq<int>, c: int)
    ensures Tombstoned(t, places + [c]) == Tombstoned(Tombstoned(t, places), [c])
  {
    assert (places + [c])[..|places|] == places;
    assert [c][..0] == [];
  }

  /** There are tombstones in those places, and everything else is as it was. */
  lemma {:induction false} TombstonedAt(t: seq<Slot>, places: seq<int>, c: nat)
    requires c < |t|
    ensures Tombstoned(t, places)[c] == if c in places then Tombstone else t[c]
  {
    if places != [] {
      TombstonedAt(t, places[..|places| - 1], c);
      assert places == places[..|places| - 1] + [places[|places| - 1]];
    }
  }

  class Frame {
    const count: nat
    var started: nat
    var completed: nat
    var finalized: nat
    const threads: array<Slot>

    ghost predicate Valid() { threads.Length == count + 1 }

    ghost function Mem(): Memory
      reads this, threads
    {
      Memory(started, completed, finalized, threads[..])
    }

    /** `spawn`, up to the point where the tasks are enqueued: exactly the initial memory. */
    constructor (n: nat)
      ensures Valid() && count == n && fresh(threads)
      ensures Mem() == Memory(0, 0, 0, seq(n + 1, _ => Empty))
    {
      count := n;
      started, completed, finalized := 0, 0, 0;
      threads := new Slot[n + 1];
      new;
      for i := 0 to n + 1
        invariant Mem() == Memory(0, 0, 0, threads[..])
        invariant forall j :: 0 <= j < i ==> threads[j] == Empty
      {
        threads[i] := Empty;
      }
      assert threads[..] == seq(n + 1, _ => Empty);
    }

    /** Occupies the next slot and stores `c` there. */
    method StoreWorkerContinuation(c: Slot) returns (contIndex: nat)
      requires Valid() && started < count
      modifies this`started, threads
      ensures contIndex == old(started)
      ensures Mem() == old(Mem()).ClaimStore().Store(contIndex, c)
    {
      contIndex := started;
      started := started + 1;
      threads[contIndex] := c;
    }

    /** Claims slots until one is not a tombstone. The slot of the awaiter never is. */
    method ExtractContinuation() returns (r: Extracted)
      requires Valid() && completed <= count && threads[count] != Tombstone
      modifies this`completed
      ensures old(completed) <= r.index <= count && completed == r.index + 1
      ensures forall j :: old(completed) <= j < r.index ==> threads[j] == Tombstone
      ensures threads[r.index] != Tombstone
      ensures r.MustWait? <==> threads[r.index] == Empty
    {
      while true
        invariant old(completed) <= completed <= count
        invariant forall j :: old(completed) <= j < completed ==> threads[j] == Tombstone
        decreases count - completed
      {
        var index := completed;
        completed := completed + 1;
        if threads[index] == Empty { return MustWait(index); }
        if threads[index] != Tombstone { return Found(index); }
      }
    }

    /** Counts the caller as done; tells whether the caller may leave the frame now. */
    method FinalizeThreadOfExecution(isLastThread: bool) returns (mayLeave: bool)
      modifies this`finalized
      ensures Mem() == old(Mem()).Finalize()
      ensures mayLeave <==> (isLastThread ==> finalized == count + 1)
    {
      finalized := finalized + 1;
      mayLeave := !isLastThread || finalized == count + 1;
    }

    /** One round of the loop below. */
    method Attempt(i: nat, extracted: bool, claimed: nat, calls: array<nat>) returns (slot: int)
      requires Valid() && i < count == calls.Length && started + claimed + (if extracted then 1 else 0) <= count
      modifies this`started, this`finalized, threads, calls
      ensures started == old(started) + claimed + if extracted then 1 else 0
      ensures finalized == old(finalized) + if extracted then 1 else 0
      ensures slot == if extracted then old(started) + claimed else -1
      ensures threads[..] == Tombstoned(old(threads[..]), [slot])
      ensures forall j :: 0 <= j < count ==> calls[j] == old(calls[j]) + if j == i && extracted then 1 else 0
    {
      started := started + claimed;
      if !extracted { return -1; }
      slot := StoreWorkerContinuation(Tombstone);
      calls[i] := calls[i] + 1;
      var _ := FinalizeThreadOfExecution(false);
    }

    /** The loop of `await` that takes back what the pool has not started by the time it is asked. Workers may come
        in between: before the attempt on task `i`, they claim `others[i]` store slots. Every extracted task leaves
        one tombstone in a slot of its own, is called once, and is finalized; all other slots are left alone. */
    method ExecuteInPlace(extractable: seq<bool>, others: seq<nat>, calls: array<nat>) returns (slots: seq<int>)
      requires Valid() && |extractable| == |others| == count == calls.Length
      requires started + Count(extractable) + Total(others) <= count
      modifies this`started, this`finalized, threads, calls
      ensures started == old(started) + Count(extractable) + Total(others)
      ensures finalized == old(finalized) + Count(extractable) && completed == old(completed)
      ensures |slots| == count
      ensures forall i :: 0 <= i < count ==> if extractable[i] then old(started) <= slots[i] < started
          else slots[i] == -1
      ensures forall i, j :: 0 <= i < j < count && extractable[i] && extractable[j] ==> slots[i] < slots[j]
      ensures threads[..] == Tombstoned(old(threads[..]), slots)
      ensures forall i :: 0 <= i < count ==> calls[i] == old(calls[i]) + if extractable[i] then 1 else 0
    {
      hide Count, Total, Tombstoned;
      slots := [];
      NothingYet(extractable, others, threads[..]);
      for i := 0 to count
        invariant |slots| == i && started <= count && started
            == old(started) + Count(extractable[..i]) + Total(others[..i])
        invariant finalized == old(finalized) + Count(extractable[..i])
        invariant forall j :: 0 <= j < i ==> if extractable[j] then old(started) <= slots[j] < started
            else slots[j] == -1
        invariant forall j, k :: 0 <= j < k < i && extractable[j] && extractable[k] ==> slots[j] < slots[k]
        invariant threads[..] == Tombstoned(old(threads[..]), slots)
        invariant forall j :: 0 <= j < count ==>
                    calls[j] == old(calls[j]) + if j < i && extractable[j] then 1 else 0
      {
        Prefixes(extractable, others, i);
        var slot := Attempt(i, extractable[i], others[i], calls);
        TombstonedMore(old(threads[..]), slots, slot);
        slots := slots + [slot];
      }
      assert extractable[..count] == extractable && others[..count] == others;
    }
  }
}
