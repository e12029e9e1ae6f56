/** The invariant of the bulk frame holds in every state of every run. */
module BulkSpawnProof {
  import opened Seqs
  import opened BulkSpawn

  lemma InitHolds(s: State)
    requires Init(s)
    ensures Inv(s)
  {
    SumOfBits(FinalizeBits(s));
  }

  /** What a tombstone tells: an in-place task, not yet credited with it, left it in its own slot. */
  lemma TombstoneOrigin(s: State, a: nat)
    requires Shape(s) && StoreInv(s) && SlotInv(s) && OwnerInv(s) && HoldInv(s)
    requires a <= s.n && SlotReady(s, a) && s.mem.slots[s.held[a]] == Tombstone && (a < s.n ==> s.pc[a] != InPlace)
    ensures s.held[a] < s.mem.started && s.held[a] < s.mem.completed
    ensures var i := s.storedBy[s.held[a]];
            0 <= i < s.n && i != a && s.pc[i] == InPlace && s.held[i] == -1 && s.slot[i] == s.held[a]
            && StoredValue(s, i) == Tombstone
  {
    InverseBound(s.slot, s.storedBy);
  }

  lemma StoreSlotsDistinct(s: State)
    requires Shape(s) && StoreInv(s)
    ensures forall i, j :: 0 <= i < j < s.n && s.slot[i] >= 0 ==> s.slot[i] != s.slot[j]
    ensures forall i :: 0 <= i < s.n ==> -1 <= s.slot[i] < s.mem.started
    ensures s.mem.started <= s.n
    ensures forall i :: 0 <= i < s.n && s.slot[i] < 0 ==> s.mem.started < s.n
  {
    InverseBound(s.slot, s.storedBy);
  }

  // ----- a worker step

  lemma WorkerKeepsPhase(s: State, i: nat)
    requires Shape(s) && PhaseInv(s) && i < s.n && WorkerEnabled(s, i)
    ensures PhaseInv(WorkerNext(s, i))
  {
  }

  lemma WorkerKeepsStore(s: State, i: nat)
    requires Shape(s) && StoreInv(s) && i < s.n && WorkerEnabled(s, i)
    ensures StoreInv(WorkerNext(s, i))
  {
    hide Inverse;
    if s.pc[i].Popped? { InverseExtend(s.slot, s.storedBy, i); }
  }

  lemma WorkerStoreKeepsSlot(s: State, i: nat)
    requires Shape(s) && StoreInv(s) && SlotInv(s) && i < s.n && WorkerEnabled(s, i)
    requires s.pc[i].Popped? || s.pc[i].Storing?
    ensures SlotInv(WorkerNext(s, i))
  {
    hide Inverse;
    StoreSlotsDistinct(s);
  }

  lemma WorkerKeepsSlot(s: State, i: nat)
    requires Shape(s) && StoreInv(s) && SlotInv(s) && i < s.n && WorkerEnabled(s, i)
    ensures SlotInv(WorkerNext(s, i))
  {
    hide Inverse;
    if s.pc[i].Popped? || s.pc[i].Storing? {
      WorkerStoreKeepsSlot(s, i);
    } else {
      WorkerKeepsStoredValues(s, i);
    }
  }

  lemma WorkerKeepsStoredValues(s: State, i: nat)
    requires Shape(s) && StoreInv(s) && i < s.n && WorkerEnabled(s, i) && !s.pc[i].Popped? && !s.pc[i].Storing?
    ensures var s' := WorkerNext(s, i);
            && s'.mem.slots == s.mem.slots && s'.slot == s.slot && s'.mem.started == s.mem.started && s'.main == s.main
            && forall j :: 0 <= j < s.n && s.slot[j] >= 0 ==> StoredValue(s', j) == StoredValue(s, j)
  {
    hide Inverse;
    assert PreClaim(s, i) ==> s.slot[i] == -1;
  }

  lemma WorkerKeepsOwner(s: State, i: nat)
    requires Shape(s) && StoreInv(s) && SlotInv(s) && OwnerInv(s) && HoldInv(s) && i < s.n && WorkerEnabled(s, i)
    ensures OwnerInv(WorkerNext(s, i)) && HoldInv(WorkerNext(s, i))
  {
    hide Inverse, SlotInv, StoreInv;
    if s.pc[i].Extracting? { InverseExtend(s.held, s.owner, i); }
    if s.pc[i].Waiting? && s.mem.slots[s.held[i]] == Tombstone {
      TombstoneOrigin(s, i);
      InverseMove(s.held, s.owner, i, s.storedBy[s.held[i]]);
    }
  }

  lemma WorkerKeepsExtract(s: State, i: nat)
    requires Shape(s) && StoreInv(s) && SlotInv(s) && OwnerInv(s) && HoldInv(s) && ExtractInv(s)
    requires i < s.n && WorkerEnabled(s, i)
    ensures ExtractInv(WorkerNext(s, i))
  {
    hide StoreInv, OwnerInv, HoldInv;
    if s.pc[i].Waiting? && s.mem.slots[s.held[i]] == Tombstone { TombstoneOrigin(s, i); }
  }

  lemma WorkerKeepsLast(s: State, i: nat)
    requires Shape(s) && StoreInv(s) && SlotInv(s) && OwnerInv(s) && HoldInv(s) && FinalizeInv(s) && LastInv(s)
    requires i < s.n && WorkerEnabled(s, i)
    ensures LastInv(WorkerNext(s, i))
  {
    hide StoreInv, SlotInv, OwnerInv, HoldInv, FinalizeInv;
    if s.pc[i].Waiting? && s.mem.slots[s.held[i]] == Tombstone { TombstoneOrigin(s, i); }
    AllFinalized(s);
    assert s.pc[i].Finalizing? ==> !Finalized(s, i);
  }

  /** The counter reaches `n + 1` only when every actor has finalized. */
  lemma AllFinalized(s: State)
    requires Shape(s) && FinalizeInv(s)
    ensures s.mem.finalized <= s.n + 1
    ensures s.mem.finalized == s.n + 1 <==> forall a: nat :: a <= s.n ==> Finalized(s, a)
  {
    var b := FinalizeBits(s);
    SumOfBits(b);
    assert forall a: nat :: a <= s.n ==> (b[a] == 1 <==> Finalized(s, a));
  }

  lemma WorkerKeepsCalls(s: State, i: nat)
    requires Shape(s) && CallInv(s) && i < s.n && WorkerEnabled(s, i)
    ensures CallInv(WorkerNext(s, i))
  {
  }

  lemma WorkerKeepsFast(s: State, i: nat)
    requires Shape(s) && PhaseInv(s) && StoreInv(s) && SlotInv(s) && OwnerInv(s) && HoldInv(s) && FastInv(s)
    requires i < s.n && WorkerEnabled(s, i)
    ensures FastInv(WorkerNext(s, i))
  {
    hide Inverse, SlotInv, StoreInv, OwnerInv, HoldInv;
    if s.pc[i].Waiting? && s.mem.slots[s.held[i]] == Tombstone { TombstoneOrigin(s, i); }
  }

  lemma WorkerKeepsFinalize(s: State, i: nat)
    requires Shape(s) && FinalizeInv(s) && i < s.n && WorkerEnabled(s, i)
    ensures FinalizeInv(WorkerNext(s, i))
  {
    var s' := WorkerNext(s, i);
    var b := if Finalized(s', i) then 1 else 0;
    assert FinalizeBits(s') == FinalizeBits(s)[i := b];
    SumUpdate(FinalizeBits(s), i, b);
  }

  // ----- a step of the awaiting flow

  lemma AwaiterKeepsPhase(s: State)
    requires Shape(s) && PhaseInv(s) && AwaiterEnabled(s)
    ensures PhaseInv(AwaiterNext(s))
  {
  }

  lemma AwaiterKeepsStore(s: State)
    requires Shape(s) && PhaseInv(s) && StoreInv(s) && AwaiterEnabled(s)
    ensures StoreInv(AwaiterNext(s))
  {
    hide Inverse;
    if s.main.InClaim? { InverseExtend(s.slot, s.storedBy, s.cur); }
  }

  lemma AwaiterStoreKeepsSlot(s: State)
    requires Shape(s) && PhaseInv(s) && StoreInv(s) && SlotInv(s) && AwaiterEnabled(s)
    requires s.main.InClaim? || s.main.InStore? || s.main.StoringCc?
    ensures SlotInv(AwaiterNext(s))
  {
    hide Inverse;
    StoreSlotsDistinct(s);
  }

  lemma AwaiterKeepsSlot(s: State)
    requires Shape(s) && PhaseInv(s) && StoreInv(s) && SlotInv(s) && AwaiterEnabled(s)
    ensures SlotInv(AwaiterNext(s))
  {
    hide Inverse;
    var s' := AwaiterNext(s);
    if s.main.InClaim? || s.main.InStore? || s.main.StoringCc? {
      AwaiterStoreKeepsSlot(s);
    } else {
      assert s'.mem.slots == s.mem.slots && s'.slot == s.slot;
      assert forall i :: 0 <= i < s.n && s.slot[i] >= 0 ==> StoredValue(s', i) == StoredValue(s, i);
    }
  }

  lemma AwaiterExtractKeepsOwner(s: State)
    requires Shape(s) && StoreInv(s) && SlotInv(s) && OwnerInv(s) && HoldInv(s) && AwaiterEnabled(s)
    requires s.main.AExtracting? || s.main.AWaiting?
    ensures OwnerInv(AwaiterNext(s)) && HoldInv(AwaiterNext(s))
  {
    hide Inverse, SlotInv, StoreInv;
    if s.main.AExtracting? { InverseExtend(s.held, s.owner, s.n); }
    if s.main.AWaiting? && s.mem.slots[s.held[s.n]] == Tombstone {
      TombstoneOrigin(s, s.n);
      InverseMove(s.held, s.owner, s.n, s.storedBy[s.held[s.n]]);
    }
  }

  lemma AwaiterKeepsOwner(s: State)
    requires Shape(s) && PhaseInv(s) && StoreInv(s) && SlotInv(s) && OwnerInv(s) && HoldInv(s) && AwaiterEnabled(s)
    ensures OwnerInv(AwaiterNext(s)) && HoldInv(AwaiterNext(s))
  {
    hide StoreInv, SlotInv, OwnerInv, HoldInv, PhaseInv, AwaiterNext;
    if s.main.AExtracting? || s.main.AWaiting? { AwaiterExtractKeepsOwner(s); } else { AwaiterLocalKeepsOwner(s); }
  }

  lemma AwaiterLocalKeepsOwner(s: State)
    requires Shape(s) && PhaseInv(s) && StoreInv(s) && OwnerInv(s) && HoldInv(s) && AwaiterEnabled(s)
    requires !s.main.AExtracting? && !s.main.AWaiting?
    ensures OwnerInv(AwaiterNext(s)) && HoldInv(AwaiterNext(s))
  {
    hide Inverse;
    if s.main.Scanning? || InBody(s.main) { AwaiterLoopKeepsOwner(s); }
    else { assert AwaiterNext(s).held == s.held && AwaiterNext(s).owner == s.owner; }
  }

  lemma AwaiterLoopKeepsOwner(s: State)
    requires Shape(s) && PhaseInv(s) && StoreInv(s) && OwnerInv(s) && HoldInv(s) && AwaiterEnabled(s)
    requires s.main.Scanning? || InBody(s.main)
    ensures OwnerInv(AwaiterNext(s)) && HoldInv(AwaiterNext(s))
  {
    hide Inverse;
    assert AwaiterNext(s).held == s.held && AwaiterNext(s).owner == s.owner;
  }

  lemma AwaiterKeepsExtract(s: State)
    requires Shape(s) && PhaseInv(s) && StoreInv(s) && SlotInv(s) && OwnerInv(s) && HoldInv(s) && ExtractInv(s)
    requires AwaiterEnabled(s)
    ensures ExtractInv(AwaiterNext(s))
  {
    hide StoreInv, OwnerInv, HoldInv;
    if s.main.AWaiting? && s.mem.slots[s.held[s.n]] == Tombstone { TombstoneOrigin(s, s.n); }
  }

  lemma AwaiterKeepsLast(s: State)
    requires Shape(s) && PhaseInv(s) && StoreInv(s) && SlotInv(s) && OwnerInv(s) && HoldInv(s)
    requires FinalizeInv(s) && LastInv(s) && AwaiterEnabled(s)
    ensures LastInv(AwaiterNext(s))
  {
    hide StoreInv, SlotInv, OwnerInv, HoldInv, FinalizeInv;
    if s.main.AWaiting? && s.mem.slots[s.held[s.n]] == Tombstone { TombstoneOrigin(s, s.n); }
    AllFinalized(s);
    assert s.main.InFinalize? ==> !Finalized(s, s.cur);
    assert s.main.AFinalizing? ==> !Finalized(s, s.n);
  }

  lemma AwaiterKeepsCalls(s: State)
    requires Shape(s) && PhaseInv(s) && CallInv(s) && AwaiterEnabled(s)
    ensures CallInv(AwaiterNext(s))
  {
  }

  lemma AwaiterKeepsFast(s: State)
    requires Shape(s) && PhaseInv(s) && OwnerInv(s) && HoldInv(s) && FastInv(s) && AwaiterEnabled(s)
    ensures FastInv(AwaiterNext(s))
  {
    hide Inverse;
    if s.main.Spawned? && s.mem.completed == s.n { InverseBound(s.held, s.owner); }
  }

  lemma AwaiterKeepsFinalize(s: State)
    requires Shape(s) && PhaseInv(s) && FinalizeInv(s) && AwaiterEnabled(s)
    ensures FinalizeInv(AwaiterNext(s))
  {
    var s' := AwaiterNext(s);
    var a := if s.main.InFinalize? || (s.main.Scanning? && s.cur < s.n) then s.cur else s.n;
    var b := if Finalized(s', a) then 1 else 0;
    assert FinalizeBits(s') == FinalizeBits(s)[a := b];
    SumUpdate(FinalizeBits(s), a, b);
  }

  lemma StepKeepsInv(s: State, a: nat)
    requires Inv(s) && Enabled(s, a)
    ensures Inv(Next(s, a))
  {
    hide PhaseInv, StoreInv, SlotInv, OwnerInv, ExtractInv, LastInv, CallInv, FinalizeInv, FastInv, WorkerNext,
        AwaiterNext;
    if a < s.n {
      WorkerKeepsPhase(s, a); WorkerKeepsStore(s, a); WorkerKeepsSlot(s, a); WorkerKeepsOwner(s, a);
      WorkerKeepsExtract(s, a); WorkerKeepsLast(s, a); WorkerKeepsCalls(s, a); WorkerKeepsFinalize(s,
        a); WorkerKeepsFast(s, a);
    } else {
      AwaiterKeepsPhase(s); AwaiterKeepsStore(s); AwaiterKeepsSlot(s); AwaiterKeepsOwner(s);
      AwaiterKeepsExtract(s); AwaiterKeepsLast(s); AwaiterKeepsCalls(s); AwaiterKeepsFinalize(s); AwaiterKeepsFast(s);
    }
  }

  /** Every state of every run satisfies the invariant. */
  lemma {:induction false} RunKeepsInv(tr: seq<State>, k: nat)
    requires IsRun(tr) && k < |tr|
    ensures Inv(tr[k]) && tr[k].n == tr[0].n
  {
    hide Inv, Init, Enabled;
    if k == 0 {
      InitHolds(tr[0]);
    } else {
      RunKeepsInv(tr, k - 1);
      assert Step(tr[k - 1], tr[k - 1 + 1]);
      var a: nat :| Enabled(tr[k - 1], a) && tr[k] == Next(tr[k - 1], a);
      StepKeepsInv(tr[k - 1], a);
    }
  }
}
