/** What the bulk frame promises, over every run and every interleaving. */
module BulkSpawnTheorems {
  import opened Seqs
  import opened BulkSpawn
  import opened BulkSpawnProof

  // ----- slots

  /** The two assertions of the source: a store index stays below `n`, an extraction index within `0..n`;
      and no two actors extract the same slot. */
  ghost predicate ClaimsInBounds(s: State)
    requires Shape(s)
  {
    && (forall i :: 0 <= i < s.n && s.pc[i].Popped? ==> s.mem.started < s.n)
    && (s.main.InClaim? ==> s.mem.started < s.n)
    && (forall i :: 0 <= i < s.n && s.pc[i].Extracting? ==> s.mem.completed <= s.n)
    && (s.main.AExtracting? ==> s.mem.completed <= s.n)
    && (forall a, b :: 0 <= a < b <= s.n && s.held[a] >= 0 ==> s.held[a] != s.held[b])
  }

  lemma ClaimsStayInBounds(tr: seq<State>, k: nat)
    requires IsRun(tr) && k < |tr|
    ensures Shape(tr[k]) && ClaimsInBounds(tr[k])
  {
    RunKeepsInv(tr, k);
    var s := tr[k];
    hide PhaseInv, SlotInv, ExtractInv, LastInv, CallInv, FinalizeInv, FastInv, IsRun;
    InverseBound(s.slot, s.storedBy);
    InverseBound(s.held, s.owner);
    forall i | 0 <= i < s.n && s.pc[i].Popped? ensures s.mem.started < s.n { assert PreClaim(s, i); }
    if s.main.InClaim? { InClaimIsPreClaim(s); }
  }

  lemma InClaimIsPreClaim(s: State)
    requires Inv(s) && s.main.InClaim?
    ensures s.mem.started < s.n
  {
    assert PreClaim(s, s.cur);
    InverseBound(s.slot, s.storedBy);
  }

  /** Every actor but `a` is credited with an extraction slot, and `a` has no work left in place. */
  lemma OthersCreditedMeansWorkDone(s: State, a: nat)
    requires Inv(s) && a <= s.n
    requires forall x :: 0 <= x <= s.n && x != a ==> s.held[x] >= 0
    requires if a == s.n then PastScan(s.main) else s.pc[a].Extracting? || Holds(s.pc[a])
    ensures forall i :: 0 <= i < s.n ==> s.calls[i] == 1
    ensures a < s.n ==> s.mem.slots[s.n] == Cont(s.n)
  {
    hide Inverse;
    assert PastScan(s.main) by { assert a != s.n ==> s.held[s.n] >= 0; }
    forall i | 0 <= i < s.n ensures Called(s, i) {
      if i != a { assert s.held[i] >= 0; }
    }
  }

  /** Whichever actor is about to claim slot `n`: all user calls have returned, each exactly once; and a
      worker gets there only after the awaiter has stored its continuation in that slot. */
  lemma LastSlotClaimedAfterAllWork(tr: seq<State>, k: nat, a: nat)
    requires IsRun(tr) && k < |tr|
    requires a <= tr[k].n && Shape(tr[k]) && tr[k].mem.completed == tr[k].n
    requires if a == tr[k].n then tr[k].main.AExtracting? else tr[k].pc[a].Extracting?
    ensures forall i :: 0 <= i < tr[k].n ==> tr[k].calls[i] == 1
    ensures a < tr[k].n ==> tr[k].mem.slots[tr[k].n] == Cont(tr[k].n)
  {
    RunKeepsInv(tr, k);
    LastClaim(tr[k], a);
  }

  lemma LastClaim(s: State, a: nat)
    requires Inv(s) && a <= s.n && s.mem.completed == s.n
    requires if a == s.n then s.main.AExtracting? else s.pc[a].Extracting?
    ensures forall i :: 0 <= i < s.n ==> s.calls[i] == 1
    ensures a < s.n ==> s.mem.slots[s.n] == Cont(s.n)
  {
    assert s.held[a] < 0;
    InverseBound(s.held, s.owner);
    OthersCreditedMeansWorkDone(s, a);
  }

  // ----- returning from await

  /** `await` has returned: directly, or because some actor jumped to the continuation of slot `n`. */
  ghost predicate SlowReturned(s: State)
    requires Shape(s)
  {
    || (s.main.AExited? && s.held[s.n] == s.n)
    || exists i :: 0 <= i < s.n && s.pc[i].Exited? && s.held[i] == s.n
  }

  /** Actor `a` may still touch the frame. */
  predicate AccessesFrame(s: State, a: nat)
    requires Shape(s) && a <= s.n
  {
    if a == s.n then !s.main.FastReturned? && !s.main.AExited?
    else if s.pc[a] == InPlace then a == s.cur && InBody(s.main)
    else !s.pc[a].Exited?
  }

  /** `await` returns, on either path, only after all `n` calls returned, each made exactly once. */
  lemma AwaitReturnsAfterAllWork(tr: seq<State>, k: nat)
    requires IsRun(tr) && k < |tr|
    ensures Shape(tr[k])
    ensures tr[k].main.FastReturned? || SlowReturned(tr[k]) ==> forall i :: 0 <= i < tr[k].n ==> tr[k].calls[i] == 1
  {
    RunKeepsInv(tr, k);
    var s := tr[k];
    if SlowReturned(s) { LastHolderMeansAllCredited(s); }
  }

  lemma LastHolderMeansAllCredited(s: State)
    requires Inv(s) && exists a :: 0 <= a <= s.n && s.held[a] == s.n
    ensures s.mem.completed == s.n + 1
    ensures forall x :: 0 <= x <= s.n ==> s.held[x] >= 0
    ensures forall i :: 0 <= i < s.n ==> s.calls[i] == 1
  {
    InverseBound(s.held, s.owner);
    OthersCreditedMeansWorkDone(s, s.n);
  }

  /** On the slow path nobody else touches the frame once `await` has returned. */
  lemma SlowReturnLeavesFrameAlone(tr: seq<State>, k: nat)
    requires IsRun(tr) && k < |tr|
    ensures Shape(tr[k])
    ensures SlowReturned(tr[k]) ==> forall a: nat :: a <= tr[k].n ==> !AccessesFrame(tr[k], a)
  {
    RunKeepsInv(tr, k);
    var s := tr[k];
    if SlowReturned(s) { SlowReturnQuiescent(s); }
  }

  lemma SlowReturnQuiescent(s: State)
    requires Inv(s) && SlowReturned(s)
    ensures forall a: nat :: a <= s.n ==> !AccessesFrame(s, a)
  {
    AllFinalized(s);
    forall a: nat | a <= s.n ensures !AccessesFrame(s, a) {
      assert Finalized(s, a);
      // a thread in its final wait would hold slot `n`, which is held by the one that returned
    }
  }

  /** On the fast path the frame is left alone exactly when `finalized` has reached `n`. */
  lemma FastReturnLeavesFrameAloneIff(tr: seq<State>, k: nat)
    requires IsRun(tr) && k < |tr|
    ensures Shape(tr[k])
    ensures tr[k].main.FastReturned? ==>
              ((forall a: nat :: a <= tr[k].n ==> !AccessesFrame(tr[k], a)) <==> tr[k].mem.finalized == tr[k].n)
  {
    RunKeepsInv(tr, k);
    var s := tr[k];
    if s.main.FastReturned? {
      var b := FinalizeBits(s)[..s.n];
      assert FinalizeBits(s) == b + [0];
      SumAppend(b, 0);
      SumOfBits(b);
      forall a: nat | a < s.n ensures b[a] == 1 <==> !AccessesFrame(s, a) { FastWorker(s, a); }
      assert !AccessesFrame(s, s.n);
    }
  }

  lemma FastWorker(s: State, a: nat)
    requires Inv(s) && s.main.FastReturned? && a < s.n
    ensures Finalized(s, a) <==> !AccessesFrame(s, a)
  {
    assert s.mem.slots[s.n] == Empty;
    if s.pc[a].LastWait? { assert false; }
  }

  /** The fast path can return while a worker still uses the frame: one task, whose worker has claimed
      its extraction slot and not read it yet. */
  lemma FastPathOutrunsWorker() returns (tr: seq<State>)
    ensures IsRun(tr)
    ensures var s := tr[|tr| - 1]; Shape(s) && s.main.FastReturned? && s.n == 1 && AccessesFrame(s, 0)
  {
    hide IsRun;
    tr := OneTaskRuns();
    var s := tr[|tr| - 1];
    var s' := s.(pc := [Waiting], mem := Memory(1, 1, 0, [Cont(0), Empty]), owner := [0], held := [0, -1]);
    tr := Extend(tr, 0, s.(pc := [Extracting], calls := [1]));    // the user function returns
    tr := Extend(tr, 0, s'.(calls := [1]));                       // and the worker claims an extraction slot
    tr := Extend(tr, 1, s'.(calls := [1], main := FastReturned)); // await sees completed == 1
  }

  /** A single task, up to the call of the user function by a worker. */
  lemma OneTaskRuns() returns (tr: seq<State>)
    ensures IsRun(tr) && tr != []
    ensures tr[|tr| - 1] == State(1, Memory(1, 0, 0, [Cont(0), Empty]), [Running], Spawned, 0,
                                  [0], [-1, -1], [0], [0], [])
  {
    hide IsRun;
    var s0 := State(1, Memory(0, 0, 0, [Empty, Empty]), [Unspawned], Spawning, 0, [-1], [-1, -1], [0], [], []);
    var s1 := s0.(pc := [Queued], main := Spawned);
    var s2 := s1.(mem := Memory(1, 0, 0, [Empty, Empty]), storedBy := [0], slot := [0]);
    tr := Start(s0);
    tr := Extend(tr, 1, s1);                                      // spawn enqueues the task
    tr := Extend(tr, 0, s1.(pc := [Popped]));                     // a worker pops it,
    tr := Extend(tr, 0, s2.(pc := [Storing]));                    // claims a store slot
    tr := Extend(tr, 0, s2.(pc := [Running], mem := Memory(1, 0, 0, [Cont(0), Empty])));  // and fills it
  }

  lemma Start(s: State) returns (tr: seq<State>)
    requires Init(s)
    ensures tr == [s] && IsRun(tr)
  {
    tr := [s];
  }

  lemma Extend(tr: seq<State>, a: nat, s: State) returns (tr': seq<State>)
    requires IsRun(tr) && Enabled(tr[|tr| - 1], a) && s == Next(tr[|tr| - 1], a)
    ensures tr' == tr + [s] && IsRun(tr')
  {
    tr' := tr + [s];
    forall i | 0 <= i < |tr'| - 1 ensures Step(tr'[i], tr'[i + 1]) {
      if i < |tr| - 1 { assert Step(tr[i], tr[i + 1]); }
    }
  }

  lemma {:induction false} SumAppend(s: seq<int>, x: int)
    ensures Sum(s + [x]) == Sum(s) + x
  {
    if s == [] {
      assert s + [x] == [x];
    } else {
      assert (s + [x])[1..] == s[1..] + [x];
      SumAppend(s[1..], x);
    }
  }

  // ----- progress and termination

  predicate Final(s: State)
    requires Shape(s)
  {
    (s.main.FastReturned? || s.main.AExited?) && forall i :: 0 <= i < s.n ==> s.pc[i].Exited? || s.pc[i].InPlace?
  }

  /** Every store slot below `n` is filled once every task that is not in place has stored. */
  lemma AllSlotsFilled(s: State)
    requires Inv(s)
    requires forall i :: 0 <= i < s.n ==> !PreClaim(s, i) && s.pc[i] != Storing && !(s.main.InStore? && i == s.cur)
    ensures forall c :: 0 <= c < s.n ==> s.mem.slots[c] != Empty
  {
    InverseBound(s.slot, s.storedBy);
    forall c | 0 <= c < s.n ensures s.mem.slots[c] != Empty {
      assert s.slot[s.storedBy[c]] == c;
      assert s.mem.slots[c] == StoredValue(s, s.storedBy[c]);
    }
  }

  /** If nobody can move, the awaiter has returned or waits, and so does every worker. */
  lemma StuckShape(s: State)
    requires Inv(s) && !Enabled(s, s.n) && forall i: nat :: i < s.n ==> s.pc[i] == Queued || !Enabled(s, i)
    ensures s.main.FastReturned? || AwaiterHolds(s.main)
    ensures forall i: nat :: i < s.n ==> !Enabled(s, i) && (s.pc[i].InPlace? || Holds(s.pc[i]))
  {
    hide Inverse, SlotInv, ExtractInv, LastInv, CallInv, FinalizeInv;
    StoreSlotsDistinct(s);
    assert s.main.FastReturned? || AwaiterHolds(s.main);
    forall i: nat | i < s.n ensures !Enabled(s, i) && (s.pc[i].InPlace? || Holds(s.pc[i])) {
      assert s.pc[i] != Queued && s.pc[i] != Unspawned;
    }
  }

  /** Then every slot has been filled, so nobody waits for one: whoever is left is the last thread. */
  lemma StuckWorkers(s: State)
    requires Inv(s) && !Enabled(s, s.n) && forall i: nat :: i < s.n ==> s.pc[i] == Queued || !Enabled(s, i)
    ensures s.main.FastReturned? || s.main.ALastWait? || s.main.AExited?
    ensures forall i :: 0 <= i < s.n ==> s.pc[i].LastWait? || s.pc[i].Exited? || s.pc[i].InPlace?
    ensures s.main.FastReturned? ==> forall i :: 0 <= i < s.n ==> s.pc[i].Exited?
  {
    StuckShape(s);
    AllSlotsFilled(s);
    InverseBound(s.held, s.owner);
    forall i: nat | i < s.n ensures s.pc[i] != Waiting {
      assert !Enabled(s, i);
    }
  }

  lemma StuckIsFinal(s: State)
    requires Inv(s) && !Enabled(s, s.n) && forall i: nat :: i < s.n ==> s.pc[i] == Queued || !Enabled(s, i)
    ensures Final(s)
  {
    hide Inverse, StoreInv, SlotInv, OwnerInv, HoldInv, ExtractInv, LastInv, CallInv;
    StuckWorkers(s);
    if !s.main.FastReturned? {
      forall a: nat | a <= s.n ensures Finalized(s, a) { }
      AllFinalized(s);
      assert forall i: nat :: i < s.n && s.pc[i].LastWait? ==> Enabled(s, i);
    }
  }

  /** No deadlock, even if the pool never pops another task: while anything is unfinished, some step that
      is not a pop is enabled. */
  lemma NoDeadlock(tr: seq<State>, k: nat)
    requires IsRun(tr) && k < |tr|
    ensures Shape(tr[k])
    ensures !Final(tr[k]) ==> exists a: nat :: Enabled(tr[k], a) && (a < tr[k].n ==> tr[k].pc[a] != Queued)
  {
    RunKeepsInv(tr, k);
    var s := tr[k];
    if forall a: nat :: !(Enabled(s, a) && (a < s.n ==> s.pc[a] != Queued)) { StuckIsFinal(s); }
  }

  // ----- termination

  function Rank(p: WorkerPc): nat {
    match p
    case Unspawned => 10 case Queued => 9 case Popped => 8 case Storing => 7 case Running => 6
    case Extracting => 4 case Waiting => 5 case Finalizing => 3 case LastWait => 2 case Exited => 0
    case InPlace => 0
  }

  function AwaiterRank(s: State): int {
    match s.main
    case Spawning => 6 * s.n + 12 - s.cur case Spawned => 5 * s.n + 11 case FastReturned => 0
    case Scanning => 5 * (s.n - s.cur) + 10 case InClaim => 5 * (s.n - s.cur) + 9
    case InStore => 5 * (s.n - s.cur) + 8 case InRun => 5 * (s.n - s.cur) + 7
    case InFinalize => 5 * (s.n - s.cur) + 6
    case StoringCc => 6 case AExtracting => 4 case AWaiting => 5 case AFinalizing => 3
    case ALastWait => 2 case AExited => 0
  }

  function Ranks(s: State): seq<int> { seq(|s.pc|, i requires 0 <= i < |s.pc| => Rank(s.pc[i])) }

  /** Skipping a tombstone goes back one step, but each extraction slot is claimed only once. */
  function Measure(s: State): int {
    2 * (s.n + 1 - s.mem.completed) + Sum(Ranks(s)) + AwaiterRank(s)
  }

  lemma MeasureNonNegative(s: State)
    requires Inv(s)
    ensures Measure(s) >= 0
  {
    SumNonNegative(Ranks(s));
    InverseBound(s.held, s.owner);
  }

  lemma WorkerDecreasesMeasure(s: State, i: nat)
    requires Shape(s) && i < s.n && WorkerEnabled(s, i)
    ensures Measure(WorkerNext(s, i)) < Measure(s)
  {
    var s' := WorkerNext(s, i);
    assert Ranks(s') == Ranks(s)[i := Rank(s'.pc[i])];
    SumUpdate(Ranks(s), i, Rank(s'.pc[i]));
  }

  lemma AwaiterDecreasesMeasure(s: State)
    requires Shape(s) && PhaseInv(s) && AwaiterEnabled(s)
    ensures Measure(AwaiterNext(s)) < Measure(s)
  {
    var s' := AwaiterNext(s);
    if s.cur < s.n {
      assert Ranks(s') == Ranks(s)[s.cur := Rank(s'.pc[s.cur])];
      SumUpdate(Ranks(s), s.cur, Rank(s'.pc[s.cur]));
    }
  }

  lemma {:induction false} RunMeasure(tr: seq<State>, k: nat)
    requires IsRun(tr) && k < |tr|
    ensures Inv(tr[k]) && Measure(tr[k]) + k <= Measure(tr[0])
  {
    hide Inv, Init, Enabled, Measure;
    RunKeepsInv(tr, k);
    if k > 0 {
      RunMeasure(tr, k - 1);
      assert Step(tr[k - 1], tr[k - 1 + 1]);
      var a: nat :| Enabled(tr[k - 1], a) && tr[k] == Next(tr[k - 1], a);
      InvStepDecreases(tr[k - 1], a);
    }
  }

  lemma InvStepDecreases(s: State, a: nat)
    requires Inv(s) && Enabled(s, a)
    ensures Measure(Next(s, a)) < Measure(s)
  {
    hide StoreInv, SlotInv, OwnerInv, HoldInv, ExtractInv, LastInv, CallInv, FinalizeInv, FastInv, PhaseInv;
    hide Measure, WorkerNext, AwaiterNext;
    if a < s.n { WorkerDecreasesMeasure(s, a); } else { AwaiterDecreasesMeasure(s); }
  }

  /** No run is infinite: `n` tasks take at most `18n + 14` steps, whatever the interleaving. */
  lemma RunsAreBounded(tr: seq<State>)
    requires IsRun(tr)
    ensures |tr| - 1 <= 18 * tr[0].n + 14
  {
    RunMeasure(tr, |tr| - 1);
    MeasureNonNegative(tr[|tr| - 1]);
    SumConst(Ranks(tr[0]), 10);
  }

  // ----- where runs end

  ghost predicate Stuck(s: State) { forall a: nat :: !Enabled(s, a) }

  /** An actor that ended by jumping to a saved continuation, and the continuation it jumped to. */
  predicate Jumper(s: State, a: int)
    requires Shape(s)
  {
    0 <= a <= s.n && if a == s.n then s.main.AExited? else s.pc[a].Exited?
  }

  function JumpTarget(s: State, a: int): int
    requires Shape(s)
  {
    if 0 <= a <= s.n && 0 <= s.held[a] <= s.n && s.mem.slots[s.held[a]].Cont? then s.mem.slots[s.held[a]].flow else -1
  }

  ghost predicate Resumed(s: State, b: int)
    requires Shape(s)
  {
    exists a :: Jumper(s, a) && JumpTarget(s, a) == b
  }

  /** Jumping permutes the flows that saved a continuation: every continuation stored in a slot is resumed
      by exactly one actor. */
  ghost predicate JumpsArePermutation(s: State)
    requires Shape(s)
  {
    && (forall a {:trigger JumpTarget(s, a)} :: Jumper(s, a) ==> Jumper(s, JumpTarget(s, a)))
    && (forall a, b :: Jumper(s, a) && Jumper(s, b) && a != b ==> JumpTarget(s, a) != JumpTarget(s, b))
    && (forall b {:trigger Resumed(s, b)} :: Jumper(s, b) ==> Resumed(s, b))
  }

  /** A run that cannot be continued is finished: the counters are `n`, `n + 1` and `n + 1` on the slow path and
      `n`, `n` and `n` on the fast one, the stored continuations and the jumps are in bijection, and in-place
      tasks left tombstones, to which nobody jumped. */
  lemma MaximalRunsFinish(tr: seq<State>)
    requires IsRun(tr) && Stuck(tr[|tr| - 1])
    ensures Shape(tr[|tr| - 1]) && Final(tr[|tr| - 1])
    ensures var s := tr[|tr| - 1];
            && s.mem.started == s.n && s.mem.completed == s.mem.finalized == Participants(s)
            && JumpsArePermutation(s)
            && forall i :: 0 <= i < s.n && s.pc[i].InPlace? ==>
                 0 <= s.slot[i] < s.n && s.mem.slots[s.slot[i]] == Tombstone
  {
    hide JumpsArePermutation;
    RunKeepsInv(tr, |tr| - 1);
    var s := tr[|tr| - 1];
    StuckIsFinal(s);
    FinalStores(s);
    FinalJumps(s);
    if s.main.AExited? { SlowCounters(s); } else { FastCounters(s); }
  }

  /** The tasks, and the awaiter if it took the slow path. */
  function Participants(s: State): nat { if s.main.AExited? then s.n + 1 else s.n }

  lemma FinalStores(s: State)
    requires Inv(s) && Final(s)
    ensures s.mem.started == s.n
    ensures forall i :: 0 <= i < s.n ==> 0 <= s.slot[i] < s.n && s.mem.slots[s.slot[i]] == StoredValue(s, i)
    ensures forall i :: 0 <= i < s.n && s.pc[i].InPlace? ==> s.mem.slots[s.slot[i]] == Tombstone
    ensures forall i :: 0 <= i < s.n && s.pc[i].Exited? ==> s.mem.slots[s.slot[i]] == Cont(i)
    ensures s.mem.slots[s.n] == if s.main.AExited? then Cont(s.n) else Empty
  {
    hide CallInv, FinalizeInv, FastInv, LastInv, OwnerInv, HoldInv, ExtractInv;
    assert forall i: nat :: i < s.n ==> !PreClaim(s, i);
    InverseBound(s.slot, s.storedBy);
  }

  lemma SlowCounters(s: State)
    requires Inv(s) && Final(s) && s.main.AExited?
    ensures s.mem.completed == s.mem.finalized == s.n + 1
  {
    hide Inverse, PhaseInv, StoreInv, SlotInv, HoldInv, ExtractInv, LastInv, CallInv, FastInv, JumpTarget;
    AllFinalized(s);
    assert forall a: nat :: a <= s.n ==> Finalized(s, a);
    var a := JumpsOnto(s, s.n);
    FinalJumpTarget(s, a);
    LastHolderMeansAllCredited(s);
  }

  lemma FastCounters(s: State)
    requires Inv(s) && Final(s) && s.main.FastReturned?
    ensures s.mem.completed == s.mem.finalized == s.n
  {
    hide PhaseInv, StoreInv, SlotInv, ExtractInv, LastInv, CallInv;
    var b := FinalizeBits(s)[..s.n];
    assert FinalizeBits(s) == b + [0];
    SumAppend(b, 0);
    SumOfBits(b);
    InverseBound(s.held, s.owner);
    Pigeonhole(s.held[..s.n], s.mem.completed);
  }

  /** A jumper holds a slot with a continuation; its writer is a jumper too. */
  lemma FinalJumpTarget(s: State, a: int)
    requires Inv(s) && Final(s) && Jumper(s, a)
    ensures 0 <= s.held[a] <= s.n && Jumper(s, JumpTarget(s, a))
    ensures s.held[a] == if JumpTarget(s, a) == s.n then s.n else s.slot[JumpTarget(s, a)]
  {
    FinalStores(s);
    InverseBound(s.held, s.owner);
    var c := s.held[a];
    if c < s.n {
      assert s.slot[s.storedBy[c]] == c;
      assert s.mem.slots[c] == StoredValue(s, s.storedBy[c]);
    }
  }

  /** By pigeonhole on the actors, jumping is onto. */
  lemma JumpsOnto(s: State, b: int) returns (a: int)
    requires Inv(s) && Final(s) && Jumper(s, b)
    ensures Jumper(s, a) && JumpTarget(s, a) == b
  {
    hide PhaseInv, StoreInv, SlotInv, OwnerInv, HoldInv, ExtractInv, LastInv, CallInv, FinalizeInv, FastInv;
    hide JumpTarget, Final;
    var g := seq(s.n + 1, a => if Jumper(s, a) then JumpTarget(s, a) else a);
    forall a | 0 <= a <= s.n ensures 0 <= g[a] <= s.n {
      if Jumper(s, a) { FinalJumpTarget(s, a); }
    }
    forall a, b | 0 <= a < b <= s.n ensures g[a] != g[b] {
      if Jumper(s, a) { FinalJumpTarget(s, a); }
      if Jumper(s, b) { FinalJumpTarget(s, b); }
      if Jumper(s, a) && Jumper(s, b) { JumpsInjective(s, a, b); }
    }
    Pigeonhole(g, s.n + 1);
    assert b in g;
    a :| 0 <= a <= s.n && g[a] == b;
  }

  lemma FinalJumps(s: State)
    requires Inv(s) && Final(s)
    ensures JumpsArePermutation(s)
  {
    hide PhaseInv, StoreInv, SlotInv, OwnerInv, HoldInv, ExtractInv, LastInv, CallInv, FinalizeInv, FastInv;
    hide JumpTarget, Final;
    forall a {:trigger JumpTarget(s, a)} | Jumper(s, a) ensures Jumper(s, JumpTarget(s, a)) { FinalJumpTarget(s, a); }
    forall a, b | Jumper(s, a) && Jumper(s, b) && a != b ensures JumpTarget(s, a) != JumpTarget(s, b) {
      JumpsInjective(s, a, b);
    }
    forall b {:trigger Resumed(s, b)} | Jumper(s, b) ensures Resumed(s, b) { var a := JumpsOnto(s, b); }
  }

  lemma JumpsInjective(s: State, a: int, b: int)
    requires Inv(s) && Final(s) && Jumper(s, a) && Jumper(s, b) && a != b
    ensures JumpTarget(s, a) != JumpTarget(s, b)
  {
    hide StoreInv, SlotInv, HoldInv, ExtractInv, LastInv, CallInv, FinalizeInv, FastInv, PhaseInv, JumpTarget;
    FinalJumpTarget(s, a);
    FinalJumpTarget(s, b);
    assert s.held[a] != s.held[b];
  }
}
