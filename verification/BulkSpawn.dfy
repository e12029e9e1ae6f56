/** The bulk spawn/await frame as a step system.

    `n` tasks and one awaiting flow share three counters and `n + 1` continuation slots. Actor `i < n`
    is whatever thread of the pool popped task `i`; actor `n` is the flow that called `spawn` and
    `await`. Every atomic operation of the source is one step, a spin-wait is a guard. */
module BulkSpawn {
  import opened Seqs

  /** What a slot of `threads_` holds. `Cont(i)` is the continuation saved by actor `i`. */
  datatype Slot = Empty | Tombstone | Cont(flow: nat)

  /** The shared memory of the frame. */
  datatype Memory = Memory(started: nat, completed: nat, finalized: nat, slots: seq<Slot>) {

    function ClaimStore(): Memory { this.(started := started + 1) }

    function Store(c: nat, v: Slot): Memory
      requires c < |slots|
    { this.(slots := slots[c := v]) }

    function ClaimExtract(): Memory { this.(completed := completed + 1) }

    function Finalize(): Memory { this.(finalized := finalized + 1) }
  }

  /** Where the execution of one task stands. */
  datatype WorkerPc =
    | Unspawned    // not enqueued yet
    | Queued       // in the pool
    | Popped       // taken by a pool thread
    | Storing      // claimed a store slot
    | Running      // continuation stored, user function in progress
    | Extracting   // user function returned
    | Waiting      // claimed an extraction slot, waits for it to be filled
    | Finalizing   // has a continuation to jump to
    | LastWait     // last thread: waits for everybody to finalize
    | Exited       // jumped to the continuation of the slot it holds
    | InPlace      // extracted from the pool by the awaiter

  /** Where the flow that called `spawn` and `await` stands. */
  datatype AwaiterPc =
    | Spawning | Spawned | FastReturned
    | Scanning | InClaim | InStore | InRun | InFinalize
    | StoringCc | AExtracting | AWaiting | AFinalizing | ALastWait | AExited

  /** `cur` is the loop variable of `spawn`, then of `await`. `slot[i]` is the store slot claimed for task
      `i` and `held[a]` the extraction slot of actor `a`, -1 for none. The rest is history: `calls[i]`
      counts the completed calls of the user function on index `i`, `storedBy` is the task that claimed
      each store slot, and `owner` is the actor credited with each extraction slot: the one that extracts
      it, or the in-place task that left a tombstone in it once that tombstone has been skipped. */
  datatype State = State(n: nat, mem: Memory, pc: seq<WorkerPc>, main: AwaiterPc, cur: nat,
                         slot: seq<int>, held: seq<int>, calls: seq<nat>, storedBy: seq<int>, owner: seq<int>)

  predicate Init(s: State) {
    && s.mem == Memory(0, 0, 0, seq(s.n + 1, _ => Empty))
    && s.pc == seq(s.n, _ => Unspawned)
    && s.main == (if s.n == 0 then Spawned else Spawning) && s.cur == 0
    && s.slot == seq(s.n, _ => -1) && s.held == seq(s.n + 1, _ => -1)
    && s.calls == seq(s.n, _ => 0)
    && s.storedBy == [] && s.owner == []
  }

  predicate Shape(s: State) {
    && |s.mem.slots| == s.n + 1 == |s.held|
    && |s.pc| == s.n == |s.calls| == |s.slot|
    && |s.storedBy| == s.mem.started
    && |s.owner| == s.mem.completed
    && s.cur <= s.n
  }

  // ----- the steps

  /** Actor `a` claims the next store slot for task `i`. */
  function ClaimStoreSlot(s: State, i: nat): State
    requires Shape(s) && i < s.n
  {
    s.(mem := s.mem.ClaimStore(), storedBy := s.storedBy + [i], slot := s.slot[i := s.mem.started])
  }

  function ClaimExtractSlot(s: State, a: nat): State
    requires Shape(s) && a <= s.n
  {
    s.(mem := s.mem.ClaimExtract(), owner := s.owner + [a], held := s.held[a := s.mem.completed])
  }

  /** Actor `a` finds a tombstone in the slot it claimed, and gives the slot up. */
  function SkipTombstone(s: State, a: nat): State
    requires Shape(s) && a <= s.n && SlotReady(s, a)
  {
    var idx := s.held[a];
    if idx < |s.storedBy| && idx < |s.owner| && 0 <= s.storedBy[idx] < s.n then
      s.(held := s.held[a := -1][s.storedBy[idx] := idx], owner := s.owner[idx := s.storedBy[idx]])
    else
      s.(held := s.held[a := -1])
  }

  predicate SlotReady(s: State, a: nat)
    requires Shape(s) && a <= s.n
  {
    0 <= s.held[a] <= s.n && s.mem.slots[s.held[a]] != Empty
  }

  predicate WorkerEnabled(s: State, i: nat)
    requires Shape(s) && i < s.n
  {
    match s.pc[i]
    case Unspawned => false
    case Storing => 0 <= s.slot[i] < s.n
    case Waiting => SlotReady(s, i)
    case LastWait => s.mem.finalized == s.n + 1
    case Exited => false
    case InPlace => false
    case _ => true
  }

  function WorkerNext(s: State, i: nat): (s': State)
    requires Shape(s) && i < s.n && WorkerEnabled(s, i)
    ensures Shape(s') && s'.n == s.n
  {
    match s.pc[i]
    case Queued => s.(pc := s.pc[i := Popped])
    case Popped => ClaimStoreSlot(s, i).(pc := s.pc[i := Storing])
    case Storing => s.(pc := s.pc[i := Running], mem := s.mem.Store(s.slot[i], Cont(i)))
    case Running => s.(pc := s.pc[i := Extracting], calls := s.calls[i := s.calls[i] + 1])
    case Extracting => ClaimExtractSlot(s, i).(pc := s.pc[i := Waiting])
    case Waiting =>
      if s.mem.slots[s.held[i]] == Tombstone then SkipTombstone(s, i).(pc := s.pc[i := Extracting])
      else s.(pc := s.pc[i := Finalizing])
    case Finalizing =>
      s.(pc := s.pc[i := if s.held[i] == s.n then LastWait else Exited], mem := s.mem.Finalize())
    case LastWait => s.(pc := s.pc[i := Exited])
  }

  predicate AwaiterEnabled(s: State)
    requires Shape(s)
  {
    match s.main
    case Spawning => s.cur < s.n
    case FastReturned => false
    case InClaim => s.cur < s.n
    case InStore => s.cur < s.n && 0 <= s.slot[s.cur] < s.n
    case InRun => s.cur < s.n
    case InFinalize => s.cur < s.n
    case AWaiting => SlotReady(s, s.n)
    case ALastWait => s.mem.finalized == s.n + 1
    case AExited => false
    case _ => true
  }

  function AwaiterNext(s: State): (s': State)
    requires Shape(s) && AwaiterEnabled(s)
    ensures Shape(s') && s'.n == s.n
  {
    match s.main
    case Spawning =>
      if s.cur + 1 == s.n then s.(pc := s.pc[s.cur := Queued], main := Spawned, cur := 0)
      else s.(pc := s.pc[s.cur := Queued], cur := s.cur + 1)
    case Spawned => s.(main := if s.mem.completed == s.n then FastReturned else Scanning)
    case Scanning =>
      if s.cur == s.n then s.(main := StoringCc)
      else if s.pc[s.cur] == Queued then s.(pc := s.pc[s.cur := InPlace], main := InClaim)
      else s.(cur := s.cur + 1)
    case InClaim => ClaimStoreSlot(s, s.cur).(main := InStore)
    case InStore => s.(main := InRun, mem := s.mem.Store(s.slot[s.cur], Tombstone))
    case InRun => s.(main := InFinalize, calls := s.calls[s.cur := s.calls[s.cur] + 1])
    case InFinalize => s.(main := Scanning, cur := s.cur + 1, mem := s.mem.Finalize())
    case StoringCc => s.(main := AExtracting, mem := s.mem.Store(s.n, Cont(s.n)))
    case AExtracting => ClaimExtractSlot(s, s.n).(main := AWaiting)
    case AWaiting =>
      if s.mem.slots[s.held[s.n]] == Tombstone then SkipTombstone(s, s.n).(main := AExtracting)
      else s.(main := AFinalizing)
    case AFinalizing =>
      s.(main := if s.held[s.n] == s.n then ALastWait else AExited, mem := s.mem.Finalize())
    case ALastWait => s.(main := AExited)
  }

  predicate Enabled(s: State, a: nat) {
    Shape(s) && a <= s.n && if a < s.n then WorkerEnabled(s, a) else AwaiterEnabled(s)
  }

  function Next(s: State, a: nat): State
    requires Enabled(s, a)
  {
    if a < s.n then WorkerNext(s, a) else AwaiterNext(s)
  }

  ghost predicate Step(s: State, s': State) {
    exists a: nat :: Enabled(s, a) && s' == Next(s, a)
  }

  /** A run: any interleaving of the actors, from the start of `spawn`. */
  ghost predicate IsRun(tr: seq<State>) {
    && tr != []
    && Init(tr[0])
    && forall i :: 0 <= i < |tr| - 1 ==> Step(tr[i], tr[i + 1])
  }

  // ----- the invariant

  /** The actor has claimed an extraction slot and keeps it. */
  predicate Holds(p: WorkerPc) { p.Waiting? || p.Finalizing? || p.LastWait? || p.Exited? }

  predicate AwaiterHolds(p: AwaiterPc) { p.AWaiting? || p.AFinalizing? || p.ALastWait? || p.AExited? }

  predicate SlowPath(p: AwaiterPc) { !(p.Spawning? || p.Spawned? || p.FastReturned?) }

  /** The awaiter is past the loop that executes tasks in place. */
  predicate PastScan(p: AwaiterPc) { p.StoringCc? || p.AExtracting? || AwaiterHolds(p) }

  /** The awaiter is busy with an in-place task. */
  predicate InBody(p: AwaiterPc) { p.InClaim? || p.InStore? || p.InRun? || p.InFinalize? }

  /** Who is where: enqueued prefix, in-place tasks, what is left in the pool. */
  ghost predicate PhaseInv(s: State)
    requires Shape(s)
  {
    && (s.main.Spawning? || InBody(s.main) ==> s.cur < s.n)
    && (PastScan(s.main) ==> s.cur == s.n)
    && (s.main.Spawned? || s.main.FastReturned? ==> s.cur == 0)
    && (InBody(s.main) ==> s.pc[s.cur] == InPlace)
    && (forall i :: 0 <= i < s.n ==> (s.pc[i] == Unspawned <==> s.main.Spawning? && s.cur <= i))
    && (forall i :: 0 <= i < s.n && s.pc[i] == InPlace ==>
                      SlowPath(s.main) && (i < s.cur || (i == s.cur && InBody(s.main))))
    && (forall i :: 0 <= i < s.cur && SlowPath(s.main) ==> s.pc[i] != Queued)
  }

  /** Task `i` has not claimed a store slot. */
  predicate PreClaim(s: State, i: nat)
    requires Shape(s) && i < s.n
  {
    s.pc[i].Unspawned? || s.pc[i].Queued? || s.pc[i].Popped? || (s.pc[i].InPlace? && s.main.InClaim? && i == s.cur)
  }

  /** Store slots and the tasks that claimed them are in bijection. */
  ghost predicate StoreInv(s: State)
    requires Shape(s)
  {
    && Inverse(s.slot, s.storedBy)
    && (forall i :: 0 <= i < s.n ==> (PreClaim(s, i) <==> s.slot[i] == -1))
  }

  /** What the claimer of a store slot has put there so far. */
  function StoredValue(s: State, i: nat): Slot
    requires Shape(s) && i < s.n
  {
    if s.pc[i] == InPlace then (if s.main.InStore? && i == s.cur then Empty else Tombstone)
    else if s.pc[i] == Storing then Empty else Cont(i)
  }

  /** What each slot holds, given who claimed it. */
  ghost predicate SlotInv(s: State)
    requires Shape(s)
  {
    && (forall c :: s.mem.started <= c < s.n ==> s.mem.slots[c] == Empty)
    && (forall i :: 0 <= i < s.n && 0 <= s.slot[i] < s.n ==> s.mem.slots[s.slot[i]] == StoredValue(s, i))
    && s.mem.slots[s.n] == (if s.main.AExtracting? || AwaiterHolds(s.main) then Cont(s.n) else Empty)
  }

  /** Extraction slots and the actors credited with them are in bijection. */
  ghost predicate OwnerInv(s: State)
    requires Shape(s)
  {
    Inverse(s.held, s.owner)
  }

  /** Who holds an extraction slot; an in-place task is credited only with its own tombstone. */
  ghost predicate HoldInv(s: State)
    requires Shape(s)
  {
    && (forall i :: 0 <= i < s.n && s.pc[i] != InPlace ==> (s.held[i] >= 0 <==> Holds(s.pc[i])))
    && (forall i :: 0 <= i < s.n && s.pc[i] == InPlace && s.held[i] >= 0 ==>
                      s.held[i] == s.slot[i] && StoredValue(s, i) == Tombstone)
    && (s.held[s.n] >= 0 <==> AwaiterHolds(s.main))
  }

  /** Extracted slots really hold a continuation. */
  ghost predicate ExtractInv(s: State)
    requires Shape(s)
  {
    && (forall i :: 0 <= i < s.n && (s.pc[i].Finalizing? || s.pc[i].LastWait? || s.pc[i].Exited?) ==>
                      0 <= s.held[i] <= s.n && s.mem.slots[s.held[i]].Cont?)
    && (s.main.AFinalizing? || s.main.ALastWait? || s.main.AExited? ==>
          0 <= s.held[s.n] <= s.n && s.mem.slots[s.held[s.n]].Cont?)
  }

  /** Only the holder of slot `n` waits for the others, and it leaves after they have finalized. */
  ghost predicate LastInv(s: State)
    requires Shape(s)
  {
    && (forall i :: 0 <= i < s.n && s.pc[i].LastWait? ==> s.held[i] == s.n)
    && (forall i :: 0 <= i < s.n && s.pc[i].Exited? && s.held[i] == s.n ==> s.mem.finalized == s.n + 1)
    && (s.main.ALastWait? ==> s.held[s.n] == s.n)
    && (s.main.AExited? && s.held[s.n] == s.n ==> s.mem.finalized == s.n + 1)
  }

  /** The user function has returned on task `i`. */
  predicate Called(s: State, i: nat)
    requires Shape(s) && i < s.n
  {
    if s.pc[i] == InPlace then !(i == s.cur && (s.main.InClaim? || s.main.InStore? || s.main.InRun?))
    else s.pc[i].Extracting? || Holds(s.pc[i])
  }

  ghost predicate CallInv(s: State)
    requires Shape(s)
  {
    forall i :: 0 <= i < s.n ==> s.calls[i] == if Called(s, i) then 1 else 0
  }

  /** Actor `a` has made its last access to the frame, except for the wait of the last thread. */
  predicate Finalized(s: State, a: nat)
    requires Shape(s) && a <= s.n
  {
    if a == s.n then s.main.ALastWait? || s.main.AExited?
    else if s.pc[a] == InPlace then !(a == s.cur && InBody(s.main))
    else s.pc[a].LastWait? || s.pc[a].Exited?
  }

  function FinalizeBits(s: State): seq<int>
    requires Shape(s)
  {
    seq(s.n + 1, a requires 0 <= a <= s.n => if Finalized(s, a) then 1 else 0)
  }

  ghost predicate FinalizeInv(s: State)
    requires Shape(s)
  {
    s.mem.finalized == Sum(FinalizeBits(s))
  }

  /** The fast path is taken only when every worker has claimed its extraction slot. */
  ghost predicate FastInv(s: State)
    requires Shape(s)
  {
    s.main.FastReturned? ==> forall i :: 0 <= i < s.n ==> Holds(s.pc[i])
  }

  ghost predicate Inv(s: State) {
    && Shape(s) && PhaseInv(s) && StoreInv(s) && SlotInv(s) && OwnerInv(s) && HoldInv(s)
    && ExtractInv(s) && LastInv(s) && CallInv(s) && FinalizeInv(s) && FastInv(s)
  }
}
