/** The copyable spawn frame: one worker and any number of awaiters. The first awaiter may execute the task
    in place or exchange threads with the worker; the later ones suspend on a token until they are notified. */
module CopyableSpawnFrame {
  import opened Seqs

  datatype SyncState = InitialState | AsyncStarted | AsyncFinishing | MainFinishing | MainFinished | AllDone

  /** A saved continuation: awaiter `a`, or the pool thread that executes the task. */
  datatype Token = Null | AwaitCc(a: int) | ThreadCc

  datatype WorkerPc =
    | WQueued        // the task is in the pool
    | WGone          // extracted by the first awaiter
    | WStart         // popped; about to store its continuation
    | WSignal        // about to publish async_started
    | WRun           // user function in progress
    | WCas           // on_async_complete: about to compare-and-swap
    | WNotifyEarly   // first to complete: about to notify,
    | WDoneEarly     // ... to publish all_done, and to return its own continuation
    | WWaitMain      // waits for main_finished
    | WDoneLate      // about to publish all_done,
    | WNotifyLate    // ... to notify,
    | WJump          // ... and to jump to the first awaiter
    | WDone

  datatype AwaiterPc =
    | Arriving       // about to count itself
    | FLoad          // first awaiter: about to read the state
    | FExtract       // about to extract the task from the pool
    | FRun           // executes the user function in place
    | FStoreDone     // about to publish all_done
    | FNotify        // about to notify
    | FWaitStarted   // waits for async_started
    | FCas           // about to compare-and-swap
    | FStoreCc       // suspended; its body stores the continuation,
    | FReadSecond    // ... reads the worker's continuation,
    | FPublish       // ... publishes main_finished and jumps
    | FJumped
    | FWaitDone      // waits for all_done
    | LLoad          // late awaiter: about to read the state
    | LSuspended     // suspended on the token, helping the pool with one of its sleep objects
    | LAlone         // suspended on the token, asleep without one of them
    | Returned
    | LeftEarly      // returned without having been notified

  /** `next` is the worker's continuation as read by the first awaiter's body. `first` is the awaiter that
      counted itself first, -1 for none; `toAwait` and `toWorker` count the jumps to the two continuations. */
  datatype State = State(sync: SyncState, count: nat, firstAwait: Token, secondary: Token, notified: bool,
                         worker: WorkerPc, awaiters: seq<AwaiterPc>, next: Token,
                         first: int, calls: nat, toAwait: nat, toWorker: nat)

  predicate Init(s: State) {
    s == State(InitialState, 0, Null, Null, false, WQueued, seq(|s.awaiters|, _ => Arriving), Null, -1, 0, 0, 0)
  }

  predicate WorkerEnabled(s: State) {
    s.worker != WDone && s.worker != WGone && (s.worker == WWaitMain ==> s.sync == MainFinished)
  }

  function WorkerNext(s: State): (s': State)
    requires WorkerEnabled(s)
    ensures |s'.awaiters| == |s.awaiters|
  {
    match s.worker
    case WQueued => s.(worker := WStart)
    case WStart => s.(worker := WSignal, secondary := ThreadCc)
    case WSignal => s.(worker := WRun, sync := AsyncStarted)
    case WRun => s.(worker := WCas, calls := s.calls + 1)
    case WCas =>
      if s.sync == AsyncStarted then s.(worker := WNotifyEarly, sync := AsyncFinishing) else s.(worker := WWaitMain)
    case WNotifyEarly => s.(worker := WDoneEarly, notified := true)
    case WDoneEarly => s.(worker := WDone, sync := AllDone, toWorker := s.toWorker + 1)
    case WWaitMain => s.(worker := WDoneLate)
    case WDoneLate => s.(worker := WNotifyLate, sync := AllDone)
    case WNotifyLate => s.(worker := WJump, notified := true)
    case WJump =>
      if s.firstAwait.AwaitCc? && 0 <= s.firstAwait.a < |s.awaiters| then
        s.(worker := WDone, toAwait := s.toAwait + 1, awaiters := s.awaiters[s.firstAwait.a := Returned])
      else s.(worker := WDone)
  }

  predicate AwaiterEnabled(s: State, i: nat)
    requires i < |s.awaiters|
  {
    match s.awaiters[i]
    case FWaitStarted => s.sync != InitialState
    case FWaitDone => s.sync == AllDone
    case LSuspended => s.notified
    case LAlone => s.notified
    case FJumped => false
    case Returned => false
    case LeftEarly => false
    case _ => true
  }

  function Go(s: State, i: nat, p: AwaiterPc): State
    requires i < |s.awaiters|
  { s.(awaiters := s.awaiters[i := p]) }

  function AwaiterNext(s: State, i: nat): (s': State)
    requires i < |s.awaiters| && AwaiterEnabled(s, i)
    ensures |s'.awaiters| == |s.awaiters|
  {
    match s.awaiters[i]
    case Arriving =>
      if s.count == 0 then Go(s, i, FLoad).(count := s.count + 1, first := i)
        else Go(s, i, LLoad).(count := s.count + 1)
    case FLoad => Go(s, i, if s.sync == InitialState then FExtract else FCas)
    case FExtract => if s.worker == WQueued then Go(s, i, FRun).(worker := WGone) else Go(s, i, FWaitStarted)
    case FRun => Go(s, i, FStoreDone).(calls := s.calls + 1)
    case FStoreDone => Go(s, i, FNotify).(sync := AllDone)
    case FNotify => Go(s, i, Returned).(notified := true)
    case FWaitStarted => Go(s, i, FCas)
    case FCas => if s.sync == AsyncStarted then Go(s, i, FStoreCc).(sync := MainFinishing) else Go(s, i, FWaitDone)
    case FStoreCc => Go(s, i, FReadSecond).(firstAwait := AwaitCc(i))
    case FReadSecond => Go(s, i, FPublish).(next := s.secondary)
    case FPublish =>
      Go(s, i, FJumped).(sync := MainFinished, toWorker := if s.next == ThreadCc then s.toWorker + 1 else s.toWorker)
    case FWaitDone => Go(s, i, Returned)
    case LLoad => Go(s, i, if s.sync == AllDone then Returned else LSuspended)
    case LSuspended => Go(s, i, Returned)
    case LAlone => Go(s, i, Returned)
  }

  /** What a late awaiter can do when the pool has no free sleep object: suspend alone, and leave when somebody else
      moves the counter it sleeps on. */
  predicate AloneEnabled(s: State, i: nat)
    requires i < |s.awaiters|
  {
    (s.awaiters[i] == LLoad && s.sync != AllDone) || s.awaiters[i] == LAlone
  }

  function AloneNext(s: State, i: nat): State
    requires i < |s.awaiters| && AloneEnabled(s, i)
  {
    Go(s, i, if s.awaiters[i] == LLoad then LAlone else LeftEarly)
  }

  /** Actor -1 is the worker, actor `i >= 0` awaiter `i`, and actor `-2 - i` awaiter `i` without a sleep object. */
  predicate Enabled(s: State, a: int) {
    if a == -1 then WorkerEnabled(s)
    else if a >= 0 then a < |s.awaiters| && AwaiterEnabled(s, a)
    else -2 - a < |s.awaiters| && AloneEnabled(s, -2 - a)
  }

  function Next(s: State, a: int): State
    requires Enabled(s, a)
  {
    if a == -1 then WorkerNext(s) else if a >= 0 then AwaiterNext(s, a) else AloneNext(s, -2 - a)
  }

  ghost predicate Step(s: State, s': State) {
    exists a: int :: Enabled(s, a) && s' == Next(s, a)
  }

  ghost predicate IsRun(tr: seq<State>) {
    && tr != [] && Init(tr[0])
    && forall i :: 0 <= i < |tr| - 1 ==> Step(tr[i], tr[i + 1])
  }

  /** The run that goes on with a step of `a`. */
  ghost function Extended(tr: seq<State>, a: int): (tr': seq<State>)
    requires IsRun(tr) && Enabled(tr[|tr| - 1], a)
    ensures IsRun(tr') && tr' == tr + [Next(tr[|tr| - 1], a)]
  {
    var tr' := tr + [Next(tr[|tr| - 1], a)];
    assert forall i :: 0 <= i < |tr| - 1 ==> Step(tr[i], tr[i + 1]);
    assert Step(tr[|tr| - 1], Next(tr[|tr| - 1], a));
    tr'
  }

  // ----- the invariant

  /** What the first awaiter is doing; `Arriving` if there is none yet. */
  function First(s: State): AwaiterPc {
    if 0 <= s.first < |s.awaiters| then s.awaiters[s.first] else Arriving
  }

  /** The first awaiter's body has gone for a thread switch. */
  predicate Switching(p: AwaiterPc) { p.FStoreCc? || p.FReadSecond? || p.FPublish? || p.FJumped? }

  predicate Late(p: AwaiterPc) {
    p.Arriving? || p.LLoad? || p.LSuspended? || p.LAlone? || p.Returned? || p.LeftEarly?
  }

  /** What the awaiters other than the first may be doing. */
  ghost predicate LateInv(s: State) {
    && -1 <= s.first < |s.awaiters|
    && (s.first == -1 <==> s.count == 0)
    && (s.first != -1 ==> !Late(s.awaiters[s.first]) || s.awaiters[s.first] == Returned)
    && (forall i :: 0 <= i < |s.awaiters| && i != s.first ==>
          Late(s.awaiters[i]) && (s.count == 0 ==> s.awaiters[i] == Arriving)
          && (s.awaiters[i] == Returned ==> s.notified || s.sync == AllDone))
  }

  /** The state word follows from where the worker and the first awaiter are. `f` is the first awaiter, `sw`
      tells whether the threads are, or have been, switched. */
  ghost predicate CoreInv(s: State) {
    var w, f := s.worker, First(s);
    var sw := Switching(f) || s.toAwait > 0;
    && (w == WGone <==>
          f == FRun || f == FStoreDone || f == FNotify || (f == Returned && s.toAwait == 0 && s.secondary == Null))
    && (s.sync == InitialState <==>
          w == WQueued || w == WStart || w == WSignal || (w == WGone && (f == FRun || f == FStoreDone)))
    && (s.sync == AsyncStarted <==> (w == WRun || w == WCas) && !sw)
    && (s.sync == AsyncFinishing <==> w == WNotifyEarly || w == WDoneEarly)
    && (s.sync == MainFinishing <==> f == FStoreCc || f == FReadSecond || f == FPublish)
    && (s.sync == MainFinished <==> f == FJumped && (w == WRun || w == WCas || w == WWaitMain || w == WDoneLate))
    && (w == WWaitMain || w == WDoneLate || w == WNotifyLate || w == WJump ==> Switching(f))
    && (w == WDoneLate || w == WNotifyLate || w == WJump ==> f == FJumped)
    && (w == WDone ==> !Switching(f))
    && (Switching(f) ==> w == WRun || w == WCas || w == WWaitMain || w == WDoneLate || w == WNotifyLate || w == WJump)
    && (f == FWaitStarted ==> w != WQueued) && (f == FCas ==> s.sync != InitialState)
    && (f == FWaitDone ==> s.sync == AsyncFinishing || s.sync == AllDone)
    && (f == Returned ==> w == WGone || w == WDone)
  }

  ghost predicate DataInv(s: State) {
    var w, f := s.worker, First(s);
    var sw := Switching(f) || s.toAwait > 0;
    && (s.secondary == if w == WQueued || w == WGone || w == WStart then Null else ThreadCc)
    && (s.firstAwait == if sw && f != FStoreCc then AwaitCc(s.first) else Null)
    && (s.next == if f == FPublish || f == FJumped || s.toAwait > 0 then ThreadCc else Null)
    && (s.calls == if w == WQueued || w == WStart || w == WSignal || w == WRun || f == FRun then 0 else 1)
    && (s.toAwait <= 1 && (s.toAwait == 1 ==> w == WDone && f == Returned))
    && (s.toWorker == if f == FJumped || w == WDone then 1 else 0)
    && (s.notified <==> w == WDoneEarly || w == WJump || w == WDone || (w == WGone && f == Returned))
  }

  ghost predicate Inv(s: State) { LateInv(s) && CoreInv(s) && DataInv(s) }

  lemma InitHolds(s: State)
    requires Init(s)
    ensures Inv(s)
  {
  }

  lemma WorkerKeepsLate(s: State)
    requires Inv(s) && WorkerEnabled(s)
    ensures LateInv(WorkerNext(s))
  {
  }

  lemma WorkerKeepsCore(s: State)
    requires Inv(s) && WorkerEnabled(s)
    ensures CoreInv(WorkerNext(s))
  {
  }

  lemma WorkerKeepsData(s: State)
    requires Inv(s) && WorkerEnabled(s)
    ensures DataInv(WorkerNext(s))
  {
  }

  lemma AwaiterKeepsLate(s: State, i: nat)
    requires LateInv(s) && i < |s.awaiters| && AwaiterEnabled(s, i)
    requires s.awaiters[i] == FPublish ==> s.sync == MainFinishing
    ensures LateInv(AwaiterNext(s, i))
  {
    hide LateInv, AwaiterNext;
    if Late(s.awaiters[i]) { LateKeepsLate(s, i); } else { FirstKeepsLate(s, i); }
  }

  lemma LateKeepsLate(s: State, i: nat)
    requires LateInv(s) && i < |s.awaiters| && AwaiterEnabled(s, i) && Late(s.awaiters[i])
    ensures LateInv(AwaiterNext(s, i))
  {
  }

  lemma FirstKeepsLate(s: State, i: nat)
    requires LateInv(s) && i < |s.awaiters| && AwaiterEnabled(s, i) && !Late(s.awaiters[i])
    requires s.awaiters[i] == FPublish ==> s.sync == MainFinishing
    ensures LateInv(AwaiterNext(s, i))
  {
    var s' := AwaiterNext(s, i);
    assert i == s.first && s'.first == s.first && s'.count == s.count;
    assert (s.notified ==> s'.notified) && (s.sync == AllDone ==> s'.sync == AllDone);
  }

  lemma FirstKeepsCore(s: State, i: nat)
    requires Inv(s) && i < |s.awaiters| && AwaiterEnabled(s, i) && i == s.first
    ensures CoreInv(AwaiterNext(s, i))
  {
    hide Inv, CoreInv, AwaiterNext;
    if Switching(s.awaiters[i]) { SwitchingKeepsCore(s, i); } else { LookingKeepsCore(s, i); }
  }

  lemma SwitchingKeepsCore(s: State, i: nat)
    requires Inv(s) && i < |s.awaiters| && AwaiterEnabled(s, i) && i == s.first && Switching(s.awaiters[i])
    ensures CoreInv(AwaiterNext(s, i))
  {
  }

  lemma LookingKeepsCore(s: State, i: nat)
    requires Inv(s) && i < |s.awaiters| && AwaiterEnabled(s, i) && i == s.first && !Switching(s.awaiters[i])
    ensures CoreInv(AwaiterNext(s, i))
  {
  }

  lemma FirstKeepsData(s: State, i: nat)
    requires Inv(s) && i < |s.awaiters| && AwaiterEnabled(s, i) && i == s.first
    ensures DataInv(AwaiterNext(s, i))
  {
  }

  lemma ArrivalKeepsCore(s: State, i: nat)
    requires CoreInv(s) && DataInv(s) && i < |s.awaiters| && s.first == -1 && s.count == 0 && s.awaiters[i] == Arriving
    ensures CoreInv(AwaiterNext(s, i)) && DataInv(AwaiterNext(s, i))
  {
    assert First(AwaiterNext(s, i)) == FLoad;
  }

  lemma LateKeepsCore(s: State, i: nat)
    requires CoreInv(s) && DataInv(s) && i < |s.awaiters| && AwaiterEnabled(s, i) && i != s.first
    requires Late(s.awaiters[i]) && 0 <= s.first < |s.awaiters| && s.count > 0
    ensures CoreInv(AwaiterNext(s, i)) && DataInv(AwaiterNext(s, i))
  {
    var s' := AwaiterNext(s, i);
    assert First(s') == First(s) && s' == s.(awaiters := s'.awaiters, count := s'.count);
  }

  lemma AloneKeepsInv(s: State, i: nat)
    requires Inv(s) && i < |s.awaiters| && AloneEnabled(s, i) && i != s.first && s.first != -1
    ensures Inv(AloneNext(s, i)) && |AloneNext(s, i).awaiters| == |s.awaiters|
  {
    var s' := AloneNext(s, i);
    assert First(s') == First(s) && s' == s.(awaiters := s'.awaiters);
  }

  /** Who does what: only the first awaiter publishes, the others are late, and nobody is late before the first. */
  lemma Roles(s: State, i: nat)
    requires Inv(s) && i < |s.awaiters|
    ensures s.awaiters[i] == FPublish ==> i == s.first && s.sync == MainFinishing
    ensures i != s.first ==> Late(s.awaiters[i]) && (s.first == -1 ==> s.count == 0 && s.awaiters[i] == Arriving)
    ensures AloneEnabled(s, i) ==> i != s.first && s.first != -1
  {
  }

  lemma AwaiterKeepsInv(s: State, i: nat)
    requires Inv(s) && i < |s.awaiters| && AwaiterEnabled(s, i)
    ensures Inv(AwaiterNext(s, i))
  {
    Roles(s, i);
    hide CoreInv, DataInv, AwaiterNext;
    AwaiterKeepsLate(s, i);
    if i == s.first { FirstKeepsCore(s, i); FirstKeepsData(s, i); }
    else if s.first == -1 { ArrivalKeepsCore(s, i); }
    else { LateKeepsCore(s, i); }
  }

  lemma StepKeepsInv(s: State, a: int)
    requires Inv(s) && Enabled(s, a)
    ensures Inv(Next(s, a)) && |Next(s, a).awaiters| == |s.awaiters|
  {
    hide LateInv, CoreInv, DataInv, WorkerNext, AwaiterNext, AloneNext;
    if a == -1 {
      WorkerKeepsLate(s); WorkerKeepsCore(s); WorkerKeepsData(s);
    } else if a < -1 {
      Roles(s, -2 - a);
      AloneKeepsInv(s, -2 - a);
    } else {
      AwaiterKeepsInv(s, a);
    }
  }

  lemma {:induction false} RunKeepsInv(tr: seq<State>, k: nat)
    requires IsRun(tr) && k < |tr|
    ensures Inv(tr[k]) && |tr[k].awaiters| == |tr[0].awaiters|
  {
    hide Inv, Enabled, Next, Init;
    if k == 0 {
      InitHolds(tr[0]);
    } else {
      RunKeepsInv(tr, k - 1);
      assert Step(tr[k - 1], tr[k - 1 + 1]);
      var a: int :| Enabled(tr[k - 1], a) && tr[k] == Next(tr[k - 1], a);
      StepKeepsInv(tr[k - 1], a);
    }
  }

  // ----- what the frame promises

  /** `await` has returned, notified or not. */
  predicate HasReturned(p: AwaiterPc) { p.Returned? || p.LeftEarly? }

  /** Whatever the number of awaiters: the user function is called at most once, every `await` returns after that call,
      but for a late one that left its suspension without a notification; the first one never does. At most one
      thread switch happens, and no continuation is read before it was stored or jumped to twice. */
  lemma AwaitsReturnAfterWork(tr: seq<State>, k: nat)
    requires IsRun(tr) && k < |tr|
    ensures var s := tr[k];
            && s.calls <= 1 && s.toAwait <= 1 && s.toWorker <= 1
            && (forall i :: 0 <= i < |s.awaiters| && s.awaiters[i] == Returned ==> s.calls == 1)
            && (forall i :: 0 <= i < |s.awaiters| && s.awaiters[i] == LeftEarly ==> i != s.first)
            && (s.worker == WJump ==> s.firstAwait.AwaitCc? && 0 <= s.firstAwait.a < |s.awaiters|
                                      && s.awaiters[s.firstAwait.a] == FJumped)
            && (forall i :: 0 <= i < |s.awaiters| && s.awaiters[i] == FReadSecond ==> s.secondary == ThreadCc)
  {
    RunKeepsInv(tr, k);
  }

  /** Whoever finds the token notified finds all_done, except while a worker that came first is between the two; so only
      then does a late awaiter suspend on a token that is notified already. */
  lemma NotifiedMeansDone(tr: seq<State>, k: nat)
    requires IsRun(tr) && k < |tr|
    ensures var s := tr[k];
            && (s.notified ==> s.sync == AllDone || (s.sync == AsyncFinishing && s.worker == WDoneEarly))
            && (s.sync == AllDone && !s.notified ==> s.worker == WNotifyLate || First(s) == FNotify)
            && (s.sync == AsyncFinishing && !s.notified ==> s.worker == WNotifyEarly)
  {
    RunKeepsInv(tr, k);
  }

  // ----- when `await` returns before the call

  /** Some continuation of the run lets awaiter `i` return while the user function has not been called. */
  ghost predicate CanReturnBeforeCall(tr: seq<State>, i: nat) {
    exists more: seq<State> :: IsRun(tr + more) && ReturnedBeforeCall((tr + more)[|tr + more| - 1], i)
  }

  predicate ReturnedBeforeCall(s: State, i: nat) {
    i < |s.awaiters| && HasReturned(s.awaiters[i]) && s.calls == 0
  }

  /** Whether a suspended late awaiter can return before the call is decided when it suspends: it can if and only if
      the pool had no free sleep object for it. */
  lemma ReturnBeforeCallIff(tr: seq<State>, i: nat)
    requires IsRun(tr) && tr[|tr| - 1].calls == 0
    requires i < |tr[|tr| - 1].awaiters| && tr[|tr| - 1].awaiters[i] in {LSuspended, LAlone}
    ensures CanReturnBeforeCall(tr, i) <==> tr[|tr| - 1].awaiters[i] == LAlone
  {
    hide Inv, Next, Init;
    if tr[|tr| - 1].awaiters[i] == LAlone {
      LeavesAlone(tr, i);
    } else if CanReturnBeforeCall(tr, i) {
      var more: seq<State> :| IsRun(tr + more) && ReturnedBeforeCall((tr + more)[|tr + more| - 1], i);
      HelperWaits(tr + more, |tr| - 1, |tr + more| - 1, i);
      AwaitsReturnAfterWork(tr + more, |tr + more| - 1);
      assert false;
    }
  }

  lemma LeavesAlone(tr: seq<State>, i: nat)
    requires IsRun(tr) && tr[|tr| - 1].calls == 0
    requires i < |tr[|tr| - 1].awaiters| && tr[|tr| - 1].awaiters[i] == LAlone
    ensures CanReturnBeforeCall(tr, i)
  {
    var tr' := Extended(tr, -2 - i);
    assert ReturnedBeforeCall(tr'[|tr'| - 1], i);
    assert tr' == tr + [tr'[|tr|]];
  }

  /** An awaiter that helps the pool leaves when it is notified, and not otherwise. */
  lemma {:induction false} HelperWaits(tr: seq<State>, k: nat, j: nat, i: nat)
    requires IsRun(tr) && k <= j < |tr| && i < |tr[k].awaiters| && tr[k].awaiters[i] == LSuspended
    ensures i < |tr[j].awaiters| && (tr[j].awaiters[i] == LSuspended || tr[j].awaiters[i] == Returned)
    decreases j
  {
    hide Inv, Enabled, Next, Init;
    if k < j {
      HelperWaits(tr, k, j - 1, i);
      RunKeepsInv(tr, j - 1);
      assert Step(tr[j - 1], tr[j - 1 + 1]);
      var a: int :| Enabled(tr[j - 1], a) && tr[j] == Next(tr[j - 1], a);
      StepLetsHelperWait(tr[j - 1], a, i);
    }
  }

  lemma StepLetsHelperWait(s: State, a: int, i: nat)
    requires Enabled(s, a) && i < |s.awaiters| && (s.awaiters[i] == LSuspended || s.awaiters[i] == Returned)
    ensures var s' := Next(s, a);
            i < |s'.awaiters| && (s'.awaiters[i] == LSuspended || s'.awaiters[i] == Returned)
  {
  }

  /** It does happen: the second awaiter finds no free sleep object, and a thread switch wakes it up. */
  lemma ReturnBeforeCallHappens() returns (tr: seq<State>)
    ensures IsRun(tr) && ReturnedBeforeCall(tr[|tr| - 1], 1)
  {
    hide IsRun, Extended;
    var s := State(InitialState, 0, Null, Null, false, WQueued, [Arriving, Arriving], Null, -1, 0, 0, 0);
    TwoArrive(s);
    tr := Extended([s], 0);
    tr := Extended(tr, 1);
    tr := Extended(tr, -3);
    tr := Extended(tr, -3);
  }

  lemma TwoArrive(s: State)
    requires s == State(InitialState, 0, Null, Null, false, WQueued, [Arriving, Arriving], Null, -1, 0, 0, 0)
    ensures IsRun([s])
  {
    assert s.awaiters == seq(2, _ => Arriving);
  }

  // ----- lifetime and progress

  /** The worker may still touch the frame. */
  predicate WorkerAccesses(s: State) { s.worker != WDone && s.worker != WGone }

  /** Once the first awaiter has returned, let alone all of them, the worker does not touch the frame. */
  lemma WorkerDoneBeforeFirstReturns(tr: seq<State>, k: nat)
    requires IsRun(tr) && k < |tr|
    ensures var s := tr[k];
            && (First(s) == Returned ==> !WorkerAccesses(s))
            && (|s.awaiters| > 0 && (forall i :: 0 <= i < |s.awaiters| ==> HasReturned(s.awaiters[i]))
                ==> !WorkerAccesses(s))
  {
    RunKeepsInv(tr, k);
    var s := tr[k];
    if |s.awaiters| > 0 && HasReturned(s.awaiters[0]) { assert s.first != -1; }
  }

  predicate Final(s: State) {
    !WorkerAccesses(s) && forall i :: 0 <= i < |s.awaiters| ==> HasReturned(s.awaiters[i])
  }

  /** No awaiter is left stuck, even if the pool never pops the task and nobody wakes a lone sleeper up for another
      reason: while somebody has not returned, some step other than these is enabled. In a final state the late
      awaiters have been notified. */
  lemma NoDeadlock(tr: seq<State>, k: nat)
    requires IsRun(tr) && k < |tr|
    ensures var s := tr[k];
            ((exists i :: 0 <= i < |s.awaiters| && !HasReturned(s.awaiters[i]))
             || (WorkerAccesses(s) && s.worker != WQueued)) ==>
              exists a: int :: a >= -1 && Enabled(s, a) && (a == -1 ==> s.worker != WQueued)
    ensures Final(tr[k]) ==> tr[k].notified && tr[k].sync == AllDone && tr[k].calls == 1
                             && tr[k].toWorker == if tr[k].worker == WGone then 0 else 1
  {
    RunKeepsInv(tr, k);
    var s := tr[k];
    if i: nat :| i < |s.awaiters| && !HasReturned(s.awaiters[i]) {
      var a := SomeoneMoves(s, i);
    } else if WorkerAccesses(s) && s.worker != WQueued {
      assert Enabled(s, -1);
    }
  }

  lemma SomeoneMoves(s: State, i: nat) returns (a: int)
    requires Inv(s) && i < |s.awaiters| && !HasReturned(s.awaiters[i])
    ensures a >= -1 && Enabled(s, a) && (a == -1 ==> s.worker != WQueued)
  {
    a := if AwaiterEnabled(s, i) then i else if AwaiterEnabled(s, s.first) then s.first else -1;
  }

  // ----- termination

  function WorkerRank(p: WorkerPc): nat {
    match p
    case WQueued => 11 case WStart => 10 case WSignal => 9 case WRun => 8 case WCas => 7
    case WNotifyEarly => 2 case WDoneEarly => 1
    case WWaitMain => 4 case WDoneLate => 3 case WNotifyLate => 2 case WJump => 1 case WDone => 0 case WGone => 0
  }

  function AwaiterRank(p: AwaiterPc): nat {
    match p
    case Arriving => 9 case FLoad => 8 case FExtract => 7 case FRun => 3 case FStoreDone => 2 case FNotify => 1
    case FWaitStarted => 6 case FCas => 5 case FStoreCc => 4 case FReadSecond => 3 case FPublish => 2 case FJumped => 1
    case FWaitDone => 1 case LLoad => 2 case LSuspended => 1 case LAlone => 1 case Returned => 0 case LeftEarly => 0
  }

  function Ranks(s: State): seq<int> {
    seq(|s.awaiters|, i requires 0 <= i < |s.awaiters| => AwaiterRank(s.awaiters[i]))
  }

  function Measure(s: State): int { WorkerRank(s.worker) + Sum(Ranks(s)) }

  lemma WorkerDecreasesMeasure(s: State)
    requires WorkerEnabled(s) && (s.worker == WJump ==> s.firstAwait == AwaitCc(s.first) && First(s) == FJumped)
    ensures Measure(WorkerNext(s)) < Measure(s)
  {
    var s' := WorkerNext(s);
    if s.worker == WJump {
      assert Ranks(s') == Ranks(s)[s.first := 0];
      SumUpdate(Ranks(s), s.first, 0);
    }
  }

  lemma AwaiterDecreasesMeasure(s: State, i: nat)
    requires i < |s.awaiters| && AwaiterEnabled(s, i)
    ensures Measure(AwaiterNext(s, i)) < Measure(s)
  {
    AwaiterLowersRank(s, i);
    hide AwaiterNext, AwaiterRank, WorkerRank;
    var s' := AwaiterNext(s, i);
    var r := AwaiterRank(s'.awaiters[i]);
    assert Ranks(s') == Ranks(s)[i := r];
    SumUpdate(Ranks(s), i, r);
  }

  lemma AwaiterLowersRank(s: State, i: nat)
    requires i < |s.awaiters| && AwaiterEnabled(s, i)
    ensures var s' := AwaiterNext(s, i);
            && AwaiterRank(s'.awaiters[i]) < AwaiterRank(s.awaiters[i])
            && s'.awaiters == s.awaiters[i := s'.awaiters[i]]
            && WorkerRank(s'.worker) <= WorkerRank(s.worker)
  {
  }

  lemma AloneDecreasesMeasure(s: State, i: nat)
    requires i < |s.awaiters| && AloneEnabled(s, i)
    ensures Measure(AloneNext(s, i)) < Measure(s)
  {
    var s' := AloneNext(s, i);
    var r := AwaiterRank(s'.awaiters[i]);
    assert Ranks(s') == Ranks(s)[i := r];
    SumUpdate(Ranks(s), i, r);
  }

  lemma StepDecreasesMeasure(s: State, a: int)
    requires Inv(s) && Enabled(s, a)
    ensures Measure(Next(s, a)) < Measure(s)
  {
    hide Measure, WorkerNext, AwaiterNext, AloneNext, LateInv;
    if a == -1 { WorkerDecreasesMeasure(s); }
    else if a >= 0 { AwaiterDecreasesMeasure(s, a); }
    else { AloneDecreasesMeasure(s, -2 - a); }
  }

  lemma {:induction false} RunMeasure(tr: seq<State>, k: nat)
    requires IsRun(tr) && k < |tr|
    ensures Measure(tr[k]) + k <= Measure(tr[0])
  {
    hide Inv, Enabled, Next, Init, Measure;
    if k > 0 {
      RunMeasure(tr, k - 1);
      RunKeepsInv(tr, k - 1);
      assert Step(tr[k - 1], tr[k - 1 + 1]);
      var a: int :| Enabled(tr[k - 1], a) && tr[k] == Next(tr[k - 1], a);
      StepDecreasesMeasure(tr[k - 1], a);
    }
  }

  /** No run is infinite: with `m` awaiters there are at most `9m + 11` steps. */
  lemma RunsAreBounded(tr: seq<State>)
    requires IsRun(tr)
    ensures |tr| - 1 <= 9 * |tr[0].awaiters| + 11
  {
    RunMeasure(tr, |tr| - 1);
    SumNonNegative(Ranks(tr[|tr| - 1]));
    SumConst(Ranks(tr[0]), 9);
  }
}
