/** The single spawn frame: one worker, one awaiter, a state word changed by compare-and-swap and stores. */
module SpawnFrame {

  datatype SyncState = InitialState | AsyncStarted | AsyncFinished | MainFinishing | MainFinished

  /** A saved continuation: the flow suspended in `await`, or the pool thread that executes the task. */
  datatype Token = Null | AwaitCc | ThreadCc

  datatype WorkerPc =
    | WQueued      // the task is in the pool
    | WGone        // extracted by the awaiter
    | WStart       // popped; about to store its continuation
    | WSignal      // about to publish async_started
    | WRun         // user function in progress
    | WCas         // on_async_complete: about to compare-and-swap
    | WLeave       // first to complete; about to return its own continuation
    | WWaitMain    // waits for main_finished
    | WJump        // about to jump to the awaiter's continuation
    | WDone

  datatype AwaiterPc =
    | ALoad        // about to read the state
    | AExtract     // about to extract the task from the pool
    | ARun         // executes the user function in place
    | AWaitStarted // waits for async_started
    | ACas         // about to compare-and-swap
    | AStoreCc     // suspended; its body stores the continuation
    | APublish     // about to publish main_finished
    | AReadSecond  // about to read the worker's continuation and jump to it
    | AJumped      // the body has jumped
    | ALeave       // about to return without a switch
    | AReturned

  /** `toAwait` and `toWorker` count the jumps to the two continuations, `calls` the completed calls of the
      user function. The flow suspended in `await` continues once it has been jumped to, whatever its body
      still has to do. */
  datatype State = State(sync: SyncState, originator: Token, secondary: Token,
                         worker: WorkerPc, awaiter: AwaiterPc,
                         calls: nat, toAwait: nat, toWorker: nat)

  const INIT := State(InitialState, Null, Null, WQueued, ALoad, 0, 0, 0)

  datatype Actor = Worker | Awaiter

  predicate Enabled(s: State, a: Actor) {
    match a
    case Worker =>
      s.worker != WDone && s.worker != WGone && (s.worker == WWaitMain ==> s.sync == MainFinished)
    case Awaiter =>
      s.awaiter != AJumped && s.awaiter != AReturned && (s.awaiter == AWaitStarted ==> s.sync != InitialState)
  }

  function Next(s: State, a: Actor): State
    requires Enabled(s, a)
  {
    if a == Worker then WorkerNext(s) else AwaiterNext(s)
  }

  function WorkerNext(s: State): State
    requires Enabled(s, Worker)
  {
    match s.worker
    case WQueued => s.(worker := WStart)
    case WStart => s.(worker := WSignal, secondary := ThreadCc)
    case WSignal => s.(worker := WRun, sync := AsyncStarted)
    case WRun => s.(worker := WCas, calls := s.calls + 1)
    case WCas => if s.sync == AsyncStarted then s.(worker := WLeave, sync := AsyncFinished) else s.(worker := WWaitMain)
    case WLeave => s.(worker := WDone, toWorker := s.toWorker + 1)
    case WWaitMain => s.(worker := WJump)
    case WJump => if s.originator == AwaitCc then s.(worker := WDone, toAwait := s.toAwait + 1) else s.(worker := WDone)
  }

  function AwaiterNext(s: State): State
    requires Enabled(s, Awaiter)
  {
    match s.awaiter
    case ALoad => s.(awaiter := if s.sync == InitialState then AExtract else ACas)
    case AExtract => if s.worker == WQueued then s.(awaiter := ARun, worker := WGone) else s.(awaiter := AWaitStarted)
    case ARun => s.(awaiter := ALeave, calls := s.calls + 1)
    case AWaitStarted => s.(awaiter := ACas)
    case ACas => if s.sync == AsyncStarted then s.(awaiter := AStoreCc, sync := MainFinishing)
        else s.(awaiter := ALeave)
    case AStoreCc => s.(awaiter := APublish, originator := AwaitCc)
    case APublish => s.(awaiter := AReadSecond, sync := MainFinished)
    case AReadSecond =>
      if s.secondary == ThreadCc then s.(awaiter := AJumped, toWorker := s.toWorker + 1) else s.(awaiter := AJumped)
    case ALeave => s.(awaiter := AReturned)
  }

  predicate IsRun(tr: seq<State>) {
    && tr != [] && tr[0] == INIT
    && forall i :: 0 <= i < |tr| - 1 ==> Step(tr[i], tr[i + 1])
  }

  predicate Step(s: State, s': State) {
    exists a: Actor :: Enabled(s, a) && s' == Next(s, a)
  }

  /** The run that goes on with a step of `a`. */
  ghost function Extended(tr: seq<State>, a: Actor): (tr': seq<State>)
    requires IsRun(tr) && Enabled(tr[|tr| - 1], a)
    ensures IsRun(tr') && tr' == tr + [Next(tr[|tr| - 1], a)]
  {
    var tr' := tr + [Next(tr[|tr| - 1], a)];
    assert forall i :: 0 <= i < |tr| - 1 ==> Step(tr[i], tr[i + 1]);
    assert Step(tr[|tr| - 1], Next(tr[|tr| - 1], a));
    tr'
  }

  /** The body of `await` has gone for a thread switch. */
  predicate Switching(p: AwaiterPc) { p.AStoreCc? || p.APublish? || p.AReadSecond? || p.AJumped? }

  /** The flow that called `await` continues after it. */
  predicate Returned(s: State) { s.awaiter == AReturned || s.toAwait > 0 }

  ghost predicate Inv(s: State) {
    var w, a := s.worker, s.awaiter;
    && (w == WGone <==> a == ARun || ((a == ALeave || a == AReturned) && s.sync == InitialState))
    && (s.sync == InitialState <==> w == WQueued || w == WStart || w == WSignal || w == WGone)
    && (s.sync == AsyncStarted <==> (w == WRun || w == WCas) && !Switching(a))
    && (s.sync == AsyncFinished <==> w == WLeave || (w == WDone && !Switching(a)))
    && (s.sync == MainFinishing <==> a == AStoreCc || a == APublish)
    && (s.sync == MainFinished <==> a == AReadSecond || a == AJumped)
    && (w == WWaitMain ==> Switching(a)) && (w == WJump ==> s.sync == MainFinished)
    && (w == WDone && Switching(a) ==> s.sync == MainFinished)
    && (Switching(a) ==> w != WLeave && w != WQueued && w != WStart && w != WSignal && w != WGone)
    && (a == AWaitStarted ==> w != WQueued && w != WGone) && (a == ACas ==> s.sync != InitialState)
    && (s.secondary == ThreadCc <==> w != WQueued && w != WGone && w != WStart) && s.secondary != AwaitCc
    && (s.originator == AwaitCc <==> Switching(a) && a != AStoreCc) && s.originator != ThreadCc
    && (s.calls == if w == WQueued || w == WStart || w == WSignal || w == WRun || a == ARun then 0 else 1)
    && (s.toAwait == if w == WDone && Switching(a) then 1 else 0)
    && (s.toWorker == if a == AJumped || (w == WDone && !Switching(a)) then 1 else 0)
    && (a == ALeave || a == AReturned ==> s.sync == AsyncFinished || s.sync == InitialState)
  }

  lemma StepKeepsInv(s: State, a: Actor)
    requires Inv(s) && Enabled(s, a)
    ensures Inv(Next(s, a))
  {
  }

  lemma {:induction false} RunKeepsInv(tr: seq<State>, k: nat)
    requires IsRun(tr) && k < |tr|
    ensures Inv(tr[k])
  {
    hide Inv, Enabled;
    if k == 0 {
      InitHolds();
    } else {
      RunKeepsInv(tr, k - 1);
      assert Step(tr[k - 1], tr[k - 1 + 1]);
      var a: Actor :| Enabled(tr[k - 1], a) && tr[k] == Next(tr[k - 1], a);
      StepKeepsInv(tr[k - 1], a);
    }
  }

  lemma InitHolds()
    ensures Inv(INIT)
  {
  }

  /** `await` returns only after the user function was called, once; each continuation is jumped to at most
      once, and none before it was stored. */
  lemma AwaitReturnsAfterWork(tr: seq<State>, k: nat)
    requires IsRun(tr) && k < |tr|
    ensures var s := tr[k];
            && (Returned(s) ==> s.calls == 1) && s.calls <= 1 && s.toAwait <= 1 && s.toWorker <= 1
            && (s.awaiter == AReadSecond ==> s.secondary == ThreadCc)
            && (s.worker == WJump ==> s.originator == AwaitCc)
            && !(s.awaiter == AReturned && s.toAwait > 0)
  {
    RunKeepsInv(tr, k);
  }

  predicate Final(s: State) {
    (s.worker == WDone || s.worker == WGone) && (s.awaiter == AJumped || s.awaiter == AReturned)
  }

  /** No deadlock, even if the pool never pops the task; and in a final state both the awaiter and, unless its task was
      taken back, the worker's thread have been continued exactly once. */
  lemma NoDeadlock(tr: seq<State>, k: nat)
    requires IsRun(tr) && k < |tr|
    ensures var s := tr[k];
            && (!Final(s) ==> (s.worker != WQueued && Enabled(s, Worker)) || Enabled(s, Awaiter))
            && (Final(s) ==> Returned(s) && s.toWorker == if s.worker == WGone then 0 else 1)
  {
    RunKeepsInv(tr, k);
  }

  function Measure(s: State): nat {
    (match s.worker
     case WQueued => 8 case WStart => 7 case WSignal => 6 case WRun => 5 case WCas => 4 case WLeave => 1
     case WWaitMain => 2 case WJump => 1 case WDone => 0 case WGone => 0)
    + (match s.awaiter
       case ALoad => 7 case AExtract => 6 case ARun => 2 case AWaitStarted => 5 case ACas => 4 case AStoreCc => 3
       case APublish => 2 case AReadSecond => 1 case AJumped => 0 case ALeave => 1 case AReturned => 0)
  }

  /** No run has more than 15 steps. */
  lemma {:induction false} RunsAreBounded(tr: seq<State>, k: nat)
    requires IsRun(tr) && k < |tr|
    ensures Measure(tr[k]) + k <= 15
  {
    if k > 0 {
      RunsAreBounded(tr, k - 1);
      assert Step(tr[k - 1], tr[k - 1 + 1]);
    }
  }

  /** The awaiter's body, or the worker, may still read the frame. */
  predicate FrameInUse(s: State) {
    || (Switching(s.awaiter) && s.awaiter != AJumped)
    || !(s.worker == WDone || s.worker == WGone || s.worker == WLeave)
  }

  /** No run has returned from `await`, with `v` in the state word, while the frame is still in use. */
  ghost predicate SafeToDrop(v: SyncState) {
    forall tr: seq<State>, k: nat ::
      IsRun(tr) && k < |tr| && Returned(tr[k]) && tr[k].sync == v ==> !FrameInUse(tr[k])
  }

  /** What the caller finds in the state word after `await` tells whether the frame may be dropped: always, except
      after a thread switch. */
  lemma SafeToDropIff(v: SyncState)
    ensures SafeToDrop(v) <==> v != MainFinished
  {
    if v == MainFinished {
      var tr := FrameReadAfterReturnHappens();
      assert FrameInUse(tr[|tr| - 1]) && tr[|tr| - 1].sync == v;
    } else {
      forall tr: seq<State>, k: nat | IsRun(tr) && k < |tr| && Returned(tr[k]) && tr[k].sync == v
        ensures !FrameInUse(tr[k])
      {
        FrameReadAfterReturnIff(tr, k);
      }
    }
  }

  /** In use after `await` has returned, the frame is so for one read only, of the worker's continuation by the
      awaiter's body, which has published main_finished. */
  lemma FrameReadAfterReturnIff(tr: seq<State>, k: nat)
    requires IsRun(tr) && k < |tr| && Returned(tr[k])
    ensures FrameInUse(tr[k]) <==> tr[k].awaiter == AReadSecond
    ensures FrameInUse(tr[k]) ==> tr[k].sync == MainFinished && tr[k].worker == WDone
  {
    RunKeepsInv(tr, k);
  }

  /** That does happen: the worker resumes the awaiting flow before the body reads `secondary_thread_`. */
  lemma FrameReadAfterReturnHappens() returns (tr: seq<State>)
    ensures IsRun(tr) && Returned(tr[|tr| - 1]) && tr[|tr| - 1].awaiter == AReadSecond
        && tr[|tr| - 1].sync == MainFinished
  {
    hide IsRun, Extended;
    InitRuns();
    tr := Extended([INIT], Worker);
    tr := Extended(tr, Worker);
    tr := Extended(tr, Worker);     // the worker has stored its continuation and published async_started
    tr := Extended(tr, Awaiter);
    tr := Extended(tr, Awaiter);
    assert tr[|tr| - 1] == INIT.(worker := WRun, awaiter := AStoreCc, secondary := ThreadCc, sync := MainFinishing);
    tr := Extended(tr, Awaiter);
    tr := Extended(tr, Awaiter);    // the awaiter's body has published main_finished
    tr := Extended(tr, Worker);
    tr := Extended(tr, Worker);
    tr := Extended(tr, Worker);
    tr := Extended(tr, Worker);     // the worker has jumped to the awaiter's continuation
  }

  lemma InitRuns()
    ensures IsRun([INIT])
  {
  }
}
