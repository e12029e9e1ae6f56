/** Suspension with quick resume: a notifier, its stop callback, the suspended thread's body and a pool worker
    race for one continuation, the one after `suspend_quick_resume`. */
module QuickResume {

  datatype TaskState = InitialState | Enqueuing | Enqueued | NotNeeded

  /** Where the resume task is. */
  datatype TaskPlace = NotQueued | InPool | TakenByWorker | TakenBySuspender | Extracted

  /** The stop callback. `Running*` is its body; registering it when stop was requested runs it at once. */
  datatype Callback = Unregistered | Registered | RunningCas | RunningEnqueue | RunningStore | Over | Deregistered

  datatype WorkerPc = WNone | WRead | WStore | WJumped

  /** The body that `callcc` started on the suspended thread. */
  datatype SuspenderPc =
    | SCheck         // about to look whether stop was requested already
    | SRegister      // about to register the callback
    | SInline        // the registration runs the callback
    | SOffer         // about to offer help: takes a sleep object, if one is free
    | SAlone         // none was free: asleep on an object of its own, without a loop around it
    | SLook          // has a sleep object; about to look whether stop was requested
    | SHelp          // saw no stop: sleeps if there is no task, then looks again
    | SScan          // saw no stop again: looks for a task
    | SBusy          // found none, or another one, which it executes; then comes round again
    | SOwnRead       // popped its own task while helping: about to read the continuation,
    | SOwnStore      // ... to store where it stands, and to jump
    | SCas           // back from helping: about to compare-and-swap
    | SWaitEnqueued  // waits until the task is enqueued
    | SExtract       // about to extract the task
    | SWaitAfter     // waits for the worker's continuation
    | SLeave(own: bool)  // leaving: waits for a running callback, then destroys task and state
    | SGone(own: bool)   // jumped: to the suspended flow, or to the worker's continuation
    | SAbandoned     // suspended inside its own task; nobody will resume it

  /** `after` tells whether `after_execute_` has been stored, `alive` whether `task` and `task_state` exist, and
      `bumped` whether somebody else has moved the counter that a thread asleep alone waits on. `enqueues`,
      `resumes` and `rounds` of helping are counted. History: `late` tells whether the suspended thread was past
      its last look when stop was requested. */
  datatype State = State(stop: bool, taskState: TaskState, after: bool, place: TaskPlace, alive: bool,
                         callback: Callback, worker: WorkerPc, suspender: SuspenderPc, bumped: bool,
                         enqueues: nat, resumes: nat, rounds: nat, late: bool)

  const INIT :=
    State(false, InitialState, false, NotQueued, false, Unregistered, WNone, SCheck, false, 0, 0, 0, false)

  /** `NoSlot` is the suspended thread finding no free sleep object, `SuspenderPops` popping its own task while it
      helps. `OtherWakeUp` is a wake-up of its thread for another reason, such as a thread switch. */
  datatype Actor = Notifier | CallbackActor | Worker | Suspender | SuspenderPops | NoSlot | OtherWakeUp

  predicate Running(c: Callback) { c.RunningCas? || c.RunningEnqueue? || c.RunningStore? }

  predicate Enabled(s: State, a: Actor) {
    match a
    case Notifier => !s.stop
    case CallbackActor => Running(s.callback)
    case Worker => if s.worker == WNone then s.place == InPool else s.worker != WJumped
    case SuspenderPops => s.suspender == SScan && s.place == InPool
    case NoSlot => s.suspender == SOffer
    case OtherWakeUp => s.suspender == SAlone && !s.bumped
    case Suspender =>
      match s.suspender
      case SInline => !Running(s.callback)
      case SAlone => s.stop || s.bumped
      case SWaitEnqueued => s.taskState == Enqueued
      case SWaitAfter => s.after
      case SLeave(_) => !Running(s.callback)
      case SGone(_) => false
      case SAbandoned => false
      case _ => true
  }

  function Next(s: State, a: Actor): State
    requires Enabled(s, a)
  {
    match a
    case Notifier =>
      s.(stop := true, late := s.suspender == SScan,
         callback := if s.callback == Registered then RunningCas else s.callback)
    case CallbackActor => CallbackNext(s)
    case Worker => WorkerNext(s)
    case SuspenderPops => s.(suspender := SOwnRead, place := TakenBySuspender)
    case NoSlot => s.(suspender := SAlone)
    case OtherWakeUp => s.(bumped := true)
    case Suspender => SuspenderNext(s)
  }

  function CallbackNext(s: State): (s': State)
    requires Running(s.callback)
    ensures s'.stop == s.stop && s'.late == s.late && s'.bumped == s.bumped && s'.rounds == s.rounds
    ensures s'.suspender == s.suspender && s'.worker == s.worker && s'.resumes == s.resumes
  {
    match s.callback
    case RunningCas =>
      if s.taskState == InitialState then s.(callback := RunningEnqueue, taskState := Enqueuing)
      else s.(callback := Over)
    case RunningEnqueue => s.(callback := RunningStore, place := InPool, enqueues := s.enqueues + 1)
    case RunningStore => s.(callback := Over, taskState := Enqueued)
  }

  function WorkerNext(s: State): (s': State)
    requires Enabled(s, Worker)
    ensures s'.stop == s.stop && s'.late == s.late && s'.bumped == s.bumped && s'.rounds == s.rounds
    ensures s'.suspender == s.suspender && s'.callback == s.callback
  {
    match s.worker
    case WNone => s.(worker := WRead, place := TakenByWorker)
    case WRead => s.(worker := WStore)
    case WStore => s.(worker := WJumped, after := true, resumes := s.resumes + 1)
  }

  function SuspenderNext(s: State): (s': State)
    requires Enabled(s, Suspender)
    ensures s'.stop == s.stop && s'.late == s.late && s'.bumped == s.bumped && s'.worker == s.worker
  {
    match s.suspender
    case SCheck => if s.stop then s.(suspender := SGone(true), resumes := s.resumes + 1) else s.(suspender := SRegister)
    case SRegister =>
      if s.stop then s.(suspender := SInline, alive := true, callback := RunningCas)
      else s.(suspender := SOffer, alive := true, callback := Registered)
    case SInline => s.(suspender := SOffer)
    case SOffer => s.(suspender := SLook)
    case SAlone => s.(suspender := SCas)
    case SLook => s.(suspender := if s.stop then SCas else SHelp)
    case SHelp => s.(suspender := if s.stop then SCas else SScan)
    case SScan => s.(suspender := SBusy)
    case SBusy => s.(suspender := SLook, rounds := s.rounds + 1)
    case SOwnRead => s.(suspender := SOwnStore)
    case SOwnStore => s.(suspender := SAbandoned, after := true, resumes := s.resumes + 1)
    case SCas => if s.taskState == InitialState then s.(suspender := SLeave(true), taskState := NotNeeded)
                 else s.(suspender := SWaitEnqueued)
    case SWaitEnqueued => s.(suspender := SExtract)
    case SExtract =>
      if s.place == InPool then s.(suspender := SLeave(true), place := Extracted) else s.(suspender := SWaitAfter)
    case SWaitAfter => s.(suspender := SLeave(false))
    case SLeave(own) =>
      s.(suspender := SGone(own), alive := false,
         callback := if s.callback == Registered then Deregistered else s.callback,
         resumes := if own then s.resumes + 1 else s.resumes)
  }

  ghost predicate Step(s: State, s': State) {
    exists a: Actor :: Enabled(s, a) && s' == Next(s, a)
  }

  ghost predicate IsRun(tr: seq<State>) {
    && tr != [] && tr[0] == INIT
    && forall i :: 0 <= i < |tr| - 1 ==> Step(tr[i], tr[i + 1])
  }

  /** The run that goes on with a step of `a`. */
  ghost function Extended(tr: seq<State>, a: Actor): (tr': seq<State>)
    requires IsRun(tr) && Enabled(tr[|tr| - 1], a)
    ensures IsRun(tr') && tr' == tr + [Next(tr[|tr| - 1], a)]
  {
    var tr' := tr + [Next(tr[|tr| - 1], a)];
    assert forall i :: 0 <= i < |tr| - 1 ==> Step(tr[i], tr[i + 1]);
    assert Step(tr[|tr| - 1], Next(tr[|tr| - 1], a));
    tr'
  }

  // ----- the invariant

  predicate Started(p: SuspenderPc) { !p.SCheck? && !p.SRegister? }

  /** Helps with a sleep object of the pool. */
  predicate HasObject(p: SuspenderPc) { p.SLook? || p.SHelp? || p.SScan? || p.SBusy? }

  predicate SelfPopped(p: SuspenderPc) { p.SOwnRead? || p.SOwnStore? || p.SAbandoned? }

  ghost predicate Inv(s: State) {
    var p, c := s.suspender, s.callback;
    var direct := p == SGone(true) && c == Unregistered;     // returned before creating anything
    && (c == Unregistered <==> !Started(p) || direct)
    && (s.alive <==> Started(p) && !p.SGone?)
    && (!(c == Unregistered || c == Registered || c == Deregistered) || direct ==> s.stop)
    && (c == Registered ==> !s.stop) && (c == Deregistered ==> p.SGone?)
    && (Running(c) ==> s.alive)
    && (p == SCheck || p == SRegister || p == SOffer || p == SAlone || HasObject(p) || s.stop
        || (s.bumped && (p == SCas || p == SLeave(true) || p == SGone(true))))
    && (s.bumped ==>
          !HasObject(p) && p != SCheck && p != SRegister && p != SInline && p != SOffer && !SelfPopped(p) && !direct)
    && (p == SInline ==> Running(c) || c == Over)
    // the task state word
    && (s.taskState == InitialState <==>
          (c == Unregistered || c == Registered || c == RunningCas) && !p.SLeave? && !(p.SGone? && !direct))
    && (s.taskState == NotNeeded ==>
          && (p == SLeave(true) || p == SGone(true))
          && (c == RunningCas || c == Over || (c == Registered && p.SLeave?) || (c == Deregistered && p.SGone?)))
    && (s.taskState == Enqueuing <==> c == RunningEnqueue || c == RunningStore)
    && (s.taskState == Enqueued ==> c == Over)
    // the task
    && (s.place == NotQueued <==> s.enqueues == 0) && s.enqueues <= 1
    && (s.enqueues == 1 <==> c == RunningStore || s.taskState == Enqueued)
    && (s.place == TakenByWorker <==> s.worker != WNone)
    && (s.place == TakenBySuspender <==> SelfPopped(p))
    && (s.place == Extracted ==> p == SLeave(true) || p == SGone(true))
    && (s.after <==> s.worker == WJumped || p == SAbandoned)
    // where the suspender is
    && (p == SWaitEnqueued ==> s.taskState == Enqueuing || s.taskState == Enqueued)
    && (p == SExtract || p == SWaitAfter || p == SLeave(false) || p == SGone(false) ==> s.taskState == Enqueued)
    && (p == SWaitAfter ==> s.place == TakenByWorker) && (p == SLeave(false) || p == SGone(false)
        ==> s.worker == WJumped)
    && (p == SLeave(true) || (p == SGone(true) && !direct) ==> s.taskState == NotNeeded || s.place == Extracted)
    && (SelfPopped(p) || (p == SScan && s.stop) ==> s.late) && (s.late ==> s.stop)
    // resumptions
    && (s.resumes == (if s.worker == WJumped then 1 else 0) + (if p == SAbandoned || p == SGone(true) then 1 else 0))
  }

  predicate Starting(p: SuspenderPc) { p.SCheck? || p.SRegister? || p.SInline? }

  predicate Helping(p: SuspenderPc) { p.SOffer? || p.SAlone? || HasObject(p) }

  lemma StartingKeepsInv(s: State)
    requires Inv(s) && Enabled(s, Suspender) && Starting(s.suspender)
    ensures Inv(SuspenderNext(s))
  {
  }

  lemma HelpingKeepsInv(s: State)
    requires Inv(s) && Enabled(s, Suspender) && Helping(s.suspender)
    ensures Inv(SuspenderNext(s))
  {
    var s' := SuspenderNext(s);
    assert s' == s.(suspender := s'.suspender, rounds := s'.rounds);
  }

  lemma SelfPoppedKeepsInv(s: State)
    requires Inv(s) && Enabled(s, Suspender) && SelfPopped(s.suspender)
    ensures Inv(SuspenderNext(s))
  {
  }

  lemma ClaimKeepsInv(s: State)
    requires Inv(s) && Enabled(s, Suspender) && s.suspender == SCas
    ensures Inv(SuspenderNext(s))
  {
  }

  predicate Fetching(p: SuspenderPc) { p.SWaitEnqueued? || p.SExtract? || p.SWaitAfter? }

  lemma FetchingKeepsInv(s: State)
    requires Inv(s) && Enabled(s, Suspender) && Fetching(s.suspender)
    ensures Inv(SuspenderNext(s))
  {
  }

  lemma LeavingKeepsInv(s: State)
    requires Inv(s) && Enabled(s, Suspender) && s.suspender.SLeave?
    ensures Inv(SuspenderNext(s))
  {
  }

  lemma SuspenderKeepsInv(s: State)
    requires Inv(s) && Enabled(s, Suspender)
    ensures Inv(SuspenderNext(s))
  {
    hide Inv, SuspenderNext;
    var p := s.suspender;
    if Starting(p) { StartingKeepsInv(s); }
    else if Helping(p) { HelpingKeepsInv(s); }
    else if SelfPopped(p) { SelfPoppedKeepsInv(s); }
    else if p == SCas { ClaimKeepsInv(s); }
    else if Fetching(p) { FetchingKeepsInv(s); }
    else { LeavingKeepsInv(s); }
  }

  lemma StepKeepsInv(s: State, a: Actor)
    requires Inv(s) && Enabled(s, a)
    ensures Inv(Next(s, a))
  {
    hide Inv, SuspenderNext, CallbackNext, WorkerNext;
    match a
    case Suspender => SuspenderKeepsInv(s);
    case CallbackActor => CallbackKeepsInv(s);
    case Worker => WorkerKeepsInv(s);
    case _ => OthersKeepInv(s, a);
  }

  lemma CallbackKeepsInv(s: State)
    requires Inv(s) && Running(s.callback)
    ensures Inv(CallbackNext(s))
  {
  }

  lemma WorkerKeepsInv(s: State)
    requires Inv(s) && Enabled(s, Worker)
    ensures Inv(WorkerNext(s))
  {
  }

  lemma OthersKeepInv(s: State, a: Actor)
    requires Inv(s) && Enabled(s, a) && a != Suspender && a != CallbackActor && a != Worker
    ensures Inv(Next(s, a))
  {
  }

  lemma InitHolds()
    ensures Inv(INIT)
  {
  }

  lemma {:induction false} RunKeepsInv(tr: seq<State>, k: nat)
    requires IsRun(tr) && k < |tr|
    ensures Inv(tr[k])
  {
    hide Inv, Enabled;
    if k == 0 {
      InitHolds();
    } else {
      RunKeepsInv(tr, k - 1);
      assert Step(tr[k - 1], tr[k - 1 + 1]);
      var a: Actor :| Enabled(tr[k - 1], a) && tr[k] == Next(tr[k - 1], a);
      StepKeepsInv(tr[k - 1], a);
    }
  }

  // ----- what suspension promises

  /** Over every interleaving the task is enqueued at most once and the suspended flow resumed at most once; not before
      the notification, unless the thread slept alone and somebody else moved its counter; and the suspender jumps to
      the worker's continuation only if a worker took the task and stored that continuation. */
  lemma ResumedAtMostOnce(tr: seq<State>, k: nat)
    requires IsRun(tr) && k < |tr|
    ensures var s := tr[k];
            && s.enqueues <= 1 && s.resumes <= 1 && (s.resumes == 1 ==> s.stop || s.bumped)
            && (s.suspender == SLeave(false) || s.suspender == SGone(false) ==>
                  s.place == TakenByWorker && s.worker == WJumped && s.after)
            && (s.suspender == SGone(true) ==> s.worker == WNone)
  {
    RunKeepsInv(tr, k);
  }

  /** `task` and `task_state` outlive every access by the callback, the pool and the worker. */
  lemma TaskOutlivesItsUsers(tr: seq<State>, k: nat)
    requires IsRun(tr) && k < |tr|
    ensures var s := tr[k];
            Running(s.callback) || s.place == InPool || s.worker == WRead || s.worker == WStore ==> s.alive
  {
    RunKeepsInv(tr, k);
  }

  /** The steps that everybody may rely on. Nobody needs a wake-up for another reason, a pool without free sleep
      objects, or anybody to pop the task. */
  predicate Reliable(s: State, a: Actor) {
    a != OtherWakeUp && a != NoSlot && a != SuspenderPops && (a == Worker ==> s.worker != WNone)
  }

  predicate Stuck(s: State) { forall a: Actor :: Reliable(s, a) ==> !Enabled(s, a) }

  /** A run that cannot be continued but for such accidents has been notified and has resumed the flow exactly once;
      in particular the notification wakes up a thread that sleeps alone. If stop was not requested behind the
      back of the helping thread, the suspended body has finished. */
  lemma MaximalRunsResume(tr: seq<State>)
    requires IsRun(tr) && Stuck(tr[|tr| - 1])
    ensures var s := tr[|tr| - 1];
            && s.stop && s.resumes == 1
            && (s.suspender.SGone? || s.suspender.SAbandoned?)
            && (!s.late ==> s.suspender.SGone?)
  {
    RunKeepsInv(tr, |tr| - 1);
    StuckStates(tr[|tr| - 1]);
  }

  lemma StuckStates(s: State)
    requires Inv(s) && Stuck(s)
    ensures s.stop && s.resumes == 1
    ensures s.suspender.SGone? || (s.suspender.SAbandoned? && s.late)
  {
    assert !Enabled(s, Notifier) && !Enabled(s, CallbackActor) && !Enabled(s, Suspender);
    assert s.worker != WNone ==> !Enabled(s, Worker);
  }

  /** A flow that suspends when stop was requested already goes on at once, and nothing is created or enqueued for
      it. */
  lemma {:induction false} StoppedBeforehand(tr: seq<State>, i: nat, j: nat)
    requires IsRun(tr) && i <= j < |tr| && tr[i].stop && tr[i].suspender == SCheck
    ensures tr[j].suspender == SCheck || tr[j].suspender == SGone(true)
    ensures !tr[j].alive && tr[j].enqueues == 0 && tr[j].callback == Unregistered && tr[j].stop
    decreases j
  {
    hide Inv, Enabled, Next;
    if i == j {
      RunKeepsInv(tr, i);
      NothingCreated(tr[i]);
    } else {
      StoppedBeforehand(tr, i, j - 1);
      RunKeepsInv(tr, j - 1);
      assert Step(tr[j - 1], tr[j - 1 + 1]);
      var a: Actor :| Enabled(tr[j - 1], a) && tr[j] == Next(tr[j - 1], a);
      DirectStep(tr[j - 1], a);
    }
  }

  lemma NothingCreated(s: State)
    requires Inv(s) && s.suspender == SCheck
    ensures !s.alive && s.enqueues == 0 && s.callback == Unregistered
  {
  }

  lemma DirectStep(s: State, a: Actor)
    requires Inv(s) && Enabled(s, a) && s.stop && s.callback == Unregistered && !s.alive && s.enqueues == 0
    requires s.suspender == SCheck || s.suspender == SGone(true)
    ensures var s' := Next(s, a);
            && s'.suspender == SGone(true) && s'.resumes == s.resumes + 1
            && s'.stop && s'.callback == Unregistered && !s'.alive && s'.enqueues == 0
  {
  }

  // ----- termination

  function SuspenderRank(p: SuspenderPc, stop: bool): nat {
    match p
    case SCheck => if stop then 11 else 16
    case SRegister => if stop then 10 else 15
    case SInline => 9
    case SOffer => if stop then 8 else 14
    case SAlone => 7
    case SLook => if stop then 7 else 13
    case SHelp => if stop then 7 else 12
    case SScan => if stop then 9 else 11
    case SBusy => if stop then 8 else 10
    case SOwnRead => 6
    case SOwnStore => 5
    case SCas => 6
    case SWaitEnqueued => 5
    case SExtract => 4
    case SWaitAfter => 3
    case SLeave(_) => 1
    case SGone(_) => 0
    case SAbandoned => 0
  }

  function CallbackRank(c: Callback): nat {
    match c
    case Unregistered => 5 case Registered => 4 case RunningCas => 3 case RunningEnqueue => 2
    case RunningStore => 1 case Over => 0 case Deregistered => 0
  }

  function WorkerRank(p: WorkerPc): nat {
    match p case WNone => 3 case WRead => 2 case WStore => 1 case WJumped => 0
  }

  function Measure(s: State): nat {
    (if s.stop then 0 else 1) + (if s.bumped then 0 else 1)
    + SuspenderRank(s.suspender, s.stop) + CallbackRank(s.callback) + WorkerRank(s.worker)
  }

  /** Every step lowers the measure, but for the end of a round of helping without a stop, which gives four back. */
  ghost predicate Progress(s: State, s': State) {
    if s.suspender == SBusy && s'.suspender == SLook && !s.stop then
      s'.rounds == s.rounds + 1 && Measure(s') == Measure(s) + 3
    else s'.rounds <= s.rounds + 1 && s'.rounds >= s.rounds && Measure(s') < Measure(s)
  }

  lemma SuspenderProgress(s: State)
    requires Enabled(s, Suspender)
    requires (s.suspender == SRegister ==> s.callback == Unregistered) && (s.suspender == SInline ==> s.stop)
    ensures Progress(s, SuspenderNext(s))
  {
    hide Progress, SuspenderNext;
    if Helping(s.suspender) { HelpingProgress(s); } else { OtherProgress(s); }
  }

  lemma HelpingProgress(s: State)
    requires Enabled(s, Suspender) && Helping(s.suspender)
    ensures Progress(s, SuspenderNext(s))
  {
    assert SuspenderNext(s).callback == s.callback;
  }

  lemma OtherProgress(s: State)
    requires Enabled(s, Suspender) && !Helping(s.suspender)
    requires (s.suspender == SRegister ==> s.callback == Unregistered) && (s.suspender == SInline ==> s.stop)
    ensures Progress(s, SuspenderNext(s))
  {
    hide SuspenderRank, CallbackRank, WorkerRank, SuspenderNext;
    OtherRank(s);
    OtherCallback(s);
  }

  lemma OtherRank(s: State)
    requires Enabled(s, Suspender) && !Helping(s.suspender) && (s.suspender == SInline ==> s.stop)
    ensures SuspenderRank(SuspenderNext(s).suspender, s.stop) < SuspenderRank(s.suspender, s.stop)
    ensures SuspenderNext(s).rounds == s.rounds && s.suspender != SBusy
  {
    hide SuspenderNext, SuspenderRank;
    SameRounds(s);
    if Starting(s.suspender) || SelfPopped(s.suspender) { EarlyRank(s); } else { BackRank(s); }
  }

  lemma SameRounds(s: State)
    requires Enabled(s, Suspender) && !Helping(s.suspender)
    ensures SuspenderNext(s).rounds == s.rounds && s.suspender != SBusy
  {
  }

  lemma EarlyRank(s: State)
    requires Enabled(s, Suspender) && (Starting(s.suspender) || SelfPopped(s.suspender))
    requires s.suspender == SInline ==> s.stop
    ensures SuspenderRank(SuspenderNext(s).suspender, s.stop) < SuspenderRank(s.suspender, s.stop)
  {
  }

  lemma BackRank(s: State)
    requires Enabled(s, Suspender) && (s.suspender == SCas || Fetching(s.suspender) || s.suspender.SLeave?)
    ensures SuspenderRank(SuspenderNext(s).suspender, s.stop) < SuspenderRank(s.suspender, s.stop)
  {
  }

  lemma OtherCallback(s: State)
    requires Enabled(s, Suspender) && (s.suspender == SRegister ==> s.callback == Unregistered)
    ensures CallbackRank(SuspenderNext(s).callback) <= CallbackRank(s.callback)
  {
  }

  lemma RegistersOnce(s: State)
    requires Inv(s)
    ensures (s.suspender == SRegister ==> s.callback == Unregistered) && (s.suspender == SInline ==> s.stop)
  {
  }

  lemma StepProgress(s: State, a: Actor)
    requires Inv(s) && Enabled(s, a)
    ensures Progress(s, Next(s, a))
  {
    hide Inv, SuspenderNext;
    if a == Suspender {
      RegistersOnce(s);
      SuspenderProgress(s);
    }
  }

  /** A run has at most 26 steps, and four more for every round of helping. */
  lemma {:induction false} RunsAreBounded(tr: seq<State>, k: nat)
    requires IsRun(tr) && k < |tr|
    ensures Measure(tr[k]) + k <= 26 + 4 * tr[k].rounds
  {
    hide Inv, Enabled, Measure;
    if k == 0 {
      InitMeasure();
    } else {
      RunsAreBounded(tr, k - 1);
      RunKeepsInv(tr, k - 1);
      assert Step(tr[k - 1], tr[k - 1 + 1]);
      var a: Actor :| Enabled(tr[k - 1], a) && tr[k] == Next(tr[k - 1], a);
      StepProgress(tr[k - 1], a);
    }
  }

  lemma InitMeasure()
    ensures Measure(INIT) == 26
  {
  }

  /** Once notified, a run has at most 20 more steps. */
  lemma EndsAfterStop(tr: seq<State>, i: nat, k: nat)
    requires IsRun(tr) && i <= k < |tr| && tr[i].stop
    ensures k - i <= 20
  {
    MeasureAfterStop(tr, i, k);
    RunKeepsInv(tr, i);
  }

  lemma {:induction false} MeasureAfterStop(tr: seq<State>, i: nat, k: nat)
    requires IsRun(tr) && i <= k < |tr| && tr[i].stop
    ensures tr[k].stop && Measure(tr[k]) + (k - i) <= Measure(tr[i])
    decreases k
  {
    hide Inv, Measure, Enabled, Next;
    if i < k {
      MeasureAfterStop(tr, i, k - 1);
      RunKeepsInv(tr, k - 1);
      assert Step(tr[k - 1], tr[k - 1 + 1]);
      var a: Actor :| Enabled(tr[k - 1], a) && tr[k] == Next(tr[k - 1], a);
      StepProgress(tr[k - 1], a);
      StopStays(tr[k - 1], a);
    }
  }

  lemma StopStays(s: State, a: Actor)
    requires Enabled(s, a) && s.stop
    ensures Next(s, a).stop && Next(s, a).late == s.late
  {
    hide CallbackNext, WorkerNext, SuspenderNext;
  }

  /** How many steps a thread that helps needs to leave the loop, once stop was requested. */
  function StepsToLeave(p: SuspenderPc): nat {
    match p
    case SLook => 1
    case SHelp => 1
    case SBusy => 2
    case SScan => 3
    case _ => 0
  }

  /** Both looks at the stop token count: once stop was requested, each step of a helping thread brings it closer to
      the end of the loop, and from either look the next step leaves it. */
  lemma LeavesLoopOnStop(s: State)
    requires s.stop && HasObject(s.suspender)
    ensures Enabled(s, Suspender)
    ensures var p := SuspenderNext(s).suspender;
            StepsToLeave(p) == StepsToLeave(s.suspender) - 1 && (StepsToLeave(p) == 0 <==> p == SCas)
  {
  }

  // ----- when the suspended body is abandoned

  /** The last step of the run is the notification. */
  predicate JustNotified(tr: seq<State>) {
    |tr| >= 2 && !tr[|tr| - 2].stop && tr[|tr| - 1].stop
  }

  /** Some continuation of the run leaves the suspended body for good. */
  ghost predicate CanBeAbandoned(tr: seq<State>) {
    exists more: seq<State> :: IsRun(tr + more) && (tr + more)[|tr + more| - 1].suspender == SAbandoned
  }

  /** Whether the body can be abandoned is decided when stop is requested: it can exactly if the helping thread
      has looked for the last time and is about to look for a task. A stop that comes before, in particular
      before the suspended thread offers help or while the registration runs the callback, never does harm. */
  lemma AbandonedIff(tr: seq<State>)
    requires IsRun(tr) && JustNotified(tr)
    ensures CanBeAbandoned(tr) <==> tr[|tr| - 2].suspender == SScan
  {
    var k := |tr| - 1;
    RunKeepsInv(tr, k - 1);
    assert Step(tr[k - 1], tr[k - 1 + 1]);
    OnlyNotifierStops(tr[k - 1], tr[k]);
    if tr[k - 1].suspender == SScan {
      var more := AbandonedAfter(tr);
    } else if CanBeAbandoned(tr) {
      var more: seq<State> :| IsRun(tr + more) && (tr + more)[|tr + more| - 1].suspender == SAbandoned;
      LateIsDecided(tr + more, k, |tr + more| - 1);
      RunKeepsInv(tr + more, |tr + more| - 1);
      assert false;
    }
  }

  lemma OnlyNotifierStops(s: State, s': State)
    requires Step(s, s') && !s.stop && s'.stop
    ensures Enabled(s, Notifier) && s' == Next(s, Notifier)
  {
    hide CallbackNext, WorkerNext, SuspenderNext;
  }

  lemma {:induction false} LateIsDecided(tr: seq<State>, i: nat, j: nat)
    requires IsRun(tr) && i <= j < |tr| && tr[i].stop
    ensures tr[j].stop && tr[j].late == tr[i].late
    decreases j
  {
    hide Enabled, Next;
    if i < j {
      LateIsDecided(tr, i, j - 1);
      assert Step(tr[j - 1], tr[j - 1 + 1]);
      var a: Actor :| Enabled(tr[j - 1], a) && tr[j] == Next(tr[j - 1], a);
      StopStays(tr[j - 1], a);
    }
  }

  /** The callback enqueues the task and the helping thread finds it. */
  lemma AbandonedAfter(tr: seq<State>) returns (more: seq<State>)
    requires IsRun(tr) && JustNotified(tr) && tr[|tr| - 2].suspender == SScan
    ensures IsRun(tr + more) && (tr + more)[|tr + more| - 1].suspender == SAbandoned
  {
    var c := tr[|tr| - 1];
    RunKeepsInv(tr, |tr| - 2);
    assert Step(tr[|tr| - 2], tr[|tr| - 2 + 1]);
    OnlyNotifierStops(tr[|tr| - 2], c);
    var d := c.(callback := RunningEnqueue, taskState := Enqueuing);
    var e := d.(callback := RunningStore, place := InPool, enqueues := c.enqueues + 1);
    var f := e.(suspender := SOwnRead, place := TakenBySuspender);
    var g := f.(suspender := SOwnStore);
    var h := g.(suspender := SAbandoned, after := true, resumes := c.resumes + 1);
    hide Inv;
    more := [d, e, f, g, h];
    assert Step(c, d) by { assert Enabled(c, CallbackActor) && d == Next(c, CallbackActor); }
    assert Step(d, e) by { assert Enabled(d, CallbackActor) && e == Next(d, CallbackActor); }
    assert Step(e, f) by { assert Enabled(e, SuspenderPops) && f == Next(e, SuspenderPops); }
    assert Step(f, g) by { assert Enabled(f, Suspender) && g == Next(f, Suspender); }
    assert Step(g, h) by { assert Enabled(g, Suspender) && h == Next(g, Suspender); }
    hide Step;
    FiveMore(tr, more);
  }

  lemma FiveMore(tr: seq<State>, more: seq<State>)
    requires IsRun(tr) && |more| == 5 && Step(tr[|tr| - 1], more[0])
    requires Step(more[0], more[1]) && Step(more[1], more[2]) && Step(more[2], more[3]) && Step(more[3], more[4])
    ensures IsRun(tr + more)
  {
    hide Step;
    forall i | 0 <= i < |tr + more| - 1 ensures Step((tr + more)[i], (tr + more)[i + 1]) {
      if i < |tr| - 1 { assert Step(tr[i], tr[i + 1]); }
    }
  }

  /** Stop does come at that moment in some run, even after a round of helping, and the body is then abandoned. */
  lemma BodyCanBeAbandoned() returns (tr: seq<State>)
    ensures IsRun(tr) && JustNotified(tr) && tr[|tr| - 2].suspender == SScan && CanBeAbandoned(tr)
    ensures tr[|tr| - 1].rounds == 1
  {
    hide IsRun, Extended;
    InitRuns();
    tr := Extended([INIT], Suspender);
    tr := Extended(tr, Suspender);
    tr := Extended(tr, Suspender);    // has a sleep object,
    assert tr[|tr| - 1] == INIT.(suspender := SLook, alive := true, callback := Registered);
    tr := Extended(tr, Suspender);
    tr := Extended(tr, Suspender);
    tr := Extended(tr, Suspender);
    assert tr[|tr| - 1] == INIT.(suspender := SBusy, alive := true, callback := Registered);
    tr := Extended(tr, Suspender);    // ... has come round once,
    tr := Extended(tr, Suspender);
    tr := Extended(tr, Suspender);    // ... and is past its last look
    assert tr[|tr| - 1] == INIT.(suspender := SScan, alive := true, callback := Registered, rounds := 1);
    tr := Extended(tr, Notifier);
    AbandonedIff(tr);
  }

  lemma InitRuns()
    ensures IsRun([INIT])
  {
  }

  // ----- when the flow is resumed without a notification

  /** Some continuation of the run resumes the flow before stop is requested. */
  ghost predicate CanResumeEarly(tr: seq<State>) {
    exists more: seq<State> :: IsRun(tr + more) && ResumedEarly((tr + more)[|tr + more| - 1])
  }

  predicate ResumedEarly(s: State) { s.resumes == 1 && !s.stop }

  /** As long as stop was not requested, an early resumption is possible exactly if the suspended thread does not help
      with a sleep object of the pool: it has not asked for one yet, or none was free. */
  lemma EarlyResumeIff(tr: seq<State>)
    requires IsRun(tr) && !tr[|tr| - 1].stop
    ensures CanResumeEarly(tr) <==> !HasObject(tr[|tr| - 1].suspender)
  {
    if HasObject(tr[|tr| - 1].suspender) {
      if CanResumeEarly(tr) {
        var more: seq<State> :| IsRun(tr + more) && ResumedEarly((tr + more)[|tr + more| - 1]);
        ObjectKeepsWaiting(tr + more, |tr| - 1, |tr + more| - 1);
        assert false;
      }
    } else {
      var more := ResumeEarly(tr);
    }
  }

  /** Who has a sleep object leaves the loop only on stop. */
  lemma {:induction false} ObjectKeepsWaiting(tr: seq<State>, i: nat, j: nat)
    requires IsRun(tr) && i <= j < |tr| && HasObject(tr[i].suspender) && !tr[i].stop
    ensures tr[j].stop || (HasObject(tr[j].suspender) && tr[j].resumes == 0)
    decreases j
  {
    hide Inv, Enabled, Next;
    RunKeepsInv(tr, j);
    NotResumedYet(tr[j]);
    if i < j {
      ObjectKeepsWaiting(tr, i, j - 1);
      RunKeepsInv(tr, j - 1);
      assert Step(tr[j - 1], tr[j - 1 + 1]);
      var a: Actor :| Enabled(tr[j - 1], a) && tr[j] == Next(tr[j - 1], a);
      if a == SuspenderPops { PopsAfterStop(tr[j - 1]); }
      StopOrObject(tr[j - 1], a);
    }
  }

  lemma NotResumedYet(s: State)
    requires Inv(s)
    ensures HasObject(s.suspender) && !s.stop ==> s.resumes == 0
  {
  }

  lemma PopsAfterStop(s: State)
    requires Inv(s) && Enabled(s, SuspenderPops)
    ensures s.stop
  {
  }

  lemma StopOrObject(s: State, a: Actor)
    requires Enabled(s, a) && (s.stop || HasObject(s.suspender)) && (a == SuspenderPops ==> s.stop)
    ensures Next(s, a).stop || HasObject(Next(s, a).suspender)
  {
    hide CallbackNext, WorkerNext;
    if a == Suspender && !s.stop { assert HasObject(SuspenderNext(s).suspender); }
  }

  /** What the suspended thread, or who wakes it up, does on the way to an early resumption. */
  function EarlyActor(p: SuspenderPc, bumped: bool): Actor {
    if p == SOffer then NoSlot else if p == SAlone && !bumped then OtherWakeUp else Suspender
  }

  lemma EarlyStep(s: State)
    requires Inv(s) && !s.stop && !HasObject(s.suspender) && s.resumes == 0
    ensures var a := EarlyActor(s.suspender, s.bumped);
            && Enabled(s, a) && Inv(Next(s, a)) && !Next(s, a).stop && !HasObject(Next(s, a).suspender)
            && Measure(Next(s, a)) < Measure(s)
  {
    var a := EarlyActor(s.suspender, s.bumped);
    EarlyEnabled(s);
    StepKeepsInv(s, a);
    StepProgress(s, a);
    hide Inv;
  }

  lemma EarlyEnabled(s: State)
    requires Inv(s) && !s.stop && !HasObject(s.suspender) && s.resumes == 0
    ensures var a := EarlyActor(s.suspender, s.bumped);
            Enabled(s, a) && !Next(s, a).stop && !HasObject(Next(s, a).suspender) && s.suspender != SBusy
  {
  }

  lemma {:induction false} ResumeEarly(tr: seq<State>) returns (more: seq<State>)
    requires IsRun(tr) && !tr[|tr| - 1].stop && !HasObject(tr[|tr| - 1].suspender)
    ensures IsRun(tr + more) && ResumedEarly((tr + more)[|tr + more| - 1])
    decreases Measure(tr[|tr| - 1])
  {
    hide Inv, Measure, Enabled;
    var s := tr[|tr| - 1];
    RunKeepsInv(tr, |tr| - 1);
    ResumedAtMostOnce(tr, |tr| - 1);
    if s.resumes == 1 {
      more := [];
      assert tr + more == tr;
    } else {
      EarlyStep(s);
      var tr' := Extended(tr, EarlyActor(s.suspender, s.bumped));
      var rest := ResumeEarly(tr');
      more := [tr'[|tr|]] + rest;
      assert tr + more == tr' + rest;
    }
  }

  /** Such a run: no sleep object is free, and a thread switch wakes the thread up. */
  lemma EarlyResumeHappens() returns (tr: seq<State>)
    ensures IsRun(tr) && ResumedEarly(tr[|tr| - 1])
  {
    InitRuns();
    var more := ResumeEarly([INIT]);
    tr := [INIT] + more;
  }
}
