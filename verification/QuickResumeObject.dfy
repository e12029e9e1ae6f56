/** The resume task and its state word as the object that the callback, the pool and the suspended thread
    update in place: one method for each atomic operation. Every method shows that the object still exists
    when it is used. */
module QuickResumeObject {
  import opened QuickResume

  datatype Token = Null | AfterSuspend | WorkerCc | OwnCc

  class QuickResumeTask {
    const cont: Token
    var afterExecute: Token
    var taskState: TaskState
    ghost var history: seq<State>

    ghost function Now(): State
      requires history != []
      reads this
    { history[|history| - 1] }

    ghost predicate Valid()
      reads this
    {
      && IsRun(history) && cont == AfterSuspend
      && taskState == Now().taskState
      && afterExecute == (if Now().worker == WJumped then WorkerCc
          else if Now().suspender == SAbandoned then OwnCc else Null)
    }

    /** Created when the callback is registered, on the stack of the suspended thread. */
    constructor (afterSuspend: Token, ghost before: seq<State>)
      requires IsRun(before) && before[|before| - 1].suspender == SRegister && afterSuspend == AfterSuspend
      ensures Valid() && history == before + [SuspenderNext(before[|before| - 1])] && Now().alive
    {
      cont, afterExecute, taskState := afterSuspend, Null, InitialState;
      RunKeepsInv(before, |before| - 1);
      history := Extended(before, Suspender);
    }

    /** What an actor does elsewhere: the notification, the pool, a wait that ends. */
    ghost method Elsewhere(a: Actor)
      requires Valid() && Enabled(Now(), a) && Next(Now(), a).taskState == taskState
      requires Next(Now(), a).after == Now().after
      modifies this`history
      ensures Valid() && history == old(history) + [Next(old(Now()), a)]
    {
      AfterIsStored(history, a);
      history := Extended(history, a);
    }

    /** The compare-and-swap of the callback. */
    method CallbackClaims() returns (enqueue: bool)
      requires Valid() && Now().callback == RunningCas
      modifies this`taskState, this`history
      ensures Valid() && history == old(history) + [CallbackNext(old(Now()))] && old(Now().alive)
      ensures enqueue <==> Now().callback == RunningEnqueue
      ensures enqueue ==> Now().enqueues == 0
      ensures enqueue <==> old(taskState) == InitialState
      ensures taskState == if enqueue then Enqueuing else old(taskState)
    {
      BeforeCallbackClaim(history);
      enqueue := taskState == InitialState;
      if enqueue { taskState := Enqueuing; }
      history := Extended(history, CallbackActor);
    }

    method CallbackEnqueued()
      requires Valid() && Now().callback == RunningStore
      modifies this`taskState, this`history
      ensures Valid() && history == old(history) + [CallbackNext(old(Now()))] && old(Now().alive)
      ensures Now().enqueues == 1
      ensures taskState == Enqueued
    {
      RunKeepsInv(history, |history| - 1);
      taskState := Enqueued;
      history := Extended(history, CallbackActor);
    }

    /** `execute`, by a worker or by the suspended thread itself: reads where to jump, */
    method ReadContinuation(ghost a: Actor) returns (next: Token)
      requires Valid() && if a == Worker then Now().worker == WRead else a == Suspender && Now().suspender == SOwnRead
      modifies this`history
      ensures Valid() && history == old(history) + [Next(old(Now()), a)] && old(Now().alive)
      ensures next == AfterSuspend
    {
      RunKeepsInv(history, |history| - 1);
      next := cont;
      history := Extended(history, a);
    }

    /** ... and leaves its own continuation, the last use of the object, before it jumps. Nobody has resumed the
        flow before. */
    method StoreAfterExecute(c: Token, ghost a: Actor)
      requires Valid() && if a == Worker then Now().worker == WStore else a == Suspender && Now().suspender == SOwnStore
      requires c == if a == Worker then WorkerCc else OwnCc
      modifies this`afterExecute, this`history
      ensures Valid() && history == old(history) + [Next(old(Now()), a)] && old(Now().alive)
      ensures old(Now().resumes) == 0 && old(afterExecute) == Null
      ensures afterExecute == c
    {
      RunKeepsInv(history, |history| - 1);
      afterExecute := c;
      history := Extended(history, a);
    }

    /** The compare-and-swap of the suspended thread: if it succeeds, no task is or will be enqueued. */
    method SuspenderClaims() returns (notNeeded: bool)
      requires Valid() && Now().suspender == SCas
      modifies this`taskState, this`history
      ensures Valid() && history == old(history) + [SuspenderNext(old(Now()))] && old(Now().alive)
      ensures notNeeded <==> Now().suspender == SLeave(true)
      ensures notNeeded ==> Now().enqueues == 0 && Now().taskState == NotNeeded
      ensures notNeeded <==> old(taskState) == InitialState
      ensures taskState == if notNeeded then NotNeeded else old(taskState)
    {
      BeforeClaim(history);
      notNeeded := taskState == InitialState;
      if notNeeded { taskState := NotNeeded; }
      history := Extended(history, Suspender);
    }

    /** Where the suspended thread jumps when the task was taken: always to what the worker left. */
    method ReadAfterExecute() returns (next: Token)
      requires Valid() && Now().suspender == SWaitAfter && Now().after
      modifies this`history
      ensures Valid() && history == old(history) + [SuspenderNext(old(Now()))] && old(Now().alive)
      ensures next == WorkerCc && Now().place == TakenByWorker
      ensures next == afterExecute
    {
      RunKeepsInv(history, |history| - 1);
      next := afterExecute;
      history := Extended(history, Suspender);
    }
  }

  /** Whoever leaves a continuation in `after_execute_` makes the worker, or the abandoned thread, known. */
  lemma AfterIsStored(tr: seq<State>, a: Actor)
    requires IsRun(tr) && Enabled(tr[|tr| - 1], a)
    ensures var s, s' := tr[|tr| - 1], Next(tr[|tr| - 1], a);
            s'.after == s.after ==> (s'.worker == WJumped <==> s.worker == WJumped)
                                    && (s'.suspender == SAbandoned <==> s.suspender == SAbandoned)
  {
    RunKeepsInv(tr, |tr| - 1);
    StepKeepsInv(tr[|tr| - 1], a);
  }

  lemma BeforeCallbackClaim(tr: seq<State>)
    requires IsRun(tr) && tr[|tr| - 1].callback == RunningCas
    ensures var s := tr[|tr| - 1]; s.alive && s.enqueues == 0
  {
    RunKeepsInv(tr, |tr| - 1);
  }

  /** What the suspended thread finds when it comes back from helping. */
  lemma BeforeClaim(tr: seq<State>)
    requires IsRun(tr) && tr[|tr| - 1].suspender == SCas
    ensures var s := tr[|tr| - 1]; s.alive && (s.taskState == InitialState ==> s.enqueues == 0)
  {
    RunKeepsInv(tr, |tr| - 1);
  }
}
