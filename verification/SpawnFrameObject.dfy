/** The single spawn frame as the object its threads update in place: one method for each atomic operation of
    `await`, `on_async_complete` and `execute_spawn_task`. Whatever the order in which the threads call them,
    the history of the object is a run of the step system, so everything proved of runs holds of it. */
module SpawnFrameObject {
  import opened SpawnFrame

  class SpawnFrameBase {
    var syncState: SyncState
    var originator: Token
    var secondaryThread: Token
    ghost var history: seq<State>

    ghost function Now(): State
      requires history != []
      reads this
    { history[|history| - 1] }

    ghost predicate Valid()
      reads this
    {
      && IsRun(history)
      && syncState == Now().sync && originator == Now().originator && secondaryThread == Now().secondary
    }

    /** `spawn`. */
    constructor ()
      ensures Valid() && history == [INIT]
    {
      syncState, originator, secondaryThread, history := InitialState, Null, Null, [INIT];
    }

    /** What an actor does elsewhere: the pool, the user function, a wait that ends. */
    ghost method Elsewhere(a: Actor)
      requires Valid() && Enabled(Now(), a)
      requires Next(Now(), a).(sync := syncState, originator := originator,
          secondary := secondaryThread) == Next(Now(), a)
      modifies this`history
      ensures Valid() && history == old(history) + [Next(old(Now()), a)]
    {
      history := Extended(history, a);
    }

    // ----- the worker

    method StoreContinuation(threadCont: Token)
      requires Valid() && Now().worker == WStart && threadCont == ThreadCc
      modifies this`secondaryThread, this`history
      ensures Valid() && history == old(history) + [WorkerNext(old(Now()))]
      ensures secondaryThread == threadCont
    {
      secondaryThread := threadCont;
      history := Extended(history, Worker);
    }

    method SignalStarted()
      requires Valid() && Now().worker == WSignal
      modifies this`syncState, this`history
      ensures Valid() && history == old(history) + [WorkerNext(old(Now()))]
      ensures syncState == AsyncStarted
    {
      syncState := AsyncStarted;
      history := Extended(history, Worker);
    }

    /** The compare-and-swap of `on_async_complete`. The worker that comes first has run the user function
        and leaves; nobody jumps to the awaiter then. */
    method AsyncComplete() returns (first: bool)
      requires Valid() && Now().worker == WCas
      modifies this`syncState, this`history
      ensures Valid() && history == old(history) + [WorkerNext(old(Now()))]
      ensures first <==> Now().worker == WLeave
      ensures Now().calls == 1 && Now().toAwait == 0
      ensures first <==> old(syncState) == AsyncStarted
      ensures syncState == if first then AsyncFinished else old(syncState)
    {
      RunKeepsInv(history, |history| - 1);
      first := syncState == AsyncStarted;
      if first { syncState := AsyncFinished; }
      history := Extended(history, Worker);
    }

    /** The continuation a late worker jumps to: always that of the flow in `await`. */
    method ContinueAwaiter() returns (next: Token)
      requires Valid() && Now().worker == WJump
      modifies this`history
      ensures Valid() && history == old(history) + [WorkerNext(old(Now()))]
      ensures next == AwaitCc && Returned(Now())
      ensures next == originator
    {
      AwaitReturnsAfterWork(history, |history| - 1);
      next := originator;
      history := Extended(history, Worker);
    }

    // ----- the awaiter

    method LoadState() returns (initial: bool)
      requires Valid() && Now().awaiter == ALoad
      modifies this`history
      ensures Valid() && history == old(history) + [AwaiterNext(old(Now()))]
      ensures initial <==> Now().awaiter == AExtract
      ensures initial <==> syncState == InitialState
    {
      initial := syncState == InitialState;
      history := Extended(history, Awaiter);
    }

    /** The compare-and-swap of `await`. If it fails, the work is done. */
    method MainComplete() returns (first: bool)
      requires Valid() && Now().awaiter == ACas
      modifies this`syncState, this`history
      ensures Valid() && history == old(history) + [AwaiterNext(old(Now()))]
      ensures first <==> Now().awaiter == AStoreCc
      ensures !first ==> Now().calls == 1
      ensures first <==> old(syncState) == AsyncStarted
      ensures syncState == if first then MainFinishing else old(syncState)
    {
      RunKeepsInv(history, |history| - 1);
      first := syncState == AsyncStarted;
      if first { syncState := MainFinishing; }
      history := Extended(history, Awaiter);
    }

    method StoreOriginator(awaitCc: Token)
      requires Valid() && Now().awaiter == AStoreCc && awaitCc == AwaitCc
      modifies this`originator, this`history
      ensures Valid() && history == old(history) + [AwaiterNext(old(Now()))]
      ensures originator == awaitCc
    {
      originator := awaitCc;
      history := Extended(history, Awaiter);
    }

    method PublishFinished()
      requires Valid() && Now().awaiter == APublish
      modifies this`syncState, this`history
      ensures Valid() && history == old(history) + [AwaiterNext(old(Now()))]
      ensures syncState == MainFinished
    {
      syncState := MainFinished;
      history := Extended(history, Awaiter);
    }

    /** The continuation the awaiter's body jumps to: always that of the worker's thread. */
    method ContinueWorkerThread() returns (next: Token)
      requires Valid() && Now().awaiter == AReadSecond
      modifies this`history
      ensures Valid() && history == old(history) + [AwaiterNext(old(Now()))]
      ensures next == ThreadCc && Now().toWorker == 1
      ensures next == secondaryThread
    {
      RunKeepsInv(history, |history| - 1);
      next := secondaryThread;
      history := Extended(history, Awaiter);
    }
  }
}
