/** The copyable spawn frame as the object its threads update in place: one method for each atomic operation,
    called by the worker and by any number of awaiters in any order. The history of the object is always a run
    of the step system. */
module CopyableSpawnFrameObject {
  import opened CopyableSpawnFrame

  class CopyableSpawnFrameBase {
    var syncState: SyncState
    var awaitersCount: nat
    var firstAwait: Token
    var secondaryThread: Token
    var stopRequested: bool    // of the suspend token
    ghost var history: seq<State>

    ghost function Now(): State
      requires history != []
      reads this
    { history[|history| - 1] }

    ghost predicate Valid()
      reads this
    {
      && IsRun(history)
      && Now() == Now().(sync := syncState, count := awaitersCount, firstAwait := firstAwait,
          secondary := secondaryThread,
                         notified := stopRequested)
    }

    /** `spawn`, of a frame that `awaiters` many will wait for. */
    constructor (ghost awaiters: nat)
      ensures Valid() && |history| == 1 && Init(Now()) && |Now().awaiters| == awaiters
    {
      syncState, awaitersCount, firstAwait, secondaryThread, stopRequested := InitialState, 0, Null, Null, false;
      history := [State(InitialState, 0, Null, Null, false, WQueued, seq(awaiters, _ => Arriving), Null, -1, 0, 0, 0)];
    }

    /** What an actor does elsewhere: the pool, the user function, a wait that ends. */
    ghost method Elsewhere(a: int)
      requires Valid() && Enabled(Now(), a)
      requires var s := Next(Now(), a);
               s == s.(sync := syncState, count := awaitersCount, firstAwait := firstAwait,
                 secondary := secondaryThread,
                       notified := stopRequested)
      modifies this`history
      ensures Valid() && history == old(history) + [Next(old(Now()), a)]
    {
      history := Extended(history, a);
    }

    // ----- the worker

    method StoreContinuation(threadCont: Token)
      requires Valid() && Now().worker == WStart && threadCont == ThreadCc
      modifies this`secondaryThread, this`history
      ensures Valid() && history == old(history) + [WorkerNext(old(Now()))]
      ensures secondaryThread == threadCont
    {
      secondaryThread := threadCont;
      history := Extended(history, -1);
    }

    method SignalStarted()
      requires Valid() && Now().worker == WSignal
      modifies this`syncState, this`history
      ensures Valid() && history == old(history) + [WorkerNext(old(Now()))]
      ensures syncState == AsyncStarted
    {
      syncState := AsyncStarted;
      history := Extended(history, -1);
    }

    /** The compare-and-swap of `on_async_complete`: nobody has returned from `await` yet, but for late awaiters
        that left early. */
    method AsyncComplete() returns (first: bool)
      requires Valid() && Now().worker == WCas
      modifies this`syncState, this`history
      ensures Valid() && history == old(history) + [WorkerNext(old(Now()))]
      ensures first <==> Now().worker == WNotifyEarly
      ensures Now().calls == 1 && forall i :: 0 <= i < |Now().awaiters| ==> Now().awaiters[i] != Returned
      ensures first <==> old(syncState) == AsyncStarted
      ensures syncState == if first then AsyncFinishing else old(syncState)
    {
      Completing(history);
      first := syncState == AsyncStarted;
      if first { syncState := AsyncFinishing; }
      history := Extended(history, -1);
    }

    /** `suspend_token_.notify()`, by the worker or by the awaiter that executed the task in place. */
    method Notify(ghost a: int)
      requires Valid() && Enabled(Now(), a) && a >= -1
      requires if a == -1 then Now().worker == WNotifyEarly || Now().worker == WNotifyLate
          else Now().awaiters[a] == FNotify
      modifies this`stopRequested, this`history
      ensures Valid() && history == old(history) + [Next(old(Now()), a)]
      ensures Now().calls == 1
      ensures stopRequested
    {
      Completing(history);
      stopRequested := true;
      history := Extended(history, a);
    }

    method PublishAllDone(ghost a: int)
      requires Valid() && Enabled(Now(), a) && a >= -1
      requires if a == -1 then Now().worker == WDoneEarly || Now().worker == WDoneLate
          else Now().awaiters[a] == FStoreDone
      modifies this`syncState, this`history
      ensures Valid() && history == old(history) + [Next(old(Now()), a)]
      ensures Now().calls == 1
      ensures syncState == AllDone
    {
      Completing(history);
      syncState := AllDone;
      history := Extended(history, a);
    }

    /** The continuation a late worker jumps to: always that of the first awaiter, which is still suspended. */
    method ContinueFirstAwaiter() returns (next: Token)
      requires Valid() && Now().worker == WJump
      modifies this`history
      ensures Valid() && history == old(history) + [WorkerNext(old(Now()))]
      ensures next == AwaitCc(old(Now().first)) && First(old(Now())) == FJumped && First(Now()) == Returned
      ensures next == firstAwait
    {
      RunKeepsInv(history, |history| - 1);
      next := firstAwait;
      history := Extended(history, -1);
    }

    // ----- awaiter `i`

    /** The caller is the first awaiter exactly if nobody counted itself before. */
    method Arrive(ghost i: nat) returns (first: bool)
      requires Valid() && i < |Now().awaiters| && Now().awaiters[i] == Arriving
      modifies this`awaitersCount, this`history
      ensures Valid() && history == old(history) + [AwaiterNext(old(Now()), i)]
      ensures first <==> old(Now().first) == -1
      ensures first <==> Now().first == i
      ensures awaitersCount == old(awaitersCount) + 1 && (first <==> old(awaitersCount) == 0)
    {
      RunKeepsInv(history, |history| - 1);
      first := awaitersCount == 0;
      awaitersCount := awaitersCount + 1;
      history := Extended(history, i);
    }

    /** The first read of the state: by the first awaiter, or by a late one. A late one that returns at once
        finds the work done. */
    method LoadState(ghost i: nat) returns (state: SyncState)
      requires Valid() && i < |Now().awaiters| && (Now().awaiters[i] == FLoad || Now().awaiters[i] == LLoad)
      modifies this`history
      ensures Valid() && history == old(history) + [AwaiterNext(old(Now()), i)]
      ensures Now().awaiters[i] == Returned <==> state == AllDone && old(Now().awaiters[i]) == LLoad
      ensures Now().awaiters[i] == FExtract <==> state == InitialState && old(Now().awaiters[i]) == FLoad
      ensures Now().awaiters[i] == Returned ==> Now().calls == 1
      ensures state == syncState
    {
      RunKeepsInv(history, |history| - 1);
      state := syncState;
      history := Extended(history, i);
    }

    /** The compare-and-swap of `await`. */
    method MainComplete(ghost i: nat) returns (switching: bool)
      requires Valid() && i < |Now().awaiters| && Now().awaiters[i] == FCas
      modifies this`syncState, this`history
      ensures Valid() && history == old(history) + [AwaiterNext(old(Now()), i)]
      ensures switching <==> Now().awaiters[i] == FStoreCc
      ensures !switching ==> Now().calls == 1
      ensures switching <==> old(syncState) == AsyncStarted
      ensures syncState == if switching then MainFinishing else old(syncState)
    {
      RunKeepsInv(history, |history| - 1);
      switching := syncState == AsyncStarted;
      if switching { syncState := MainFinishing; }
      history := Extended(history, i);
    }

    method StoreFirstAwait(awaitCc: Token, ghost i: nat)
      requires Valid() && i < |Now().awaiters| && Now().awaiters[i] == FStoreCc && awaitCc == AwaitCc(i)
      modifies this`firstAwait, this`history
      ensures Valid() && history == old(history) + [AwaiterNext(old(Now()), i)]
      ensures firstAwait == awaitCc
    {
      firstAwait := awaitCc;
      history := Extended(history, i);
    }

    /** Reads where to continue before publishing: always the worker's thread. */
    method ReadSecondary(ghost i: nat) returns (continueWith: Token)
      requires Valid() && i < |Now().awaiters| && Now().awaiters[i] == FReadSecond
      modifies this`history
      ensures Valid() && history == old(history) + [AwaiterNext(old(Now()), i)]
      ensures continueWith == ThreadCc == Now().next
      ensures continueWith == secondaryThread
    {
      AwaitsReturnAfterWork(history, |history| - 1);
      continueWith := secondaryThread;
      history := Extended(history, i);
    }

    method PublishMainFinished(ghost i: nat)
      requires Valid() && i < |Now().awaiters| && Now().awaiters[i] == FPublish
      modifies this`syncState, this`history
      ensures Valid() && history == old(history) + [AwaiterNext(old(Now()), i)]
      ensures Now().toWorker == 1
      ensures syncState == MainFinished
    {
      RunKeepsInv(history, |history| - 1);
      syncState := MainFinished;
      history := Extended(history, i);
    }
  }

  /** Whoever is about to tell the others that the work is done is right; before that, nobody has returned. */
  lemma Completing(tr: seq<State>)
    requires IsRun(tr)
    ensures var s := tr[|tr| - 1];
            && (s.worker == WCas ==> s.calls == 1 && forall i :: 0 <= i < |s.awaiters| ==> s.awaiters[i] != Returned)
            && (s.worker in {WNotifyEarly, WDoneEarly, WDoneLate, WNotifyLate} ==> s.calls == 1)
            && (forall i :: 0 <= i < |s.awaiters| && s.awaiters[i] in {FNotify, FStoreDone} ==> s.calls == 1)
  {
    RunKeepsInv(tr, |tr| - 1);
  }
}
