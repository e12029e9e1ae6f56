/** What the thread pool updates in place besides its lines: the task count, the sleep objects, the list of free
    ones, and the sleep counters of the threads. One method for each atomic operation; `NotifyOne` is the loop
    over the sleep objects. The history of the object is always a run of the step system. */
module ThreadPoolObject {
  import opened ThreadPool
  import opened ThreadPoolProof

  /** The first sleep object from `k` on whose owner sleeps; the number of sleep objects if there is none. */
  function FirstAsleep(wake: seq<int>, k: nat): (f: nat)
    requires k <= |wake|
    ensures k <= f <= |wake| && (f < |wake| ==> wake[f] == 0)
    ensures forall i :: k <= i < f ==> wake[i] != 0
    decreases |wake| - k
  {
    if k == |wake| || wake[k] == 0 then k else FirstAsleep(wake, k + 1)
  }

  /** One more wake request for each of the objects below `k`. */
  function Requested(wake: seq<int>, k: nat): seq<int> {
    seq(|wake|, i requires 0 <= i < |wake| => if i < k then wake[i] + 1 else wake[i])
  }

  /** The effect of a notification on the wake requests and on the sleep counters of the threads. */
  predicate FirstWoken(wake: seq<int>, token: seq<int>, counter: seq<nat>, wake': seq<int>, counter': seq<nat>) {
    var f := FirstAsleep(wake, 0);
    && wake' == Requested(wake, f + 1)
    && if f == |wake| then counter' == counter
       else f < |token| && 0 <= token[f] < |counter| && counter' == counter[token[f] := counter[token[f]] + 1]
  }

  /** A step that depends on nothing but the state. */
  const PLAIN := Choice(false, false, 0)

  class ThreadPoolBase {
    var numTasks: int
    var wakeRequests: seq<int>
    var wakeupToken: seq<int>
    var sleepingCounter: seq<nat>
    var freeSleepObjects: seq<int>
    ghost var history: seq<State>

    ghost function Now(): State
      requires history != []
      reads this
    { history[|history| - 1] }

    ghost predicate Valid()
      reads this
    {
      && history != [] && IsRun(history)
      && numTasks == Now().num && wakeRequests == Now().wake && wakeupToken == Now().token
      && sleepingCounter == Now().counter && freeSleepObjects == Now().free
    }

    /** The pool as it is constructed: sleep objects for the workers and at least as many for helpers. */
    constructor (threadCount: nat, helpers: nat, ghost tasks: nat, ghost extractions: nat, ghost callbacks: nat)
      ensures Valid() && |history| == 1 && Init(Now()) && Now().workers == threadCount
          && |Now().lines| == threadCount + 1
      ensures |wakeRequests| == threadCount + if threadCount < 4 then 4 else threadCount
      ensures freeSleepObjects == seq(threadCount, i => threadCount + i)
    {
      var objects := threadCount + if threadCount < 4 then 4 else threadCount;
      numTasks, wakeRequests, wakeupToken := 0, seq(objects, _ => 1), seq(objects, _ => -1);
      sleepingCounter := seq(threadCount + helpers, _ => 0);
      var free := [];
      for i := 0 to threadCount
        invariant free == seq(i, j => threadCount + j)
      {
        free := free + [threadCount + i];
      }
      freeSleepObjects := free;
      var runners := threadCount + helpers;
      history := [State(threadCount, seq(threadCount + 1, _ => []), seq(tasks, _ => -1), 0,
                        seq(tasks, _ => EIdle), seq(extractions, _ => XIdle), seq(callbacks, _ => CIdle),
                        seq(objects, _ => 1), seq(objects, _ => -1), seq(runners, _ => 0), free,
                        seq(runners, r => if r < threadCount then RLoop else RNone),
                        seq(runners, r => if r < threadCount then r
                          else -1), seq(runners, _ => 0), seq(runners, _ => 0), seq(runners, _ => 0),
                        seq(tasks, _ => 0), seq(tasks, _ => -1),
                        seq(objects, k => if k < threadCount then k else -1))];
    }

    /** What an actor does elsewhere: on a line, in a task, at the end of a wait. */
    ghost method Elsewhere(a: Action)
      requires Valid() && Enabled(Now(), a)
      requires var s, s' := Now(), Next(Now(), a);
               s'.num == s.num && s'.wake == s.wake && s'.token == s.token && s'.counter == s.counter
                 && s'.free == s.free
      modifies this`history
      ensures Valid() && history == old(history) + [Next(old(Now()), a)]
    {
      history := Extended(history, a);
    }

    /** Subtracts the task that a runner popped, or that an extraction took. */
    method SubtractTask(ghost a: Action)
      requires Valid() && Enabled(Now(), a)
      requires match a
               case RunnerStep(r, _) => Now().run[r] == RPopped
               case Extract(e, _) => Now().ext[e].XTaken?
               case _ => false
      modifies this`numTasks, this`history
      ensures Valid() && history == old(history) + [Next(old(Now()), a)] && numTasks == old(numTasks) - 1
    {
      numTasks := numTasks - 1;
      history := Extended(history, a);
    }

    // ----- notifications

    /** `wakeup_token::notify`, by an enqueue or a stop callback that found object `k` asleep: the token is
        never null. */
    method NotifyToken(k: nat, ghost a: Action)
      requires Valid() && Enabled(Now(), a) && Notifies(Now(), a, k)
      modifies this`sleepingCounter, this`history
      ensures Valid() && history == old(history) + [Next(old(Now()), a)]
      ensures a.Enqueue? ==> |Now().enq| > a.x && Now().enq[a.x] == EDone
      ensures k < |wakeupToken| && 0 <= wakeupToken[k] < |old(sleepingCounter)|
      ensures sleepingCounter == old(sleepingCounter)[wakeupToken[k] := old(sleepingCounter)[wakeupToken[k]] + 1]
      ensures wakeRequests == old(wakeRequests) && wakeupToken == old(wakeupToken) && numTasks == old(numTasks)
    {
      TokenIsThere(history, a, k);
      var thread := wakeupToken[k];
      sleepingCounter := sleepingCounter[thread := sleepingCounter[thread] + 1];
      history := Extended(history, a);
    }

    /** The first half of `try_notify`, by the enqueue of `x`: one more wake request. */
    method RequestWake(k: nat, ghost x: nat) returns (asleep: bool)
      requires Valid() && Shape(Now()) && x < |Now().enq| && Now().enq[x] == ENotify(k) && k < |wakeRequests|
      modifies this`wakeRequests, this`history
      ensures Valid() && history == old(history) + [TryNotify(old(Now()), x)]
      ensures asleep <==> old(wakeRequests)[k] == 0
      ensures Shape(Now()) && |Now().enq| > x && Now().enq[x] == if asleep then EWake(k) else ENotify(k + 1)
      ensures wakeRequests == old(wakeRequests)[k := old(wakeRequests)[k] + 1]
      ensures sleepingCounter == old(sleepingCounter) && wakeupToken == old(wakeupToken) && numTasks == old(numTasks)
    {
      asleep := wakeRequests[k] == 0;
      wakeRequests := wakeRequests[k := wakeRequests[k] + 1];
      history := Extended(history, Enqueue(x, 0));
    }

    /** The same by a stop callback. */
    method RequestWakeOnStop(k: nat, ghost b: nat) returns (asleep: bool)
      requires Valid() && Shape(Now()) && b < |Now().cb| && Now().cb[b] == CIdle && k < |wakeRequests|
      modifies this`wakeRequests, this`history
      ensures Valid() && history == old(history) + [NotifyNext(old(Now()), b, k)]
      ensures asleep <==> old(wakeRequests)[k] == 0
      ensures wakeRequests == old(wakeRequests)[k := old(wakeRequests)[k] + 1]
      ensures |Now().cb| > b && Now().cb[b] == if asleep then CWake(k) else CIdle
    {
      asleep := wakeRequests[k] == 0;
      wakeRequests := wakeRequests[k := wakeRequests[k] + 1];
      history := Extended(history, Notify(b, k));
    }

    method CountPushed(ghost x: nat) returns (before: int)
      requires Valid() && Shape(Now()) && x < |Now().enq| && Now().enq[x] == EPushed
      modifies this`numTasks, this`history
      ensures Valid() && history == old(history) + [CountTask(old(Now()), x)]
      ensures Shape(Now()) && |Now().enq| > x && Now().enq[x] == if before <= |wakeRequests| then ENotify(0) else EDone
      ensures before == old(numTasks) && numTasks == before + 1
      ensures wakeRequests == old(wakeRequests) && sleepingCounter == old(sleepingCounter)
          && wakeupToken == old(wakeupToken)
    {
      before := numTasks;
      numTasks := numTasks + 1;
      history := Extended(history, Enqueue(x, 0));
    }

    /** The end of the loop: no sleep object is left to look at. */
    ghost method StopLooking(x: nat)
      requires Valid() && Shape(Now()) && x < |Now().enq| && Now().enq[x] == ENotify(|wakeRequests|)
      modifies this`history
      ensures Valid() && |Now().enq| > x && Now().enq[x] == EDone
    {
      history := Extended(history, Enqueue(x, 0));
    }

    /** The loop of `notify_one`, when nobody else moves: the first sleeper is woken up, and nobody but it; every
        object before it gets a wake request that will keep its owner from falling asleep. */
    method NotifyFirst(ghost x: nat)
      requires Valid() && Shape(Now()) && x < |Now().enq| && Now().enq[x] == ENotify(0)
      modifies this`wakeRequests, this`sleepingCounter, this`history
      ensures Valid() && |Now().enq| > x && Now().enq[x] == EDone
      ensures numTasks == old(numTasks) && wakeupToken == old(wakeupToken)
      ensures FirstWoken(old(wakeRequests), wakeupToken, old(sleepingCounter), wakeRequests, sleepingCounter)
    {
      hide TryNotify, Next, IsRun;
      assert wakeRequests == Requested(wakeRequests, 0);
      for k := 0 to |wakeRequests|
        invariant Valid() && Shape(Now()) && x < |Now().enq| && Now().enq[x] == ENotify(k)
        invariant numTasks == old(numTasks) && wakeupToken == old(wakeupToken)
            && sleepingCounter == old(sleepingCounter)
        invariant wakeRequests == Requested(old(wakeRequests), k)
        invariant FirstAsleep(old(wakeRequests), 0) == FirstAsleep(old(wakeRequests), k)
      {
        var asleep := RequestWake(k, x);
        assert wakeRequests == Requested(old(wakeRequests), k + 1);
        if asleep {
          NotifyToken(k, Enqueue(x, 0));
          return;
        }
      }
      StopLooking(x);
      assert Requested(old(wakeRequests), |old(wakeRequests)|) == Requested(old(wakeRequests), |old(wakeRequests)| + 1);
    }

    /** `notify_one`, when nobody else moves: counts the task, and notifies unless there are more tasks than
        sleep objects. */
    method NotifyOne(ghost x: nat)
      requires Valid() && Shape(Now()) && x < |Now().enq| && Now().enq[x] == EPushed
      modifies this`numTasks, this`wakeRequests, this`sleepingCounter, this`history
      ensures Valid() && |Now().enq| > x && Now().enq[x] == EDone
      ensures numTasks == old(numTasks) + 1 && wakeupToken == old(wakeupToken)
      ensures if old(numTasks) > |old(wakeRequests)|
              then wakeRequests == old(wakeRequests) && sleepingCounter == old(sleepingCounter)
              else FirstWoken(old(wakeRequests), wakeupToken, old(sleepingCounter), wakeRequests, sleepingCounter)
    {
      hide CountTask, IsRun;
      var before := CountPushed(x);
      if before <= |wakeRequests| { NotifyFirst(x); }
    }

    // ----- going to sleep

    /** Hands out a free sleep object, the last one that came back; nobody else holds it. */
    method TakeSleepObject(ghost r: nat) returns (k: int)
      requires Valid() && Shape(Now()) && r < |Now().run| && Now().run[r] == RNone
      modifies this`freeSleepObjects, this`history
      ensures Valid() && (k == -1 <==> old(freeSleepObjects) == [])
      ensures k == -1 ==> history == old(history)
      ensures k != -1 ==>
                && old(freeSleepObjects) == freeSleepObjects + [k] && Object(old(Now()), k) && k !in freeSleepObjects
                && history == old(history) + [RunnerNext(old(Now()), r, PLAIN)]
                && forall q :: Runner(old(Now()), q) ==> old(Now()).obj[q] != k
      ensures k != -1 ==> |Now().obj| > r && Now().obj[r] == k
    {
      if freeSleepObjects == [] { return -1; }
      FreeIsNobodys(history);
      k := freeSleepObjects[|freeSleepObjects| - 1];
      freeSleepObjects := freeSleepObjects[..|freeSleepObjects| - 1];
      history := Extended(history, RunnerStep(r, PLAIN));
    }

    /** A helper gives its sleep object back; it was not free. */
    method ReturnSleepObject(k: nat, ghost r: nat)
      requires Valid() && Shape(Now()) && Now().workers <= r < |Now().run| && Now().run[r] == RLeave
          && Now().obj[r] == k
      modifies this`freeSleepObjects, this`history
      ensures Valid() && k !in old(freeSleepObjects) && freeSleepObjects == old(freeSleepObjects) + [k]
      ensures Object(old(Now()), k) && history == old(history) + [RunnerNext(old(Now()), r, PLAIN)]
      ensures |Now().run| > r && Now().run[r] == RNone
    {
      HeldIsNotFree(history, r);
      freeSleepObjects := freeSleepObjects + [k];
      history := Extended(history, RunnerStep(r, PLAIN));
    }

    /** `prepare_sleep` on thread `r`. */
    method PrepareSleep(r: nat) returns (sleepId: nat)
      requires Valid() && Shape(Now()) && r < |Now().run| && Now().run[r] == RPrep
      modifies this`history
      ensures Valid() && history == old(history) + [RunnerNext(old(Now()), r, PLAIN)]
      ensures sleepId == old(sleepingCounter)[r] && |Now().id| > r && Now().id[r] == sleepId
    {
      sleepId := sleepingCounter[r];
      history := Extended(history, RunnerStep(r, PLAIN));
    }

    method LeaveToken(k: nat, r: nat)
      requires Valid() && Shape(Now()) && r < |Now().run| && Now().run[r] == RToken && Now().obj[r] == k
          && k < |wakeRequests|
      modifies this`wakeupToken, this`history
      ensures Valid() && history == old(history) + [RunnerNext(old(Now()), r, PLAIN)]
      ensures wakeupToken == old(wakeupToken)[k := r]
    {
      wakeupToken := wakeupToken[k := r];
      history := Extended(history, RunnerStep(r, PLAIN));
    }

    /** Takes back one wake request; commits to sleep exactly if it was the only one. */
    method TakeBackRequest(k: nat, ghost r: nat) returns (commit: bool)
      requires Valid() && Shape(Now()) && r < |Now().run| && Now().run[r] == RSub && Now().obj[r] == k
          && k < |wakeRequests|
      modifies this`wakeRequests, this`history
      ensures Valid() && history == old(history) + [RunnerNext(old(Now()), r, PLAIN)]
      ensures commit <==> Now().run[r] == RSleep
      ensures wakeRequests[k] >= 0 && (commit <==> wakeRequests[k] == 0) && wakeupToken[k] == r
      ensures commit <==> old(wakeRequests)[k] == 1
      ensures wakeRequests == old(wakeRequests)[k := old(wakeRequests)[k] - 1]
    {
      OwnRequests(history, r);
      commit := wakeRequests[k] == 1;
      wakeRequests := wakeRequests[k := wakeRequests[k] - 1];
      history := Extended(history, RunnerStep(r, PLAIN));
    }

    method ResetRequests(k: nat, ghost r: nat)
      requires Valid() && Shape(Now()) && r < |Now().run| && Now().run[r] == RReset && Now().obj[r] == k
          && k < |wakeRequests|
      modifies this`wakeRequests, this`history
      ensures Valid() && history == old(history) + [RunnerNext(old(Now()), r, PLAIN)]
      ensures wakeRequests == old(wakeRequests)[k := 1]
    {
      wakeRequests := wakeRequests[k := 1];
      history := Extended(history, RunnerStep(r, PLAIN));
    }
  }

  /** Step `a` is the call of `notify` on the token of object `k`. */
  ghost predicate Notifies(s: State, a: Action, k: nat)
    requires Enabled(s, a)
  {
    match a
    case Enqueue(x, _) => s.enq[x] == EWake(k)
    case Notify(b, _) => s.cb[b] == CWake(k)
    case _ => false
  }

  lemma TokenIsThere(tr: seq<State>, a: Action, k: nat)
    requires IsRun(tr) && Enabled(tr[|tr| - 1], a) && Notifies(tr[|tr| - 1], a, k)
    ensures var s := tr[|tr| - 1];
            k < |s.token| && 0 <= s.token[k] < |s.counter|
  {
    RunKeepsInv(tr, |tr| - 1);
  }

  lemma FreeIsNobodys(tr: seq<State>)
    requires IsRun(tr) && tr[|tr| - 1].free != []
    ensures var s := tr[|tr| - 1];
            var k := s.free[|s.free| - 1];
            Shape(s) && Object(s, k) && k !in s.free[..|s.free| - 1] && forall q :: Runner(s, q) ==> s.obj[q] != k
  {
    RunKeepsInv(tr, |tr| - 1);
  }

  lemma HeldIsNotFree(tr: seq<State>, r: nat)
    requires IsRun(tr) && r < |tr[|tr| - 1].run| && tr[|tr| - 1].run[r] != RNone
    ensures var s := tr[|tr| - 1]; Shape(s) && Object(s, s.obj[r]) && s.obj[r] !in s.free
  {
    RunKeepsInv(tr, |tr| - 1);
  }

  lemma OwnRequests(tr: seq<State>, r: nat)
    requires IsRun(tr) && r < |tr[|tr| - 1].run| && tr[|tr| - 1].run[r] == RSub
    ensures var s := tr[|tr| - 1];
            Shape(s) && Object(s, s.obj[r]) && s.wake[s.obj[r]] >= 1 && s.token[s.obj[r]] == r
  {
    RunKeepsInv(tr, |tr| - 1);
    OwnObject(tr[|tr| - 1], r);
  }

  /** The run that goes on with step `a`. */
  ghost function Extended(tr: seq<State>, a: Action): (tr': seq<State>)
    requires IsRun(tr) && Enabled(tr[|tr| - 1], a)
    ensures IsRun(tr') && tr' == tr + [Next(tr[|tr| - 1], a)]
  {
    ExtendedIsRun(tr, a);
    tr + [Next(tr[|tr| - 1], a)]
  }

  lemma ExtendedIsRun(tr: seq<State>, a: Action)
    requires IsRun(tr) && Enabled(tr[|tr| - 1], a)
    ensures IsRun(tr + [Next(tr[|tr| - 1], a)])
  {
    hide Init, Enabled, Next;
    var s := tr[|tr| - 1];
    var tr' := tr + [Next(s, a)];
    assert Step(s, Next(s, a));
    assert forall i :: 0 <= i < |tr| - 1 ==> Step(tr[i], tr[i + 1]);
  }
}
