/** The per-thread objects that the switch protocol updates in place. Each method is one atomic operation, or one
    section under the mutex, and is proved to have exactly the effect of a step of the step system on the shared
    fields of all threads. */
module ThreadInfos {
  import opened ThreadSwitch
  import opened ThreadSwitchProof

  class ThreadInfo {
    var shouldSwitchWith: ThreadInfo?
    var isCurrentlySwitching: bool
    var switchingTo: int    // a flow, or -1 for null
    var sleepingCounter: nat

    constructor ()
      ensures shouldSwitchWith == null && !isCurrentlySwitching && switchingTo == -1 && sleepingCounter == 0
    {
      shouldSwitchWith, isCurrentlySwitching, switchingTo, sleepingCounter := null, false, -1, 0;
    }
  }

  /** The objects `infos` hold the shared fields of state `s`. */
  ghost predicate Shows(infos: seq<ThreadInfo>, s: State)
    reads infos
  {
    && Shape(s) && |infos| == s.n
    && (forall i, j :: 0 <= i < j < |infos| ==> infos[i] != infos[j])
    && (forall t :: 0 <= t < s.n ==> ShowsThread(infos, s, t))
  }

  ghost predicate ShowsThread(infos: seq<ThreadInfo>, s: State, t: int)
    requires Shape(s) && |infos| == s.n && Tid(s, t)
    reads infos
  {
    && (s.req[t] == -1 || Tid(s, s.req[t]))
    && infos[t].isCurrentlySwitching == s.busy[t]
    && infos[t].switchingTo == s.mail[t]
    && infos[t].sleepingCounter == s.wakes[t]
    && infos[t].shouldSwitchWith == if s.req[t] == -1 then null else infos[s.req[t]]
  }

  /** `try_start_switch`, under the mutex. */
  method TryStartSwitch(current: ThreadInfo, target: ThreadInfo,
                        ghost infos: seq<ThreadInfo>, ghost s: State, ghost t: nat) returns (ok: bool)
    requires Shows(infos, s) && t < s.n && Tid(s, s.cur[t]) && Tid(s, s.dest[s.cur[t]])
    requires current == infos[t] && target == infos[s.dest[s.cur[t]]]
    modifies current`isCurrentlySwitching, target`isCurrentlySwitching
    ensures Shows(infos, TryStart(s, t))
    ensures ok <==> TryStart(s, t).fpc[s.cur[t]] != Checking
    ensures ok <==> !old(current.isCurrentlySwitching) && !old(target.isCurrentlySwitching)
    ensures current.isCurrentlySwitching <==> ok || old(current.isCurrentlySwitching)
    ensures target.isCurrentlySwitching <==> ok || old(target.isCurrentlySwitching)
  {
    assert ShowsThread(infos, s, t) && ShowsThread(infos, s, s.dest[s.cur[t]]);
    ok := !current.isCurrentlySwitching && !target.isCurrentlySwitching;
    if ok {
      current.isCurrentlySwitching := true;
      target.isCurrentlySwitching := true;
    }
    forall u | 0 <= u < s.n ensures ShowsThread(infos, TryStart(s, t), u) { assert old(ShowsThread(infos, s, u)); }
  }

  /** `wake_up`. */
  method WakeUp(thread: ThreadInfo)
    modifies thread`sleepingCounter
    ensures thread.sleepingCounter == old(thread.sleepingCounter) + 1
  {
    thread.sleepingCounter := thread.sleepingCounter + 1;
  }

  /** The body of `switch_to` up to the wait: mailbox, then request, then wake-up. */
  method PostMail(target: ThreadInfo, c: int, ghost infos: seq<ThreadInfo>, ghost s: State, ghost t: nat)
    requires Shows(infos, s) && t < s.n && s.tpc[t] == OMail && Tid(s, s.peer[t])
    requires target == infos[s.peer[t]] && c == s.cur[t]
    modifies target`switchingTo
    ensures Shows(infos, BodyNext(s, t))
    ensures target.switchingTo == c
  {
    target.switchingTo := c;
    forall u | 0 <= u < s.n ensures ShowsThread(infos, BodyNext(s, t), u) { assert old(ShowsThread(infos, s, u)); }
  }

  method PostRequest(current: ThreadInfo, target: ThreadInfo, ghost infos: seq<ThreadInfo>, ghost s: State,
      ghost t: nat)
    requires Shows(infos, s) && t < s.n && s.tpc[t] == OReq && Tid(s, s.peer[t])
    requires current == infos[t] && target == infos[s.peer[t]]
    modifies target`shouldSwitchWith
    ensures Shows(infos, BodyNext(s, t))
    ensures target.shouldSwitchWith == current
  {
    target.shouldSwitchWith := current;
    forall u | 0 <= u < s.n ensures ShowsThread(infos, BodyNext(s, t), u) { assert old(ShowsThread(infos, s, u)); }
  }

  method WakeTarget(target: ThreadInfo, ghost infos: seq<ThreadInfo>, ghost s: State, ghost t: nat)
    requires Shows(infos, s) && t < s.n && s.tpc[t] == OWake && Tid(s, s.peer[t]) && target == infos[s.peer[t]]
    modifies target`sleepingCounter
    ensures Shows(infos, BodyNext(s, t))
    ensures target.sleepingCounter == old(target.sleepingCounter) + 1
  {
    WakeUp(target);
    forall u | 0 <= u < s.n ensures ShowsThread(infos, BodyNext(s, t), u) { assert old(ShowsThread(infos, s, u)); }
  }

  /** `end_switch`, under the mutex. */
  method FinishSwitch(originator: ThreadInfo, target: ThreadInfo,
                      ghost infos: seq<ThreadInfo>, ghost s: State, ghost t: nat)
    requires Shows(infos, s) && t < s.n && Tid(s, s.peer[t]) && Tid(s, s.cur[t]) && Tid(s, s.own[t])
    requires originator == infos[t] && target == infos[s.peer[t]]
    modifies originator`switchingTo, originator`isCurrentlySwitching, target`isCurrentlySwitching,
        target`shouldSwitchWith
    ensures Shows(infos, EndSwitch(s, t))
    ensures originator.switchingTo == -1 && target.shouldSwitchWith == null
    ensures !originator.isCurrentlySwitching && !target.isCurrentlySwitching
  {
    originator.switchingTo := -1;
    originator.isCurrentlySwitching := false;
    target.isCurrentlySwitching := false;
    target.shouldSwitchWith := null;
    forall u | 0 <= u < s.n ensures ShowsThread(infos, EndSwitch(s, t), u) { assert old(ShowsThread(infos, s, u)); }
  }

  /** The body of `requested_switch_with`: reads its mailbox, which holds the flow of the thread that asks, */
  method ReadMail(current: ThreadInfo, ghost infos: seq<ThreadInfo>, ghost s: State, ghost t: nat)
      returns (nextForUs: int)
    requires Shows(infos, s) && Inv(s) && t < s.n && s.tpc[t] == TRead && current == infos[t]
    ensures Shows(infos, BodyNext(s, t)) && BodyNext(s, t).next[t] == nextForUs
    ensures Tid(s, s.peer[t]) && nextForUs == s.res[s.peer[t]]
    ensures nextForUs == current.switchingTo
  {
    assert ShowsThread(infos, s, t);
    BodyRole(s, t);
    nextForUs := current.switchingTo;
    forall u | 0 <= u < s.n ensures ShowsThread(infos, BodyNext(s, t), u) { assert old(ShowsThread(infos, s, u)); }
  }

  /** ... clears it, */
  method ClearMail(current: ThreadInfo, ghost infos: seq<ThreadInfo>, ghost s: State, ghost t: nat)
    requires Shows(infos, s) && t < s.n && s.tpc[t] == TClear && current == infos[t]
    modifies current`switchingTo
    ensures Shows(infos, BodyNext(s, t))
    ensures current.switchingTo == -1
  {
    current.switchingTo := -1;
    forall u | 0 <= u < s.n ensures ShowsThread(infos, BodyNext(s, t), u) { assert old(ShowsThread(infos, s, u)); }
  }

  /** ... and leaves its own continuation in the originator's, which was empty, before it jumps to what it read. */
  method PostContinuation(originator: ThreadInfo, c: int, ghost infos: seq<ThreadInfo>, ghost s: State, ghost t: nat)
    requires Shows(infos, s) && Inv(s) && t < s.n && s.tpc[t] == TPost && Tid(s, s.peer[t])
    requires originator == infos[s.peer[t]] && c == s.cur[t]
    modifies originator`switchingTo
    ensures Shows(infos, BodyNext(s, t)) && old(originator.switchingTo) == -1
    ensures originator.switchingTo == c
  {
    assert ShowsThread(infos, s, s.peer[t]);
    BodyRole(s, t);
    originator.switchingTo := c;
    forall u | 0 <= u < s.n ensures ShowsThread(infos, BodyNext(s, t), u) { assert old(ShowsThread(infos, s, u)); }
  }

  /** `check_for_thread_switch`: the thread that asks `current` to switch, if any. */
  method FindRequest(current: ThreadInfo, ghost infos: seq<ThreadInfo>, ghost s: State, ghost t: nat)
    returns (originator: ThreadInfo?)
    requires Shows(infos, s) && t < s.n && current == infos[t]
    ensures originator == null <==> s.req[t] == -1
    ensures s.req[t] != -1 ==> Tid(s, s.req[t]) && originator == infos[s.req[t]]
    ensures originator == current.shouldSwitchWith
  {
    assert ShowsThread(infos, s, t);
    originator := current.shouldSwitchWith;
  }
}
