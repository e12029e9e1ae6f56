/** How the runners of the pool sleep, are woken up, and leave. */
module ThreadPoolSleep {
  import opened Seqs
  import opened ThreadPool
  import opened ThreadPoolProof
  import opened ThreadPoolTheorems

  // ----- who sleeps is woken up

  /** No wake request gets lost, whoever it is for: if one has reached the object of a sleeping runner, the counter
      of its thread has moved, or an enqueue or a stop callback is about to move it. */
  lemma RequestWakesSleeper(tr: seq<State>, k: nat, r: int)
    requires IsRun(tr) && k < |tr| && Shape(tr[k]) && Runner(tr[k], r) && tr[k].run[r] == RSleep
    ensures var s := tr[k];
            && Object(s, s.obj[r]) && s.counter[r] >= s.id[r]
            && (s.wake[s.obj[r]] == 0 || s.counter[r] > s.id[r] || WakerComing(s, s.obj[r]))
  {
    RunKeepsInv(tr, k);
    assert SleeperOk(tr[k], r);
  }

  // ----- who is not woken up sleeps

  predicate GoingToSleep(p: RunnerPc) { p.RToken? || p.RSub? || p.RSleep? }

  ghost predicate OnItsWay(s: State, r: int) { Shape(s) && Runner(s, r) && GoingToSleep(s.run[r]) }

  /** From its `prepare_sleep` on, a runner keeps what it has read. */
  lemma {:induction false} KeepsId(tr: seq<State>, i: nat, j: nat, r: nat)
    requires IsRun(tr) && i < j < |tr| && Shape(tr[i]) && Runner(tr[i], r) && tr[i].run[r] == RPrep
    requires forall m :: i < m <= j ==> OnItsWay(tr[m], r)
    ensures OnItsWay(tr[j], r) && tr[j].id[r] == tr[i].counter[r]
    decreases j
  {
    hide Init, Enabled, Next;
    assert OnItsWay(tr[j], r) && (j - 1 > i ==> OnItsWay(tr[j - 1], r));
    assert Step(tr[j - 1], tr[j - 1 + 1]);
    var a: Action :| Enabled(tr[j - 1], a) && tr[j] == Next(tr[j - 1], a);
    StepKeepsId(tr[j - 1], a, r);
    if j > i + 1 { KeepsId(tr, i, j - 1, r); }
  }

  lemma StepKeepsId(s: State, a: Action, r: nat)
    requires Shape(s) && Enabled(s, a) && Runner(s, r) && Shape(Next(s, a)) && Runner(Next(s, a), r)
    requires s.run[r] == RPrep || GoingToSleep(s.run[r])
    requires GoingToSleep(Next(s, a).run[r])
    ensures Next(s, a).id[r] == if s.run[r] == RPrep then s.counter[r] else s.id[r]
  {
    if a.RunnerStep? { RunnerKeepsId(s, a.r, a.c, r); } else { OthersKeepIds(s, a); }
  }

  lemma OthersKeepIds(s: State, a: Action)
    requires Shape(s) && Enabled(s, a) && !a.RunnerStep?
    ensures Next(s, a).id == s.id && Next(s, a).run == s.run
  {
  }

  lemma RunnerKeepsId(s: State, q: nat, c: Choice, r: nat)
    requires Shape(s) && q < |s.run| && RunnerEnabled(s, q, c) && Runner(s, r)
    requires s.run[r] == RPrep || GoingToSleep(s.run[r])
    requires GoingToSleep(RunnerNext(s, q, c).run[r])
    ensures RunnerNext(s, q, c).id[r] == if s.run[r] == RPrep then s.counter[r] else s.id[r]
  {
    hide OwnNext, WorkNext;
  }

  /** A runner sleeps, until stop, if and only if nobody has moved the counter of its thread since it read it. */
  lemma SleepsIffNotWoken(tr: seq<State>, i: nat, j: nat, r: nat, c: Choice)
    requires IsRun(tr) && i < j < |tr| && Shape(tr[i]) && Runner(tr[i], r) && tr[i].run[r] == RPrep
    requires forall m :: i < m <= j ==> OnItsWay(tr[m], r)
    requires OnItsWay(tr[j], r) && tr[j].run[r] == RSleep && !c.stop
    ensures !RunnerEnabled(tr[j], r, c) <==> tr[j].counter[r] == tr[i].counter[r]
  {
    KeepsId(tr, i, j, r);
  }

  // ----- an idle runner falls asleep

  /** A step that runner `r` takes while nobody else moves, holds a lock, or, unless `stop`, asks it to stop. */
  ghost predicate AloneStep(s: State, s': State, r: nat, stop: bool) {
    && Shape(s) && Runner(s, r)
    && exists c: Choice :: c.stop == stop && !c.locked && RunnerEnabled(s, r, c) && s' == RunnerNext(s, r, c)
  }

  ghost predicate AloneRun(tr: seq<State>, r: nat, stop: bool) {
    tr != [] && forall i :: 0 <= i < |tr| - 1 ==> AloneStep(tr[i], tr[i + 1], r, stop)
  }

  /** Asleep, and nothing has come to wake it up. */
  ghost predicate FastAsleep(s: State, r: nat) {
    Shape(s) && Runner(s, r) && s.run[r] == RSleep && s.counter[r] == s.id[r]
  }

  /** Nothing to do, and a sleep object to sleep on. */
  ghost predicate IdleRunner(s: State, r: nat) {
    && Shape(s) && Runner(s, r) && Object(s, s.obj[r]) && !Owning(s.run[r]) && s.run[r] != RPopped
    && Line(s, s.at[r]) && s.num == 0 && forall l :: Line(s, l) ==> s.lines[l] == []
  }

  /** How many steps the runner needs to fall asleep. It may have to use up a wake request first, and to finish a
      scan. */
  ghost function NapDistance(s: State, r: nat): int
    requires IdleRunner(s, r)
  {
    var n := |s.lines|;
    var one, still := s.wake[s.obj[r]] == 1, s.counter[r] == s.id[r];
    var rest := if s.scan[r] < 2 * n then 2 * n - s.scan[r] else 0;
    match s.run[r]
    case RSleep => if still then 0 else 2 * n + 9
    case RSub => if !one then 2 * n + 9 else if still then 1 else 2 * n + 10
    case RToken => if !one then 2 * n + 10 else if still then 2 else 2 * n + 11
    case RPrep => if one then 3 else 2 * n + 11
    case RLoad => if one then 4 else 2 * n + 12
    case RLoop => if one then 5 else 2 * n + 13
    case RScan => if one then rest + 6 else rest + 2 * n + 14
    case RCheck => if one then 2 * n + 7 else 4 * n + 15
    case RReset => 2 * n + 8
    case _ => 0
  }

  lemma WorkGetsSleepier(s: State, r: nat, c: Choice)
    requires IdleRunner(s, r) && !c.stop && RunnerEnabled(s, r, c) && !Sleeping(s.run[r])
    ensures IdleRunner(RunnerNext(s, r, c), r) && NapDistance(RunnerNext(s, r, c), r) < NapDistance(s, r)
  {
  }

  lemma SleepGetsSleepier(s: State, r: nat, c: Choice)
    requires IdleRunner(s, r) && !c.stop && RunnerEnabled(s, r, c) && Sleeping(s.run[r])
    ensures IdleRunner(RunnerNext(s, r, c), r) && NapDistance(RunnerNext(s, r, c), r) < NapDistance(s, r)
  {
  }

  lemma {:induction false} FallsAsleep(solo: seq<State>, r: nat)
    requires AloneRun(solo, r, false) && IdleRunner(solo[0], r) && NapDistance(solo[0], r) < |solo|
    ensures exists i :: 0 <= i < |solo| && i <= NapDistance(solo[0], r) && FastAsleep(solo[i], r)
    decreases |solo|
  {
    hide IdleRunner, RunnerEnabled, RunnerNext;
    NapNotNegative(solo[0], r);
    if NapDistance(solo[0], r) == 0 {
      assert FastAsleep(solo[0], r);
    } else {
      assert AloneStep(solo[0], solo[0 + 1], r, false);
      var c: Choice :| !c.stop && !c.locked && RunnerEnabled(solo[0], r, c) && solo[1] == RunnerNext(solo[0], r, c);
      if Sleeping(solo[0].run[r]) { SleepGetsSleepier(solo[0], r, c); } else { WorkGetsSleepier(solo[0], r, c); }
      var rest := solo[1..];
      forall i | 0 <= i < |rest| - 1 ensures AloneStep(rest[i], rest[i + 1], r, false) {
        assert rest[i] == solo[i + 1] && AloneStep(solo[i + 1], solo[i + 1 + 1], r, false);
      }
      FallsAsleep(rest, r);
      var i :| 0 <= i < |rest| && i <= NapDistance(rest[0], r) && FastAsleep(rest[i], r);
      assert FastAsleep(solo[i + 1], r);
    }
  }

  lemma NapNotNegative(s: State, r: nat)
    requires IdleRunner(s, r)
    ensures Shape(s) && Runner(s, r) && 0 <= NapDistance(s, r) <= 4 * |s.lines| + 15
    ensures NapDistance(s, r) == 0 <==> FastAsleep(s, r)
  {
  }

  /** The pool does not busy-wait: when no task is left and nothing is under way, every run of a runner alone falls
      asleep, with `n` lines after at most `4n + 15` steps, and then goes no further. */
  lemma IdleRunnerFallsAsleep(tr: seq<State>, k: nat, r: nat, solo: seq<State>)
    requires IsRun(tr) && k < |tr| && Quiet(tr[k]) && !HasTasks(tr[k])
    requires Shape(tr[k]) && Runner(tr[k], r) && !Owning(tr[k].run[r])
    requires AloneRun(solo, r, false) && solo[0] == tr[k]
    ensures |solo| > 4 * |tr[k].lines| + 15 ==> exists i :: 0 <= i <= 4 * |tr[k].lines| + 15 && FastAsleep(solo[i], r)
    ensures forall i :: 0 <= i < |solo| - 1 ==> !FastAsleep(solo[i], r)
  {
    hide Inv, Quiet, IdleRunner, NapDistance, FastAsleep, AloneStep;
    RunKeepsInv(tr, k);
    QuietRunnerIsIdle(tr[k], r);
    NapNotNegative(tr[k], r);
    if |solo| > 4 * |tr[k].lines| + 15 { FallsAsleep(solo, r); }
    forall i | 0 <= i < |solo| - 1 ensures !FastAsleep(solo[i], r) {
      assert AloneStep(solo[i], solo[i + 1], r, false);
      NoStepAsleep(solo[i], solo[i + 1], r);
    }
  }

  lemma NoStepAsleep(s: State, s': State, r: nat)
    requires AloneStep(s, s', r, false)
    ensures !FastAsleep(s, r)
  {
  }

  lemma QuietRunnerIsIdle(s: State, r: nat)
    requires Inv(s) && Quiet(s) && !HasTasks(s) && Runner(s, r) && !Owning(s.run[r])
    ensures IdleRunner(s, r)
  {
    SumOfBits(PushedBits(s));
    SumOfBits(PoppedBits(s));
    SumOfBits(ExtractedBits(s));
    assert forall l :: Line(s, l) ==> s.lines[l] == [];
    SumConst(Lengths(s), 0);
  }

  // ----- a helper leaves when it is asked to stop

  function LeaveDistance(s: State, r: nat): int
    requires r < |s.run| == |s.scan|
  {
    var n := |s.lines|;
    match s.run[r]
    case RNone => 0
    case RLeave => 1
    case RLoop => 2
    case RCheck => 2
    case RReset => 3
    case RPopped => 3
    case RSleep => 4
    case RSub => 5
    case RToken => 6
    case RPrep => 7
    case RLoad => 8
    case RScan => 4 + if s.scan[r] < 2 * n then 2 * n - s.scan[r] else 0
  }

  lemma StopGetsCloser(s: State, r: nat, c: Choice)
    requires Shape(s) && r < |s.run| && RunnerEnabled(s, r, c) && c.stop && s.run[r] != RNone
    ensures LeaveDistance(RunnerNext(s, r, c), r) < LeaveDistance(s, r)
  {
  }

  /** A runner leaves its loop only on stop, and takes no task after a look that saw stop. */
  lemma LeavesOnlyOnStop(s: State, r: nat, c: Choice)
    requires Shape(s) && r < |s.run| && RunnerEnabled(s, r, c)
    ensures RunnerNext(s, r, c).run[r] == RLeave ==> c.stop
    ensures c.stop && s.run[r] != RScan ==> !RunnerNext(s, r, c).run[r].RScan? && !RunnerNext(s, r, c).run[r].RPopped?
  {
  }

  ghost predicate HasLeft(s: State, r: nat) { r < |s.run| && s.run[r] == RNone }

  lemma {:induction false} StoppedLeaves(solo: seq<State>, r: nat)
    requires AloneRun(solo, r, true) && Shape(solo[0]) && r < |solo[0].run| && LeaveDistance(solo[0], r) < |solo|
    ensures exists i :: 0 <= i < |solo| && i <= LeaveDistance(solo[0], r) && HasLeft(solo[i], r)
    decreases |solo|
  {
    hide RunnerEnabled, RunnerNext;
    if solo[0].run[r] == RNone {
      assert HasLeft(solo[0], r);
    } else {
      LeaveNotYet(solo[0], r);
      assert AloneStep(solo[0], solo[0 + 1], r, true);
      var c: Choice :| c.stop && !c.locked && RunnerEnabled(solo[0], r, c) && solo[1] == RunnerNext(solo[0], r, c);
      StopGetsCloser(solo[0], r, c);
      var rest := solo[1..];
      forall i | 0 <= i < |rest| - 1 ensures AloneStep(rest[i], rest[i + 1], r, true) {
        assert rest[i] == solo[i + 1] && AloneStep(solo[i + 1], solo[i + 1 + 1], r, true);
      }
      StoppedLeaves(rest, r);
      var i :| 0 <= i < |rest| && i <= LeaveDistance(rest[0], r) && HasLeft(rest[i], r);
      assert HasLeft(solo[i + 1], r);
    }
  }

  lemma LeaveNotYet(s: State, r: nat)
    requires Shape(s) && r < |s.run|
    ensures 0 <= LeaveDistance(s, r) <= 2 * |s.lines| + 8
    ensures s.run[r] != RNone ==> LeaveDistance(s, r) > 0
  {
  }

  /** `offer_help_until` ends when it is told to: from every state of every run, a helper alone that is asked to
      stop has given its sleep object back after at most `2n + 8` steps, and is not blocked before. */
  lemma StoppedHelperLeaves(tr: seq<State>, k: nat, r: nat, solo: seq<State>)
    requires IsRun(tr) && k < |tr| && Shape(tr[k]) && Runner(tr[k], r) && r >= tr[k].workers
    requires AloneRun(solo, r, true) && solo[0] == tr[k]
    ensures |solo| > 2 * |tr[k].lines| + 8 ==> exists i :: 0 <= i <= 2 * |tr[k].lines| + 8 && HasLeft(solo[i], r)
    ensures !HasLeft(solo[|solo| - 1], r) ==> CanLeaveFurther(solo[|solo| - 1], r)
  {
    hide DeliveryInv, CountInv, OwnerInv, WakeInv, SleeperInv, AlarmInv;
    hide IsRun, AloneStep, LeaveDistance, CanLeaveFurther;
    RunKeepsInv(tr, k);
    LeaveNotYet(tr[k], r);
    if |solo| > 2 * |tr[k].lines| + 8 { StoppedLeaves(solo, r); }
    AloneKeepsInv(solo, r, |solo| - 1);
    if !HasLeft(solo[|solo| - 1], r) { StoppedIsEnabled(solo[|solo| - 1], r); }
  }

  ghost predicate CanLeaveFurther(s: State, r: nat) { exists s' :: AloneStep(s, s', r, true) }

  lemma {:induction false} AloneKeepsInv(solo: seq<State>, r: nat, i: nat)
    requires AloneRun(solo, r, true) && i < |solo| && Inv(solo[0]) && Runner(solo[0], r)
    ensures Inv(solo[i]) && Runner(solo[i], r) && solo[i].workers == solo[0].workers
  {
    hide Inv, RunnerEnabled, RunnerNext;
    if i > 0 {
      AloneKeepsInv(solo, r, i - 1);
      assert AloneStep(solo[i - 1], solo[i - 1 + 1], r, true);
      var s := solo[i - 1];
      var c: Choice :| c.stop && !c.locked && RunnerEnabled(s, r, c) && solo[i] == RunnerNext(s, r, c);
      StepKeepsInv(s, RunnerStep(r, c));
    }
  }

  lemma StoppedIsEnabled(s: State, r: nat)
    requires Inv(s) && Runner(s, r) && r >= s.workers && s.run[r] != RNone
    ensures CanLeaveFurther(s, r)
  {
    var c := Choice(true, false, 0);
    assert RunnerEnabled(s, r, c);
    hide RunnerEnabled, RunnerNext;
    assert AloneStep(s, RunnerNext(s, r, c), r, true);
  }
}
