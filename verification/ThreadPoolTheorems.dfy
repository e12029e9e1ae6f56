/** What every run of the thread pool keeps. */
module ThreadPoolTheorems {
  import opened Seqs
  import opened Turns
  import opened ThreadPool
  import opened ThreadPoolProof

  // ----- delivery

  predicate InLine(s: State, x: int, l: int) { Line(s, l) && x in s.lines[l] }

  ghost predicate InSomeLine(s: State, x: int) { exists l :: InLine(s, x, l) }

  /** The step from `s` to `s'` takes task `x` out of the pool. */
  ghost predicate HandsOut(s: State, s': State, x: int) { InSomeLine(s, x) && !InSomeLine(s', x) }

  lemma InSomeLineIff(s: State, x: int)
    requires Shape(s) && DeliveryInv(s) && Task(s, x)
    ensures InSomeLine(s, x) <==> s.wd[x] != -1
  {
    if s.wd[x] != -1 { assert InLine(s, x, s.wd[x]); }
  }

  /** An enqueued task that was not handed out is in exactly one line, once; one that was is in none. */
  lemma TaskInOneLineUntilHandedOut(tr: seq<State>, k: nat, x: int)
    requires IsRun(tr) && k < |tr| && Task(tr[k], x)
    ensures Shape(tr[k]) && tr[k].taken[x] <= 1
    ensures InSomeLine(tr[k], x) <==> tr[k].enq[x] != EIdle && tr[k].taken[x] == 0
    ensures forall l, m :: InLine(tr[k], x, l) && InLine(tr[k], x, m) ==> l == m
    ensures forall l, i, j :: Line(tr[k], l) && 0 <= i < j < |tr[k].lines[l]| ==> tr[k].lines[l][i] != tr[k].lines[l][j]
  {
    RunKeepsInv(tr, k);
    InSomeLineIff(tr[k], x);
  }

  lemma StepTakesOnce(s: State, a: Action, x: int)
    requires Inv(s) && Enabled(s, a) && Task(s, x)
    ensures Inv(Next(s, a)) && Task(Next(s, a), x) && s.taken[x] <= Next(s, a).taken[x]
    ensures HandsOut(s, Next(s, a), x) <==> Next(s, a).taken[x] == s.taken[x] + 1
  {
    StepKeepsInv(s, a);
    var s' := Next(s, a);
    StepMovesTaken(s, a, x);
    InSomeLineIff(s, x);
    InSomeLineIff(s', x);
  }

  lemma StepMovesTaken(s: State, a: Action, x: int)
    requires Shape(s) && Enabled(s, a) && Task(s, x) && Shape(Next(s, a))
    ensures Task(Next(s, a), x) && s.taken[x] <= Next(s, a).taken[x]
    ensures s.enq[x] != EIdle ==> Next(s, a).enq[x] != EIdle
    ensures s.enq[x] == EIdle && Next(s, a).enq[x] != EIdle ==> Next(s, a).taken[x] == s.taken[x]
  {
  }

  /** The task that the step takes: the head of the scanned line, or the one being extracted; -1 if none. */
  ghost function TaskTaken(s: State, a: Action): int
    requires Enabled(s, a)
  {
    match a
    case RunnerStep(r, c) => if Pops(s, r, c) then s.lines[s.at[r]][0] else -1
    case Extract(e, _) => if s.ext[e].XLock? && s.wd[s.ext[e].x] != -1 then s.ext[e].x else -1
    case _ => -1
  }

  /** A task leaves the lines only by being popped off the head of a line, or by a successful extraction; no
      step takes two. */
  lemma HandsOutIff(s: State, a: Action, x: int)
    requires Inv(s) && Enabled(s, a) && Task(s, x)
    ensures HandsOut(s, Next(s, a), x) <==> TaskTaken(s, a) == x
  {
    hide Inv, HandsOut;
    StepTakesOnce(s, a, x);
    TakenIff(s, a, x);
  }

  lemma TakenIff(s: State, a: Action, x: int)
    requires Shape(s) && Enabled(s, a) && Task(s, x)
    ensures |Next(s, a).taken| == |s.taken|
    ensures Next(s, a).taken[x] == if TaskTaken(s, a) == x then s.taken[x] + 1 else s.taken[x]
  {
  }

  lemma {:induction false} TakenGrows(tr: seq<State>, i: nat, j: nat, x: int)
    requires IsRun(tr) && i <= j < |tr| && Task(tr[i], x)
    ensures Shape(tr[i]) && Shape(tr[j]) && Task(tr[j], x) && tr[i].taken[x] <= tr[j].taken[x] <= 1
    decreases j - i
  {
    hide Init, Enabled, Next, DeliveryInv, CountInv, OwnerInv, WakeInv, AlarmInv;
    RunKeepsInv(tr, i);
    if i == j {
      TaskInOneLineUntilHandedOut(tr, i, x);
    } else {
      assert Step(tr[i], tr[i + 1]);
      var a: Action :| Enabled(tr[i], a) && tr[i + 1] == Next(tr[i], a);
      StepTakesOnce(tr[i], a, x);
      TakenGrows(tr, i + 1, j, x);
    }
  }

  /** Over a whole run a task is handed out at most once, whoever takes it. */
  lemma HandedOutAtMostOnce(tr: seq<State>, i: nat, j: nat, x: int)
    requires IsRun(tr) && i < j < |tr| - 1 && Task(tr[i], x) && HandsOut(tr[i], tr[i + 1], x)
    ensures !HandsOut(tr[j], tr[j + 1], x)
  {
    hide Init, Enabled, Next, HandsOut, Inv;
    TakenGrows(tr, i + 1 - 1, i + 1, x);
    TakenGrows(tr, i + 1, j, x);
    TakenGrows(tr, j, j + 1, x);
    RunKeepsInv(tr, i);
    RunKeepsInv(tr, j);
    assert Step(tr[i], tr[i + 1]) && Step(tr[j], tr[j + 1]);
    var a: Action :| Enabled(tr[i], a) && tr[i + 1] == Next(tr[i], a);
    StepTakesOnce(tr[i], a, x);
    var b: Action :| Enabled(tr[j], b) && tr[j + 1] == Next(tr[j], b);
    StepTakesOnce(tr[j], b, x);
  }

  /** The look without the lock is never misleading: under the lock of the line it saw, the task is either in
      that very line or in none. */
  lemma RecheckIsSound(tr: seq<State>, k: nat, e: nat)
    requires IsRun(tr) && k < |tr| && e < |tr[k].ext| && tr[k].ext[e].XLock?
    ensures var s := tr[k]; var x, l := s.ext[e].x, s.ext[e].l;
            && Shape(s) && Task(s, x) && Line(s, l)
            && (s.wd[x] == l <==> x in s.lines[l])
            && (s.wd[x] == -1 <==> !InSomeLine(s, x))
            && (s.wd[x] == l || s.wd[x] == -1)
  {
    RunKeepsInv(tr, k);
    InSomeLineIff(tr[k], tr[k].ext[e].x);
  }

  /** An extraction that nobody disturbs takes the task, and subtracts it, if and only if it is in some line; otherwise
      it changes nothing. */
  lemma ExtractionSucceedsIff(s: State, e: nat, x: nat)
    requires Inv(s) && e < |s.ext| && s.ext[e] == XIdle && Task(s, x)
    ensures Enabled(s, Extract(e, x))
    ensures var s1 := Next(s, Extract(e, x));
            if InSomeLine(s, x)
            then Enabled(s1, Extract(e, x))
                 && var s2 := Next(s1, Extract(e, x));
                    s2.ext == s1.ext[e := XTaken(x)] && !InSomeLine(s2, x) && s2.num == s.num
                    && Enabled(s2, Extract(e, x)) && Next(s2, Extract(e, x)).num == s.num - 1
            else s1 == s
  {
    InSomeLineIff(s, x);
    var s1 := Next(s, Extract(e, x));
    if s.wd[x] != -1 {
      StepKeepsInv(s, Extract(e, x));
      StepKeepsInv(s1, Extract(e, x));
      InSomeLineIff(Next(s1, Extract(e, x)), x);
    }
  }

  // ----- conservation

  /** Nobody is between a change of the lines and the matching change of the count. */
  ghost predicate CountSettled(s: State) {
    && (forall x :: Task(s, x) ==> s.enq[x] != EPushed)
    && (forall r :: Runner(s, r) ==> s.run[r] != RPopped)
    && (forall e :: 0 <= e < |s.ext| ==> !s.ext[e].XTaken?)
  }

  /** Conservation of the task count in every state of every run. */
  lemma TasksAreConserved(tr: seq<State>, k: nat)
    requires IsRun(tr) && k < |tr|
    ensures var s := tr[k];
            s.num + Sum(PushedBits(s)) == Sum(Lengths(s)) + Sum(PoppedBits(s)) + Sum(ExtractedBits(s))
    ensures CountSettled(tr[k]) ==> tr[k].num == Sum(Lengths(tr[k]))
    ensures tr[k].num < 0 ==> exists x :: Task(tr[k], x) && tr[k].enq[x] == EPushed
  {
    var s := tr[k];
    RunKeepsInv(tr, k);
    SumOfBits(PushedBits(s));
    SumOfBits(PoppedBits(s));
    SumOfBits(ExtractedBits(s));
    SumNonNegative(Lengths(s));
    if forall x :: Task(s, x) ==> s.enq[x] != EPushed {
      assert Sum(PushedBits(s)) == 0;
    }
  }

  // ----- sleep objects

  /** Every sleep object from `workers` up to twice as many is free or held by one runner, not both; no two
      runners hold the same one, and every worker keeps its own. */
  lemma SleepObjectsArePartitioned(tr: seq<State>, k: nat)
    requires IsRun(tr) && k < |tr|
    ensures var s := tr[k];
            && Shape(s) && Distinct(s.free)
            && (forall o :: s.workers <= o < 2 * s.workers ==>
                  (o in s.free <==> forall r :: Runner(s, r) ==> s.obj[r] != o))
            && (forall o :: o in s.free ==> s.workers <= o < 2 * s.workers)
            && (forall q, r :: Runner(s, q) && Runner(s, r) && q != r && s.obj[q] == s.obj[r] ==> s.obj[q] == -1)
            && (forall r :: Runner(s, r) && s.obj[r] != -1 ==>
                  if r < s.workers then s.obj[r] == r else s.workers <= s.obj[r] < 2 * s.workers)
  {
    var s := tr[k];
    RunKeepsInv(tr, k);
    assert forall q :: Runner(s, q) && q < s.workers ==> s.owner[q] == q;
    forall o | s.workers <= o < 2 * s.workers
      ensures o in s.free <==> forall r :: Runner(s, r) ==> s.obj[r] != o
    {
      if o !in s.free { assert s.owner[o] != -1 && Runner(s, s.owner[o]) && s.obj[s.owner[o]] == o; }
    }
  }

  /** Wake requests are never negative, and they are used up only while the one runner that holds the object
      is committed to sleep and has left its thread as the token. */
  lemma WakeRequestsNeverNegative(tr: seq<State>, k: nat, o: int)
    requires IsRun(tr) && k < |tr| && Object(tr[k], o)
    ensures Shape(tr[k]) && tr[k].wake[o] >= 0
    ensures tr[k].wake[o] == 0 ==>
              exists r :: Runner(tr[k], r) && tr[k].obj[r] == o && Committed(tr[k].run[r]) && tr[k].token[o] == r
  {
    RunKeepsInv(tr, k);
    var s := tr[k];
    if s.wake[o] == 0 {
      var r := s.owner[o];
      assert Runner(s, r) && s.obj[r] == o;
    }
  }

  /** Whoever notifies finds the token of a thread: the step moves a counter. */
  lemma NotifyFindsToken(tr: seq<State>, k: nat)
    requires IsRun(tr) && k < |tr|
    ensures Shape(tr[k])
    ensures forall x :: Task(tr[k], x) && tr[k].enq[x].EWake? ==> WakesSomebody(tr[k], tr[k].enq[x].k)
    ensures forall b :: 0 <= b < |tr[k].cb| && tr[k].cb[b].CWake? ==> WakesSomebody(tr[k], tr[k].cb[b].k)
  {
    RunKeepsInv(tr, k);
    var s := tr[k];
    assert forall o :: Object(s, o) && s.token[o] != -1 ==>
                         WakeToken(s, o).counter == s.counter[s.token[o] := s.counter[s.token[o]] + 1];
  }

  ghost predicate WakesSomebody(s: State, o: nat) {
    exists r :: 0 <= r < |s.counter| && WakeToken(s, o).counter == s.counter[r := s.counter[r] + 1]
  }

  // ----- no lost wake-up

  /** No enqueue, removal or notification is under way. */
  ghost predicate Quiet(s: State) {
    && CountSettled(s)
    && (forall x :: Task(s, x) ==> s.enq[x] == EIdle || s.enq[x] == EDone)
    && (forall b :: 0 <= b < |s.cb| ==> s.cb[b] == CIdle)
  }

  ghost predicate HasTasks(s: State) { exists l :: Line(s, l) && s.lines[l] != [] }

  lemma SomethingToCount(s: State)
    requires Inv(s) && Quiet(s) && HasTasks(s)
    ensures s.num > 0 && !NotifierComing(s) && forall k: int :: !WakerComing(s, k)
  {
    SumOfBits(PushedBits(s));
    SumOfBits(PoppedBits(s));
    SumOfBits(ExtractedBits(s));
    SumNonNegative(Lengths(s));
    var l :| Line(s, l) && s.lines[l] != [];
    assert Lengths(s)[l] > 0;
  }

  /** No lost wake-up: while a line holds a task and nothing is under way, worker 0 is not blocked. */
  lemma NoLostWakeUp(tr: seq<State>, k: nat)
    requires IsRun(tr) && k < |tr| && tr[k].workers > 0 && Quiet(tr[k]) && HasTasks(tr[k])
    ensures Shape(tr[k])
    ensures tr[k].run[0] == RSleep ==> tr[k].counter[0] > tr[k].id[0]
    ensures forall c: Choice :: !c.stop && Line(tr[k], c.start) ==> RunnerEnabled(tr[k], 0, c)
  {
    RunKeepsInv(tr, k);
    ZeroAwake(tr[k]);
    forall c: Choice | !c.stop && Line(tr[k], c.start) ensures RunnerEnabled(tr[k], 0, c) { ZeroEnabled(tr[k], c); }
  }

  /** Where worker 0 can be in a quiet pool with tasks. */
  ghost predicate ZeroIsAwake(s: State)
    requires Shape(s)
  {
    && s.workers > 0 && s.num > 0 && Line(s, s.at[0]) && Object(s, s.obj[0]) && !Owning(s.run[0]) && s.run[0] != RPopped
    && (s.run[0] == RSub ==> s.wake[s.obj[0]] != 1)
    && (s.run[0] == RSleep ==> s.counter[0] > s.id[0])
  }

  lemma ZeroAwake(s: State)
    requires Inv(s) && Quiet(s) && HasTasks(s) && s.workers > 0
    ensures ZeroIsAwake(s)
  {
    SomethingToCount(s);
    ZeroHasRequest(s);
    assert SleeperOk(s, 0) && !WakerComing(s, 0);
  }

  lemma ZeroEnabled(s: State, c: Choice)
    requires Inv(s) && ZeroIsAwake(s) && !c.stop && Line(s, c.start)
    ensures RunnerEnabled(s, 0, c)
  {
  }

  // ----- worker 0 takes a task

  /** One of the lines that the scan of worker 0 still tries is line `l`. */
  ghost predicate Ahead(s: State, l: nat)
    requires Shape(s) && s.workers > 0
  {
    Line(s, s.at[0]) && Line(s, l) && s.scan[0] + Gap(s.at[0], l, |s.lines|) < 2 * |s.lines|
  }

  /** How many steps worker 0 may need to take a task, if line `l` has one and nobody else moves. It may have to finish
      a scan that is past that line. */
  ghost function Distance(s: State, l: nat): int
    requires Shape(s) && s.workers > 0
  {
    var n := |s.lines|;
    match s.run[0]
    case RPopped => 0
    case RScan => if Ahead(s, l) then 2 * n - s.scan[0]
        else 2 * n + 4 + if s.scan[0] < 2 * n then 2 * n - s.scan[0] else 0
    case RCheck => 2 * n + 1
    case RLoad => 2 * n + 2
    case RReset => 2 * n + 2
    case RLoop => 2 * n + 3
    case RSleep => 2 * n + 3
    case RSub => 2 * n + 3
    case RToken => 2 * n + 4
    case RPrep => 2 * n + 5
    case _ => 0
  }

  /** A step of worker 0 that nobody disturbs: it is not asked to stop, and no other thread holds a lock. */
  ghost predicate SoloStep(s: State, s': State) {
    && Shape(s) && s.workers > 0
    && exists c: Choice :: !c.stop && !c.locked && RunnerEnabled(s, 0, c) && s' == RunnerNext(s, 0, c)
  }

  ghost predicate SoloRun(tr: seq<State>) {
    tr != [] && forall i :: 0 <= i < |tr| - 1 ==> SoloStep(tr[i], tr[i + 1])
  }

  ghost predicate CanGoOn(s: State) { exists s' :: SoloStep(s, s') }

  /** Everything a solo run keeps until worker 0 has a task. */
  ghost predicate Waiting(s: State, l: nat) {
    Inv(s) && s.workers > 0 && Quiet(s) && Line(s, l) && s.lines[l] != [] && s.run[0] != RPopped
  }

  lemma DistanceBound(s: State, l: nat)
    requires Shape(s) && s.workers > 0 && Line(s, s.at[0]) && l < |s.lines|
    ensures 0 <= Distance(s, l) <= 3 * |s.lines| + 5
  {
  }

  /** The next step of a scan takes a task, or comes closer to line `l`. */
  lemma ScanGetsCloser(s: State, l: nat, c: Choice)
    requires Shape(s) && s.workers > 0 && Line(s, l) && s.lines[l] != [] && s.run[0] == RScan
    requires !c.stop && !c.locked && RunnerEnabled(s, 0, c)
    ensures var s' := RunnerNext(s, 0, c);
            Distance(s', l) < Distance(s, l) && (s'.run[0] != RPopped ==> s'.lines == s.lines)
  {
  }

  /** So does every other step. */
  lemma OtherGetsCloser(s: State, l: nat, c: Choice)
    requires Shape(s) && ZeroIsAwake(s) && Line(s, l) && s.run[0] != RScan
    requires !c.stop && !c.locked && RunnerEnabled(s, 0, c)
    ensures var s' := RunnerNext(s, 0, c);
            Distance(s', l) < Distance(s, l) && s'.run[0] != RPopped && s'.lines == s.lines
  {
  }

  lemma SoloStepKeeps(s: State, l: nat, c: Choice)
    requires Waiting(s, l) && !c.stop && !c.locked && RunnerEnabled(s, 0, c)
    ensures var s' := RunnerNext(s, 0, c);
            Distance(s', l) < Distance(s, l) && (s'.run[0] != RPopped ==> Waiting(s', l))
  {
    hide DeliveryInv, CountInv, OwnerInv, WakeInv, SleeperInv, AlarmInv;
    hide RunnerNext, Distance, ZeroIsAwake, RunnerEnabled;
    ZeroAwake(s);
    StepKeepsInv(s, RunnerStep(0, c));
    if s.run[0] == RScan { ScanGetsCloser(s, l, c); } else { OtherGetsCloser(s, l, c); }
  }

  /** Worker 0 has just taken a task. */
  predicate HasTask(s: State) { |s.run| > 0 && s.run[0] == RPopped }

  lemma {:induction false} SoloTakesTask(solo: seq<State>, l: nat)
    requires SoloRun(solo) && Waiting(solo[0], l) && Distance(solo[0], l) < |solo|
    ensures exists i :: 0 < i < |solo| && i <= Distance(solo[0], l) && HasTask(solo[i])
    decreases |solo|
  {
    hide DeliveryInv, CountInv, OwnerInv, WakeInv, SleeperInv, AlarmInv, Quiet, RunnerEnabled, RunnerNext, Distance;
    NotThere(solo[0], l);
    if |solo| > 1 {
      assert SoloStep(solo[0], solo[0 + 1]);
      var c: Choice :| !c.stop && !c.locked && RunnerEnabled(solo[0], 0, c) && solo[1] == RunnerNext(solo[0], 0, c);
      SoloStepKeeps(solo[0], l, c);
      if solo[1].run[0] == RPopped {
        assert HasTask(solo[1]);
      } else {
        var rest := solo[1..];
        forall i | 0 <= i < |rest| - 1 ensures SoloStep(rest[i], rest[i + 1]) {
          assert rest[i] == solo[i + 1] && SoloStep(solo[i + 1], solo[i + 1 + 1]);
        }
        SoloTakesTask(rest, l);
        var i :| 0 < i < |rest| && i <= Distance(rest[0], l) && HasTask(rest[i]);
        assert HasTask(solo[i + 1]);
      }
    }
  }

  lemma ZeroNotPopped(s: State)
    requires Inv(s) && Quiet(s) && HasTasks(s) && s.workers > 0
    ensures s.run[0] != RPopped && Line(s, s.at[0])
  {
    ZeroAwake(s);
  }

  lemma NotThere(s: State, l: nat)
    requires Waiting(s, l)
    ensures Distance(s, l) > 0
  {
    ZeroAwake(s);
  }

  /** In a quiet pool with a task, every run of worker 0 alone takes one: whatever line it scans from, and wherever
      in its loop it stands, with `n` lines it needs at most `3n + 5` steps, and until then it is not blocked. */
  lemma WorkerZeroTakesTask(tr: seq<State>, k: nat, solo: seq<State>)
    requires IsRun(tr) && k < |tr| && tr[k].workers > 0 && Quiet(tr[k]) && HasTasks(tr[k])
    requires SoloRun(solo) && solo[0] == tr[k]
    ensures |solo| > 3 * |tr[k].lines| + 5 ==> exists i :: 0 < i <= 3 * |tr[k].lines| + 5 && HasTask(solo[i])
    ensures (forall i :: 0 <= i < |solo| ==> !HasTask(solo[i])) ==> CanGoOn(solo[|solo| - 1])
  {
    hide DeliveryInv, CountInv, OwnerInv, WakeInv, SleeperInv, AlarmInv, Quiet, Distance, CanGoOn, IsRun, SoloStep;
    RunKeepsInv(tr, k);
    ZeroNotPopped(tr[k]);
    var l: nat :| Line(tr[k], l) && tr[k].lines[l] != [];
    DistanceBound(tr[k], l);
    if |solo| > 3 * |tr[k].lines| + 5 { SoloTakesTask(solo, l); }
    if forall i :: 0 <= i < |solo| ==> !HasTask(solo[i]) { SoloGoesOn(solo, l, |solo| - 1); }
  }

  lemma {:induction false} StillWaiting(solo: seq<State>, l: nat, i: nat)
    requires SoloRun(solo) && Waiting(solo[0], l) && i < |solo| && forall j :: 0 <= j <= i ==> !HasTask(solo[j])
    ensures Waiting(solo[i], l)
  {
    hide DeliveryInv, CountInv, OwnerInv, WakeInv, SleeperInv, AlarmInv, Quiet, RunnerEnabled, RunnerNext, Distance;
    if i > 0 {
      StillWaiting(solo, l, i - 1);
      assert SoloStep(solo[i - 1], solo[i - 1 + 1]);
      var c: Choice :| !c.stop && !c.locked && RunnerEnabled(solo[i - 1], 0, c)
          && solo[i] == RunnerNext(solo[i - 1], 0, c);
      SoloStepKeeps(solo[i - 1], l, c);
      assert !HasTask(solo[i]);
    }
  }

  lemma SoloGoesOn(solo: seq<State>, l: nat, i: nat)
    requires SoloRun(solo) && Waiting(solo[0], l) && i < |solo| && forall j :: 0 <= j <= i ==> !HasTask(solo[j])
    ensures CanGoOn(solo[i])
  {
    hide DeliveryInv, CountInv, WakeInv, AlarmInv, SleeperInv;
    StillWaiting(solo, l, i);
    hide SoloRun;
    var s, c := solo[i], Choice(false, false, 0);
    ZeroAwake(s);
    ZeroEnabled(s, c);
    hide RunnerEnabled, RunnerNext, Inv, Waiting;
    assert SoloStep(s, RunnerNext(s, 0, c));
  }

  // ----- the count can be negative

  /** One worker, two lines and one task. */
  ghost function OneTask(): (s: State)
    ensures Init(s) && |s.ext| == |s.enq| == 1 && |s.lines| == 2
  {
    State(1, [[], []], [-1], 0, [EIdle], [XIdle], [], seq(5, _ => 1), seq(5, _ => -1), [0], seq(1, i => 1 + i),
          [RLoop], [0], [0], [0], [0], [0], [-1], [0, -1, -1, -1, -1])
  }

  /** A task extracted between its push and its count makes the count negative. */
  lemma CountCanBeNegative() returns (tr: seq<State>)
    ensures IsRun(tr) && tr[|tr| - 1].num == -1
  {
    hide OneTask;
    var push, extract := Enqueue(0, 0), Extract(0, 0);
    var s0 := OneTask();
    var s1 := Next(s0, push);
    assert s1.wd[0] == 0;
    var s2 := Next(s1, extract);
    var s3 := Next(s2, extract);
    var s4 := Next(s3, extract);
    tr := [s0, s1, s2, s3, s4];
    assert Enabled(s0, push) && Enabled(s1, extract) && Enabled(s2, extract) && Enabled(s3, extract);
  }
}
