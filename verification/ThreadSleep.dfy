/** Going to sleep while other threads ask for a switch. The step system of the thread switch, with flows that call
    `sleep_helper`: read the sleep counter of their thread, look for a request, and wait until the counter moves. */
module ThreadSleep {
  import SW = ThreadSwitch
  import opened ThreadSwitchProof
  import opened ThreadSwitchTheorems

  /** Where a flow is in the call. */
  datatype SleepPc =
    | Awake
    | Prepared    // has read the counter; about to look for a request
    | Asleep      // found none; waits for the counter to move
    | Moving      // found one; handles it
    | AsleepAway  // waits, after a switch inside the call, for the counter of the thread it was on before

  /** `on` is the thread whose counter a flow has read and `id` what it read. */
  datatype State = State(sw: SW.State, pc: seq<SleepPc>, on: seq<int>, id: seq<nat>)

  ghost predicate Shape(s: State) {
    SW.Shape(s.sw) && |s.pc| == |s.on| == |s.id| == s.sw.n
  }

  ghost predicate Init(s: State) {
    Shape(s) && SW.Init(s.sw) && forall f :: 0 <= f < s.sw.n ==> s.pc[f] == Awake
  }

  /** A step of the switch protocol, the next step of a call on thread `t`, or a wake-up for another reason. */
  datatype Action = Switch(t: nat, x: int) | Sleep(t: nat) | OtherWakeUp(t: nat)

  /** Thread `t` runs a flow. */
  ghost predicate Runs(s: State, t: int)
    requires Shape(s)
  {
    SW.Tid(s.sw, t) && s.sw.tpc[t] == SW.Runs && SW.Tid(s.sw, s.sw.cur[t])
  }

  ghost predicate SleepEnabled(s: State, t: nat) {
    && Shape(s) && Runs(s, t)
    && var f := s.sw.cur[t];
       && s.sw.fpc[f] == SW.Idle
       && (s.pc[f] == Asleep || s.pc[f] == AsleepAway ==>
             SW.Tid(s.sw, s.on[f]) && s.sw.wakes[s.on[f]] != s.id[f])
  }

  ghost function SleepNext(s: State, t: nat): State
    requires SleepEnabled(s, t)
  {
    var f := s.sw.cur[t];
    match s.pc[f]
    case Awake => s.(pc := s.pc[f := Prepared], on := s.on[f := t], id := s.id[f := s.sw.wakes[t]])
    case Prepared =>
      if s.sw.req[t] == -1 then s.(pc := s.pc[f := Asleep])
      else s.(pc := s.pc[f := Moving], sw := SW.Accept(s.sw, t, SW.Idle))
    case Moving => s.(pc := s.pc[f := AsleepAway])
    case Asleep => s.(pc := s.pc[f := Awake])
    case AsleepAway => s.(pc := s.pc[f := Awake])
  }

  /** A flow inside the call takes no other step. */
  ghost predicate Enabled(s: State, a: Action) {
    && Shape(s)
    && match a
       case Switch(t, _) => SW.Enabled(s.sw, t) && (s.sw.tpc[t] == SW.Runs ==> s.pc[s.sw.cur[t]] == Awake)
       case Sleep(t) => SleepEnabled(s, t)
       case OtherWakeUp(t) => t < s.sw.n
  }

  ghost function Next(s: State, a: Action): State
    requires Enabled(s, a)
  {
    match a
    case Switch(t, x) => s.(sw := SW.Next(s.sw, t, x))
    case Sleep(t) => SleepNext(s, t)
    case OtherWakeUp(t) => s.(sw := s.sw.(wakes := s.sw.wakes[t := s.sw.wakes[t] + 1]))
  }

  ghost predicate Step(s: State, s': State) {
    exists a: Action :: Enabled(s, a) && s' == Next(s, a)
  }

  ghost predicate IsRun(tr: seq<State>) {
    && tr != [] && Init(tr[0])
    && forall i :: 0 <= i < |tr| - 1 ==> Step(tr[i], tr[i + 1])
  }

  /** The run that goes on with step `a`. */
  ghost function Extended(tr: seq<State>, a: Action): (tr': seq<State>)
    requires IsRun(tr) && Enabled(tr[|tr| - 1], a)
    ensures IsRun(tr') && tr' == tr + [Next(tr[|tr| - 1], a)]
  {
    ExtendedIsRun(tr, a);
    tr + [Next(tr[|tr| - 1], a)]
  }

  lemma ExtendedIsRun(tr: seq<State>, a: Action)
    requires IsRun(tr) && Enabled(tr[|tr| - 1], a)
    ensures IsRun(tr + [Next(tr[|tr| - 1], a)])
  {
    hide Init, Enabled, Next;
    var s := tr[|tr| - 1];
    assert Step(s, Next(s, a));
    assert forall i :: 0 <= i < |tr| - 1 ==> Step(tr[i], tr[i + 1]);
  }

  // ----- the invariant

  /** A flow that has read the counter, and did not move since, runs on that thread. */
  ghost predicate Pinned(s: State, f: int)
    requires Shape(s) && SW.Tid(s.sw, f)
  {
    var t := s.on[f];
    Runs(s, t) && s.sw.cur[t] == f && s.id[f] <= s.sw.wakes[t]
  }

  /** If it sleeps while a switch is requested, the counter has moved or the originator is about to move it. */
  ghost predicate Alarmed(s: State, f: int)
    requires Shape(s) && SW.Tid(s.sw, f) && Pinned(s, f)
  {
    var t := s.on[f];
    s.sw.req[t] != -1 ==>
      SW.Tid(s.sw, s.sw.req[t]) && (s.sw.tpc[s.sw.req[t]] == SW.OWake || s.sw.wakes[t] > s.id[f])
  }

  ghost predicate FlowInv(s: State, f: int)
    requires Shape(s) && SW.Tid(s.sw, f)
  {
    && (s.pc[f] == Prepared || s.pc[f] == Asleep ==> Pinned(s, f))
    && (s.pc[f] == Asleep ==> Alarmed(s, f))
  }

  ghost predicate Inv(s: State) {
    Shape(s) && SW.Inv(s.sw) && forall f {:trigger FlowInv(s, f)} :: SW.Tid(s.sw, f) ==> FlowInv(s, f)
  }

  /** What a step of thread `u` leaves to another thread `t`. */
  ghost predicate LeavesThread(s: SW.State, s': SW.State, u: nat, t: int)
    requires SW.Shape(s) && SW.Shape(s') && s'.n == s.n && u < s.n && SW.Tid(s, t)
  {
    && s'.tpc[t] == s.tpc[t] && s'.cur[t] == s.cur[t] && s'.wakes[t] >= s.wakes[t]
    && (s'.req[t] == s.req[t] || s'.req[t] == -1 || (s'.req[t] == u && s'.tpc[u] == SW.OWake))
    && (forall v :: SW.Tid(s, v) && v != u ==> s'.tpc[v] == s.tpc[v])
  }

  lemma OthersLeaveThread(s: SW.State, u: nat, x: int, t: int)
    requires SW.Enabled(s, u) && SW.Tid(s, t) && t != u
    ensures var s' := SW.Next(s, u, x); SW.Shape(s') && s'.n == s.n && LeavesThread(s, s', u, t)
  {
    hide SW.BodyNext, LeavesThread;
    if s.tpc[u] != SW.Runs { BodyLeavesThread(s, u, t); }
    else if s.fpc[s.cur[u]] == SW.Trying { StartLeavesThread(s, u, t); }
    else { FlowLeavesThread(s, u, x, t); }
  }

  lemma BodyLeavesThread(s: SW.State, u: nat, t: int)
    requires SW.Shape(s) && u < s.n && SW.BodyEnabled(s, u) && SW.Tid(s, t) && t != u
    ensures var s' := SW.BodyNext(s, u); SW.Shape(s') && s'.n == s.n && LeavesThread(s, s', u, t)
  {
  }

  lemma StartLeavesThread(s: SW.State, u: nat, t: int)
    requires SW.Enabled(s, u) && s.tpc[u] == SW.Runs && s.fpc[s.cur[u]] == SW.Trying && SW.Tid(s, t) && t != u
    ensures var s' := SW.TryStart(s, u); SW.Shape(s') && s'.n == s.n && LeavesThread(s, s', u, t)
  {
  }

  lemma FlowLeavesThread(s: SW.State, u: nat, x: int, t: int)
    requires SW.Enabled(s, u) && s.tpc[u] == SW.Runs && s.fpc[s.cur[u]] != SW.Trying && SW.Tid(s, t) && t != u
    ensures var s' := SW.FlowNext(s, u, x); SW.Shape(s') && s'.n == s.n && LeavesThread(s, s', u, t)
  {
  }

  /** Whoever is named by a request and about to wake somebody up wakes that thread up. */
  lemma WakesWhomItAsks(s: SW.State, t: int, x: int)
    requires SW.Inv(s) && SW.Tid(s, t) && s.req[t] != -1
    ensures SW.Tid(s, s.req[t]) && s.req[t] != t
    ensures s.tpc[s.req[t]] == SW.OWake ==>
              SW.Enabled(s, s.req[t]) && SW.Next(s, s.req[t], x).wakes[t] == s.wakes[t] + 1
  {
    assert SW.Ok(s, t);
    assert SW.Ok(s, s.mate[t]);
  }

  lemma SwitchKeepsFlow(s: State, u: nat, x: int, f: int)
    requires Inv(s) && Enabled(s, Switch(u, x)) && SW.Tid(s.sw, f) && SW.Inv(SW.Next(s.sw, u, x))
    requires SW.Next(s.sw, u, x).n == s.sw.n
    ensures FlowInv(Next(s, Switch(u, x)), f)
  {
    assert FlowInv(s, f);
    if s.pc[f] == Prepared || s.pc[f] == Asleep {
      var t := s.on[f];
      OthersLeaveThread(s.sw, u, x, t);
      if s.pc[f] == Asleep && s.sw.req[t] != -1 { WakesWhomItAsks(s.sw, t, x); }
      hide SW.Ok, SW.Next, SW.Enabled;
    }
  }

  lemma AcceptKeepsFlow(s: State, u: nat, f: int)
    requires Inv(s) && SleepEnabled(s, u) && SW.Tid(s.sw, f) && f != s.sw.cur[u]
    requires s.pc[s.sw.cur[u]] == Prepared && s.sw.req[u] != -1 && SW.Inv(SW.Accept(s.sw, u, SW.Idle))
    ensures Shape(SleepNext(s, u)) && FlowInv(SleepNext(s, u), f)
  {
    assert FlowInv(s, f);
    if s.pc[f] == Prepared || s.pc[f] == Asleep {
      var t := s.on[f];
      assert t != u;
      if s.pc[f] == Asleep && s.sw.req[t] != -1 { WakesWhomItAsks(s.sw, t, -1); }
    }
  }

  /** A flow runs on one thread. */
  lemma RunsOnce(s: SW.State, t: int, u: int)
    requires SW.Inv(s) && SW.Tid(s, t) && SW.Tid(s, u) && SW.Tid(s, s.cur[t])
    requires s.tpc[t] == SW.Runs == s.tpc[u] && s.cur[t] == s.cur[u]
    ensures t == u
  {
    PlaceHoldsResident(s, s.cur[t], OnThread(t));
    PlaceHoldsResident(s, s.cur[t], OnThread(u));
  }

  lemma SleepKeepsFlow(s: State, u: nat, f: int)
    requires Inv(s) && SleepEnabled(s, u) && SW.Tid(s.sw, f) && SW.Inv(SleepNext(s, u).sw)
    ensures Shape(SleepNext(s, u)) && FlowInv(SleepNext(s, u), f)
  {
    assert FlowInv(s, f);
    var g := s.sw.cur[u];
    hide SW.Ok;
    if s.pc[g] == Prepared && s.sw.req[u] != -1 {
      if f != g { AcceptKeepsFlow(s, u, f); }
    } else {
      assert SleepNext(s, u).sw == s.sw;
      if f == g && s.pc[g] == Prepared { RunsOnce(s.sw, s.on[g], u); }
    }
  }

  lemma WakeUpKeepsInv(s: State, t: nat)
    requires Inv(s) && Enabled(s, OtherWakeUp(t))
    ensures Inv(Next(s, OtherWakeUp(t)))
  {
    var s' := Next(s, OtherWakeUp(t));
    forall u {:trigger SW.Ok(s'.sw, u)} | SW.Tid(s'.sw, u) ensures SW.Ok(s'.sw, u) { assert SW.Ok(s.sw, u); }
    forall f {:trigger FlowInv(s', f)} | SW.Tid(s'.sw, f) ensures FlowInv(s', f) { assert FlowInv(s, f); }
  }

  lemma SwitchKeepsInv(s: State, t: nat, x: int)
    requires Inv(s) && Enabled(s, Switch(t, x))
    ensures Inv(Next(s, Switch(t, x)))
  {
    StepKeepsInv(s.sw, t, x);
    hide SW.Ok, SW.Next, FlowInv, SW.ResidentInv;
    var s' := Next(s, Switch(t, x));
    forall f {:trigger FlowInv(s', f)} | SW.Tid(s'.sw, f) ensures FlowInv(s', f) { SwitchKeepsFlow(s, t, x, f); }
  }

  lemma SleepKeepsInv(s: State, t: nat)
    requires Inv(s) && Enabled(s, Sleep(t))
    ensures Inv(Next(s, Sleep(t)))
  {
    var g := s.sw.cur[t];
    if s.pc[g] == Prepared && s.sw.req[t] != -1 { AcceptKeeps(s.sw, t, SW.Idle); }
    hide SW.Ok, FlowInv, SW.ResidentInv;
    var s' := SleepNext(s, t);
    forall f {:trigger FlowInv(s', f)} | SW.Tid(s'.sw, f) ensures FlowInv(s', f) { SleepKeepsFlow(s, t, f); }
  }

  lemma AllAwake(s: State)
    requires Init(s)
    ensures Inv(s)
  {
    InitHolds(s.sw);
  }

  lemma {:induction false} SleepRunKeepsInv(tr: seq<State>, k: nat)
    requires IsRun(tr) && k < |tr|
    ensures Inv(tr[k])
  {
    hide Inv, Init, Enabled, Next;
    if k == 0 {
      AllAwake(tr[0]);
    } else {
      SleepRunKeepsInv(tr, k - 1);
      assert Step(tr[k - 1], tr[k - 1 + 1]);
      var a: Action :| Enabled(tr[k - 1], a) && tr[k] == Next(tr[k - 1], a);
      match a
      case Switch(t, x) => SwitchKeepsInv(tr[k - 1], t, x);
      case Sleep(t) => SleepKeepsInv(tr[k - 1], t);
      case OtherWakeUp(t) => WakeUpKeepsInv(tr[k - 1], t);
    }
  }

  // ----- no switch request is slept through

  /** Thread `t` is asked to switch, by an originator that has sent its wake-up. */
  ghost predicate Asked(s: State, t: int)
    requires Shape(s) && SW.Tid(s.sw, t)
  {
    && s.sw.req[t] != -1
    && SW.Tid(s.sw, s.sw.req[t]) && (s.sw.tpc[s.sw.req[t]] == SW.OWait || s.sw.tpc[s.sw.req[t]] == SW.OEnd)
  }

  /** A flow that went to sleep without a switch inside the call does not sleep through a request: it runs on the thread
      whose counter it waits on, and once that thread is asked its wait is over. */
  lemma RequestEndsSleep(tr: seq<State>, k: nat, f: int)
    requires IsRun(tr) && k < |tr| && Shape(tr[k]) && SW.Tid(tr[k].sw, f) && tr[k].pc[f] == Asleep
    ensures var s := tr[k]; var t := s.on[f];
            && Runs(s, t) && s.sw.cur[t] == f
            && (Asked(s, t) ==> s.sw.wakes[t] > s.id[f])
  {
    SleepRunKeepsInv(tr, k);
    assert FlowInv(tr[k], f);
  }

  /** Flow `f` sleeps in phase `p` on a thread that is asked to switch. */
  ghost predicate SleepsAsked(s: State, f: int, t: int, p: SleepPc) {
    Shape(s) && SW.Tid(s.sw, f) && s.pc[f] == p && Runs(s, t) && s.sw.cur[t] == f && Asked(s, t)
  }

  /** The counter it waits on has moved. */
  ghost predicate WaitIsOver(s: State, f: int)
    requires Shape(s) && SW.Tid(s.sw, f)
  {
    SW.Tid(s.sw, s.on[f]) && s.sw.wakes[s.on[f]] != s.id[f]
  }

  ghost predicate NeverSleptThrough(p: SleepPc) {
    forall tr: seq<State>, k: nat, f: int, t: int ::
      IsRun(tr) && k < |tr| && SleepsAsked(tr[k], f, t, p) ==> WaitIsOver(tr[k], f)
  }

  /** A request is never slept through if and only if no switch happened inside the call. */
  lemma SleptThroughIff(p: SleepPc)
    requires p == Asleep || p == AsleepAway
    ensures NeverSleptThrough(p) <==> p == Asleep
  {
    if p == Asleep {
      forall tr: seq<State>, k: nat, f: int, t: int | IsRun(tr) && k < |tr| && SleepsAsked(tr[k], f, t, p)
        ensures WaitIsOver(tr[k], f)
      {
        SleepRunKeepsInv(tr, k);
        RequestEndsSleep(tr, k, f);
        RunsOnce(tr[k].sw, tr[k].on[f], t);
      }
    } else {
      var tr := SleptThroughHappens();
      assert SleepsAsked(tr[|tr| - 1], 0, 1, p) && !WaitIsOver(tr[|tr| - 1], 0);
    }
  }

  // ----- a request slept through

  /** What a thread and a flow look like. */
  datatype ThreadView = TV(tpc: SW.ThreadPc, cur: int, req: int, busy: bool, mail: int, wakes: nat, next: int,
                           peer: int, own: int)
  datatype FlowView = FV(fpc: SW.FlowPc, dest: int, done: bool, pc: SleepPc, on: int, id: nat)

  ghost function ViewThread(s: State, t: int): ThreadView
    requires Shape(s) && SW.Tid(s.sw, t)
  {
    TV(s.sw.tpc[t], s.sw.cur[t], s.sw.req[t], s.sw.busy[t], s.sw.mail[t], s.sw.wakes[t], s.sw.next[t], s.sw.peer[t],
       s.sw.own[t])
  }

  ghost function ViewFlow(s: State, f: int): FlowView
    requires Shape(s) && SW.Tid(s.sw, f)
  {
    FV(s.sw.fpc[f], s.sw.dest[f], s.sw.done[f], s.pc[f], s.on[f], s.id[f])
  }

  /** Two threads and two flows. */
  ghost predicate Looks(s: State, t0: ThreadView, t1: ThreadView, f0: FlowView, f1: FlowView) {
    && Shape(s) && s.sw.n == 2
    && ViewThread(s, 0) == t0 && ViewThread(s, 1) == t1 && ViewFlow(s, 0) == f0 && ViewFlow(s, 1) == f1
  }

  const T0 := TV(SW.Runs, 0, -1, false, -1, 0, 0, 0, 0)
  const T1 := TV(SW.Runs, 1, -1, false, -1, 0, 0, 0, 0)
  const F0 := FV(SW.Idle, 0, false, Awake, 0, 0)

  ghost function Start(): (s: State)
    ensures Init(s) && Looks(s, T0, T1, F0, F0)
  {
    State(SW.State(2, [-1, -1], [false, false], [-1, -1], [0, 0], [SW.Runs, SW.Runs], [0, 1], [0, 0], [0, 0], [0, 0],
                   [SW.Idle, SW.Idle], [0, 0], [false, false], [0, 1], [0, 1], [-1, -1], [false, false],
                   [-1, -1], [-1, -1], 0, 0),
          [Awake, Awake], [0, 0], [0, 0])
  }

  /** Flow 1 asks thread 0 for a switch, and wakes it up, before flow 0 reads the counter. */
  lemma AskFirst() returns (tr: seq<State>)
    ensures IsRun(tr)
    ensures Looks(tr[|tr| - 1],
                  TV(SW.Runs, 0, 1, true, 1, 1, 0, 0, 0), TV(SW.OWait, 1, -1, true, -1, 0, 0, 0, 1),
                  F0, FV(SW.WaitDone, 0, false, Awake, 0, 0))
  {
    hide IsRun, Extended, Start;
    tr := StartRuns();
    tr := Extended(tr, Switch(1, 0));
    assert Looks(tr[|tr| - 1], T0, T1, F0, F0.(fpc := SW.Trying));
    tr := Extended(tr, Switch(1, -1));
    assert Looks(tr[|tr| - 1], T0.(busy := true), TV(SW.OMail, 1, -1, true, -1, 0, 0, 0, 1), F0,
                 F0.(fpc := SW.WaitDone));
    tr := Extended(tr, Switch(1, -1));
    assert Looks(tr[|tr| - 1], T0.(busy := true, mail := 1), TV(SW.OReq, 1, -1, true, -1, 0, 0, 0, 1), F0,
                 F0.(fpc := SW.WaitDone));
    tr := Extended(tr, Switch(1, -1));
    assert Looks(tr[|tr| - 1], T0.(busy := true, mail := 1, req := 1), TV(SW.OWake, 1, -1, true, -1, 0, 0, 0, 1), F0,
                 F0.(fpc := SW.WaitDone));
    tr := Extended(tr, Switch(1, -1));
  }

  lemma StartRuns() returns (tr: seq<State>)
    ensures IsRun(tr) && Looks(tr[|tr| - 1], T0, T1, F0, F0)
  {
    tr := [Start()];
  }

  /** Flow 0 reads the counter, finds the request, and goes to thread 1. */
  lemma HandleInside() returns (tr: seq<State>)
    ensures IsRun(tr)
    ensures Looks(tr[|tr| - 1],
                  TV(SW.Runs, 1, 1, true, -1, 1, 1, 1, 0), TV(SW.OWait, 1, -1, true, 0, 0, 0, 0, 1),
                  FV(SW.Idle, 0, false, Moving, 0, 1), FV(SW.WaitDone, 0, false, Awake, 0, 0))
  {
    hide IsRun, Extended;
    tr := AskFirst();
    var t0, t1, f1 := TV(SW.Runs, 0, 1, true, 1, 1, 0, 0, 0), TV(SW.OWait, 1, -1, true, -1, 0, 0, 0, 1),
                      FV(SW.WaitDone, 0, false, Awake, 0, 0);
    tr := Extended(tr, Sleep(0));
    assert Looks(tr[|tr| - 1], t0, t1, F0.(pc := Prepared, id := 1), f1);
    tr := Extended(tr, Sleep(0));
    assert Looks(tr[|tr| - 1], t0.(tpc := SW.TRead, peer := 1), t1, F0.(pc := Moving, id := 1), f1);
    tr := Extended(tr, Switch(0, -1));
    assert Looks(tr[|tr| - 1], t0.(tpc := SW.TClear, peer := 1, next := 1), t1, F0.(pc := Moving, id := 1), f1);
    tr := Extended(tr, Switch(0, -1));
    assert Looks(tr[|tr| - 1], t0.(tpc := SW.TPost, peer := 1, next := 1, mail := -1), t1,
                 F0.(pc := Moving, id := 1), f1);
    tr := Extended(tr, Switch(0, -1));
  }

  /** There it waits on the counter of thread 0; flow 1 returns from its switch. */
  lemma SleepAway() returns (tr: seq<State>)
    ensures IsRun(tr)
    ensures Looks(tr[|tr| - 1],
                  TV(SW.Runs, 1, -1, false, -1, 1, 1, 1, 0), TV(SW.Runs, 0, -1, false, -1, 0, 0, 0, 1),
                  FV(SW.Idle, 0, false, AsleepAway, 0, 1), F0)
  {
    hide IsRun, Extended;
    tr := HandleInside();
    var t0, t1 := TV(SW.Runs, 1, 1, true, -1, 1, 1, 1, 0), TV(SW.OWait, 1, -1, true, 0, 0, 0, 0, 1);
    var f0, f1 := FV(SW.Idle, 0, false, Moving, 0, 1), FV(SW.WaitDone, 0, false, Awake, 0, 0);
    tr := Extended(tr, Switch(1, -1));
    assert Looks(tr[|tr| - 1], t0, t1.(tpc := SW.OEnd, cur := 0), f0, f1);
    tr := Extended(tr, Switch(1, -1));
    t0, t1 := t0.(req := -1, busy := false), t1.(tpc := SW.ODone, cur := 0, busy := false, mail := -1);
    assert Looks(tr[|tr| - 1], t0, t1, f0, f1);
    tr := Extended(tr, Switch(1, -1));
    assert Looks(tr[|tr| - 1], t0, t1.(tpc := SW.Runs), f0, f1.(done := true));
    tr := Extended(tr, Sleep(1));
    assert Looks(tr[|tr| - 1], t0, t1.(tpc := SW.Runs), f0.(pc := AsleepAway), f1.(done := true));
    tr := Extended(tr, Switch(0, -1));
  }

  /** Nobody can move, unless somebody wakes a thread up for another reason. */
  ghost predicate Stuck(s: State) { forall a: Action :: !a.OtherWakeUp? ==> !Enabled(s, a) }

  /** Flow 1 now asks thread 1 for a switch and wakes it up. Flow 0 sleeps through that, and both wait for ever. */
  lemma SleptThroughHappens() returns (tr: seq<State>)
    ensures IsRun(tr) && SleepsAsked(tr[|tr| - 1], 0, 1, AsleepAway) && !WaitIsOver(tr[|tr| - 1], 0)
    ensures Stuck(tr[|tr| - 1])
  {
    hide IsRun, Extended;
    tr := SleepAway();
    var t0, t1 := TV(SW.Runs, 1, -1, false, -1, 1, 1, 1, 0), TV(SW.Runs, 0, -1, false, -1, 0, 0, 0, 1);
    var f0, f1 := FV(SW.Idle, 0, false, AsleepAway, 0, 1), F0.(dest := 1);
    tr := Extended(tr, Switch(0, 1));
    assert Looks(tr[|tr| - 1], t0, t1, f0, f1.(fpc := SW.Trying));
    tr := Extended(tr, Switch(0, -1));
    t0, t1, f1 := t0.(tpc := SW.OMail, busy := true, own := 1), t1.(busy := true), f1.(fpc := SW.WaitDone);
    assert Looks(tr[|tr| - 1], t0, t1, f0, f1);
    tr := Extended(tr, Switch(0, -1));
    assert Looks(tr[|tr| - 1], t0.(tpc := SW.OReq), t1.(mail := 1), f0, f1);
    tr := Extended(tr, Switch(0, -1));
    assert Looks(tr[|tr| - 1], t0.(tpc := SW.OWake), t1.(mail := 1, req := 0), f0, f1);
    tr := Extended(tr, Switch(0, -1));
    assert Looks(tr[|tr| - 1], t0.(tpc := SW.OWait), t1.(mail := 1, req := 0, wakes := 1), f0, f1);
  }
}
