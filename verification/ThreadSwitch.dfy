/** The thread-switch ("inversion") protocol as a step system over any number of OS threads.

    Threads and control flows are separate identities, both numbered below `n`. A thread runs a flow, or the
    coroutine body that `callcc` started on behalf of a suspended flow: the originator body of `switch_to`
    or the target body of `requested_switch_with`. A mutex-protected section and every other atomic
    operation is one step, a spin-wait is a guard. */
module ThreadSwitch {

  /** What a thread executes. */
  datatype ThreadPc =
    | Runs     // the flow `cur`
    | OMail    // switch_to: about to store its continuation `cur` in the target's mailbox
    | OReq     // about to publish the request
    | OWake    // about to wake the target up
    | OWait    // waits for a continuation in its own mailbox
    | OEnd     // has read `cur` from its mailbox, about to end the switch
    | ODone    // about to set `done` and jump to `cur`
    | TRead    // requested_switch_with: about to read its mailbox; `cur` is the captured continuation
    | TClear   // has read `next`, about to clear its mailbox
    | TPost    // about to store `cur` in the originator's mailbox and jump to `next`

  /** Where a flow stands; `dest` is the thread it wants to be on. */
  datatype FlowPc =
    | Idle       // user code; may reach a checkpoint, or revert to a thread
    | Trying     // do_start_switch: about to try to start the switch
    | Checking   // could not start; about to look for a request
    | After      // about to compare the current thread with `dest`
    | WaitDone   // suspended in `switch_to`, or resumed and waiting for `done`

  /** `req`, `busy`, `mail` and `wakes` are `should_switch_with_`, `is_currently_switching_`, `switching_to_`
      and `sleeping_counter_` of each thread (-1 for null). `cur`, `next`, `peer` and `own` are the locals of
      the body a thread executes, `own` being the flow whose `switch_to` it executes. The last eight fields
      are history: the resident flow of each thread and its inverse, changed only when a switch ends; the
      partner of a thread in a switch and whether it leads it; the thread that executes a flow's `switch_to`
      body, and the thread a flow handed itself to; and how many switches were completed and requests
      handled. */
  datatype State = State(n: nat,
                         req: seq<int>, busy: seq<bool>, mail: seq<int>, wakes: seq<nat>,
                         tpc: seq<ThreadPc>, cur: seq<int>, next: seq<int>, peer: seq<int>, own: seq<int>,
                         fpc: seq<FlowPc>, dest: seq<int>, done: seq<bool>,
                         res: seq<int>, host: seq<int>, mate: seq<int>, lead: seq<bool>,
                         agent: seq<int>, handed: seq<int>, switches: nat, accepts: nat)

  ghost predicate Shape(s: State) {
    && |s.req| == |s.busy| == |s.mail| == |s.wakes| == s.n
    && |s.tpc| == |s.cur| == |s.next| == |s.peer| == |s.own| == s.n
    && |s.fpc| == |s.dest| == |s.done| == s.n
    && |s.res| == |s.host| == |s.mate| == |s.lead| == |s.agent| == |s.handed| == s.n
  }

  predicate Tid(s: State, x: int) { 0 <= x < s.n }

  /** Any flow may start on any thread. */
  ghost predicate Init(s: State) {
    && Shape(s)
    && (forall t :: 0 <= t < s.n ==> s.req[t] == -1 && !s.busy[t] && s.mail[t] == -1 && s.tpc[t] == Runs)
    && (forall t :: 0 <= t < s.n ==> Tid(s, s.cur[t]) && s.res[t] == s.cur[t] && s.host[s.cur[t]] == t)
    && (forall f :: 0 <= f < s.n ==> Tid(s, s.host[f]) && s.res[s.host[f]] == f)
    && (forall f :: 0 <= f < s.n ==> s.fpc[f] == Idle && !s.done[f] && s.agent[f] == -1)
    && (forall t :: 0 <= t < s.n ==> s.mate[t] == -1)
    && s.switches == 0 && s.accepts == 0
  }

  // ----- steps of a flow that runs on thread `t`

  function SetFlow(s: State, f: int, p: FlowPc): State
    requires 0 <= f < |s.fpc|
  { s.(fpc := s.fpc[f := p]) }

  /** `thread_snapshot::revert` towards thread `x`. */
  ghost function Revert(s: State, t: nat, x: nat): State
    requires Shape(s) && t < s.n && x < s.n && Tid(s, s.cur[t])
  {
    if x == t then s else SetFlow(s, s.cur[t], Trying).(dest := s.dest[s.cur[t] := x])
  }

  /** The check of a checkpoint finds a request: `requested_switch_with` captures the flow. */
  ghost function Accept(s: State, t: nat, p: FlowPc): State
    requires Shape(s) && t < s.n && Tid(s, s.cur[t])
  {
    SetFlow(s, s.cur[t], p).(tpc := s.tpc[t := TRead], peer := s.peer[t := s.req[t]],
                             handed := s.handed[s.cur[t] := s.req[t]], accepts := s.accepts + 1)
  }

  /** `try_start_switch`. Should the flow be on the desired thread already, the flag stays set. */
  ghost function TryStart(s: State, t: nat): State
    requires Shape(s) && t < s.n && Tid(s, s.cur[t]) && Tid(s, s.dest[s.cur[t]])
  {
    var f, x := s.cur[t], s.dest[s.cur[t]];
    if s.busy[t] || s.busy[x] then SetFlow(s, f, Checking)
    else if x == t then SetFlow(s, f, Idle).(busy := s.busy[t := true])
    else
      SetFlow(s, f, WaitDone).(busy := s.busy[t := true][x := true], tpc := s.tpc[t := OMail],
                               peer := s.peer[t := x], own := s.own[t := f], agent := s.agent[f := t],
                               mate := s.mate[t := x][x := t], lead := s.lead[t := true][x := false])
  }

  ghost predicate FlowEnabled(s: State, t: nat)
    requires Shape(s) && t < s.n
  {
    && Tid(s, s.cur[t])
    && var f := s.cur[t];
       match s.fpc[f]
       case Idle => true
       case Trying => Tid(s, s.dest[f])
       case Checking => true
       case After => true
       case WaitDone => s.done[f]
  }

  /** `x` is what an idle flow does: revert to thread `x`, or reach a checkpoint if there is no such thread. */
  ghost function FlowNext(s: State, t: nat, x: int): State
    requires Shape(s) && t < s.n && FlowEnabled(s, t)
  {
    var f := s.cur[t];
    match s.fpc[f]
    case Idle => if Tid(s, x) then Revert(s, t, x) else if s.req[t] == -1 then s else Accept(s, t, Idle)
    case Trying => TryStart(s, t)
    case Checking => if s.req[t] == -1 then SetFlow(s, f, After) else Accept(s, t, After)
    case After => SetFlow(s, f, if s.dest[f] == t then Idle else Trying)
    case WaitDone => SetFlow(s, f, Idle).(done := s.done[f := false])
  }

  // ----- steps of a coroutine body on thread `t`

  ghost predicate BodyEnabled(s: State, t: nat)
    requires Shape(s) && t < s.n
  {
    match s.tpc[t]
    case Runs => false
    case OWait => s.mail[t] != -1
    case ODone => Tid(s, s.own[t])
    case TRead => true
    case TClear => true
    case OEnd => Tid(s, s.peer[t]) && Tid(s, s.cur[t]) && Tid(s, s.own[t])
    case _ => Tid(s, s.peer[t])
  }

  /** `end_switch`; here the two residents change places. */
  ghost function EndSwitch(s: State, t: nat): State
    requires Shape(s) && t < s.n && Tid(s, s.peer[t]) && Tid(s, s.cur[t]) && Tid(s, s.own[t])
  {
    var x := s.peer[t];
    s.(mail := s.mail[t := -1], busy := s.busy[t := false][x := false], req := s.req[x := -1],
       tpc := s.tpc[t := ODone], mate := s.mate[t := -1][x := -1],
       res := s.res[t := s.cur[t]][x := s.own[t]], host := s.host[s.cur[t] := t][s.own[t] := x],
       switches := s.switches + 1)
  }

  ghost function BodyNext(s: State, t: nat): State
    requires Shape(s) && t < s.n && BodyEnabled(s, t)
  {
    match s.tpc[t]
    case OMail => s.(mail := s.mail[s.peer[t] := s.cur[t]], tpc := s.tpc[t := OReq])
    case OReq => s.(req := s.req[s.peer[t] := t], tpc := s.tpc[t := OWake])
    case OWake => s.(wakes := s.wakes[s.peer[t] := s.wakes[s.peer[t]] + 1], tpc := s.tpc[t := OWait])
    case OWait => s.(cur := s.cur[t := s.mail[t]], tpc := s.tpc[t := OEnd])
    case OEnd => EndSwitch(s, t)
    case ODone =>
      s.(done := s.done[s.own[t] := true], agent := s.agent[s.own[t] := -1], tpc := s.tpc[t := Runs])
    case TRead => s.(next := s.next[t := s.mail[t]], tpc := s.tpc[t := TClear])
    case TClear => s.(mail := s.mail[t := -1], tpc := s.tpc[t := TPost])
    case TPost =>
      s.(mail := s.mail[s.peer[t] := s.cur[t]], cur := s.cur[t := s.next[t]], tpc := s.tpc[t := Runs])
  }

  ghost predicate Enabled(s: State, t: nat) {
    Shape(s) && t < s.n && if s.tpc[t] == Runs then FlowEnabled(s, t) else BodyEnabled(s, t)
  }

  ghost function Next(s: State, t: nat, x: int): State
    requires Enabled(s, t)
  {
    if s.tpc[t] == Runs then FlowNext(s, t, x) else BodyNext(s, t)
  }

  ghost predicate Step(s: State, s': State) {
    exists t: nat, x: int :: Enabled(s, t) && s' == Next(s, t, x)
  }

  ghost predicate IsPath(tr: seq<State>) {
    tr != [] && forall i :: 0 <= i < |tr| - 1 ==> Step(tr[i], tr[i + 1])
  }

  ghost predicate IsRun(tr: seq<State>) {
    IsPath(tr) && Init(tr[0])
  }

  // ----- the invariant

  predicate OBody(p: ThreadPc) { p.OMail? || p.OReq? || p.OWake? || p.OWait? || p.OEnd? || p.ODone? }

  /** Residents and hosts are inverse permutations. */
  ghost predicate ResidentInv(s: State)
    requires Shape(s)
  {
    && (forall t :: 0 <= t < s.n ==> Tid(s, s.res[t]) && s.host[s.res[t]] == t)
    && (forall f :: 0 <= f < s.n ==> Tid(s, s.host[f]) && s.res[s.host[f]] == f)
  }

  /** The resident of `x` has been captured by `requested_switch_with`, on behalf of thread `o`. */
  ghost predicate HandedTo(s: State, x: int, o: int)
    requires Shape(s) && Tid(s, x) && Tid(s, s.res[x])
  {
    (s.fpc[s.res[x]] == Idle || s.fpc[s.res[x]] == After) && s.handed[s.res[x]] == o
  }

  /** Phase of a switch in which the target has not noticed the request. */
  ghost predicate TargetUnaware(s: State, x: int)
    requires Shape(s) && Tid(s, x)
  {
    (s.tpc[x] == Runs || s.tpc[x] == ODone) && s.cur[x] == s.res[x]
  }

  /** The target runs the originator's flow, the originator has the target's flow in its mailbox. */
  ghost predicate Crossed(s: State, o: int, x: int)
    requires Shape(s) && Tid(s, o) && Tid(s, x) && Tid(s, s.res[x])
  {
    && s.tpc[x] == Runs && s.cur[x] == s.res[o] && s.mail[x] == -1 && s.mail[o] == s.res[x]
    && HandedTo(s, x, o)
  }

  /** While the originator waits, the target goes through its body. */
  ghost predicate TargetPhase(s: State, o: int, x: int)
    requires Shape(s) && Tid(s, o) && Tid(s, x) && Tid(s, s.res[x])
  {
    || (TargetUnaware(s, x) && s.mail[x] == s.res[o] && s.mail[o] == -1)
    || (&& (s.tpc[x] == TRead || s.tpc[x] == TClear || s.tpc[x] == TPost)
        && s.cur[x] == s.res[x] && s.peer[x] == o && s.mail[o] == -1
        && s.mail[x] == (if s.tpc[x] == TPost then -1 else s.res[o])
        && (s.tpc[x] != TRead ==> s.next[x] == s.res[o])
        && HandedTo(s, x, o))
    || Crossed(s, o, x)
  }

  /** The phases of a switch led by thread `o`. */
  ghost predicate LeadOk(s: State, o: int)
    requires Shape(s) && Tid(s, o) && Tid(s, s.mate[o]) && Tid(s, s.res[s.mate[o]]) && Tid(s, s.res[o])
  {
    var x := s.mate[o];
    && s.peer[o] == x && s.own[o] == s.res[o] && s.req[o] == -1 && s.dest[s.res[o]] == x
    && match s.tpc[o]
       case OMail => s.cur[o] == s.res[o] && TargetUnaware(s, x) && s.mail[o] == -1 && s.mail[x] == -1 && s.req[x] == -1
       case OReq => TargetUnaware(s, x) && s.mail[o] == -1 && s.mail[x] == s.res[o] && s.req[x] == -1
       case OWake => s.req[x] == o && TargetPhase(s, o, x)
       case OWait => s.req[x] == o && TargetPhase(s, o, x)
       case OEnd => s.req[x] == o && Crossed(s, o, x) && s.cur[o] == s.res[x]
       case _ => false
  }

  /** Outside a switch a thread runs its resident, its mailbox is empty and nobody asks it to switch. */
  ghost predicate SoloOk(s: State, t: int)
    requires Shape(s) && Tid(s, t)
  {
    !s.busy[t] && s.mail[t] == -1 && s.req[t] == -1 && TargetUnaware(s, t)
  }

  ghost predicate ThreadOk(s: State, t: int)
    requires Shape(s) && ResidentInv(s) && Tid(s, t)
  {
    if s.mate[t] == -1 then SoloOk(s, t)
    else
      var m := s.mate[t];
      && Tid(s, m) && m != t && s.mate[m] == t && s.lead[m] != s.lead[t] && s.busy[t]
      && (s.lead[t] ==> LeadOk(s, t))
  }

  /** The body of `switch_to` on thread `t` and the flow that called it know each other. */
  ghost predicate AgentOk(s: State, t: int)
    requires Shape(s) && Tid(s, t)
  {
    && (OBody(s.tpc[t]) ==> Tid(s, s.own[t]) && s.agent[s.own[t]] == t)
    && (s.tpc[t] == ODone ==> Tid(s, s.cur[t]) && s.handed[s.cur[t]] == t)
  }

  ghost predicate FlowOk(s: State, f: int)
    requires Shape(s) && Tid(s, f)
  {
    && (s.agent[f] != -1 <==> s.fpc[f] == WaitDone && !s.done[f])
    && (s.done[f] ==> s.fpc[f] == WaitDone)
    && (s.agent[f] != -1 ==> Tid(s, s.agent[f]) && OBody(s.tpc[s.agent[f]]) && s.own[s.agent[f]] == f)
    && (s.fpc[f] != Idle ==> Tid(s, s.dest[f]))
    && (s.fpc[f] == Trying || s.fpc[f] == Checking ==> s.host[f] != s.dest[f])
    && (s.fpc[f] == WaitDone && (s.agent[f] == -1 || s.tpc[s.agent[f]] == ODone) ==> s.host[f] == s.dest[f])
  }

  /** Everything about the thread and the flow numbered `u`. */
  ghost predicate Ok(s: State, u: int)
    requires Shape(s) && ResidentInv(s) && Tid(s, u)
  {
    ThreadOk(s, u) && AgentOk(s, u) && FlowOk(s, u)
  }

  ghost predicate Inv(s: State) {
    Shape(s) && ResidentInv(s) && forall u {:trigger Ok(s, u)} :: Tid(s, u) ==> Ok(s, u)
  }
}
