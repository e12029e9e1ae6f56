/** The invariant of the thread-switch protocol. A step moves one thread and at most its partner: for every
    kind of step one lemma re-establishes the pair, one the flows, and a frame lemma covers the others. */
module ThreadSwitchProof {
  import opened ThreadSwitch

  lemma InitHolds(s: State)
    requires Init(s)
    ensures Inv(s)
  {
  }

  // ----- threads that a step does not involve

  ghost predicate SameThread(s: State, s': State, u: int)
    requires Shape(s) && Shape(s') && s'.n == s.n && Tid(s, u) && Tid(s, s.res[u])
  {
    && s'.req[u] == s.req[u] && s'.busy[u] == s.busy[u] && s'.mail[u] == s.mail[u] && s'.tpc[u] == s.tpc[u]
    && s'.cur[u] == s.cur[u] && s'.next[u] == s.next[u] && s'.peer[u] == s.peer[u] && s'.own[u] == s.own[u]
    && s'.res[u] == s.res[u] && s'.mate[u] == s.mate[u] && s'.lead[u] == s.lead[u]
    && s'.fpc[s.res[u]] == s.fpc[s.res[u]] && s'.dest[s.res[u]] == s.dest[s.res[u]]
    && s'.handed[s.res[u]] == s.handed[s.res[u]]
  }

  lemma FrameThread(s: State, s': State, u: int)
    requires Shape(s) && ResidentInv(s) && Shape(s') && ResidentInv(s') && s'.n == s.n && Tid(s, u)
    requires ThreadOk(s, u) && SameThread(s, s', u)
    requires s.mate[u] != -1 ==> SameThread(s, s', s.mate[u])
    ensures ThreadOk(s', u)
  {
  }

  /** `t` and `x` are partners, or alone; nobody else is changed. */
  ghost predicate OnlyPair(s: State, s': State, t: int, x: int)
    requires Shape(s) && ResidentInv(s)
  {
    && Shape(s') && ResidentInv(s') && s'.n == s.n && Tid(s, t) && Tid(s, x)
    && (s.mate[t] == -1 || s.mate[t] == x) && (s.mate[x] == -1 || s.mate[x] == t)
    && forall v {:trigger SameThread(s, s', v)} :: Tid(s, v) && v != t && v != x ==> SameThread(s, s', v)
  }

  lemma PairSuffices(s: State, s': State, t: int, x: int)
    requires Inv(s) && OnlyPair(s, s', t, x) && ThreadOk(s', t) && ThreadOk(s', x)
    ensures forall u {:trigger ThreadOk(s', u)} :: Tid(s', u) ==> ThreadOk(s', u)
  {
    forall u {:trigger ThreadOk(s', u)} | Tid(s', u) ensures ThreadOk(s', u) {
      if u != t && u != x {
        assert Ok(s, u) && Ok(s, t) && Ok(s, x);
        assert SameThread(s, s', u);
        if s.mate[u] != -1 {
          assert Ok(s, s.mate[u]);
          assert SameThread(s, s', s.mate[u]);
        }
        FrameThread(s, s', u);
      }
    }
  }

  /** The partner of a thread, or the thread itself. */
  function Partner(s: State, t: nat): int
    requires t < |s.mate|
  { if s.mate[t] == -1 then t else s.mate[t] }

  ghost predicate FlowsOk(s: State)
    requires Shape(s)
  {
    forall u {:trigger AgentOk(s, u)} {:trigger FlowOk(s, u)} :: Tid(s, u) ==> AgentOk(s, u) && FlowOk(s, u)
  }

  lemma Assemble(s: State, s': State, t: int, x: int)
    requires Inv(s) && OnlyPair(s, s', t, x) && ThreadOk(s', t) && ThreadOk(s', x) && FlowsOk(s')
    ensures Inv(s')
  {
    hide ThreadOk, AgentOk, FlowOk;
    PairSuffices(s, s', t, x);
    forall u {:trigger Ok(s', u)} | Tid(s', u) ensures Ok(s', u) { assert FlowOk(s', u) && ThreadOk(s', u); }
  }

  /** A thread that runs a flow able to move runs its resident; if it is in a switch, it is an unaware target. */
  lemma RunnerIsResident(s: State, t: nat)
    requires Inv(s) && t < s.n && s.tpc[t] == Runs && FlowEnabled(s, t)
    ensures s.cur[t] == s.res[t]
    ensures s.mate[t] != -1 ==> !s.lead[t] && TargetUnaware(s, t)
  {
    assert Ok(s, t);
    if s.mate[t] != -1 {
      var o := s.mate[t];
      assert Ok(s, o);
      assert Ok(s, s.res[o]);
    }
  }

  // ----- steps of a flow

  /** The flow on thread `t` changes its own fields, and nothing else. */
  ghost function SetLocal(s: State, t: nat, p: FlowPc, d: int): State
    requires Shape(s) && t < s.n && Tid(s, s.cur[t])
  {
    var f := s.cur[t];
    s.(fpc := s.fpc[f := p], dest := s.dest[f := d], done := s.done[f := false])
  }

  ghost predicate LocalOk(s: State, t: nat, p: FlowPc, d: int)
    requires Shape(s) && t < s.n
  {
    && s.tpc[t] == Runs && FlowEnabled(s, t)
    && p != WaitDone && (p != Idle ==> Tid(s, d)) && (p == Trying || p == Checking ==> t != d)
  }

  lemma LocalPair(s: State, t: nat, p: FlowPc, d: int)
    requires Inv(s) && t < s.n && LocalOk(s, t, p, d)
    ensures var s' := SetLocal(s, t, p, d);
            Tid(s, Partner(s, t)) && ThreadOk(s', t) && ThreadOk(s', Partner(s, t))
  {
    RunnerIsResident(s, t);
    assert Ok(s, t);
    assert Ok(s, Partner(s, t));
  }

  lemma LocalFlows(s: State, t: nat, p: FlowPc, d: int)
    requires Inv(s) && t < s.n && LocalOk(s, t, p, d)
    ensures FlowsOk(SetLocal(s, t, p, d))
  {
    RunnerIsResident(s, t);
    var s' := SetLocal(s, t, p, d);
    assert Ok(s, s.cur[t]);
    forall u | Tid(s, u) ensures AgentOk(s', u) && FlowOk(s', u) { assert Ok(s, u); }
  }

  lemma LocalKeeps(s: State, t: nat, p: FlowPc, d: int)
    requires Inv(s) && t < s.n && LocalOk(s, t, p, d)
    ensures Inv(SetLocal(s, t, p, d))
  {
    RunnerIsResident(s, t);
    var s' := SetLocal(s, t, p, d);
    assert Ok(s, t);
    var x := Partner(s, t);
    assert Ok(s, x);
    assert OnlyPair(s, s', t, x);
    LocalPair(s, t, p, d);
    LocalFlows(s, t, p, d);
    Assemble(s, s', t, x);
  }

  lemma AcceptKeeps(s: State, t: nat, p: FlowPc)
    requires Inv(s) && t < s.n && s.tpc[t] == Runs && FlowEnabled(s, t) && s.req[t] != -1
    requires var f := s.cur[t]; (s.fpc[f] == Idle && p == Idle) || (s.fpc[f] == Checking && p == After)
    ensures Inv(Accept(s, t, p))
  {
    RunnerIsResident(s, t);
    var s' := Accept(s, t, p);
    assert Ok(s, t);
    var o := s.mate[t];
    assert Ok(s, o);
    assert OnlyPair(s, s', t, o);
    AcceptPair(s, t, p);
    AcceptFlows(s, t, p);
    Assemble(s, s', t, o);
  }

  lemma AcceptPair(s: State, t: nat, p: FlowPc)
    requires Inv(s) && t < s.n && s.tpc[t] == Runs && FlowEnabled(s, t) && s.req[t] != -1
    requires var f := s.cur[t]; (s.fpc[f] == Idle && p == Idle) || (s.fpc[f] == Checking && p == After)
    ensures Tid(s, s.mate[t]) && ThreadOk(Accept(s, t, p), t) && ThreadOk(Accept(s, t, p), s.mate[t])
  {
    RunnerIsResident(s, t);
    assert Ok(s, t);
    assert Ok(s, s.mate[t]);
  }

  lemma AcceptFlows(s: State, t: nat, p: FlowPc)
    requires Inv(s) && t < s.n && s.tpc[t] == Runs && FlowEnabled(s, t) && s.req[t] != -1
    requires var f := s.cur[t]; (s.fpc[f] == Idle && p == Idle) || (s.fpc[f] == Checking && p == After)
    ensures FlowsOk(Accept(s, t, p))
  {
    RunnerIsResident(s, t);
    var s' := Accept(s, t, p);
    assert Ok(s, s.cur[t]) && Ok(s, t);
    forall u | Tid(s, u) ensures AgentOk(s', u) && FlowOk(s', u) {
      assert Ok(s, u);
      if s.tpc[u] == ODone { OtherResident(s, t, u); }
    }
  }

  /** A thread about to jump holds its resident, which is not the resident of another thread. */
  lemma OtherResident(s: State, t: nat, u: int)
    requires Inv(s) && t < s.n && Tid(s, u) && u != t && s.tpc[u] == ODone
    ensures s.cur[u] == s.res[u] && s.cur[u] != s.res[t]
  {
    assert Ok(s, u);
    if s.mate[u] != -1 { assert Ok(s, s.mate[u]); }
  }

  lemma TryStartKeeps(s: State, t: nat)
    requires Inv(s) && t < s.n && s.tpc[t] == Runs && FlowEnabled(s, t) && s.fpc[s.cur[t]] == Trying
    requires !s.busy[t] && !s.busy[s.dest[s.cur[t]]]
    ensures s.dest[s.cur[t]] != t && Inv(TryStart(s, t))
  {
    RunnerIsResident(s, t);
    var s', x := TryStart(s, t), s.dest[s.cur[t]];
    assert Ok(s, t) && Ok(s, s.cur[t]) && Ok(s, x);
    TryStartPair(s, t);
    TryStartFlows(s, t);
    Assemble(s, s', t, x);
  }

  lemma TryStartPair(s: State, t: nat)
    requires Inv(s) && t < s.n && s.tpc[t] == Runs && FlowEnabled(s, t) && s.fpc[s.cur[t]] == Trying
    requires !s.busy[t] && !s.busy[s.dest[s.cur[t]]]
    ensures var x := s.dest[s.cur[t]];
            OnlyPair(s, TryStart(s, t), t, x) && ThreadOk(TryStart(s, t), t) && ThreadOk(TryStart(s, t), x)
  {
    RunnerIsResident(s, t);
    assert Ok(s, t) && Ok(s, s.cur[t]) && Ok(s, s.dest[s.cur[t]]);
  }

  lemma TryStartFlows(s: State, t: nat)
    requires Inv(s) && t < s.n && s.tpc[t] == Runs && FlowEnabled(s, t) && s.fpc[s.cur[t]] == Trying
    requires !s.busy[t] && !s.busy[s.dest[s.cur[t]]]
    ensures FlowsOk(TryStart(s, t))
  {
    RunnerIsResident(s, t);
    var s' := TryStart(s, t);
    assert Ok(s, s.cur[t]) && Ok(s, t);
    forall u | Tid(s, u) ensures AgentOk(s', u) && FlowOk(s', u) { assert Ok(s, u); }
  }

  lemma FlowStepKeeps(s: State, t: nat, x: int)
    requires Inv(s) && t < s.n && s.tpc[t] == Runs && FlowEnabled(s, t)
    ensures Inv(FlowNext(s, t, x))
  {
    hide ThreadOk, AgentOk, FlowOk, Ok;
    ResidentFacts(s, t);
    var f := s.cur[t];
    match s.fpc[f]
    case Idle =>
      if Tid(s, x) {
        if x != t { LocalKeeps(s, t, Trying, x); assert Revert(s, t, x) == SetLocal(s, t, Trying, x); }
      } else if s.req[t] != -1 { AcceptKeeps(s, t, Idle); }
    case Trying =>
      if s.busy[t] || s.busy[s.dest[f]] {
        LocalKeeps(s, t, Checking, s.dest[f]);
        assert TryStart(s, t) == SetLocal(s, t, Checking, s.dest[f]);
      } else { TryStartKeeps(s, t); }
    case Checking =>
      if s.req[t] == -1 {
        LocalKeeps(s, t, After, s.dest[f]);
        assert SetFlow(s, f, After) == SetLocal(s, t, After, s.dest[f]);
      } else { AcceptKeeps(s, t, After); }
    case After =>
      var p := if s.dest[f] == t then Idle else Trying;
      LocalKeeps(s, t, p, s.dest[f]);
      assert SetFlow(s, f, p) == SetLocal(s, t, p, s.dest[f]);
    case WaitDone =>
      LocalKeeps(s, t, Idle, s.dest[f]);
      assert FlowNext(s, t, x) == SetLocal(s, t, Idle, s.dest[f]);
  }

  lemma ResidentFacts(s: State, t: nat)
    requires Inv(s) && t < s.n && s.tpc[t] == Runs && FlowEnabled(s, t)
    ensures var f := s.cur[t];
            && (s.fpc[f] != Idle ==> Tid(s, s.dest[f]))
            && (s.fpc[f] == Trying || s.fpc[f] == Checking ==> s.dest[f] != t)
            && (s.fpc[f] != WaitDone ==> s.done == s.done[f := false])
  {
    RunnerIsResident(s, t);
    assert Ok(s, s.cur[t]);
  }

  // ----- steps of a body

  /** A body that neither ends a switch nor publishes `done` leaves every flow's state alone. */
  lemma BodyFlows(s: State, t: nat)
    requires Inv(s) && t < s.n && BodyEnabled(s, t) && s.tpc[t] != OEnd && s.tpc[t] != ODone
    ensures FlowsOk(BodyNext(s, t))
  {
    var s' := BodyNext(s, t);
    forall u | Tid(s, u) ensures AgentOk(s', u) && FlowOk(s', u) { assert Ok(s, u); }
  }

  /** Who executes a body is in a switch, in the role that the body says. */
  lemma BodyRole(s: State, t: nat)
    requires Inv(s) && t < s.n && s.tpc[t] != Runs && s.tpc[t] != ODone
    ensures Tid(s, s.mate[t]) && s.peer[t] == s.mate[t] && s.mate[t] != t && s.mate[s.mate[t]] == t
    ensures OBody(s.tpc[t]) <==> s.lead[t]
    ensures if s.lead[t] then LeadOk(s, t) else LeadOk(s, s.mate[t])
  {
    assert Ok(s, t);
    assert Ok(s, s.mate[t]);
  }

  lemma LeaderPair(s: State, t: nat)
    requires Inv(s) && t < s.n && BodyEnabled(s, t) && OBody(s.tpc[t]) && s.tpc[t] != OEnd && s.tpc[t] != ODone
    ensures s.mate[t] != -1 && OnlyPair(s, BodyNext(s, t), t, s.mate[t])
    ensures ThreadOk(BodyNext(s, t), t) && ThreadOk(BodyNext(s, t), s.mate[t])
  {
    BodyRole(s, t);
    assert Ok(s, t) && Ok(s, s.mate[t]);
  }

  lemma TargetPair(s: State, t: nat)
    requires Inv(s) && t < s.n && BodyEnabled(s, t) && !OBody(s.tpc[t])
    ensures s.mate[t] != -1 && OnlyPair(s, BodyNext(s, t), t, s.mate[t])
    ensures ThreadOk(BodyNext(s, t), t) && ThreadOk(BodyNext(s, t), s.mate[t])
  {
    BodyRole(s, t);
    assert Ok(s, t) && Ok(s, s.mate[t]);
  }

  lemma BodyKeeps(s: State, t: nat)
    requires Inv(s) && t < s.n && BodyEnabled(s, t) && s.tpc[t] != OEnd && s.tpc[t] != ODone
    ensures Inv(BodyNext(s, t))
  {
    hide ThreadOk, AgentOk, FlowOk, BodyNext;
    if OBody(s.tpc[t]) { LeaderPair(s, t); } else { TargetPair(s, t); }
    BodyFlows(s, t);
    Assemble(s, BodyNext(s, t), t, s.mate[t]);
  }

  lemma EndSwitchKeeps(s: State, t: nat)
    requires Inv(s) && t < s.n && BodyEnabled(s, t) && s.tpc[t] == OEnd
    ensures s.cur[t] == s.res[s.peer[t]] && s.own[t] == s.res[t]
    ensures Inv(EndSwitch(s, t))
  {
    BodyRole(s, t);
    var s', x := EndSwitch(s, t), s.peer[t];
    EndSwitchPair(s, t);
    EndSwitchFlows(s, t);
    Assemble(s, s', t, x);
  }

  lemma EndSwitchPair(s: State, t: nat)
    requires Inv(s) && t < s.n && BodyEnabled(s, t) && s.tpc[t] == OEnd
    ensures OnlyPair(s, EndSwitch(s, t), t, s.peer[t])
    ensures ThreadOk(EndSwitch(s, t), t) && ThreadOk(EndSwitch(s, t), s.peer[t])
  {
    BodyRole(s, t);
    assert Ok(s, t) && Ok(s, s.mate[t]);
    assert ResidentInv(EndSwitch(s, t));
  }

  lemma EndSwitchFlows(s: State, t: nat)
    requires Inv(s) && t < s.n && BodyEnabled(s, t) && s.tpc[t] == OEnd
    ensures FlowsOk(EndSwitch(s, t))
  {
    hide AgentOk, FlowOk;
    EndSwitchAgents(s, t);
    EndSwitchFlowStates(s, t);
  }

  lemma EndSwitchAgents(s: State, t: nat)
    requires Inv(s) && t < s.n && BodyEnabled(s, t) && s.tpc[t] == OEnd
    ensures forall u {:trigger AgentOk(EndSwitch(s, t), u)} :: Tid(s, u) ==> AgentOk(EndSwitch(s, t), u)
  {
    BodyRole(s, t);
    assert Ok(s, t);
    forall u {:trigger AgentOk(EndSwitch(s, t), u)} | Tid(s, u) ensures AgentOk(EndSwitch(s, t), u) { assert Ok(s, u); }
  }

  lemma EndSwitchFlowStates(s: State, t: nat)
    requires Inv(s) && t < s.n && BodyEnabled(s, t) && s.tpc[t] == OEnd
    ensures forall u {:trigger FlowOk(EndSwitch(s, t), u)} :: Tid(s, u) ==> FlowOk(EndSwitch(s, t), u)
  {
    EndSwitchFacts(s, t);
    FlowsAreOk(s);
    hide Ok, Inv;
    forall u {:trigger FlowOk(EndSwitch(s, t), u)} | Tid(s, u) ensures FlowOk(EndSwitch(s, t), u)
    { assert FlowOk(s, u); }
  }

  lemma FlowsAreOk(s: State)
    requires Inv(s)
    ensures FlowsOk(s)
  {
    hide ThreadOk, AgentOk, FlowOk;
    forall u | Tid(s, u) ensures AgentOk(s, u) && FlowOk(s, u) { assert Ok(s, u); }
  }

  /** The two flows of a switch about to end: one is suspended in `switch_to` and wants the other thread, the other
      one has been captured at a checkpoint. */
  lemma EndSwitchFacts(s: State, t: nat)
    requires Inv(s) && t < s.n && BodyEnabled(s, t) && s.tpc[t] == OEnd
    ensures s.own[t] != s.cur[t] && s.dest[s.own[t]] == s.peer[t] && s.agent[s.own[t]] == t
    ensures s.fpc[s.cur[t]] == Idle || s.fpc[s.cur[t]] == After
  {
    BodyRole(s, t);
    assert Ok(s, t) && Ok(s, s.peer[t]);
  }

  lemma DoneKeeps(s: State, t: nat)
    requires Inv(s) && t < s.n && BodyEnabled(s, t) && s.tpc[t] == ODone
    ensures Inv(BodyNext(s, t))
  {
    var s' := BodyNext(s, t);
    assert Ok(s, t);
    var x := Partner(s, t);
    assert Ok(s, x);
    assert OnlyPair(s, s', t, x);
    assert ThreadOk(s', t) && ThreadOk(s', x);
    DoneFlows(s, t);
    Assemble(s, s', t, x);
  }

  lemma DoneFlows(s: State, t: nat)
    requires Inv(s) && t < s.n && BodyEnabled(s, t) && s.tpc[t] == ODone
    ensures FlowsOk(BodyNext(s, t))
  {
    var s' := BodyNext(s, t);
    assert Ok(s, t);
    assert Ok(s, s.own[t]);
    forall u | Tid(s, u) ensures AgentOk(s', u) && FlowOk(s', u) { assert Ok(s, u); }
  }

  lemma StepKeepsInv(s: State, t: nat, x: int)
    requires Inv(s) && Enabled(s, t)
    ensures Inv(Next(s, t, x)) && Next(s, t, x).n == s.n
  {
    hide Inv;
    if s.tpc[t] == Runs { FlowStepKeeps(s, t, x); }
    else if s.tpc[t] == OEnd { EndSwitchKeeps(s, t); }
    else if s.tpc[t] == ODone { DoneKeeps(s, t); }
    else { BodyKeeps(s, t); }
  }

  lemma {:induction false} RunKeepsInv(tr: seq<State>, k: nat)
    requires IsRun(tr) && k < |tr|
    ensures Inv(tr[k]) && tr[k].n == tr[0].n
  {
    hide Inv, Init, Enabled, Next;
    if k == 0 {
      InitHolds(tr[0]);
    } else {
      RunKeepsInv(tr, k - 1);
      assert Step(tr[k - 1], tr[k - 1 + 1]);
      var t: nat, x :| Enabled(tr[k - 1], t) && tr[k] == Next(tr[k - 1], t, x);
      StepKeepsInv(tr[k - 1], t, x);
    }
  }
}
