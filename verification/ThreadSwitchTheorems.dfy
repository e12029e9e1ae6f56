/** What the thread-switch protocol promises, for any number of threads and every interleaving. */
module ThreadSwitchTheorems {
  import opened Seqs
  import opened ThreadSwitch
  import opened ThreadSwitchProof

  // ----- every flow is in exactly one place

  /** The places a flow can be in. A token that a body has read from a mailbox counts for the body. */
  datatype Place = OnThread(t: int) | InLocal(t: int) | InNext(t: int) | InMailbox(t: int)

  ghost predicate At(s: State, f: int, p: Place)
    requires Shape(s)
  {
    && Tid(s, p.t)
    && var pc := s.tpc[p.t];
       match p
       case OnThread(t) => pc.Runs? && s.cur[t] == f
       case InLocal(t) => !(pc.Runs? || pc.OReq? || pc.OWake? || pc.OWait?) && s.cur[t] == f
       case InNext(t) => (pc.TClear? || pc.TPost?) && s.next[t] == f
       case InMailbox(t) => !(pc.TClear? || pc.OEnd?) && s.mail[t] == f
  }

  /** Where the resident of thread `t` is. */
  ghost function WhereResident(s: State, t: int): Place
    requires Shape(s) && Tid(s, t) && (s.mate[t] != -1 ==> Tid(s, s.mate[t]))
  {
    var x := s.mate[t];
    if x == -1 then (if s.tpc[t] == Runs then OnThread(t) else InLocal(t))
    else if s.lead[t] then
      if s.tpc[t] == OMail then InLocal(t)
      else if s.tpc[x].TClear? || s.tpc[x].TPost? then InNext(x)
      else if s.mail[x] != -1 then InMailbox(x)
      else OnThread(x)
    else if s.mail[x] != -1 then (if s.tpc[x] == OEnd then InLocal(x) else InMailbox(x))
    else if s.tpc[t] == Runs then OnThread(t) else InLocal(t)
  }

  ghost function Where(s: State, f: int): Place
    requires Inv(s) && Tid(s, f)
  {
    assert Ok(s, s.host[f]);
    WhereResident(s, s.host[f])
  }

  lemma ResidentIsThere(s: State, t: int)
    requires Inv(s) && Tid(s, t)
    ensures s.mate[t] != -1 ==> Tid(s, s.mate[t])
    ensures At(s, s.res[t], WhereResident(s, t))
  {
    assert Ok(s, t);
    if s.mate[t] != -1 { assert Ok(s, s.mate[t]); }
  }

  lemma PlaceHoldsResident(s: State, f: int, p: Place)
    requires Inv(s) && Tid(s, f) && At(s, f, p)
    ensures p == Where(s, f)
  {
    var t := p.t;
    assert Ok(s, t);
    if s.mate[t] != -1 { assert Ok(s, s.mate[t]); }
  }

  /** No control flow is lost and none is duplicated: at every step of every run, each is in exactly one place. */
  lemma EachFlowInExactlyOnePlace(tr: seq<State>, k: nat, f: int)
    requires IsRun(tr) && k < |tr| && Tid(tr[k], f)
    ensures Shape(tr[k])
    ensures exists p :: At(tr[k], f, p)
    ensures forall p, q :: At(tr[k], f, p) && At(tr[k], f, q) ==> p == q
  {
    RunKeepsInv(tr, k);
    var s := tr[k];
    ResidentIsThere(s, s.host[f]);
    forall p | At(s, f, p) ensures p == Where(s, f) { PlaceHoldsResident(s, f, p); }
  }

  // ----- a completed switch exchanges two flows

  /** A step leaves every resident where it is, or it completes a switch: the originator's flow, which by now
      runs on the thread it asked for, becomes the resident there; the originator holds that thread's flow and
      is about to jump to it; nobody else moves. */
  lemma StepMovesOnlySwitchedPair(s: State, t: nat, x: int)
    requires Inv(s) && Enabled(s, t)
    ensures var s' := Next(s, t, x);
            if s.tpc[t] == OEnd then
              var d := s.dest[s.res[t]];
              && Tid(s, d) && d != t && s'.res == s.res[t := s.res[d]][d := s.res[t]] && s'.switches == s.switches + 1
              && s'.tpc == s.tpc[t := ODone] && s'.cur == s.cur
              && s'.cur[t] == s'.res[t] && s'.tpc[d] == Runs && s'.cur[d] == s'.res[d]
            else s'.res == s.res && s'.switches == s.switches
  {
    if s.tpc[t] == OEnd { BodyRole(s, t); EndSwitchKeeps(s, t); }
  }

  /** `switch_to` is resumed on the thread asked for, even before the originator has published `done`; the flow
      that was there continues on the originator. */
  lemma SwitchReturnsOnTarget(tr: seq<State>, k: nat, t: nat)
    requires IsRun(tr) && k < |tr| && t < tr[k].n
    ensures var s := tr[k];
            && Shape(s)
            && (s.tpc[t] == Runs ==> Tid(s, s.cur[t]) && (s.fpc[s.cur[t]] == WaitDone ==> s.dest[s.cur[t]] == t))
            && (s.tpc[t] == ODone ==> Tid(s, s.cur[t]) && s.handed[s.cur[t]] == t)
  {
    RunKeepsInv(tr, k);
    if tr[k].tpc[t] == Runs { RunsWhereAsked(tr[k], t); }
    assert Ok(tr[k], t);
  }

  /** A running flow is a resident, or the flow of the originator, on the thread it asked for. */
  lemma RunnerIs(s: State, t: nat)
    requires Inv(s) && t < s.n && s.tpc[t] == Runs
    ensures Tid(s, s.cur[t]) && (s.cur[t] == s.res[t] || s.dest[s.cur[t]] == t)
  {
    assert Ok(s, t);
    if s.mate[t] != -1 { assert Ok(s, s.mate[t]); }
  }

  lemma RunsWhereAsked(s: State, t: nat)
    requires Inv(s) && t < s.n && s.tpc[t] == Runs
    ensures Tid(s, s.cur[t]) && (s.fpc[s.cur[t]] == WaitDone ==> s.dest[s.cur[t]] == t)
  {
    RunnerIs(s, t);
    var f := s.cur[t];
    assert FlowOk(s, f) by { assert Ok(s, f); }
    hide Ok;
    if s.agent[f] != -1 && s.tpc[s.agent[f]] != ODone { BodyRole(s, s.agent[f]); }
  }

  // ----- entering and leaving `switch_to`

  /** The step from `s` to `s'` lets flow `f` go from `revert` into `switch_to`. */
  ghost predicate Enters(s: State, s': State, f: int)
    requires Shape(s) && Shape(s') && s'.n == s.n && Tid(s, f)
  { s.fpc[f] == Idle && s'.fpc[f] != Idle }

  ghost predicate Leaves(s: State, s': State, f: int)
    requires Shape(s) && Shape(s') && s'.n == s.n && Tid(s, f)
  { s.fpc[f] != Idle && s'.fpc[f] == Idle }

  /** A flow enters `switch_to` exactly when it runs in user code and reverts to another thread, which is then the one
      it asks for; it never changes its mind inside. It leaves only by running on the thread it asked for, whether its
      own switch or another one brought it there. */
  lemma LeavesWhereAsked(s: State, t: nat, x: int, f: int)
    requires Inv(s) && Enabled(s, t) && Tid(s, f)
    ensures var s' := Next(s, t, x);
            && Shape(s') && s'.n == s.n
            && (Enters(s, s', f) <==>
                  s.tpc[t] == Runs && s.cur[t] == f && s.fpc[f] == Idle && Tid(s, x) && x != t)
            && (Enters(s, s', f) ==> s'.dest[f] == x)
            && (s.fpc[f] != Idle ==> s'.dest[f] == s.dest[f])
            && (Leaves(s, s', f) ==> s'.tpc[t] == Runs && s'.cur[t] == f && s'.dest[f] == t)
  {
    if s.tpc[t] != Runs { BodyLeavesFlowStates(s, t); }
    else if f == s.cur[t] { OwnStepLeaves(s, t, x); }
    else { OtherFlowStays(s, t, x, f); }
  }

  lemma BodyLeavesFlowStates(s: State, t: nat)
    requires Shape(s) && t < s.n && BodyEnabled(s, t)
    ensures var s' := BodyNext(s, t); Shape(s') && s'.n == s.n && s'.fpc == s.fpc && s'.dest == s.dest
  {
  }

  lemma OtherFlowStays(s: State, t: nat, x: int, f: int)
    requires Enabled(s, t) && s.tpc[t] == Runs && Tid(s, f) && f != s.cur[t]
    ensures var s' := FlowNext(s, t, x); Shape(s') && s'.n == s.n && s'.fpc[f] == s.fpc[f] && s'.dest[f] == s.dest[f]
  {
    hide TryStart;
    if s.fpc[s.cur[t]] == Trying { OtherFlowTries(s, t, f); }
  }

  lemma OtherFlowTries(s: State, t: nat, f: int)
    requires Shape(s) && t < s.n && Tid(s, s.cur[t]) && Tid(s, s.dest[s.cur[t]]) && Tid(s, f) && f != s.cur[t]
    ensures var s' := TryStart(s, t); Shape(s') && s'.n == s.n && s'.fpc[f] == s.fpc[f] && s'.dest[f] == s.dest[f]
  {
  }

  lemma OwnStepLeaves(s: State, t: nat, x: int)
    requires Inv(s) && Enabled(s, t) && s.tpc[t] == Runs
    ensures var f := s.cur[t]; var s' := FlowNext(s, t, x);
            && Shape(s') && s'.n == s.n
            && (Enters(s, s', f) <==> s.fpc[f] == Idle && Tid(s, x) && x != t)
            && (Enters(s, s', f) ==> s'.dest[f] == x)
            && (s.fpc[f] != Idle ==> s'.dest[f] == s.dest[f])
            && (Leaves(s, s', f) ==> s'.tpc[t] == Runs && s'.cur[t] == f && s'.dest[f] == t)
  {
    RunsWhereAsked(s, t);
    NotThereYet(s, t);
    hide Ok, Inv;
  }

  /** Who still tries is not on the thread it wants. */
  lemma NotThereYet(s: State, t: nat)
    requires Inv(s) && Enabled(s, t) && s.tpc[t] == Runs
    ensures s.fpc[s.cur[t]] == Trying ==> s.dest[s.cur[t]] != t
  {
    RunnerIsResident(s, t);
    assert Ok(s, s.cur[t]);
  }

  /** Over whole runs: whoever is back in user code from `switch_to` is on the thread it asked for. */
  lemma SwitchLeavesOnTarget(tr: seq<State>, k: nat, f: int)
    requires IsRun(tr) && k + 1 < |tr| && Tid(tr[k], f)
    ensures Shape(tr[k]) && Shape(tr[k + 1]) && tr[k + 1].n == tr[k].n
    ensures var s, s' := tr[k], tr[k + 1];
            Leaves(s, s', f) ==>
              Tid(s, s.dest[f]) && s'.tpc[s.dest[f]] == Runs && s'.cur[s.dest[f]] == f
  {
    hide Ok, Enabled, Next;
    RunKeepsInv(tr, k);
    RunKeepsInv(tr, k + 1);
    assert Step(tr[k], tr[k + 1]);
    var t: nat, x :| Enabled(tr[k], t) && tr[k + 1] == Next(tr[k], t, x);
    EnabledIsThread(tr[k], t);
    LeavesWhereAsked(tr[k], t, x, f);
  }

  lemma EnabledIsThread(s: State, t: nat)
    requires Enabled(s, t)
    ensures t < s.n
  {
  }

  // ----- flags, requests and mailboxes

  /** The flags mark disjoint pairs; a request names the partner; mailboxes are empty outside a switch. */
  ghost predicate Disciplined(s: State)
    requires Shape(s)
  {
    && (forall t :: Tid(s, t) && s.busy[t] ==>
                      Tid(s, s.mate[t]) && s.mate[t] != t && s.busy[s.mate[t]] && s.mate[s.mate[t]] == t
                      && s.lead[s.mate[t]] != s.lead[t])
    && (forall t :: Tid(s, t) && !s.busy[t] ==> s.mail[t] == -1 && s.req[t] == -1 && s.mate[t] == -1)
    && (forall t :: Tid(s, t) && s.req[t] != -1 ==> s.busy[t] && s.req[t] == s.mate[t] && !s.lead[t])
    && (forall t :: Tid(s, t) && s.tpc[t] == TRead ==> s.mail[t] != -1 && s.req[t] != -1)
  }

  lemma ProtocolIsDisciplined(tr: seq<State>, k: nat)
    requires IsRun(tr) && k < |tr|
    ensures Shape(tr[k]) && Disciplined(tr[k])
  {
    RunKeepsInv(tr, k);
    var s := tr[k];
    forall t | Tid(s, t)
      ensures s.busy[t] ==> Tid(s, s.mate[t]) && s.mate[t] != t && s.busy[s.mate[t]] && s.mate[s.mate[t]] == t
                            && s.lead[s.mate[t]] != s.lead[t]
      ensures !s.busy[t] ==> s.mail[t] == -1 && s.req[t] == -1 && s.mate[t] == -1
      ensures s.req[t] != -1 ==> s.busy[t] && s.req[t] == s.mate[t] && !s.lead[t]
      ensures s.tpc[t] == TRead ==> s.mail[t] != -1 && s.req[t] != -1
    {
      assert Ok(s, t);
      if s.mate[t] != -1 { assert Ok(s, s.mate[t]); }
    }
  }

  /** A request is found only while its continuation is in the mailbox and unanswered, so it is handled
      once; and a flow that tries to start a switch is never on the thread it wants, so the return that
      would leave a flag set is not taken. */
  lemma RequestsHandledOnce(tr: seq<State>, k: nat, t: nat)
    requires IsRun(tr) && k < |tr| && Enabled(tr[k], t) && tr[k].tpc[t] == Runs
    ensures var s := tr[k];
            && (s.req[t] != -1 ==> Tid(s, s.req[t]) && s.mail[t] == s.res[s.req[t]] && s.mail[s.req[t]] == -1)
            && (s.fpc[s.cur[t]] == Trying ==> s.dest[s.cur[t]] != t)
  {
    RunKeepsInv(tr, k);
    var s := tr[k];
    RunnerIsResident(s, t);
    assert Ok(s, t) && Ok(s, s.cur[t]);
    if s.mate[t] != -1 { assert Ok(s, s.mate[t]); }
  }

  // ----- every request is handled exactly once

  predicate TBody(p: ThreadPc) { p.TRead? || p.TClear? || p.TPost? }

  /** The request of the switch that thread `o` leads has been handled: its target is in, or past, the body of
      `requested_switch_with`. */
  ghost predicate Handled(s: State, o: int)
    requires Shape(s) && Tid(s, o)
  {
    Tid(s, s.mate[o]) && s.lead[o] && (TBody(s.tpc[s.mate[o]]) || s.mail[o] != -1)
  }

  /** This step finds a request and enters `requested_switch_with`. */
  ghost predicate Handles(s: State, t: nat, x: int)
    requires Enabled(s, t)
  {
    s.tpc[t] == Runs && s.req[t] != -1 && (s.fpc[s.cur[t]] == Checking || (s.fpc[s.cur[t]] == Idle && !Tid(s, x)))
  }

  /** A step that finds a request handles the one of its partner, unhandled so far; the end of a switch needs its
      request handled; and no other step handles or forgets one. So every completed switch was handled once. */
  lemma HandledOncePerSwitch(s: State, t: nat, x: int)
    requires Inv(s) && Enabled(s, t)
    ensures var s' := Next(s, t, x);
            && Shape(s') && s'.n == s.n
            && s'.accepts == (if Handles(s, t, x) then s.accepts + 1 else s.accepts)
            && s'.switches == (if s.tpc[t] == OEnd then s.switches + 1 else s.switches)
            && (Handles(s, t, x) ==> Tid(s, s.mate[t]) && !Handled(s, s.mate[t]) && Handled(s', s.mate[t]))
            && (s.tpc[t] == OEnd ==> Handled(s, t) && !Handled(s', t))
            && forall o :: Tid(s, o) && !(Handles(s, t, x) && o == s.mate[t]) && !(s.tpc[t] == OEnd && o == t) ==>
                             (Handled(s', o) <==> Handled(s, o))
  {
    hide Ok;
    if s.tpc[t] == Runs { FlowHandles(s, t, x); }
    else if s.tpc[t] == OEnd { EndHandled(s, t); }
    else { BodyHandles(s, t); }
  }

  lemma EndHandled(s: State, t: nat)
    requires Inv(s) && t < s.n && BodyEnabled(s, t) && s.tpc[t] == OEnd
    ensures var s' := EndSwitch(s, t);
            && Handled(s, t) && !Handled(s', t)
            && forall o :: Tid(s, o) && o != t ==> (Handled(s', o) <==> Handled(s, o))
  {
    BodyRole(s, t);
    var s' := EndSwitch(s, t);
    forall o | Tid(s, o) && o != t ensures Handled(s', o) <==> Handled(s, o) { assert Ok(s, o); }
  }

  lemma BodyHandles(s: State, t: nat)
    requires Inv(s) && t < s.n && BodyEnabled(s, t) && s.tpc[t] != OEnd
    ensures var s' := BodyNext(s, t);
            && Shape(s') && s'.n == s.n && s'.accepts == s.accepts && s'.switches == s.switches
            && forall o :: Tid(s, o) ==> (Handled(s', o) <==> Handled(s, o))
  {
    hide Ok, Handled;
    if OBody(s.tpc[t]) { LeaderBodyHandles(s, t); } else { TargetBodyHandles(s, t); }
  }

  /** The originator's body writes its own continuation to the target's mailbox only, before the target leads any
      switch. */
  lemma LeaderBodyHandles(s: State, t: nat)
    requires Inv(s) && t < s.n && BodyEnabled(s, t) && s.tpc[t] != OEnd && OBody(s.tpc[t])
    ensures var s' := BodyNext(s, t);
            forall o :: Tid(s, o) ==> (Handled(s', o) <==> Handled(s, o))
  {
    if s.tpc[t] == OMail { MailToTarget(s, t); }
    hide Ok;
  }

  lemma MailToTarget(s: State, t: nat)
    requires Inv(s) && t < s.n && s.tpc[t] == OMail
    ensures Tid(s, s.peer[t]) && !s.lead[s.peer[t]]
  {
    BodyRole(s, t);
    assert Ok(s, t);
  }

  /** The target's body runs from the handling to the reply in the originator's mailbox. */
  lemma TargetBodyHandles(s: State, t: nat)
    requires Inv(s) && t < s.n && BodyEnabled(s, t) && !OBody(s.tpc[t])
    ensures var s' := BodyNext(s, t);
            forall o :: Tid(s, o) ==> (Handled(s', o) <==> Handled(s, o))
  {
    TargetRole(s, t);
    hide Ok;
    var s' := BodyNext(s, t);
    forall o | Tid(s, o) ensures Handled(s', o) <==> Handled(s, o) {
      if s.mate[o] != -1 { MatesAreMutual(s, o); }
    }
  }

  lemma TargetRole(s: State, t: nat)
    requires Inv(s) && t < s.n && TBody(s.tpc[t])
    ensures Tid(s, s.mate[t]) && s.peer[t] == s.mate[t] && s.mate[s.mate[t]] == t && !s.lead[t] && s.lead[s.mate[t]]
    ensures Tid(s, s.cur[t])
  {
    BodyRole(s, t);
    assert Ok(s, t);
  }

  lemma MatesAreMutual(s: State, o: int)
    requires Inv(s) && Tid(s, o) && s.mate[o] != -1
    ensures Tid(s, s.mate[o]) && s.mate[s.mate[o]] == o
  {
    assert Ok(s, o);
  }

  /** This step starts a switch, or would leak a flag. */
  ghost predicate Starts(s: State, t: nat)
    requires Enabled(s, t)
  {
    s.tpc[t] == Runs && s.fpc[s.cur[t]] == Trying && !s.busy[t] && !s.busy[s.dest[s.cur[t]]]
  }

  /** Every other step of a flow touches no thread. */
  lemma FlowIsLocal(s: State, t: nat, x: int)
    requires Enabled(s, t) && s.tpc[t] == Runs && !Starts(s, t) && !Handles(s, t, x)
    ensures var s' := FlowNext(s, t, x);
            && Shape(s') && s'.n == s.n && s'.switches == s.switches && s'.accepts == s.accepts
            && s'.mate == s.mate && s'.lead == s.lead && s'.tpc == s.tpc && s'.mail == s.mail
            && s'.busy == s.busy && s'.peer == s.peer
  {
  }

  lemma AcceptHandles(s: State, t: nat, p: FlowPc)
    requires Inv(s) && t < s.n && s.tpc[t] == Runs && FlowEnabled(s, t) && s.req[t] != -1
    ensures var s' := Accept(s, t, p);
            && Tid(s, s.mate[t]) && !Handled(s, s.mate[t]) && Handled(s', s.mate[t])
            && forall o :: Tid(s, o) && o != s.mate[t] ==> (Handled(s', o) <==> Handled(s, o))
  {
    RunnerIsResident(s, t);
    assert Ok(s, t) && Ok(s, s.mate[t]);
    forall o | Tid(s, o) && o != s.mate[t] ensures Handled(Accept(s, t, p), o) <==> Handled(s, o) { assert Ok(s, o); }
  }

  /** A switch is started by two threads that take part in none. */
  lemma StartParties(s: State, t: nat)
    requires Inv(s) && Enabled(s, t) && Starts(s, t)
    ensures var x := s.dest[s.cur[t]];
            && x != t && s.mate[t] == -1 == s.mate[x] && s.mail[t] == -1
            && s.tpc[t] == Runs && !TBody(s.tpc[x])
  {
    RunnerIsResident(s, t);
    assert Ok(s, t) && Ok(s, s.cur[t]) && Ok(s, s.dest[s.cur[t]]);
  }

  lemma StartHandles(s: State, t: nat)
    requires Inv(s) && Enabled(s, t) && Starts(s, t)
    ensures var s' := TryStart(s, t);
            && Shape(s') && s'.n == s.n && s'.accepts == s.accepts && s'.switches == s.switches
            && forall o :: Tid(s, o) ==> (Handled(s', o) <==> Handled(s, o))
  {
    hide Ok, Inv;
    StartParties(s, t);
  }

  lemma FlowHandles(s: State, t: nat, x: int)
    requires Inv(s) && Enabled(s, t) && s.tpc[t] == Runs
    ensures var s' := FlowNext(s, t, x);
            && Shape(s') && s'.n == s.n && s'.switches == s.switches
            && s'.accepts == (if Handles(s, t, x) then s.accepts + 1 else s.accepts)
            && (Handles(s, t, x) ==> Tid(s, s.mate[t]) && !Handled(s, s.mate[t]) && Handled(s', s.mate[t]))
            && forall o :: Tid(s, o) && !(Handles(s, t, x) && o == s.mate[t]) ==> (Handled(s', o) <==> Handled(s, o))
  {
    hide Ok, Handled;
    if Starts(s, t) { StartHandles(s, t); }
    else if Handles(s, t, x) { AcceptHandles(s, t, if s.fpc[s.cur[t]] == Idle then Idle else After); }
    else { LocalHandles(s, t, x); }
  }

  lemma LocalHandles(s: State, t: nat, x: int)
    requires Enabled(s, t) && s.tpc[t] == Runs && !Starts(s, t) && !Handles(s, t, x)
    ensures var s' := FlowNext(s, t, x);
            && Shape(s') && s'.n == s.n && s'.switches == s.switches && s'.accepts == s.accepts
            && forall o :: Tid(s, o) ==> (Handled(s', o) <==> Handled(s, o))
  {
    hide FlowNext, Starts, Handles;
    FlowIsLocal(s, t, x);
  }

  ghost function HandledBits(s: State): seq<int>
    requires Shape(s)
  {
    seq(s.n, o requires 0 <= o < s.n => if Handled(s, o) then 1 else 0)
  }

  /** In every state of every run, handlings are completed switches plus the handled ones under way. */
  lemma {:induction false} HandlingsAreSwitches(tr: seq<State>, k: nat)
    requires IsRun(tr) && k < |tr|
    ensures Shape(tr[k]) && tr[k].accepts == tr[k].switches + Sum(HandledBits(tr[k]))
  {
    hide Ok, Enabled, Next, Handled, Handles;
    RunKeepsInv(tr, k);
    if k == 0 {
      NothingHandled(tr[0]);
    } else {
      HandlingsAreSwitches(tr, k - 1);
      RunKeepsInv(tr, k - 1);
      assert Step(tr[k - 1], tr[k - 1 + 1]);
      var t: nat, x :| Enabled(tr[k - 1], t) && tr[k] == Next(tr[k - 1], t, x);
      StepCountsHandling(tr[k - 1], t, x);
    }
  }

  lemma NothingHandled(s: State)
    requires Init(s)
    ensures Sum(HandledBits(s)) == 0
  {
    SumConst(HandledBits(s), 0);
  }

  lemma StepCountsHandling(s: State, t: nat, x: int)
    requires Inv(s) && Enabled(s, t)
    ensures var s' := Next(s, t, x);
            Shape(s') && s'.accepts - s'.switches - Sum(HandledBits(s')) == s.accepts - s.switches - Sum(HandledBits(s))
  {
    hide Ok, Next, Handled, Handles;
    var s' := Next(s, t, x);
    HandledOncePerSwitch(s, t, x);
    HandlesRuns(s, t, x);
    var b := HandledBits(s);
    if Handles(s, t, x) {
      assert HandledBits(s') == b[s.mate[t] := 1];
      SumUpdate(b, s.mate[t], 1);
    } else if s.tpc[t] == OEnd {
      assert HandledBits(s') == b[t := 0];
      SumUpdate(b, t, 0);
    } else {
      assert HandledBits(s') == b;
    }
  }

  lemma HandlesRuns(s: State, t: nat, x: int)
    requires Enabled(s, t)
    ensures Handles(s, t, x) ==> s.tpc[t] == Runs
  {
  }

  // ----- what the early return would do

  /** The flag of `t` is set and nobody is going to clear it: no body of `switch_to` on its way to the end of a
      switch runs on `t` or targets it. */
  ghost predicate Leaked(s: State, t: int)
    requires Shape(s)
  {
    && Tid(s, t) && s.busy[t]
    && forall u :: Tid(s, u) && InSwitch(s, u) ==> u != t && s.peer[u] != t
  }

  /** Thread `u` executes the body of `switch_to`, up to the end of the switch. */
  ghost predicate InSwitch(s: State, u: int)
    requires Shape(s) && Tid(s, u)
  {
    OBody(s.tpc[u]) && s.tpc[u] != ODone
  }

  /** Starting a switch leaks the flag exactly if it is started towards the thread the flow is on. */
  lemma StartOnOwnThreadLeaksFlag(s: State, t: nat)
    requires Inv(s) && t < s.n && s.tpc[t] == Runs && Tid(s, s.cur[t]) && Tid(s, s.dest[s.cur[t]])
    requires !s.busy[t] && !s.busy[s.dest[s.cur[t]]]
    ensures Leaked(TryStart(s, t), t) <==> s.dest[s.cur[t]] == t
  {
    var s' := TryStart(s, t);
    forall u | Tid(s, u) && InSwitch(s, u) ensures u != t && s.peer[u] != t {
      assert Ok(s, u) && Ok(s, t);
      BodyRole(s, u);
    }
    assert s.dest[s.cur[t]] != t ==> InSwitch(s', t);
  }

  lemma StepKeepsLeak(s: State, t: int, u: nat, x: int)
    requires Shape(s) && Leaked(s, t) && Enabled(s, u)
    ensures Shape(Next(s, u, x)) && Next(s, u, x).n == s.n && Leaked(Next(s, u, x), t)
  {
    hide FlowNext, BodyNext;
    if s.tpc[u] != Runs { BodyKeepsLeak(s, t, u); }
    else if Starts(s, u) { StartKeepsLeak(s, t, u, x); }
    else if Handles(s, u, x) { AcceptKeepsLeak(s, t, u, x); }
    else {
      FlowIsLocal(s, u, x);
      assert forall v :: Tid(s, v) ==> (InSwitch(FlowNext(s, u, x), v) <==> InSwitch(s, v));
    }
  }

  lemma BodyKeepsLeak(s: State, t: int, u: nat)
    requires Shape(s) && Leaked(s, t) && u < s.n && BodyEnabled(s, u)
    ensures Shape(BodyNext(s, u)) && BodyNext(s, u).n == s.n && Leaked(BodyNext(s, u), t)
  {
    var s' := BodyNext(s, u);
    assert InSwitch(s, u) <==> OBody(s.tpc[u]) && s.tpc[u] != ODone;
    forall v | Tid(s', v) && InSwitch(s', v) ensures v != t && s'.peer[v] != t { assert InSwitch(s, v); }
  }

  lemma StartKeepsLeak(s: State, t: int, u: nat, x: int)
    requires Shape(s) && Leaked(s, t) && Enabled(s, u) && Starts(s, u)
    ensures Shape(FlowNext(s, u, x)) && FlowNext(s, u, x).n == s.n && Leaked(FlowNext(s, u, x), t)
  {
    var s' := TryStart(s, u);
    forall v | Tid(s', v) && InSwitch(s', v) ensures v != t && s'.peer[v] != t { assert v != u ==> InSwitch(s, v); }
  }

  lemma AcceptKeepsLeak(s: State, t: int, u: nat, x: int)
    requires Shape(s) && Leaked(s, t) && Enabled(s, u) && Handles(s, u, x)
    ensures Shape(FlowNext(s, u, x)) && FlowNext(s, u, x).n == s.n && Leaked(FlowNext(s, u, x), t)
  {
    var s' := FlowNext(s, u, x);
    forall v | Tid(s', v) && InSwitch(s', v) ensures v != t && s'.peer[v] != t { assert InSwitch(s, v); }
  }

  /** A leaked flag stays: whatever happens afterwards, no switch is ever again led by that thread or targets it. */
  lemma {:induction false} LeakedFlagStays(tr: seq<State>, t: int, k: nat)
    requires IsPath(tr) && Shape(tr[0]) && Leaked(tr[0], t) && k < |tr|
    ensures Shape(tr[k]) && tr[k].n == tr[0].n && Leaked(tr[k], t)
  {
    hide Enabled, Next, Leaked;
    if k > 0 {
      LeakedFlagStays(tr, t, k - 1);
      assert Step(tr[k - 1], tr[k - 1 + 1]);
      var u: nat, x :| Enabled(tr[k - 1], u) && tr[k] == Next(tr[k - 1], u, x);
      StepKeepsLeak(tr[k - 1], t, u, x);
    }
  }

  // ----- everybody gets home

  /** `home` gives every flow its own thread. */
  ghost predicate Homes(n: nat, home: seq<int>) {
    && |home| == n
    && (forall f :: 0 <= f < n ==> 0 <= home[f] < n)
    && (forall f, g :: 0 <= f < g < n ==> home[f] != home[g])
  }

  /** Every flow that wants to be somewhere wants to be home. */
  ghost predicate Homing(s: State, home: seq<int>)
    requires Shape(s) && |home| == s.n
  {
    forall f :: Tid(s, f) && s.fpc[f] != Idle ==> s.dest[f] == home[f]
  }

  ghost predicate HomingRun(tr: seq<State>, home: seq<int>) {
    && IsRun(tr) && Homes(tr[0].n, home)
    && forall i :: 0 <= i < |tr| ==> Shape(tr[i]) && tr[i].n == tr[0].n && Homing(tr[i], home)
  }

  ghost function AwayBits(s: State, home: seq<int>): seq<int>
    requires Shape(s) && ResidentInv(s) && |home| == s.n
  {
    seq(s.n, t requires 0 <= t < s.n => if home[s.res[t]] == t then 0 else 1)
  }

  /** How many flows are not at home. */
  ghost function Away(s: State, home: seq<int>): int
    requires Shape(s) && ResidentInv(s) && |home| == s.n
  {
    Sum(AwayBits(s, home))
  }

  /** Both flows of a completed switch were away, and the originator's is home afterwards. */
  lemma SwitchBringsHome(s: State, t: nat, home: seq<int>)
    requires Inv(s) && t < s.n && BodyEnabled(s, t) && s.tpc[t] == OEnd && Homes(s.n, home) && Homing(s, home)
    ensures Inv(EndSwitch(s, t)) && Away(EndSwitch(s, t), home) < Away(s, home)
    ensures Away(s, home) >= 2
  {
    EndSwitchKeeps(s, t);
    SwitchFlowsAway(s, t, home);
    hide Ok, Homing;
    var x := s.peer[t];
    var v := if home[s.res[x]] == t then 0 else 1;
    assert AwayBits(EndSwitch(s, t), home) == AwayBits(s, home)[t := v][x := 0];
    TwoBits(AwayBits(s, home), t, x, v);
  }

  lemma TwoBits(b: seq<int>, t: nat, x: nat, v: int)
    requires (forall i :: 0 <= i < |b| ==> 0 <= b[i] <= 1) && t < |b| && x < |b| && t != x
    requires b[t] == 1 && b[x] == 1 && 0 <= v <= 1
    ensures Sum(b) >= 2 && Sum(b[t := v][x := 0]) < Sum(b)
  {
    SumUpdate(b, t, v);
    SumUpdate(b[t := v], x, 0);
    SumUpdate(b, t, 0);
    SumNonNegative(b[t := 0]);
    assert b[t := 0][x] == 1 <= Sum(b[t := 0]);
  }

  lemma SwitchFlowsAway(s: State, t: nat, home: seq<int>)
    requires Inv(s) && t < s.n && BodyEnabled(s, t) && s.tpc[t] == OEnd && Homes(s.n, home) && Homing(s, home)
    ensures var x := s.peer[t];
            x != t && home[s.res[t]] == x && home[s.res[x]] != x
  {
    BodyRole(s, t);
    assert Ok(s, t) && Ok(s, s.res[t]);
  }

  lemma {:induction false} SwitchesUseUpAwayFlows(tr: seq<State>, home: seq<int>, k: nat)
    requires HomingRun(tr, home) && k < |tr|
    ensures Inv(tr[k]) && Inv(tr[0])
    ensures tr[k].switches + Away(tr[k], home) <= Away(tr[0], home)
    ensures tr[k].switches > 0 && Away(tr[k], home) == 0 ==> tr[k].switches < Away(tr[0], home)
    ensures Away(tr[k], home) >= 0
  {
    hide Inv, Enabled, Next, Homing;
    RunKeepsInv(tr, k);
    RunKeepsInv(tr, 0);
    AwayBounds(tr[k], home);
    if k > 0 {
      SwitchesUseUpAwayFlows(tr, home, k - 1);
      assert Step(tr[k - 1], tr[k - 1 + 1]);
      var t: nat, x :| Enabled(tr[k - 1], t) && tr[k] == Next(tr[k - 1], t, x);
      StepAndAway(tr[k - 1], t, x, home);
    }
  }

  lemma AwayBounds(s: State, home: seq<int>)
    requires Inv(s) && |home| == s.n
    ensures 0 <= Away(s, home) <= s.n
  {
    SumOfBits(AwayBits(s, home));
  }

  lemma StepAndAway(s: State, t: nat, x: int, home: seq<int>)
    requires Inv(s) && Enabled(s, t) && Homes(s.n, home) && Homing(s, home)
    ensures var s' := Next(s, t, x);
            && Inv(s') && s'.n == s.n
            && (if s.tpc[t] == OEnd
                then s'.switches == s.switches + 1 && Away(s', home) < Away(s, home) && Away(s, home) >= 2
                else s'.switches == s.switches && Away(s', home) == Away(s, home))
  {
    StepKeepsInv(s, t, x);
    if s.tpc[t] == OEnd {
      SwitchBringsHome(s, t, home);
    } else {
      StepMovesOnlySwitchedPair(s, t, x);
      assert AwayBits(Next(s, t, x), home) == AwayBits(s, home);
    }
  }

  /** With `n` threads, at most `n - 1` switches are ever completed, from any initial placement. */
  lemma AtMostNMinusOneSwitches(tr: seq<State>, home: seq<int>, k: nat)
    requires HomingRun(tr, home) && k < |tr| && tr[0].n > 0
    ensures tr[k].switches <= tr[0].n - 1
  {
    SwitchesUseUpAwayFlows(tr, home, k);
    AwayBounds(tr[0], home);
  }
}
