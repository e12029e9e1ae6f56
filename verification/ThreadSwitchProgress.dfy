/** No state of the thread-switch protocol is a trap: from every reachable state some interleaving brings
    every flow home. The proof gives, for every state with a flow away, one step that lowers a rank. */
module ThreadSwitchProgress {
  import opened Seqs
  import opened ThreadSwitch
  import opened ThreadSwitchProof
  import opened ThreadSwitchTheorems

  ghost predicate Switching(s: State)
    requires Shape(s)
  {
    exists t :: Tid(s, t) && s.mate[t] != -1
  }

  /** How far thread `t` is from the end of its part in a switch. */
  ghost function ThreadWeight(s: State, t: int): int
    requires Shape(s) && Tid(s, t)
  {
    match s.tpc[t]
    case OMail => 12 case OReq => 11 case OWake => 10 case OWait => 9 case OEnd => 8
    case TRead => 5 case TClear => 4 case TPost => 3
    case Runs => UnawareWeight(s, t)
    case ODone => 1 + UnawareWeight(s, t)
  }

  ghost function UnawareWeight(s: State, t: int): int
    requires Shape(s) && Tid(s, t)
  {
    if Tid(s, s.mate[t]) && s.mail[s.mate[t]] == -1 then 6 else 0
  }

  ghost function ThreadWeights(s: State): seq<int>
    requires Shape(s)
  {
    seq(s.n, t requires 0 <= t < s.n => ThreadWeight(s, t))
  }

  /** How far a flow is from looking for a request, while there is a switch; else from starting one. */
  function FlowWeight(switching: bool, p: FlowPc): int {
    match p
    case WaitDone => 5
    case After => 3
    case Checking => if switching then 1 else 4
    case Trying => if switching then 2 else 1
    case Idle => if switching then 0 else 2
  }

  ghost function FlowWeights(s: State): seq<int>
    requires Shape(s)
  {
    seq(s.n, f requires 0 <= f < s.n => FlowWeight(Switching(s), s.fpc[f]))
  }

  /** Lexicographic: flows away, whether there is no switch, thread weights, flow weights. */
  ghost predicate Lower(s': State, s: State, home: seq<int>)
    requires Inv(s) && Inv(s') && |home| == s.n == s'.n
  {
    || Away(s', home) < Away(s, home)
    || (&& Away(s', home) == Away(s, home)
        && (|| (!Switching(s) && Switching(s'))
            || (&& Switching(s) == Switching(s')
                && (|| Sum(ThreadWeights(s')) < Sum(ThreadWeights(s))
                    || (&& Sum(ThreadWeights(s')) == Sum(ThreadWeights(s))
                        && Sum(FlowWeights(s')) < Sum(FlowWeights(s)))))))
  }

  /** A step of a body other than the end of a switch lowers the weight of its thread. */
  lemma BodyLowers(s: State, t: nat, home: seq<int>)
    requires Inv(s) && t < s.n && BodyEnabled(s, t) && s.tpc[t] != OEnd && |home| == s.n
    ensures Inv(BodyNext(s, t)) && BodyNext(s, t).n == s.n && Lower(BodyNext(s, t), s, home)
  {
    var s' := BodyNext(s, t);
    StepKeepsInv(s, t, -1);
    assert AwayBits(s', home) == AwayBits(s, home);
    assert s'.mate == s.mate;
    assert Switching(s) == Switching(s');
    BodyWeights(s, t);
    SumUpdate(ThreadWeights(s), t, ThreadWeight(s', t));
  }

  lemma BodyWeights(s: State, t: nat)
    requires Inv(s) && t < s.n && BodyEnabled(s, t) && s.tpc[t] != OEnd
    ensures var s' := BodyNext(s, t);
            ThreadWeight(s', t) < ThreadWeight(s, t) && ThreadWeights(s') == ThreadWeights(s)[t := ThreadWeight(s', t)]
  {
    hide ThreadWeight, Ok;
    OwnWeight(s, t);
    forall u | Tid(s, u) && u != t ensures ThreadWeight(BodyNext(s, t), u) == ThreadWeight(s, u) {
      OtherWeight(s, t, u);
    }
  }

  lemma OwnWeight(s: State, t: nat)
    requires Inv(s) && t < s.n && BodyEnabled(s, t) && s.tpc[t] != OEnd
    ensures ThreadWeight(BodyNext(s, t), t) < ThreadWeight(s, t)
  {
    assert Ok(s, t);
    if s.mate[t] != -1 { assert Ok(s, s.mate[t]); }
  }

  /** The only weight that depends on another thread's mailbox is that of an unaware target, and its
      originator's mailbox is filled by that target alone. */
  lemma OtherWeight(s: State, t: nat, u: int)
    requires Inv(s) && t < s.n && BodyEnabled(s, t) && s.tpc[t] != OEnd && Tid(s, u) && u != t
    ensures ThreadWeight(BodyNext(s, t), u) == ThreadWeight(s, u)
  {
    if s.tpc[t] == OMail || s.tpc[t] == TClear || s.tpc[t] == TPost {
      BodyRole(s, t);
      assert Ok(s, u);
    }
  }

  /** A flow that only changes its own state, in the right direction, lowers the flow weights. */
  lemma LocalLowers(s: State, t: nat, p: FlowPc, d: int, home: seq<int>)
    requires Inv(s) && t < s.n && LocalOk(s, t, p, d) && |home| == s.n
    requires FlowWeight(Switching(s), p) < FlowWeight(Switching(s), s.fpc[s.cur[t]])
    ensures Inv(SetLocal(s, t, p, d)) && Lower(SetLocal(s, t, p, d), s, home)
  {
    var s' := SetLocal(s, t, p, d);
    LocalKeeps(s, t, p, d);
    assert AwayBits(s', home) == AwayBits(s, home);
    assert Switching(s) == Switching(s');
    assert ThreadWeights(s') == ThreadWeights(s);
    var w := FlowWeight(Switching(s), p);
    assert FlowWeights(s') == FlowWeights(s)[s.cur[t] := w];
    SumUpdate(FlowWeights(s), s.cur[t], w);
  }

  lemma AcceptLowers(s: State, t: nat, p: FlowPc, home: seq<int>)
    requires Inv(s) && t < s.n && s.tpc[t] == Runs && FlowEnabled(s, t) && s.req[t] != -1 && |home| == s.n
    requires var f := s.cur[t]; (s.fpc[f] == Idle && p == Idle) || (s.fpc[f] == Checking && p == After)
    ensures Inv(Accept(s, t, p)) && Lower(Accept(s, t, p), s, home)
  {
    var s' := Accept(s, t, p);
    AcceptKeeps(s, t, p);
    RunnerIsResident(s, t);
    assert Ok(s, t);
    assert Ok(s, s.mate[t]);
    assert AwayBits(s', home) == AwayBits(s, home);
    assert Switching(s) == Switching(s');
    assert ThreadWeights(s') == ThreadWeights(s)[t := 5];
    SumUpdate(ThreadWeights(s), t, 5);
  }

  /** The flow on an unaware target thread can move towards noticing the request. */
  lemma TargetAdvances(s: State, o: nat, home: seq<int>) returns (t: nat)
    requires Inv(s) && o < s.n && Homes(s.n, home) && Homing(s, home)
    requires s.mate[o] != -1 && s.lead[o] && s.tpc[o] == OWait && s.mail[o] == -1
    ensures Enabled(s, t) && Next(s, t, -1).n == s.n && Inv(Next(s, t, -1)) && Lower(Next(s, t, -1), s, home)
  {
    assert Ok(s, o);
    var x := s.mate[o];
    assert Ok(s, x);
    assert Switching(s);
    if s.tpc[x] != Runs {
      t := x;
      assert s.tpc[x] == ODone ==> Tid(s, s.own[x]);
      BodyLowers(s, x, home);
    } else {
      t := FlowAdvances(s, x, home);
    }
  }

  /** The step of a flow that neither starts nor accepts a switch, as a change of its own state. */
  lemma LocalNext(s: State, t: nat, x: int, p: FlowPc, d: int)
    requires Inv(s) && t < s.n && s.tpc[t] == Runs && FlowEnabled(s, t) && s.cur[t] == s.res[t]
    requires var f := s.cur[t];
             match s.fpc[f]
             case Idle => Tid(s, x) && x != t && p == Trying && d == x
             case Trying => (s.busy[t] || s.busy[s.dest[f]]) && p == Checking && d == s.dest[f]
             case Checking => s.req[t] == -1 && p == After && d == s.dest[f]
             case After => p == (if s.dest[f] == t then Idle else Trying) && d == s.dest[f]
             case WaitDone => p == Idle && d == s.dest[f]
    ensures LocalOk(s, t, p, d) && Next(s, t, x) == SetLocal(s, t, p, d)
  {
    var f := s.cur[t];
    assert Ok(s, f);
    assert s.dest[f := s.dest[f]] == s.dest;
    assert s.fpc[f] != WaitDone ==> s.done[f := false] == s.done;
  }

  lemma LocalAdvances(s: State, t: nat, x: int, p: FlowPc, d: int, home: seq<int>)
    requires Inv(s) && t < s.n && LocalOk(s, t, p, d) && Next(s, t, x) == SetLocal(s, t, p, d) && |home| == s.n
    requires FlowWeight(Switching(s), p) < FlowWeight(Switching(s), s.fpc[s.cur[t]])
    ensures Next(s, t, x).n == s.n && Inv(Next(s, t, x)) && Lower(Next(s, t, x), s, home)
  {
    hide Ok, Lower, Next, Switching;
    LocalLowers(s, t, p, d, home);
  }

  /** A flow on thread `x`, which is asked to switch, advances; or the body it waits for does. */
  lemma FlowAdvances(s: State, x: nat, home: seq<int>) returns (t: nat)
    requires Inv(s) && x < s.n && s.tpc[x] == Runs && s.cur[x] == s.res[x] && s.req[x] != -1 && s.mate[x] != -1
    requires |home| == s.n && s.busy[x]
    ensures Enabled(s, t) && Next(s, t, -1).n == s.n && Inv(Next(s, t, -1)) && Lower(Next(s, t, -1), s, home)
  {
    var h := s.cur[x];
    assert FlowOk(s, h) by { assert Ok(s, h); }
    hide Lower, Ok, Switching, SetLocal, TryStart;
    SwitchingWitness(s, x);
    t := x;
    match s.fpc[h]
    case Idle => AcceptLowers(s, x, Idle, home);
    case Checking => AcceptLowers(s, x, After, home);
    case WaitDone =>
      if s.done[h] {
        LocalNext(s, x, -1, Idle, s.dest[h]);
        LocalAdvances(s, x, -1, Idle, s.dest[h], home);
      } else {
        t := DoneAdvances(s, x, home);
      }
    case Trying =>
      LocalNext(s, x, -1, Checking, s.dest[h]);
      LocalAdvances(s, x, -1, Checking, s.dest[h], home);
    case After =>
      var p := if s.dest[h] == x then Idle else Trying;
      LocalNext(s, x, -1, p, s.dest[h]);
      LocalAdvances(s, x, -1, p, s.dest[h], home);
  }

  lemma SwitchingWitness(s: State, x: nat)
    requires Shape(s) && x < s.n && s.mate[x] != -1
    ensures Switching(s)
  {
  }

  /** A flow that runs and waits for `done` waits for a body that is about to set it. */
  lemma DoneAdvances(s: State, x: nat, home: seq<int>) returns (t: nat)
    requires Inv(s) && x < s.n && s.tpc[x] == Runs && s.cur[x] == s.res[x]
    requires s.fpc[s.cur[x]] == WaitDone && !s.done[s.cur[x]] && |home| == s.n
    ensures t < s.n && s.tpc[t] == ODone
    ensures Enabled(s, t) && Next(s, t, -1).n == s.n && Inv(Next(s, t, -1)) && Lower(Next(s, t, -1), s, home)
  {
    var h := s.cur[x];
    assert Ok(s, h);
    t := s.agent[h];
    assert Ok(s, t);
    if s.tpc[t] != ODone { BodyRole(s, t); }
    BodyLowers(s, t, home);
  }

  /** While there is a switch, some step brings it closer to its end. */
  lemma SwitchAdvances(s: State, home: seq<int>) returns (t: nat)
    requires Inv(s) && Switching(s) && Homes(s.n, home) && Homing(s, home)
    ensures Enabled(s, t) && Next(s, t, -1).n == s.n && Inv(Next(s, t, -1)) && Lower(Next(s, t, -1), s, home)
  {
    var u :| Tid(s, u) && s.mate[u] != -1;
    assert Ok(s, u);
    assert Ok(s, s.mate[u]);
    var o := if s.lead[u] then u else s.mate[u];
    if s.tpc[o] == OWait && s.mail[o] == -1 {
      t := TargetAdvances(s, o, home);
    } else {
      t := o;
      BodyRole(s, o);
      if s.tpc[o] == OEnd { SwitchBringsHome(s, o, home); } else { BodyLowers(s, o, home); }
    }
  }

  /** Without a switch, a flow away from home gets closer to starting one. */
  lemma StartAdvances(s: State, home: seq<int>, x: nat) returns (t: nat)
    requires Inv(s) && !Switching(s) && Homes(s.n, home) && Homing(s, home)
    requires x < s.n && home[s.res[x]] != x
    ensures Enabled(s, t) && (s.tpc[t] == Runs ==> s.cur[t] == s.res[x])
    ensures var s' := Next(s, t, home[s.res[x]]); s'.n == s.n && Inv(s') && Lower(s', s, home)
  {
    assert Ok(s, x);
    var h := s.res[x];
    var y := home[h];
    assert FlowOk(s, h) by { assert Ok(s, h); }
    hide Lower, Ok, Switching;
    t := x;
    if s.tpc[x] == ODone {
      BodyLowers(s, x, home);
    } else if s.fpc[h] == Trying {
      TryStartLowers(s, x, home);
    } else if s.fpc[h] == WaitDone && !s.done[h] {
      t := DoneAdvances(s, x, home);
    } else {
      var p := match s.fpc[h] case Idle => Trying case Checking => After case After => Trying case _ => Idle;
      LocalNext(s, x, y, p, y);
      LocalAdvances(s, x, y, p, y, home);
    }
  }

  lemma TryStartLowers(s: State, x: nat, home: seq<int>)
    requires Inv(s) && !Switching(s) && x < s.n && |home| == s.n
    requires s.tpc[x] == Runs && FlowEnabled(s, x) && s.fpc[s.cur[x]] == Trying
    ensures Inv(TryStart(s, x)) && Lower(TryStart(s, x), s, home)
  {
    var y := s.dest[s.cur[x]];
    assert Ok(s, x) && Ok(s, y);
    TryStartKeeps(s, x);
    assert TryStart(s, x).mate[x] == y;
    assert AwayBits(TryStart(s, x), home) == AwayBits(s, home);
  }

  lemma StepKeepsHoming(s: State, t: nat, x: int, home: seq<int>)
    requires Enabled(s, t) && |home| == s.n && Homing(s, home)
    requires s.tpc[t] == Runs && Tid(s, x) ==> x == home[s.cur[t]]
    ensures Shape(Next(s, t, x)) && Next(s, t, x).n == s.n && Homing(Next(s, t, x), home)
  {
    hide FlowNext, BodyNext;
    if s.tpc[t] == Runs { FlowKeepsHoming(s, t, x, home); } else { BodyLeavesFlows(s, t); }
  }

  lemma BodyLeavesFlows(s: State, t: nat)
    requires Shape(s) && t < s.n && BodyEnabled(s, t)
    ensures var s' := BodyNext(s, t); Shape(s') && s'.n == s.n && s'.fpc == s.fpc && s'.dest == s.dest
  {
  }

  /** A flow changes its own state only, and its destination only when it reverts. */
  ghost predicate OnlyOwnFlow(s: State, s': State, f: int, d: int)
    requires Shape(s) && Tid(s, f)
  {
    && Shape(s') && s'.n == s.n && s'.fpc == s.fpc[f := s'.fpc[f]] && s'.dest == s.dest[f := s'.dest[f]]
    && (s'.fpc[f] == Idle || (s.fpc[f] != Idle && s'.dest[f] == s.dest[f]) || s'.dest[f] == d)
  }

  lemma FlowChangesItself(s: State, t: nat, x: int)
    requires Enabled(s, t) && s.tpc[t] == Runs
    ensures OnlyOwnFlow(s, FlowNext(s, t, x), s.cur[t], if Tid(s, x) then x else s.dest[s.cur[t]])
  {
    hide TryStart;
    if s.fpc[s.cur[t]] == Trying { TryStartChangesItself(s, t); }
  }

  lemma TryStartChangesItself(s: State, t: nat)
    requires Enabled(s, t) && s.tpc[t] == Runs && s.fpc[s.cur[t]] == Trying
    ensures OnlyOwnFlow(s, TryStart(s, t), s.cur[t], s.dest[s.cur[t]])
  {
  }

  lemma FlowKeepsHoming(s: State, t: nat, x: int, home: seq<int>)
    requires Enabled(s, t) && |home| == s.n && Homing(s, home) && s.tpc[t] == Runs
    requires Tid(s, x) ==> x == home[s.cur[t]]
    ensures var s' := FlowNext(s, t, x); Shape(s') && s'.n == s.n && Homing(s', home)
  {
    FlowChangesItself(s, t, x);
    hide FlowNext;
    var s', f := FlowNext(s, t, x), s.cur[t];
    if !Tid(s, x) && s'.fpc[f] != Idle { IdleStays(s, t, x); }
    forall g | Tid(s', g) && s'.fpc[g] != Idle ensures s'.dest[g] == home[g] {
      if g != f { assert s'.fpc[g] == s.fpc[g] && s'.dest[g] == s.dest[g]; }
    }
  }

  /** An idle flow that does not revert stays idle. */
  lemma IdleStays(s: State, t: nat, x: int)
    requires Enabled(s, t) && s.tpc[t] == Runs && !Tid(s, x)
    ensures s.fpc[s.cur[t]] == Idle ==> FlowNext(s, t, x).fpc[s.cur[t]] == Idle
  {
  }

  lemma WeightsNonNegative(s: State)
    requires Shape(s)
    ensures Sum(ThreadWeights(s)) >= 0 && Sum(FlowWeights(s)) >= 0
  {
    SumNonNegative(ThreadWeights(s));
    SumNonNegative(FlowWeights(s));
  }

  /** From a state with a flow away, one step of the protocol lowers the rank. */
  lemma Advance(s: State, home: seq<int>) returns (s': State)
    requires Inv(s) && Homes(s.n, home) && Homing(s, home) && Away(s, home) > 0
    ensures Step(s, s') && s'.n == s.n && Inv(s') && Homing(s', home) && Lower(s', s, home)
  {
    hide Ok, Lower, Switching, Enabled, Next, Homing;
    if Switching(s) {
      var t := SwitchAdvances(s, home);
      s' := Next(s, t, -1);
      StepKeepsHoming(s, t, -1, home);
    } else {
      var x := SomeoneAway(s, home);
      var t := StartAdvances(s, home, x);
      s' := Next(s, t, home[s.res[x]]);
      StepKeepsHoming(s, t, home[s.res[x]], home);
    }
  }

  lemma SomeoneAway(s: State, home: seq<int>) returns (x: nat)
    requires Inv(s) && Homes(s.n, home) && Away(s, home) > 0
    ensures x < s.n && home[s.res[x]] != x
  {
    SumOfBits(AwayBits(s, home));
    x :| x < s.n && AwayBits(s, home)[x] != 0;
  }

  // ----- once everybody is home

  /** The flow of the thread that leads a switch wants the other thread. */
  lemma LeaderWantsMate(s: State, o: int)
    requires Inv(s) && Tid(s, o) && s.mate[o] != -1 && s.lead[o]
    ensures s.mate[o] != o && s.dest[s.res[o]] == s.mate[o] && s.fpc[s.res[o]] == WaitDone
  {
    assert Ok(s, o);
    assert FlowOk(s, s.res[o]) by { assert Ok(s, s.res[o]); }
  }

  lemma MatesLead(s: State, t: int)
    requires Inv(s) && Tid(s, t) && s.mate[t] != -1
    ensures var m := s.mate[t]; Tid(s, m) && s.mate[m] == t && (s.lead[t] || s.lead[m])
  {
    assert Ok(s, t);
  }

  lemma SoloFlow(s: State, t: int)
    requires Inv(s) && Tid(s, t) && s.mate[t] == -1
    ensures SoloOk(s, t) && FlowOk(s, s.res[t]) && s.host[s.res[t]] == t
  {
    assert Ok(s, t);
    assert Ok(s, s.res[t]);
  }

  /** Whoever is home takes part in no switch and wants no other thread. */
  lemma HomeIsQuiet(s: State, home: seq<int>, t: int)
    requires Inv(s) && Homes(s.n, home) && Homing(s, home) && Away(s, home) == 0 && Tid(s, t)
    ensures home[s.res[t]] == t && s.mate[t] == -1 && SoloOk(s, t)
    ensures var f := s.res[t];
            && (s.fpc[f] == Idle || s.fpc[f] == After || s.fpc[f] == WaitDone)
            && (s.fpc[f] != Idle ==> s.dest[f] == t)
  {
    hide Ok;
    NobodyAway(s, home);
    if s.mate[t] != -1 {
      MatesLead(s, t);
      LeaderWantsMate(s, if s.lead[t] then t else s.mate[t]);
      assert false;
    }
    SoloFlow(s, t);
  }

  lemma NobodyAway(s: State, home: seq<int>)
    requires Inv(s) && |home| == s.n && Away(s, home) == 0
    ensures forall t :: Tid(s, t) ==> home[s.res[t]] == t
  {
    SumOfBits(AwayBits(s, home));
    assert forall t :: Tid(s, t) ==> AwayBits(s, home)[t] == 0;
  }

  ghost function JumpBits(s: State): seq<int>
    requires Shape(s)
  {
    seq(s.n, t requires 0 <= t < s.n => if s.tpc[t] == ODone then 1 else 0)
  }

  ghost function BusyBits(s: State): seq<int>
    requires Shape(s)
  {
    seq(s.n, f requires 0 <= f < s.n => if s.fpc[f] == Idle then 0 else 1)
  }

  /** How many bodies still have to jump, and how many flows have not left `switch_to`. */
  ghost function Unsettled(s: State): (m: int)
    requires Shape(s)
    ensures m >= 0
    ensures m == 0 <==> forall u :: Tid(s, u) ==> s.tpc[u] != ODone && s.fpc[u] == Idle
  {
    SumOfBits(JumpBits(s));
    SumOfBits(BusyBits(s));
    assert forall u :: Tid(s, u) ==>
                         (JumpBits(s)[u] == 0 <==> s.tpc[u] != ODone) && (BusyBits(s)[u] == 0 <==> s.fpc[u] == Idle);
    Sum(JumpBits(s)) + Sum(BusyBits(s))
  }

  /** A body about to jump does so. */
  lemma JumpSettles(s: State, home: seq<int>, t: nat)
    requires Inv(s) && |home| == s.n && Away(s, home) == 0 && t < s.n && s.tpc[t] == ODone
    ensures Enabled(s, t) && Inv(Next(s, t, -1)) && Next(s, t, -1).n == s.n
    ensures Away(Next(s, t, -1), home) == 0 && Unsettled(Next(s, t, -1)) < Unsettled(s)
  {
    assert AgentOk(s, t) by { assert Ok(s, t); }
    StepKeepsInv(s, t, -1);
    hide Ok;
    var s' := Next(s, t, -1);
    assert AwayBits(s', home) == AwayBits(s, home);
    assert JumpBits(s') == JumpBits(s)[t := 0] && BusyBits(s') == BusyBits(s);
    SumUpdate(JumpBits(s), t, 0);
  }

  /** When all have jumped, a flow that is not idle leaves `switch_to`. */
  lemma ReturnSettles(s: State, home: seq<int>, f: nat)
    requires Inv(s) && Homes(s.n, home) && Homing(s, home) && Away(s, home) == 0
    requires f < s.n && s.fpc[f] != Idle && forall u :: Tid(s, u) ==> s.tpc[u] != ODone
    ensures var t := s.host[f];
            && Enabled(s, t) && Inv(Next(s, t, -1)) && Next(s, t, -1).n == s.n
            && Away(Next(s, t, -1), home) == 0 && Unsettled(Next(s, t, -1)) < Unsettled(s)
  {
    var t := s.host[f];
    ReturnEnabled(s, home, f);
    StepKeepsInv(s, t, -1);
    hide Ok, Homing;
    var s' := Next(s, t, -1);
    assert AwayBits(s', home) == AwayBits(s, home);
    assert JumpBits(s') == JumpBits(s) && BusyBits(s') == BusyBits(s)[f := 0];
    SumUpdate(BusyBits(s), f, 0);
  }

  lemma ReturnEnabled(s: State, home: seq<int>, f: nat)
    requires Inv(s) && Homes(s.n, home) && Homing(s, home) && Away(s, home) == 0
    requires f < s.n && s.fpc[f] != Idle && forall u :: Tid(s, u) ==> s.tpc[u] != ODone
    ensures var t := s.host[f];
            && Tid(s, t) && s.tpc[t] == Runs && s.cur[t] == f && Enabled(s, t) && s.dest[f] == t
            && (s.fpc[f] == After || (s.fpc[f] == WaitDone && s.done[f]))
  {
    HomeIsQuiet(s, home, s.host[f]);
    assert Ok(s, f);
    if s.agent[f] != -1 {
      HomeIsQuiet(s, home, s.agent[f]);
      assert false;
    }
  }

  /** Every thread runs its own flow, which is back in user code. */
  ghost predicate Settled(s: State, home: seq<int>)
    requires Shape(s) && |home| == s.n
  {
    forall t :: Tid(s, t) ==> s.tpc[t] == Runs && Tid(s, s.cur[t]) && home[s.cur[t]] == t && s.fpc[s.cur[t]] == Idle
  }

  lemma HomeAndSettled(s: State, home: seq<int>)
    requires Inv(s) && Homes(s.n, home) && Homing(s, home) && Away(s, home) == 0 && Unsettled(s) == 0
    ensures Settled(s, home)
  {
    forall t | Tid(s, t)
      ensures s.tpc[t] == Runs && Tid(s, s.cur[t]) && home[s.cur[t]] == t && s.fpc[s.cur[t]] == Idle
    {
      HomeIsQuiet(s, home, t);
    }
  }

  /** A path of the protocol in which flows only revert home. */
  ghost predicate HomingPath(tr: seq<State>, home: seq<int>) {
    && IsPath(tr) && Homes(tr[0].n, home)
    && forall i :: 0 <= i < |tr| ==> Inv(tr[i]) && tr[i].n == tr[0].n && Homing(tr[i], home)
  }

  lemma SettleStep(s: State, home: seq<int>) returns (s': State)
    requires Inv(s) && Homes(s.n, home) && Homing(s, home) && Away(s, home) == 0 && Unsettled(s) > 0
    ensures Step(s, s') && Inv(s') && s'.n == s.n && Homing(s', home)
    ensures Away(s', home) == 0 && Unsettled(s') < Unsettled(s)
  {
    hide Ok, Homing, Enabled, Next, Away, Unsettled;
    var t := SomeoneSettles(s, home);
    StepKeepsHoming(s, t, -1, home);
    s' := Next(s, t, -1);
  }

  /** With everybody home, the bodies jump and the flows return. */
  lemma {:induction false} Settle(s: State, home: seq<int>) returns (tr: seq<State>)
    requires Inv(s) && Homes(s.n, home) && Homing(s, home) && Away(s, home) == 0
    ensures HomingPath(tr, home) && tr[0] == s && Settled(tr[|tr| - 1], home)
    decreases Unsettled(s)
  {
    hide Ok, Homing, Away, Unsettled, Settled, Step;
    if Unsettled(s) == 0 {
      HomeAndSettled(s, home);
      tr := [s];
    } else {
      var s' := SettleStep(s, home);
      var rest := Settle(s', home);
      tr := Prepend(s, rest, home);
    }
  }

  lemma SomeoneSettles(s: State, home: seq<int>) returns (t: nat)
    requires Inv(s) && Homes(s.n, home) && Homing(s, home) && Away(s, home) == 0 && Unsettled(s) > 0
    ensures Enabled(s, t) && Inv(Next(s, t, -1)) && Next(s, t, -1).n == s.n
    ensures Away(Next(s, t, -1), home) == 0 && Unsettled(Next(s, t, -1)) < Unsettled(s)
  {
    hide Ok, Homing, Enabled, Next;
    if u :| Tid(s, u) && s.tpc[u] == ODone {
      t := u;
      JumpSettles(s, home, t);
    } else {
      var f: nat :| f < s.n && s.fpc[f] != Idle;
      t := s.host[f];
      ReturnSettles(s, home, f);
    }
  }

  // ----- the way home

  /** From every state that keeps the invariant there is a way home for everybody, and out of `switch_to`. */
  lemma {:induction false} WayHome(s: State, home: seq<int>) returns (tr: seq<State>)
    requires Inv(s) && Homes(s.n, home) && Homing(s, home)
    ensures HomingPath(tr, home) && tr[0] == s && Settled(tr[|tr| - 1], home)
    decreases Away(s, home), !Switching(s), Sum(ThreadWeights(s)), Sum(FlowWeights(s))
  {
    AwayBounds(s, home);
    WeightsNonNegative(s);
    if Away(s, home) == 0 {
      tr := Settle(s, home);
    } else {
      var s' := Advance(s, home);
      AwayBounds(s', home);
      WeightsNonNegative(s');
      var rest := WayHome(s', home);
      tr := Prepend(s, rest, home);
    }
  }

  lemma Prepend(s: State, tr: seq<State>, home: seq<int>) returns (tr': seq<State>)
    requires HomingPath(tr, home) && Step(s, tr[0]) && Inv(s) && s.n == tr[0].n && |home| == s.n && Homing(s, home)
    ensures tr' == [s] + tr && HomingPath(tr', home)
  {
    hide Ok, Homing, Step, Homes;
    tr' := [s] + tr;
    forall i | 0 <= i < |tr'| - 1 ensures Step(tr'[i], tr'[i + 1]) {
      if i > 0 { assert Step(tr[i - 1], tr[i - 1 + 1]); }
    }
  }

  /** No reachable state is stuck short of home: every run of homing flows extends, by flows that go home only, to
      one that ends with every thread running its own flow and every `switch_to` returned. */
  lemma EveryRunCanGetHome(tr: seq<State>, home: seq<int>) returns (more: seq<State>)
    requires HomingRun(tr, home)
    ensures HomingPath(more, home) && more[0] == tr[|tr| - 1] && Settled(more[|more| - 1], home)
  {
    RunKeepsInv(tr, |tr| - 1);
    more := WayHome(tr[|tr| - 1], home);
  }
}
