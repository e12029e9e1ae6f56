/** With exactly one awaiter the copyable frame behaves as the single frame: every run of it is, up to
    stuttering, a run of the single frame with the same calls and the same jumps. */
module SpawnSimulation {
  import C = CopyableSpawnFrame
  import S = SpawnFrame

  /** The single frame's view of the state word. `AllDone` stands for how it was reached. */
  function AbsSync(c: C.State): S.SyncState {
    match c.sync
    case InitialState => S.InitialState
    case AsyncStarted => S.AsyncStarted
    case AsyncFinishing => S.AsyncFinished
    case MainFinishing => S.MainFinishing
    case MainFinished => S.MainFinished
    case AllDone =>
      if c.worker == C.WGone then S.InitialState
      else if C.Switching(C.First(c)) || c.toAwait > 0 then S.MainFinished
      else S.AsyncFinished
  }

  function AbsWorker(p: C.WorkerPc): S.WorkerPc {
    match p
    case WQueued => S.WQueued case WGone => S.WGone case WStart => S.WStart case WSignal => S.WSignal
    case WRun => S.WRun case WCas => S.WCas
    case WNotifyEarly => S.WLeave case WDoneEarly => S.WLeave
    case WWaitMain => S.WWaitMain
    case WDoneLate => S.WJump case WNotifyLate => S.WJump case WJump => S.WJump
    case WDone => S.WDone
  }

  function AbsAwaiter(p: C.AwaiterPc, jumpedTo: bool): S.AwaiterPc {
    match p
    case Arriving => S.ALoad case FLoad => S.ALoad case FExtract => S.AExtract case FRun => S.ARun
    case FStoreDone => S.ALeave case FNotify => S.ALeave
    case FWaitStarted => S.AWaitStarted case FCas => S.ACas
    case FStoreCc => S.AStoreCc case FReadSecond => S.APublish case FPublish => S.APublish case FJumped => S.AJumped
    case FWaitDone => S.ALeave
    case LLoad => S.ALoad case LSuspended => S.ALoad case LAlone => S.ALoad case LeftEarly => S.AReturned
    case Returned => if jumpedTo then S.AJumped else S.AReturned
  }

  /** The state of the single frame that state `c` of the copyable frame stands for. */
  function Abs(c: C.State): S.State
    requires |c.awaiters| == 1
  {
    S.State(AbsSync(c),
            if c.firstAwait == C.Null then S.Null else S.AwaitCc,
            if c.secondary == C.ThreadCc then S.ThreadCc else S.Null,
            AbsWorker(c.worker), AbsAwaiter(c.awaiters[0], c.toAwait > 0),
            c.calls, c.toAwait, c.toWorker)
  }

  /** Steps of the copyable frame that the single frame does not notice: counting the awaiter, notifying,
      publishing all_done, and reading the worker's continuation early. */
  predicate Silent(c: C.State, a: int)
    requires |c.awaiters| == 1
  {
    if a == -1 then c.worker.WNotifyEarly? || c.worker.WDoneLate? || c.worker.WNotifyLate?
    else c.awaiters[0].Arriving? || c.awaiters[0].FStoreDone? || c.awaiters[0].FReadSecond?
  }

  function ActorOf(a: int): S.Actor { if a == -1 then S.Worker else S.Awaiter }

  lemma OneAwaiter(c: C.State)
    requires C.Inv(c) && |c.awaiters| == 1
    ensures if c.awaiters[0] == C.Arriving then c.first == -1 && c.count == 0 && C.First(c) == C.Arriving
            else c.first == 0 && c.count > 0 && C.First(c) == c.awaiters[0]
                 && (C.Late(c.awaiters[0]) ==> c.awaiters[0] == C.Returned)
  {
  }

  lemma WorkerStepSimulated(c: C.State)
    requires C.Inv(c) && |c.awaiters| == 1 && C.WorkerEnabled(c)
    ensures if Silent(c, -1) then Abs(C.WorkerNext(c)) == Abs(c)
            else S.Enabled(Abs(c), S.Worker) && Abs(C.WorkerNext(c)) == S.Next(Abs(c), S.Worker)
  {
    hide C.Inv, Abs;
    if WorkerWorks(c.worker) { WorkSimulated(c); } else { CompletionSimulated(c); }
  }

  /** The worker has not come to its compare-and-swap. */
  predicate WorkerWorks(p: C.WorkerPc) { p.WQueued? || p.WStart? || p.WSignal? || p.WRun? }

  lemma WorkSimulated(c: C.State)
    requires C.Inv(c) && |c.awaiters| == 1 && C.WorkerEnabled(c) && WorkerWorks(c.worker)
    ensures S.Enabled(Abs(c), S.Worker) && Abs(C.WorkerNext(c)) == S.Next(Abs(c), S.Worker)
  {
  }

  lemma CompletionSimulated(c: C.State)
    requires C.Inv(c) && |c.awaiters| == 1 && C.WorkerEnabled(c) && !WorkerWorks(c.worker)
    ensures if Silent(c, -1) then Abs(C.WorkerNext(c)) == Abs(c)
            else S.Enabled(Abs(c), S.Worker) && Abs(C.WorkerNext(c)) == S.Next(Abs(c), S.Worker)
  {
  }

  /** `s'` is what the single frame makes of an awaiter step from `c`: nothing, one step, or two. */
  predicate AwaiterSimulated(c: C.State, s': S.State)
    requires |c.awaiters| == 1
  {
    var s := Abs(c);
    if Silent(c, 0) then s' == s
    else
      && S.Enabled(s, S.Awaiter)
      && if c.awaiters[0].FPublish? then
           S.Enabled(S.Next(s, S.Awaiter), S.Awaiter) && s' == S.Next(S.Next(s, S.Awaiter), S.Awaiter)
         else s' == S.Next(s, S.Awaiter)
  }

  /** Before the first awaiter takes the task or goes for a switch. */
  lemma Undecided(c: C.State)
    requires C.Inv(c) && |c.awaiters| == 1
    requires var p := c.awaiters[0];
             p.Arriving? || p.FLoad? || p.FExtract? || p.FWaitStarted? || p.FCas? || p.FWaitDone?
    ensures c.worker != C.WGone && c.toAwait == 0 && c.firstAwait == C.Null
    ensures c.worker == C.WQueued ==> c.sync == C.InitialState
    ensures c.awaiters[0].FWaitDone? ==> c.sync != C.AsyncStarted
    ensures AbsSync(c) == S.InitialState <==> c.sync == C.InitialState
    ensures AbsSync(c) == S.AsyncStarted <==> c.sync == C.AsyncStarted
  {
    OneAwaiter(c);
  }

  lemma AbsWorkerQueued(p: C.WorkerPc)
    ensures AbsWorker(p) == S.WQueued <==> p == C.WQueued
    ensures AbsWorker(C.WGone) == S.WGone
  {
  }

  /** The abstract state word depends only on these. */
  lemma AbsSyncSame(c: C.State, c': C.State)
    requires c'.sync == c.sync && c'.worker == c.worker && c'.toAwait == c.toAwait
    requires C.Switching(C.First(c')) == C.Switching(C.First(c))
    ensures AbsSync(c') == AbsSync(c)
  {
  }

  /** Arriving, and looking for the task. */
  lemma ArrivalSimulated(c: C.State)
    requires C.Inv(c) && |c.awaiters| == 1 && C.AwaiterEnabled(c, 0)
    requires var p := c.awaiters[0]; p.Arriving? || p.FLoad? || p.FExtract?
    ensures AwaiterSimulated(c, Abs(C.AwaiterNext(c, 0)))
  {
    hide C.Inv, AbsWorker, AbsSync;
    OneAwaiter(c);
    Undecided(c);
    AbsWorkerQueued(c.worker);
    var c' := C.AwaiterNext(c, 0);
    if c'.worker == c.worker {
      AbsSyncSame(c, c');
    } else {
      InitialStays(c');
    }
  }

  lemma AbsMainFinishing(c: C.State)
    requires c.sync == C.MainFinishing
    ensures AbsSync(c) == S.MainFinishing
  {
  }

  lemma InitialStays(c: C.State)
    requires c.sync == C.InitialState
    ensures AbsSync(c) == S.InitialState
  {
  }

  /** Executing the task in place. */
  lemma InPlaceSimulated(c: C.State)
    requires C.Inv(c) && |c.awaiters| == 1 && C.AwaiterEnabled(c, 0)
    requires var p := c.awaiters[0]; p.FRun? || p.FStoreDone? || p.FNotify?
    ensures AwaiterSimulated(c, Abs(C.AwaiterNext(c, 0)))
  {
    OneAwaiter(c);
    hide C.LateInv;
    assert C.First(C.AwaiterNext(c, 0)) == C.AwaiterNext(c, 0).awaiters[0];
  }

  /** Deciding whether to switch threads. */
  lemma CasSimulated(c: C.State)
    requires C.Inv(c) && |c.awaiters| == 1 && C.AwaiterEnabled(c, 0)
    requires var p := c.awaiters[0]; p.FWaitStarted? || p.FCas? || p.FWaitDone?
    ensures AwaiterSimulated(c, Abs(C.AwaiterNext(c, 0)))
  {
    hide C.Inv, AbsWorker, AbsSync;
    OneAwaiter(c);
    Undecided(c);
    var c' := C.AwaiterNext(c, 0);
    if c'.sync == c.sync { AbsSyncSame(c, c'); } else { AbsMainFinishing(c'); }
  }

  /** Switching threads. */
  lemma SwitchSimulated(c: C.State)
    requires C.Inv(c) && |c.awaiters| == 1 && C.AwaiterEnabled(c, 0)
    requires var p := c.awaiters[0]; p.FStoreCc? || p.FReadSecond? || p.FPublish?
    ensures AwaiterSimulated(c, Abs(C.AwaiterNext(c, 0)))
  {
    OneAwaiter(c);
    hide C.LateInv;
    assert C.First(C.AwaiterNext(c, 0)) == C.AwaiterNext(c, 0).awaiters[0];
  }

  /** Publishing main_finished is two steps of the single frame, which reads the worker's continuation
      only afterwards; every other step is one, or none. */
  lemma AwaiterStepSimulated(c: C.State)
    requires C.Inv(c) && |c.awaiters| == 1 && C.AwaiterEnabled(c, 0)
    ensures AwaiterSimulated(c, Abs(C.AwaiterNext(c, 0)))
  {
    hide C.Inv, Abs, C.AwaiterNext, AwaiterSimulated;
    OneAwaiter(c);
    var p := c.awaiters[0];
    if p.Arriving? || p.FLoad? || p.FExtract? { ArrivalSimulated(c); }
    else if p.FRun? || p.FStoreDone? || p.FNotify? { InPlaceSimulated(c); }
    else if p.FWaitStarted? || p.FCas? || p.FWaitDone? { CasSimulated(c); }
    else { SwitchSimulated(c); }
  }

  /** Run `sr` of the single frame follows run `tr` of the copyable one: state `i` of `tr` stands for state
      `at[i]` of `sr`, which stays where it is or moves on, by at most two steps, whenever `tr` makes a step. */
  ghost predicate Stutters(tr: seq<C.State>, sr: seq<S.State>, at: seq<int>) {
    && tr != [] && |at| == |tr| && at[0] == 0 && at[|at| - 1] == |sr| - 1
    && (forall i :: 0 <= i < |tr| ==> 0 <= at[i] < |sr| && StandsFor(tr[i], sr[at[i]]))
    && (forall i :: 0 <= i < |tr| - 1 ==> at[i] <= at[i + 1] <= at[i] + 2)
  }

  /** The same calls, the same jumps, and the same view of who has returned. */
  predicate StandsFor(c: C.State, s: S.State) {
    && |c.awaiters| == 1 && s == Abs(c)
    && s.calls == c.calls && s.toAwait == c.toAwait && s.toWorker == c.toWorker
    && (S.Returned(s) <==> c.awaiters[0] == C.Returned)
  }

  /** Every run of the copyable frame with one awaiter is, up to stuttering, a run of the single frame. */
  lemma {:induction false} EveryRunIsSimulated(tr: seq<C.State>) returns (sr: seq<S.State>, at: seq<int>)
    requires C.IsRun(tr) && |tr[0].awaiters| == 1
    ensures S.IsRun(sr) && Stutters(tr, sr, at)
    decreases |tr|
  {
    hide C.Inv, C.Next, C.Enabled, S.IsRun;
    C.RunKeepsInv(tr, |tr| - 1);
    if |tr| == 1 {
      sr, at := InitSimulated(tr[0]);
    } else {
      hide Abs;
      var k := |tr| - 1;
      var prefix := tr[..k];
      assert forall i :: 0 <= i < |prefix| - 1 ==> C.Step(tr[i], tr[i + 1]);
      C.RunKeepsInv(tr, k - 1);
      sr, at := EveryRunIsSimulated(prefix);
      assert C.Step(tr[k - 1], tr[k - 1 + 1]);
      var a: int :| C.Enabled(tr[k - 1], a) && tr[k] == C.Next(tr[k - 1], a);
      var before := sr;
      sr := Follow(tr[k - 1], a, before);
      ReturnedAgree(tr[k]);
      at := at + [|sr| - 1];
      AppendStutters(tr, before, sr, at);
    }
  }

  lemma InitSimulated(c: C.State) returns (sr: seq<S.State>, at: seq<int>)
    requires C.Init(c) && |c.awaiters| == 1
    ensures S.IsRun(sr) && Stutters([c], sr, at)
  {
    sr, at := [S.INIT], [0];
  }

  lemma AppendStutters(tr: seq<C.State>, before: seq<S.State>, sr: seq<S.State>, at: seq<int>)
    requires |tr| > 1 && |at| == |tr| && Stutters(tr[..|tr| - 1], before, at[..|tr| - 1])
    requires |before| <= |sr| <= |before| + 2 && sr[..|before|] == before
    requires at[|tr| - 1] == |sr| - 1 && StandsFor(tr[|tr| - 1], sr[|sr| - 1])
    ensures Stutters(tr, sr, at)
  {
    hide StandsFor;
    var k := |tr| - 1;
    forall i | 0 <= i < |tr| ensures 0 <= at[i] < |sr| && StandsFor(tr[i], sr[at[i]]) {
      if i < k {
        assert at[..k][i] == at[i] && tr[..k][i] == tr[i];
        assert sr[..|before|][at[i]] == sr[at[i]];
      }
    }
    assert at[..k][k - 1] == at[k - 1];
    forall i | 0 <= i < |tr| - 1 ensures at[i] <= at[i + 1] <= at[i] + 2 {
      if i < k - 1 { assert at[..k][i] == at[i] && at[..k][i + 1] == at[i + 1]; }
    }
  }

  lemma ReturnedAgree(c: C.State)
    requires C.Inv(c) && |c.awaiters| == 1
    ensures StandsFor(c, Abs(c))
  {
  }

  /** The only awaiter is the first one, and is never suspended on the token. */
  lemma NeverAlone(c: C.State, a: int)
    requires C.Inv(c) && |c.awaiters| == 1 && C.Enabled(c, a)
    ensures a == -1 || a == 0
  {
  }

  lemma Follow(c: C.State, a: int, sr: seq<S.State>) returns (sr': seq<S.State>)
    requires C.Inv(c) && |c.awaiters| == 1 && C.Enabled(c, a)
    requires S.IsRun(sr) && sr[|sr| - 1] == Abs(c)
    ensures S.IsRun(sr') && |C.Next(c, a).awaiters| == 1 && sr'[|sr'| - 1] == Abs(C.Next(c, a))
    ensures |sr| <= |sr'| <= |sr| + 2 && sr'[..|sr|] == sr
  {
    hide C.Inv, Abs, C.WorkerNext, C.AwaiterNext, S.Enabled, S.WorkerNext, S.AwaiterNext;
    NeverAlone(c, a);
    if a == -1 { WorkerStepSimulated(c); } else { AwaiterStepSimulated(c); }
    if Silent(c, a) {
      sr' := sr;
    } else {
      sr' := Extend(sr, ActorOf(a));
      if a == 0 && c.awaiters[0].FPublish? { sr' := Extend(sr', S.Awaiter); }
    }
  }

  lemma Extend(sr: seq<S.State>, a: S.Actor) returns (sr': seq<S.State>)
    requires S.IsRun(sr) && S.Enabled(sr[|sr| - 1], a)
    ensures sr' == sr + [S.Next(sr[|sr| - 1], a)] && S.IsRun(sr')
  {
    sr' := sr + [S.Next(sr[|sr| - 1], a)];
    forall i | 0 <= i < |sr'| - 1 ensures S.Step(sr'[i], sr'[i + 1]) {
      if i < |sr| - 1 { assert S.Step(sr[i], sr[i + 1]); }
    }
  }
}
