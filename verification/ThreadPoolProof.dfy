/** The invariant of the thread pool. */
module ThreadPoolProof {
  import opened Seqs
  import opened ThreadPool

  // ----- lines

  lemma HeadAndTail(q: seq<int>)
    requires Distinct(q) && q != []
    ensures Distinct(q[1..]) && q[0] !in q[1..]
    ensures forall y :: y in q <==> y == q[0] || y in q[1..]
  {
    assert q == [q[0]] + q[1..];
    forall j | 0 <= j < |q[1..]| ensures q[1..][j] != q[0] { assert q[1..][j] == q[j + 1]; }
  }

  lemma ConsDistinct(h: int, q: seq<int>)
    requires Distinct(q) && h !in q
    ensures Distinct([h] + q)
  {
    forall i, j | 0 <= i < j < |[h] + q| ensures ([h] + q)[i] != ([h] + q)[j] {
      assert ([h] + q)[j] == q[j - 1];
    }
  }

  lemma {:induction false} RemoveElements(q: seq<int>, x: int)
    requires Distinct(q) && x in q
    ensures |Remove(q, x)| == |q| - 1 && Distinct(Remove(q, x))
    ensures forall y :: y in Remove(q, x) <==> y in q && y != x
  {
    HeadAndTail(q);
    if q[0] != x {
      RemoveElements(q[1..], x);
      ConsDistinct(q[0], Remove(q[1..], x));
    }
  }

  lemma LinesPush(lines: seq<seq<int>>, wd: seq<int>, x: nat, l: nat)
    requires LinesAgree(lines, wd) && x < |wd| && wd[x] == -1 && l < |lines|
    ensures LinesAgree(lines[l := [x] + lines[l]], wd[x := l])
  {
    var lines' := lines[l := [x] + lines[l]];
    assert x !in lines[l];
    assert lines'[l] == [x] + lines[l];
    var wd' := wd[x := l];
    forall y | 0 <= y < |wd'| ensures wd'[y] == -1 || (0 <= wd'[y] < |lines'| && y in lines'[wd'[y]]) {
      if y != x && wd[y] != -1 { assert y in lines[wd[y]]; }
    }
  }

  lemma LinesTake(lines: seq<seq<int>>, wd: seq<int>, x: nat, l: nat, q: seq<int>)
    requires LinesAgree(lines, wd) && x < |wd| && l < |lines| && x in lines[l]
    requires Distinct(q) && forall y :: y in q <==> y in lines[l] && y != x
    ensures LinesAgree(lines[l := q], wd[x := -1])
  {
    var lines', wd' := lines[l := q], wd[x := -1];
    forall m, i | 0 <= m < |lines'| && 0 <= i < |lines'[m]| ensures 0 <= lines'[m][i] < |wd'|
        && wd'[lines'[m][i]] == m {
      if m == l { assert q[i] in q; }
    }
  }

  // ----- delivery

  lemma EnqueueKeepsDelivery(s: State, x: nat, l: nat)
    requires Shape(s) && DeliveryInv(s) && x < |s.enq| && l < |s.lines| && s.enq[x] != EDone
    ensures Shape(EnqueueNext(s, x, l)) && DeliveryInv(EnqueueNext(s, x, l))
  {
    if s.enq[x] == EIdle { PushKeepsDelivery(s, x, l); } else { NotifierKeepsDelivery(s, x, l); }
  }

  lemma PushKeepsDelivery(s: State, x: nat, l: nat)
    requires Shape(s) && DeliveryInv(s) && x < |s.enq| && l < |s.lines| && s.enq[x] == EIdle
    ensures Shape(Push(s, x, l)) && DeliveryInv(Push(s, x, l))
  {
    hide LinesAgree;
    LinesPush(s.lines, s.wd, x, l);
  }

  lemma NotifierKeepsDelivery(s: State, x: nat, l: nat)
    requires Shape(s) && DeliveryInv(s) && x < |s.enq| && l < |s.lines| && s.enq[x] != EIdle && s.enq[x] != EDone
    ensures Shape(EnqueueNext(s, x, l)) && DeliveryInv(EnqueueNext(s, x, l))
  {
    hide LinesAgree;
  }

  lemma ExtractKeepsDelivery(s: State, e: nat, x: nat)
    requires Shape(s) && DeliveryInv(s) && Enabled(s, Extract(e, x))
    ensures Shape(ExtractNext(s, e, x)) && DeliveryInv(ExtractNext(s, e, x))
  {
    hide LinesAgree;
    if s.ext[e].XLock? { LineOf(s, s.ext[e].x); }
    if s.ext[e].XIdle? { LineOf(s, x); }
    if s.ext[e].XLock? && s.wd[s.ext[e].x] != -1 {
      var y, l := s.ext[e].x, s.ext[e].l;
      RemoveElements(s.lines[l], y);
      LinesTake(s.lines, s.wd, y, l, Remove(s.lines[l], y));
    }
  }

  lemma LineOf(s: State, x: nat)
    requires Shape(s) && DeliveryInv(s) && x < |s.enq|
    ensures s.wd[x] == -1 || (Line(s, s.wd[x]) && x in s.lines[s.wd[x]] && Distinct(s.lines[s.wd[x]]))
  {
  }

  lemma RunnerKeepsDelivery(s: State, r: nat, c: Choice)
    requires Shape(s) && DeliveryInv(s) && r < |s.run| && RunnerEnabled(s, r, c)
    ensures Shape(RunnerNext(s, r, c)) && DeliveryInv(RunnerNext(s, r, c))
  {
    hide LinesAgree, OwnNext, SleepNext;
    if Pops(s, r, c) { PopKeepsDelivery(s, r, s.at[r]); }
    else { RunnerLeavesLines(s, r, c); }
  }

  lemma PopKeepsDelivery(s: State, r: nat, l: nat)
    requires Shape(s) && DeliveryInv(s) && r < |s.run| && Line(s, l) && s.lines[l] != [] && Task(s, s.lines[l][0])
    ensures Shape(PopHead(s, r, l)) && DeliveryInv(PopHead(s, r, l))
  {
    hide LinesAgree;
    PopKeepsLines(s, r, l);
  }

  lemma RunnerLeavesLines(s: State, r: nat, c: Choice)
    requires Shape(s) && r < |s.run| && RunnerEnabled(s, r, c) && !Pops(s, r, c)
    ensures var s' := RunnerNext(s, r, c); s'.lines == s.lines && s'.wd == s.wd && s'.taken == s.taken
  {
    hide OwnNext, SleepNext, WorkNext;
  }

  lemma PopKeepsLines(s: State, r: nat, l: nat)
    requires Shape(s) && DeliveryInv(s) && r < |s.run| && Line(s, l) && s.lines[l] != [] && Task(s, s.lines[l][0])
    ensures LinesAgree(PopHead(s, r, l).lines, PopHead(s, r, l).wd) && s.wd[s.lines[l][0]] == l
  {
    var q := s.lines[l];
    assert q == [q[0]] + q[1..];
    LinesTake(s.lines, s.wd, q[0], l, q[1..]);
  }

  lemma StepKeepsDelivery(s: State, a: Action)
    requires Shape(s) && DeliveryInv(s) && Enabled(s, a)
    ensures Shape(Next(s, a)) && DeliveryInv(Next(s, a))
  {
    hide LinesAgree, EnqueueNext, ExtractNext, RunnerNext;
    match a
    case Enqueue(x, l) => EnqueueKeepsDelivery(s, x, l);
    case Extract(e, x) => ExtractKeepsDelivery(s, e, x);
    case RunnerStep(r, c) => RunnerKeepsDelivery(s, r, c);
    case _ =>
  }

  // ----- conservation

  lemma EnqueueKeepsCount(s: State, x: nat, l: nat)
    requires Shape(s) && CountInv(s) && x < |s.enq| && l < |s.lines| && s.enq[x] != EDone
    ensures CountInv(EnqueueNext(s, x, l))
  {
    var s' := EnqueueNext(s, x, l);
    var b := if s'.enq[x] == EPushed then 1 else 0;
    assert PushedBits(s') == PushedBits(s)[x := b];
    SumUpdate(PushedBits(s), x, b);
    assert PoppedBits(s') == PoppedBits(s) && ExtractedBits(s') == ExtractedBits(s);
    assert Lengths(s') == Lengths(s)[l := |s'.lines[l]|];
    SumUpdate(Lengths(s), l, |s'.lines[l]|);
  }

  lemma ExtractKeepsCount(s: State, e: nat, x: nat)
    requires Shape(s) && DeliveryInv(s) && CountInv(s) && Enabled(s, Extract(e, x))
    ensures CountInv(ExtractNext(s, e, x))
  {
    var s' := ExtractNext(s, e, x);
    var b := if s'.ext[e].XTaken? then 1 else 0;
    assert ExtractedBits(s') == ExtractedBits(s)[e := b];
    SumUpdate(ExtractedBits(s), e, b);
    assert PoppedBits(s') == PoppedBits(s) && PushedBits(s') == PushedBits(s);
    if s.ext[e].XLock? {
      var y, l := s.ext[e].x, s.ext[e].l;
      LineOf(s, y);
      if s.wd[y] != -1 { RemoveElements(s.lines[l], y); }
      assert Lengths(s') == Lengths(s)[l := |s'.lines[l]|];
      SumUpdate(Lengths(s), l, |s'.lines[l]|);
    } else {
      assert Lengths(s') == Lengths(s);
    }
  }

  lemma RunnerKeepsCount(s: State, r: nat, c: Choice)
    requires Shape(s) && CountInv(s) && r < |s.run| && RunnerEnabled(s, r, c)
    ensures CountInv(RunnerNext(s, r, c))
  {
    hide CountInv;
    var s' := RunnerNext(s, r, c);
    if Pops(s, r, c) { PopKeepsCount(s, r, s.at[r]); }
    else { LocalKeepsCount(s, s', r); }
  }

  lemma PopKeepsCount(s: State, r: nat, l: nat)
    requires Shape(s) && CountInv(s) && r < |s.run| && s.run[r] == RScan && Line(s, l) && s.lines[l] != []
        && Task(s, s.lines[l][0])
    ensures CountInv(PopHead(s, r, l))
  {
    var s' := PopHead(s, r, l);
    assert PoppedBits(s') == PoppedBits(s)[r := 1];
    SumUpdate(PoppedBits(s), r, 1);
    assert ExtractedBits(s') == ExtractedBits(s) && PushedBits(s') == PushedBits(s);
    assert Lengths(s') == Lengths(s)[l := |s'.lines[l]|];
    SumUpdate(Lengths(s), l, |s'.lines[l]|);
  }

  lemma LocalKeepsCount(s: State, s': State, r: nat)
    requires CountInv(s) && r < |s.run| && |s'.run| == |s.run|
    requires s'.run == s.run[r := s'.run[r]] && s'.lines == s.lines && s'.enq == s.enq && s'.ext == s.ext
    requires s'.run[r] != RPopped && s'.num == if s.run[r] == RPopped then s.num - 1 else s.num
    ensures CountInv(s')
  {
    assert PoppedBits(s') == PoppedBits(s)[r := 0];
    SumUpdate(PoppedBits(s), r, 0);
    assert ExtractedBits(s') == ExtractedBits(s) && PushedBits(s') == PushedBits(s) && Lengths(s') == Lengths(s);
  }

  lemma NotifyKeepsCount(s: State, s': State)
    requires CountInv(s) && s'.num == s.num && s'.lines == s.lines && s'.enq == s.enq && s'.run == s.run
        && s'.ext == s.ext
    ensures CountInv(s')
  {
    assert Lengths(s') == Lengths(s) && PushedBits(s') == PushedBits(s);
    assert PoppedBits(s') == PoppedBits(s) && ExtractedBits(s') == ExtractedBits(s);
  }

  lemma StepKeepsCount(s: State, a: Action)
    requires Shape(s) && DeliveryInv(s) && CountInv(s) && Enabled(s, a)
    ensures CountInv(Next(s, a))
  {
    hide CountInv, DeliveryInv, EnqueueNext, ExtractNext, RunnerNext;
    match a
    case Enqueue(x, l) => EnqueueKeepsCount(s, x, l);
    case Extract(e, x) => ExtractKeepsCount(s, e, x);
    case RunnerStep(r, c) => RunnerKeepsCount(s, r, c);
    case Notify(b, k) => NotifyKeepsCount(s, NotifyNext(s, b, k));
    case OtherWakeUp(r) => NotifyKeepsCount(s, Next(s, a));
  }

  // ----- ownership of sleep objects

  lemma RunnerKeepsOwner(s: State, r: nat, c: Choice)
    requires Shape(s) && OwnerInv(s) && r < |s.run| && RunnerEnabled(s, r, c)
    ensures Shape(RunnerNext(s, r, c)) && OwnerInv(RunnerNext(s, r, c))
  {
    if s.run[r] == RNone { AcquireKeepsOwner(s, r, c); }
    else if s.run[r] == RLeave { ReleaseKeepsOwner(s, r, c); }
    else { RunnerKeepsObjects(s, r, c); }
  }

  lemma AcquireKeepsOwner(s: State, r: nat, c: Choice)
    requires Shape(s) && OwnerInv(s) && r < |s.run| && RunnerEnabled(s, r, c) && s.run[r] == RNone
    ensures OwnerInv(OwnNext(s, r, c))
  {
    FreeObject(s);
    LastFree(s);
  }

  /** Without the last one, the free objects are those without an owner but the last one. */
  lemma LastFree(s: State)
    requires Shape(s) && OwnerInv(s) && s.free != []
    ensures var k := s.free[|s.free| - 1]; var rest := s.free[..|s.free| - 1];
            k !in rest && Distinct(rest)
            && forall j :: s.workers <= j < 2 * s.workers && s.owner[j] == -1 && j != k ==> j in rest
  {
    var k, rest := s.free[|s.free| - 1], s.free[..|s.free| - 1];
    assert s.free == rest + [k];
    forall j | s.workers <= j < 2 * s.workers && s.owner[j] == -1 && j != k ensures j in rest { assert j in s.free; }
  }

  /** What a helper holds is one of the objects for helpers, and not free. */
  lemma HelperHolds(s: State, r: nat)
    requires Shape(s) && OwnerInv(s) && s.workers <= r < |s.run| && s.run[r] != RNone
    ensures s.workers <= s.obj[r] < 2 * s.workers && s.owner[s.obj[r]] == r && s.obj[r] !in s.free
  {
    assert forall q :: Runner(s, q) && q < s.workers ==> s.owner[q] == q;
  }

  lemma ReleaseKeepsOwner(s: State, r: nat, c: Choice)
    requires Shape(s) && OwnerInv(s) && r < |s.run| && RunnerEnabled(s, r, c) && s.run[r] == RLeave
    ensures OwnerInv(OwnNext(s, r, c))
  {
    HelperHolds(s, r);
    var s', k := OwnNext(s, r, c), s.obj[r];
    assert s'.free[|s'.free| - 1] == k && s'.free[..|s'.free| - 1] == s.free;
    forall j | s.workers <= j < 2 * s.workers && s'.owner[j] == -1 ensures j in s'.free {
      if j != k { assert j in s.free; }
    }
  }

  lemma RunnerKeepsObjects(s: State, r: nat, c: Choice)
    requires Shape(s) && OwnerInv(s) && r < |s.run| && RunnerEnabled(s, r, c) && !Owning(s.run[r])
    ensures OwnerInv(RunnerNext(s, r, c))
  {
    var p := RunnerNext(s, r, c).run[r];
    assert p != RNone && (p == RLeave ==> r >= s.workers);
    hide SleepNext, WorkNext;
  }

  lemma StepKeepsOwner(s: State, a: Action)
    requires Shape(s) && OwnerInv(s) && Enabled(s, a)
    ensures Shape(Next(s, a)) && OwnerInv(Next(s, a))
  {
    if a.RunnerStep? {
      RunnerKeepsOwner(s, a.r, a.c);
    } else {
      OthersLeaveObjects(s, a);
    }
  }

  lemma OthersLeaveObjects(s: State, a: Action)
    requires Shape(s) && Enabled(s, a) && !a.RunnerStep?
    ensures var s' := Next(s, a);
            Shape(s') && s'.workers == s.workers && s'.run == s.run && s'.obj == s.obj && s'.owner == s.owner
            && s'.free == s.free && |s'.wake| == |s.wake| && s'.at == s.at && |s'.lines| == |s.lines|
  {
  }

  // ----- wake requests and tokens

  lemma EnqueueKeepsWake(s: State, x: nat, l: nat)
    requires Shape(s) && WakeInv(s) && x < |s.enq| && l < |s.lines| && s.enq[x] != EDone
    ensures Shape(EnqueueNext(s, x, l)) && WakeInv(EnqueueNext(s, x, l))
  {
    hide WakeInv;
    match s.enq[x]
    case EIdle => PushKeepsWake(s, EnqueueNext(s, x, l), x);
    case EPushed => PushKeepsWake(s, EnqueueNext(s, x, l), x);
    case ENotify(_) => TryNotifyKeepsWake(s, x);
    case EWake(k) => PushKeepsWake(s, EnqueueNext(s, x, l), x);
  }

  lemma PushKeepsWake(s: State, s': State, x: nat)
    requires Shape(s) && Shape(s') && WakeInv(s) && x < |s.enq|
    requires s'.wake == s.wake && s'.token == s.token && s'.owner == s.owner && s'.obj == s.obj
        && s'.run == s.run && s'.cb == s.cb
    requires |s'.enq| == |s.enq| && s'.enq == s.enq[x := s'.enq[x]] && !s'.enq[x].EWake?
    ensures WakeInv(s')
  {
  }

  lemma TryNotifyKeepsWake(s: State, x: nat)
    requires Shape(s) && WakeInv(s) && x < |s.enq| && s.enq[x].ENotify?
    ensures Shape(TryNotify(s, x)) && WakeInv(TryNotify(s, x))
  {
  }

  lemma NotifyKeepsWake(s: State, b: nat, k: nat)
    requires Shape(s) && WakeInv(s) && b < |s.cb| && k < |s.wake|
    ensures Shape(NotifyNext(s, b, k)) && WakeInv(NotifyNext(s, b, k))
  {
  }

  /** A runner's sleep object is its own; and if the runner is not committed to sleep, it has a wake request. */
  lemma OwnObject(s: State, r: nat)
    requires Shape(s) && OwnerInv(s) && WakeInv(s) && r < |s.run| && s.run[r] != RNone
    ensures OwnsObject(s, r)
  {
  }

  /** What a step on its own sleep object needs to know. */
  ghost predicate OwnsObject(s: State, r: nat)
    requires Shape(s) && r < |s.run|
  {
    && Object(s, s.obj[r]) && s.owner[s.obj[r]] == r
    && (forall q :: Runner(s, q) && q != r ==> s.obj[q] != s.obj[r])
    && (forall k :: Object(s, k) && s.owner[k] == r ==> k == s.obj[r])
    && (!Committed(s.run[r]) ==> s.wake[s.obj[r]] >= 1)
  }

  lemma TokenKeepsWake(s: State, r: nat, c: Choice)
    requires Shape(s) && WakeInv(s) && r < |s.run| && RunnerEnabled(s, r, c) && s.run[r] == RToken && OwnsObject(s, r)
    ensures WakeInv(SleepNext(s, r, c))
  {
  }

  lemma SubKeepsWake(s: State, r: nat, c: Choice)
    requires Shape(s) && WakeInv(s) && r < |s.run| && RunnerEnabled(s, r, c) && s.run[r] == RSub && OwnsObject(s, r)
    ensures WakeInv(SleepNext(s, r, c))
  {
  }

  lemma ResetKeepsWake(s: State, r: nat, c: Choice)
    requires Shape(s) && WakeInv(s) && r < |s.run| && RunnerEnabled(s, r, c) && s.run[r] == RReset && OwnsObject(s, r)
    ensures WakeInv(SleepNext(s, r, c))
  {
  }

  lemma AcquireKeepsWake(s: State, r: nat, c: Choice)
    requires Shape(s) && OwnerInv(s) && WakeInv(s) && r < |s.run| && RunnerEnabled(s, r, c) && s.run[r] == RNone
    ensures WakeInv(OwnNext(s, r, c))
  {
    hide OwnerInv;
    FreeObject(s);
  }

  lemma FreeObject(s: State)
    requires Shape(s) && OwnerInv(s) && s.free != []
    ensures Object(s, s.free[|s.free| - 1]) && s.owner[s.free[|s.free| - 1]] == -1
  {
  }

  lemma ReleaseKeepsWake(s: State, r: nat, c: Choice)
    requires Shape(s) && WakeInv(s) && r < |s.run| && RunnerEnabled(s, r, c) && s.run[r] == RLeave && OwnsObject(s, r)
    ensures WakeInv(OwnNext(s, r, c))
  {
  }

  lemma WorkKeepsWake(s: State, r: nat, c: Choice)
    requires Shape(s) && WakeInv(s) && r < |s.run| && RunnerEnabled(s, r, c) && !Owning(s.run[r]) && !Sleeping(s.run[r])
    ensures WakeInv(WorkNext(s, r, c))
  {
    var p := WorkNext(s, r, c).run[r];
    assert p != RSub && !Committed(p);
    hide WorkNext;
  }

  lemma LocalSleepKeepsWake(s: State, r: nat, c: Choice)
    requires Shape(s) && WakeInv(s) && r < |s.run| && RunnerEnabled(s, r, c)
        && (s.run[r] == RPrep || s.run[r] == RSleep)
    ensures WakeInv(SleepNext(s, r, c))
  {
    var s' := SleepNext(s, r, c);
    assert s'.wake == s.wake && s'.token == s.token && Committed(s'.run[r]) == Committed(s.run[r]) && s'.run[r] != RSub;
    hide SleepNext;
  }

  lemma RunnerKeepsWake(s: State, r: nat, c: Choice)
    requires Shape(s) && OwnerInv(s) && WakeInv(s) && r < |s.run| && RunnerEnabled(s, r, c)
    ensures Shape(RunnerNext(s, r, c)) && WakeInv(RunnerNext(s, r, c))
  {
    hide OwnerInv, WakeInv, OwnNext, SleepNext, WorkNext;
    if s.run[r] != RNone { OwnObject(s, r); }
    match s.run[r]
    case RNone => AcquireKeepsWake(s, r, c);
    case RToken => TokenKeepsWake(s, r, c);
    case RSub => SubKeepsWake(s, r, c);
    case RReset => ResetKeepsWake(s, r, c);
    case RLeave => ReleaseKeepsWake(s, r, c);
    case RPrep => LocalSleepKeepsWake(s, r, c);
    case RSleep => LocalSleepKeepsWake(s, r, c);
    case _ => WorkKeepsWake(s, r, c);
  }

  lemma StepKeepsWake(s: State, a: Action)
    requires Shape(s) && OwnerInv(s) && WakeInv(s) && Enabled(s, a)
    ensures Shape(Next(s, a)) && WakeInv(Next(s, a))
  {
    hide OwnerInv, WakeInv, EnqueueNext, NotifyNext, RunnerNext, ExtractNext;
    match a
    case Enqueue(x, l) => EnqueueKeepsWake(s, x, l);
    case Notify(b, k) => NotifyKeepsWake(s, b, k);
    case RunnerStep(r, c) => RunnerKeepsWake(s, r, c);
    case _ => OthersKeepWake(s, a);
  }

  /** Extractions, and wake-ups on behalf of a thread switch, change nothing else that sleepers depend on. */
  lemma OthersLeaveSleepers(s: State, a: Action)
    requires Shape(s) && Enabled(s, a) && (a.Extract? || a.OtherWakeUp?)
    ensures var s' := Next(s, a);
            && Shape(s') && s'.workers == s.workers && s'.run == s.run && s'.id == s.id && s'.obj == s.obj
                && s'.owner == s.owner
            && s'.wake == s.wake && s'.token == s.token && s'.enq == s.enq && s'.cb == s.cb && s'.num <= s.num
            && forall r :: 0 <= r < |s.counter| ==> s'.counter[r] >= s.counter[r]
  {
  }

  lemma OthersKeepWake(s: State, a: Action)
    requires Shape(s) && WakeInv(s) && Enabled(s, a) && (a.Extract? || a.OtherWakeUp?)
    ensures Shape(Next(s, a)) && WakeInv(Next(s, a))
  {
    hide Next, Enabled;
    OthersLeaveSleepers(s, a);
  }

  // ----- sleepers are woken up

  /** One enqueuer moves; the others come as before. */
  lemma EnqueuerComing(s: State, s': State, x: nat, k: int)
    requires x < |s.enq| == |s'.enq| && s'.enq == s.enq[x := s'.enq[x]] && s'.cb == s.cb
    ensures s'.enq[x].EWake? && s'.enq[x].k == k ==> WakerComing(s', k)
    ensures WakerComing(s, k) && !(s.enq[x].EWake? && s.enq[x].k == k) ==> WakerComing(s', k)
  {
    if s'.enq[x].EWake? { assert Task(s', x); }
    if WakerComing(s, k) && !(s.enq[x].EWake? && s.enq[x].k == k) {
      if y :| Task(s, y) && s.enq[y].EWake? && s.enq[y].k == k { assert Task(s', y) && s'.enq[y] == s.enq[y]; }
      else {
        var b :| 0 <= b < |s.cb| && s.cb[b].CWake? && s.cb[b].k == k;
        assert s'.cb[b] == s.cb[b];
      }
    }
  }

  lemma CallbackComing(s: State, s': State, b: nat, k: int)
    requires b < |s.cb| == |s'.cb| && s'.cb == s.cb[b := s'.cb[b]] && s'.enq == s.enq
    ensures s'.cb[b].CWake? && s'.cb[b].k == k ==> WakerComing(s', k)
    ensures WakerComing(s, k) && !(s.cb[b].CWake? && s.cb[b].k == k) ==> WakerComing(s', k)
  {
    if WakerComing(s, k) && !(s.cb[b].CWake? && s.cb[b].k == k) {
      if d :| 0 <= d < |s.cb| && s.cb[d].CWake? && s.cb[d].k == k { assert s'.cb[d] == s.cb[d]; }
      else {
        var y :| Task(s, y) && s.enq[y].EWake? && s.enq[y].k == k;
        assert Task(s', y) && s'.enq[y] == s.enq[y];
      }
    }
  }

  /** Waking the owner of an object moves the counter of its runner, if it sleeps, and no counter back. */
  lemma WakeReaches(s: State, k: nat, r: int)
    requires Shape(s) && WakeInv(s) && k < |s.wake| && Runner(s, r)
    ensures |WakeToken(s, k).counter| == |s.counter| && WakeToken(s, k).counter[r] >= s.counter[r]
    ensures s.run[r] == RSleep && s.obj[r] == k ==> WakeToken(s, k).counter[r] > s.counter[r]
  {
  }

  lemma EnqueueKeepsSleeper(s: State, x: nat, l: nat, r: int)
    requires Shape(s) && WakeInv(s) && x < |s.enq| && l < |s.lines| && s.enq[x] != EDone
    requires Runner(s, r) && SleeperOk(s, r)
    ensures Shape(EnqueueNext(s, x, l)) && SleeperOk(EnqueueNext(s, x, l), r)
  {
    hide WakerComing;
    var s' := EnqueueNext(s, x, l);
    EnqueuerComing(s, s', x, s.obj[r]);
    if s.enq[x].EWake? { WakeReaches(s, s.enq[x].k, r); }
  }

  lemma NotifyKeepsSleeper(s: State, b: nat, k: nat, r: int)
    requires Shape(s) && WakeInv(s) && b < |s.cb| && k < |s.wake| && Runner(s, r) && SleeperOk(s, r)
    ensures Shape(NotifyNext(s, b, k)) && SleeperOk(NotifyNext(s, b, k), r)
  {
    hide WakerComing;
    var s' := NotifyNext(s, b, k);
    CallbackComing(s, s', b, s.obj[r]);
    if s.cb[b].CWake? { WakeReaches(s, s.cb[b].k, r); }
  }

  /** Other runners leave a runner's sleep object, and what it has read, alone. */
  lemma OthersLeaveRunner(s: State, q: nat, c: Choice, r: int)
    requires Shape(s) && OwnerInv(s) && q < |s.run| && RunnerEnabled(s, q, c) && Runner(s, r) && r != q
    ensures var s' := RunnerNext(s, q, c);
            && s'.run[r] == s.run[r] && s'.id[r] == s.id[r] && s'.counter[r] == s.counter[r] && s'.obj[r] == s.obj[r]
            && (s.run[r] == RSleep ==> Object(s, s.obj[r]) && s'.wake[s.obj[r]] == s.wake[s.obj[r]])
  {
  }

  lemma RunnerKeepsSleeper(s: State, q: nat, c: Choice, r: int)
    requires Shape(s) && OwnerInv(s) && q < |s.run| && RunnerEnabled(s, q, c) && Runner(s, r) && SleeperOk(s, r)
    ensures SleeperOk(RunnerNext(s, q, c), r)
  {
    hide WakerComing, NotifierComing;
    SameComing(s, RunnerNext(s, q, c), s.obj[r]);
    if r != q {
      OthersLeaveRunner(s, q, c, r);
      hide RunnerNext;
    } else {
      OwnStepKeepsSleeper(s, q, c);
    }
  }

  lemma OwnStepKeepsSleeper(s: State, r: nat, c: Choice)
    requires Shape(s) && r < |s.run| && RunnerEnabled(s, r, c) && SleeperOk(s, r)
    ensures SleeperOk(RunnerNext(s, r, c), r)
  {
    hide WakerComing, OwnNext;
    if Owning(s.run[r]) { OwnPc(s, r, c); }
  }

  lemma OwnPc(s: State, r: nat, c: Choice)
    requires Shape(s) && r < |s.run| && RunnerEnabled(s, r, c) && Owning(s.run[r])
    ensures OwnNext(s, r, c).run[r] == if s.run[r] == RNone then RLoop else RNone
  {
  }

  lemma SameComing(s: State, s': State, k: int)
    requires s'.enq == s.enq && s'.cb == s.cb
    ensures NotifierComing(s) == NotifierComing(s') && WakerComing(s, k) == WakerComing(s', k)
  {
  }

  lemma OthersKeepSleeper(s: State, a: Action, r: int)
    requires Shape(s) && Enabled(s, a) && (a.Extract? || a.OtherWakeUp?) && Runner(s, r) && SleeperOk(s, r)
    ensures Shape(Next(s, a)) && SleeperOk(Next(s, a), r)
  {
    hide Next, Enabled, WakerComing;
    OthersLeaveSleepers(s, a);
    SameComing(s, Next(s, a), s.obj[r]);
  }

  lemma StepKeepsSleeper(s: State, a: Action, r: int)
    requires Shape(s) && OwnerInv(s) && WakeInv(s) && Enabled(s, a) && Runner(s, r) && SleeperOk(s, r)
    ensures Shape(Next(s, a)) && Runner(Next(s, a), r) && SleeperOk(Next(s, a), r)
  {
    StepKeepsRunners(s, a);
    hide OwnerInv, WakeInv, SleeperOk, EnqueueNext, NotifyNext, ExtractNext, OwnNext, SleepNext, WorkNext;
    match a
    case Enqueue(x, l) => EnqueueKeepsSleeper(s, x, l, r);
    case Notify(b, k) => NotifyKeepsSleeper(s, b, k, r);
    case RunnerStep(q, c) => RunnerKeepsSleeper(s, q, c, r);
    case _ => OthersKeepSleeper(s, a, r);
  }

  lemma StepKeepsSleepers(s: State, a: Action)
    requires Shape(s) && OwnerInv(s) && WakeInv(s) && SleeperInv(s) && Enabled(s, a)
    ensures Shape(Next(s, a)) && SleeperInv(Next(s, a))
  {
    StepKeepsRunners(s, a);
    hide OwnerInv, WakeInv, SleeperOk, Next, Enabled;
    forall r {:trigger SleeperOk(Next(s, a), r)} | Runner(Next(s, a), r) ensures SleeperOk(Next(s, a), r) {
      assert SleeperOk(s, r);
      StepKeepsSleeper(s, a, r);
    }
  }

  lemma StepKeepsRunners(s: State, a: Action)
    requires Shape(s) && Enabled(s, a)
    ensures Shape(Next(s, a)) && |Next(s, a).run| == |s.run|
  {
    hide OwnNext, SleepNext, WorkNext;
  }

  // ----- no lost wake-up

  lemma EnqueueKeepsAlarm(s: State, x: nat, l: nat)
    requires Shape(s) && WakeInv(s) && OwnerInv(s) && AlarmInv(s) && x < |s.enq| && l < |s.lines| && s.enq[x] != EDone
    ensures Shape(EnqueueNext(s, x, l)) && AlarmInv(EnqueueNext(s, x, l))
  {
    hide NotifierComing, OwnerInv;
    var s' := EnqueueNext(s, x, l);
    NotifierMoves(s, s', x);
    if s.workers > 0 { ZeroHasRequest(s); }
  }

  lemma NotifierMoves(s: State, s': State, x: nat)
    requires x < |s.enq| == |s'.enq| && s'.enq == s.enq[x := s'.enq[x]]
    ensures s'.enq[x] == ENotify(0) || (NotifierComing(s) && s.enq[x] != ENotify(0)) ==> NotifierComing(s')
  {
    if s'.enq[x] == ENotify(0) { assert Task(s', x); }
    if NotifierComing(s) && s.enq[x] != ENotify(0) {
      var y :| Task(s, y) && s.enq[y] == ENotify(0);
      assert Task(s', y) && s'.enq[y] == ENotify(0);
    }
  }

  lemma ZeroHasRequest(s: State)
    requires Shape(s) && WakeInv(s) && OwnerInv(s) && s.workers > 0
    ensures s.obj[0] == 0 && s.run[0] != RNone && (!Committed(s.run[0]) ==> s.wake[0] >= 1)
  {
    assert s.obj[0] == 0;
    OwnObject(s, 0);
  }

  lemma NotifyKeepsAlarm(s: State, b: nat, k: nat)
    requires Shape(s) && AlarmInv(s) && b < |s.cb| && k < |s.wake|
    ensures Shape(NotifyNext(s, b, k)) && AlarmInv(NotifyNext(s, b, k))
  {
    hide NotifierComing, WakerComing;
    var s' := NotifyNext(s, b, k);
    SameNotifier(s, s');
  }

  lemma SameNotifier(s: State, s': State)
    requires s'.enq == s.enq
    ensures NotifierComing(s) == NotifierComing(s')
  {
  }

  /** Steps of other runners leave what the alarm of worker 0 depends on; removing a task only helps. */
  lemma OtherRunnerKeepsAlarm(s: State, r: nat, c: Choice)
    requires Shape(s) && AlarmInv(s) && 0 < r < |s.run| && RunnerEnabled(s, r, c) && s.workers > 0 && s.obj[0] == 0
    requires s.run[r] != RNone ==> s.obj[r] != 0
    ensures AlarmInv(RunnerNext(s, r, c))
  {
    hide NotifierComing;
    SameNotifier(s, RunnerNext(s, r, c));
    RunnerLeavesZero(s, r, c);
    hide RunnerNext;
  }

  lemma RunnerLeavesZero(s: State, r: nat, c: Choice)
    requires Shape(s) && 0 < r < |s.run| && RunnerEnabled(s, r, c) && s.workers > 0
    requires s.run[r] != RNone ==> s.obj[r] != 0
    ensures var s' := RunnerNext(s, r, c); s'.wake[0] == s.wake[0] && s'.num <= s.num
  {
    hide OwnNext;
  }

  lemma WorkerZeroKeepsAlarm(s: State, c: Choice)
    requires Shape(s) && AlarmInv(s) && s.workers > 0 && RunnerEnabled(s, 0, c) && s.obj[0] == 0
    requires !Committed(s.run[0]) ==> s.wake[0] >= 1
    ensures AlarmInv(RunnerNext(s, 0, c))
  {
    hide NotifierComing;
    SameNotifier(s, RunnerNext(s, 0, c));
  }

  lemma RunnerKeepsAlarm(s: State, r: nat, c: Choice)
    requires Shape(s) && WakeInv(s) && OwnerInv(s) && AlarmInv(s) && r < |s.run| && RunnerEnabled(s, r, c)
    ensures AlarmInv(RunnerNext(s, r, c))
  {
    hide WakeInv, RunnerNext;
    if s.workers > 0 {
      OwnObject(s, 0);
      if r == 0 { WorkerZeroKeepsAlarm(s, c); } else { OtherRunnerKeepsAlarm(s, r, c); }
    }
  }

  lemma OthersKeepAlarm(s: State, a: Action)
    requires Shape(s) && AlarmInv(s) && Enabled(s, a) && (a.Extract? || a.OtherWakeUp?)
    ensures Shape(Next(s, a)) && AlarmInv(Next(s, a))
  {
    hide Next, Enabled, NotifierComing;
    OthersLeaveSleepers(s, a);
    SameNotifier(s, Next(s, a));
  }

  lemma StepKeepsAlarm(s: State, a: Action)
    requires Shape(s) && OwnerInv(s) && WakeInv(s) && AlarmInv(s) && Enabled(s, a)
    ensures Shape(Next(s, a)) && AlarmInv(Next(s, a))
  {
    hide OwnerInv, WakeInv, AlarmInv, EnqueueNext, NotifyNext, ExtractNext, OwnNext, SleepNext, WorkNext;
    match a
    case Enqueue(x, l) => EnqueueKeepsAlarm(s, x, l);
    case Notify(b, k) => NotifyKeepsAlarm(s, b, k);
    case RunnerStep(r, c) => RunnerKeepsAlarm(s, r, c);
    case _ => OthersKeepAlarm(s, a);
  }

  // ----- every run

  lemma InitDelivers(s: State)
    requires Init(s)
    ensures DeliveryInv(s) && CountInv(s)
  {
    SumOfBits(PushedBits(s));
    SumOfBits(PoppedBits(s));
    SumOfBits(ExtractedBits(s));
    SumOfBits(Lengths(s));
  }

  lemma InitOwns(s: State)
    requires Init(s)
    ensures OwnerInv(s)
  {
    forall k | s.workers <= k < 2 * s.workers ensures k in s.free {
      assert s.free[k - s.workers] == k;
    }
  }

  lemma InitHolds(s: State)
    requires Init(s)
    ensures Inv(s)
  {
    hide DeliveryInv, CountInv, OwnerInv;
    InitDelivers(s);
    InitOwns(s);
  }

  lemma StepKeepsInv(s: State, a: Action)
    requires Inv(s) && Enabled(s, a)
    ensures Inv(Next(s, a))
  {
    hide DeliveryInv, CountInv, OwnerInv, WakeInv, SleeperInv, AlarmInv, Next, Enabled;
    StepKeepsDelivery(s, a); StepKeepsCount(s, a); StepKeepsOwner(s, a);
    StepKeepsWake(s, a); StepKeepsSleepers(s, a); StepKeepsAlarm(s, a);
  }

  lemma {:induction false} RunKeepsInv(tr: seq<State>, k: nat)
    requires IsRun(tr) && k < |tr|
    ensures Inv(tr[k])
  {
    hide Inv, Init, Enabled, Next;
    if k == 0 {
      InitHolds(tr[0]);
    } else {
      RunKeepsInv(tr, k - 1);
      assert Step(tr[k - 1], tr[k - 1 + 1]);
      var a: Action :| Enabled(tr[k - 1], a) && tr[k] == Next(tr[k - 1], a);
      StepKeepsInv(tr[k - 1], a);
    }
  }
}
