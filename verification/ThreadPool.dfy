/** The thread pool as a step system: any number of tasks being enqueued, extracted and executed, of workers
    and helpers that go to sleep, and of callbacks that notify them. Every atomic operation and every section
    under a lock is one step.

    Threads are numbered as the runners that execute the pool's loop on them: nobody changes thread while
    going to sleep. */
module ThreadPool {
  import opened Seqs
  import opened Turns

  /** An enqueue operation, one per task. */
  datatype EnqueuePc =
    | EIdle
    | EPushed            // in a line, not counted yet
    | ENotify(k: nat)    // counted; about to try to notify sleep object `k`
    | EWake(k: nat)      // found sleep object `k` asleep; about to wake it up
    | EDone

  /** An `extract_task` operation; `x` is the task and `l` the line read from it without the lock. */
  datatype ExtractPc = XIdle | XLock(x: nat, l: nat) | XTaken(x: nat)

  /** A stop callback, or `join`, that notifies a sleep object. */
  datatype CallbackPc = CIdle | CWake(k: nat)

  /** A worker, or a thread that offers help. */
  datatype RunnerPc =
    | RNone      // a helper without a sleep object
    | RLoop      // about to look whether stop was requested
    | RLoad      // about to read the task count
    | RPrep      // read zero: about to read the sleep counter of its thread,
    | RToken     // ... to leave a wake-up token,
    | RSub       // ... to take back one wake request,
    | RSleep     // ... and it was the only one: asleep until its counter moves
    | RReset     // about to set the wake requests to one
    | RCheck     // about to look again whether stop was requested
    | RScan      // about to try the next line
    | RPopped    // took a task, not yet subtracted from the count
    | RLeave     // saw stop: about to give its sleep object back

  /** What a step of a runner depends on besides the state: what it sees of its stop token, whether somebody else holds
      the lock of the line it tries, and the line its scan starts with. */
  datatype Choice = Choice(stop: bool, locked: bool, start: nat)

  /** `wake`, `token` belong to a sleep object, `counter` to a thread; `obj` is the sleep object of a runner and
      `id` the sleep counter it read; it has tried `scan` lines and tries line `at` next. History: `taken[x]`
      counts how often task `x` was handed out, `pushedTo[x]` is the line it was put in, `owner` the inverse of
      `obj`. */
  datatype State = State(workers: nat,
                         lines: seq<seq<int>>, wd: seq<int>, num: int,
                         enq: seq<EnqueuePc>, ext: seq<ExtractPc>, cb: seq<CallbackPc>,
                         wake: seq<int>, token: seq<int>, counter: seq<nat>, free: seq<int>,
                         run: seq<RunnerPc>, obj: seq<int>, id: seq<nat>, at: seq<nat>, scan: seq<nat>,
                         taken: seq<nat>, pushedTo: seq<int>, owner: seq<int>)

  ghost predicate Shape(s: State) {
    && |s.lines| > 0
    && |s.enq| == |s.wd| == |s.taken| == |s.pushedTo|
    && |s.token| == |s.wake| == |s.owner|
    && |s.run| == |s.obj| == |s.id| == |s.counter| == |s.at| == |s.scan|
    && s.workers <= |s.run| && 2 * s.workers <= |s.wake|
  }

  predicate Task(s: State, x: int) { 0 <= x < |s.enq| }
  predicate Line(s: State, l: int) { 0 <= l < |s.lines| }
  predicate Object(s: State, k: int) { 0 <= k < |s.wake| }
  predicate Runner(s: State, r: int) { 0 <= r < |s.run| }

  /** The constructor: empty lines, one wake request per sleep object, the first `workers` objects in use and
      the next `workers` free. */
  ghost predicate Init(s: State) {
    && Shape(s)
    && (forall l :: Line(s, l) ==> s.lines[l] == []) && s.num == 0
    && (forall x :: Task(s, x) ==> s.wd[x] == -1 && s.enq[x] == EIdle && s.taken[x] == 0 && s.pushedTo[x] == -1)
    && (forall e :: 0 <= e < |s.ext| ==> s.ext[e] == XIdle)
    && (forall b :: 0 <= b < |s.cb| ==> s.cb[b] == CIdle)
    && (forall k :: Object(s, k) ==> s.wake[k] == 1 && s.token[k] == -1)
    && s.free == seq(s.workers, i => s.workers + i)
    && (forall r :: Runner(s, r) ==>
          if r < s.workers then s.run[r] == RLoop && s.obj[r] == r else s.run[r] == RNone && s.obj[r] == -1)
    && (forall r :: Runner(s, r) ==> s.at[r] == 0)
    && (forall k :: Object(s, k) ==> s.owner[k] == if k < s.workers then k else -1)
  }

  // ----- lines

  /** Takes `x` out, keeping the order of the rest. */
  function Remove(q: seq<int>, x: int): seq<int> {
    if q == [] then [] else if q[0] == x then q[1..] else [q[0]] + Remove(q[1..], x)
  }

  /** What lines and tasks say about each other: a task is in a line exactly if it says so, and once. */
  ghost predicate LinesAgree(lines: seq<seq<int>>, wd: seq<int>) {
    && (forall l :: 0 <= l < |lines| ==> Distinct(lines[l]))
    && (forall l, i :: 0 <= l < |lines| && 0 <= i < |lines[l]| ==> 0 <= lines[l][i] < |wd| && wd[lines[l][i]] == l)
    && (forall x :: 0 <= x < |wd| ==> wd[x] == -1 || (0 <= wd[x] < |lines| && x in lines[wd[x]]))
  }

  // ----- steps of an enqueue of task `x`

  function Push(s: State, x: nat, l: nat): State
    requires x < |s.enq| == |s.wd| == |s.pushedTo| && l < |s.lines|
  {
    s.(lines := s.lines[l := [x] + s.lines[l]], wd := s.wd[x := l], pushedTo := s.pushedTo[x := l],
       enq := s.enq[x := EPushed])
  }

  /** `notify_one` counts the task, and looks for a sleeper unless there are plenty of tasks. */
  function CountTask(s: State, x: nat): State
    requires x < |s.enq|
  {
    s.(num := s.num + 1, enq := s.enq[x := if s.num <= |s.wake| then ENotify(0) else EDone])
  }

  /** `try_notify` on sleep object `k`. */
  function TryNotify(s: State, x: nat): State
    requires x < |s.enq| && s.enq[x].ENotify?
  {
    var k := s.enq[x].k;
    if k >= |s.wake| then s.(enq := s.enq[x := EDone])
    else s.(wake := s.wake[k := s.wake[k] + 1], enq := s.enq[x := if s.wake[k] == 0 then EWake(k) else ENotify(k + 1)])
  }

  /** `wakeup_token::notify`; a null token wakes nobody. */
  function WakeToken(s: State, k: nat): State {
    if k < |s.token| && 0 <= s.token[k] < |s.counter| then
      s.(counter := s.counter[s.token[k] := s.counter[s.token[k]] + 1])
    else s
  }

  // ----- steps of a runner

  function Go(s: State, r: nat, p: RunnerPc): State
    requires r < |s.run|
  { s.(run := s.run[r := p]) }

  /** The next step of runner `r` takes a task. */
  predicate Pops(s: State, r: nat, c: Choice)
    requires r < |s.run| == |s.at| == |s.scan|
  {
    s.run[r] == RScan && s.scan[r] < 2 * |s.lines| && !c.locked && s.at[r] < |s.lines| && s.lines[s.at[r]] != []
  }

  /** Workers are not asked to stop. */
  ghost predicate RunnerEnabled(s: State, r: nat, c: Choice)
    requires Shape(s) && r < |s.run|
  {
    match s.run[r]
    case RNone => s.free != [] && Object(s, s.free[|s.free| - 1])
    case RLoop => c.stop ==> r >= s.workers
    case RToken => Object(s, s.obj[r])
    case RSub => Object(s, s.obj[r])
    case RSleep => s.counter[r] != s.id[r] || c.stop
    case RReset => Object(s, s.obj[r])
    case RCheck => if c.stop then r >= s.workers else c.start < |s.lines|
    case RScan => s.at[r] < |s.lines| && (Pops(s, r, c) ==> Task(s, s.lines[s.at[r]][0]))
    case RLeave => r >= s.workers && Object(s, s.obj[r])
    case _ => true
  }

  predicate Owning(p: RunnerPc) { p.RNone? || p.RLeave? }

  predicate Sleeping(p: RunnerPc) { p.RPrep? || p.RToken? || p.RSub? || p.RSleep? || p.RReset? }

  ghost function RunnerNext(s: State, r: nat, c: Choice): (s': State)
    requires Shape(s) && r < |s.run| && RunnerEnabled(s, r, c)
    ensures Shape(s') && s'.workers == s.workers && |s'.run| == |s.run| && |s'.wake| == |s.wake|
    ensures s'.run == s.run[r := s'.run[r]] && s'.counter == s.counter
    ensures s'.enq == s.enq && s'.ext == s.ext && s'.cb == s.cb && s'.pushedTo == s.pushedTo
  {
    if Owning(s.run[r]) then OwnNext(s, r, c)
    else if Sleeping(s.run[r]) then SleepNext(s, r, c)
    else WorkNext(s, r, c)
  }

  /** Takes a free sleep object, or gives it back. */
  ghost function OwnNext(s: State, r: nat, c: Choice): (s': State)
    requires Shape(s) && r < |s.run| && RunnerEnabled(s, r, c) && Owning(s.run[r])
    ensures Shape(s') && s'.workers == s.workers && |s'.run| == |s.run|
    ensures s'.run == s.run[r := s'.run[r]] && s'.counter == s.counter && s'.wake == s.wake
        && s'.token == s.token && s'.num == s.num
    ensures s'.enq == s.enq && s'.ext == s.ext && s'.cb == s.cb && s'.pushedTo == s.pushedTo
    ensures s'.lines == s.lines && s'.wd == s.wd && s'.taken == s.taken && s'.id == s.id && s'.at == s.at
  {
    match s.run[r]
    case RNone =>
      var k := s.free[|s.free| - 1];
      Go(s, r, RLoop).(free := s.free[..|s.free| - 1], obj := s.obj[r := k], owner := s.owner[k := r])
    case RLeave =>
      Go(s, r, RNone).(free := s.free + [s.obj[r]], obj := s.obj[r := -1], owner := s.owner[s.obj[r] := -1])
  }

  /** `thread_sleep_data::sleep`. */
  ghost function SleepNext(s: State, r: nat, c: Choice): (s': State)
    requires Shape(s) && r < |s.run| && RunnerEnabled(s, r, c) && Sleeping(s.run[r])
    ensures Shape(s') && s'.workers == s.workers && |s'.run| == |s.run| && |s'.wake| == |s.wake|
    ensures s'.run == s.run[r := s'.run[r]] && s'.counter == s.counter && s'.num == s.num
    ensures s'.enq == s.enq && s'.ext == s.ext && s'.cb == s.cb && s'.pushedTo == s.pushedTo
    ensures s'.lines == s.lines && s'.wd == s.wd && s'.taken == s.taken
    ensures s'.free == s.free && s'.obj == s.obj && s'.owner == s.owner && s'.at == s.at
  {
    match s.run[r]
    case RPrep => Go(s, r, RToken).(id := s.id[r := s.counter[r]])
    case RToken => Go(s, r, RSub).(token := s.token[s.obj[r] := r])
    case RSub =>
      var k := s.obj[r];
      Go(s, r, if s.wake[k] == 1 then RSleep else RReset).(wake := s.wake[k := s.wake[k] - 1])
    case RSleep => Go(s, r, RReset)
    case RReset => Go(s, r, RCheck).(wake := s.wake[s.obj[r] := 1])
  }

  /** The loop of `execute_work`. */
  ghost function WorkNext(s: State, r: nat, c: Choice): (s': State)
    requires Shape(s) && r < |s.run| && RunnerEnabled(s, r, c) && !Owning(s.run[r]) && !Sleeping(s.run[r])
    ensures Shape(s') && s'.workers == s.workers && |s'.run| == |s.run|
    ensures s'.run == s.run[r := s'.run[r]] && s'.counter == s.counter && s'.wake == s.wake && s'.token == s.token
    ensures s'.enq == s.enq && s'.ext == s.ext && s'.cb == s.cb && s'.pushedTo == s.pushedTo
    ensures s'.free == s.free && s'.obj == s.obj && s'.owner == s.owner && s'.id == s.id
    ensures |s'.lines| == |s.lines| && s'.at == s.at[r := s'.at[r]] && (Line(s, s.at[r]) ==> Line(s, s'.at[r]))
    ensures !Pops(s, r, c) ==> s'.lines == s.lines && s'.wd == s.wd && s'.taken == s.taken
  {
    match s.run[r]
    case RLoop => Go(s, r, if c.stop then RLeave else RLoad)
    case RLoad => Go(s, r, if s.num == 0 then RPrep else RCheck)
    case RCheck => if c.stop then Go(s, r, RLeave)
        else Go(s, r, RScan).(scan := s.scan[r := 0], at := s.at[r := c.start])
    case RScan =>
      if Pops(s, r, c) then PopHead(s, r, s.at[r])
      else if s.scan[r] < 2 * |s.lines| then
        s.(scan := s.scan[r := s.scan[r] + 1], at := s.at[r := Successor(s.at[r], |s.lines|)])
      else Go(s, r, RLoop)
    case RPopped => Go(s, r, RLoop).(num := s.num - 1)
  }

  function PopHead(s: State, r: nat, l: nat): State
    requires r < |s.run| && l < |s.lines| && s.lines[l] != [] && 0 <= s.lines[l][0] < |s.wd| == |s.taken|
  {
    var x := s.lines[l][0];
    Go(s, r, RPopped).(lines := s.lines[l := s.lines[l][1..]], wd := s.wd[x := -1],
      taken := s.taken[x := s.taken[x] + 1])
  }

  // ----- steps of an extraction

  /** The read of `worker_data_` without the lock. */
  function ReadLine(s: State, e: nat, x: nat): State
    requires e < |s.ext| && x < |s.wd|
  {
    if 0 <= s.wd[x] then s.(ext := s.ext[e := XLock(x, s.wd[x])]) else s
  }

  /** Under the lock of line `l`: looks again, and unlinks the task if it is still in a line. */
  function LockedExtract(s: State, e: nat): State
    requires e < |s.ext| && s.ext[e].XLock? && s.ext[e].x < |s.wd| == |s.taken| && s.ext[e].l < |s.lines|
  {
    var x, l := s.ext[e].x, s.ext[e].l;
    if s.wd[x] != -1 then
      s.(lines := s.lines[l := Remove(s.lines[l], x)], wd := s.wd[x := -1], taken := s.taken[x := s.taken[x] + 1],
         ext := s.ext[e := XTaken(x)])
    else s.(ext := s.ext[e := XIdle])
  }

  // ----- all steps

  datatype Action =
    | Enqueue(x: nat, l: nat)               // the next step of the enqueue of `x`; `l` is the line it is pushed to
    | Extract(e: nat, x: nat)               // the next step of extraction `e`; `x` is the task it starts with
    | Notify(b: nat, k: nat)                // the next step of callback `b`, which notifies object `k`
    | RunnerStep(r: nat, c: Choice)
    | OtherWakeUp(r: nat)                   // `wake_up` on behalf of a thread switch

  ghost predicate Enabled(s: State, a: Action) {
    && Shape(s)
    && match a
       case Enqueue(x, l) => x < |s.enq| && l < |s.lines| && s.enq[x] != EDone
       case Extract(e, x) =>
         e < |s.ext| && (match s.ext[e]
                         case XIdle => x < |s.enq|
                         case XLock(y, l) => y < |s.enq| && l < |s.lines|
                         case XTaken(_) => true)
       case Notify(b, k) => b < |s.cb| && k < |s.wake|
       case RunnerStep(r, c) => r < |s.run| && RunnerEnabled(s, r, c)
       case OtherWakeUp(r) => r < |s.counter|
  }

  ghost function Next(s: State, a: Action): State
    requires Enabled(s, a)
  {
    match a
    case Enqueue(x, l) => EnqueueNext(s, x, l)
    case Extract(e, x) => ExtractNext(s, e, x)
    case Notify(b, k) => NotifyNext(s, b, k)
    case RunnerStep(r, c) => RunnerNext(s, r, c)
    case OtherWakeUp(r) => s.(counter := s.counter[r := s.counter[r] + 1])
  }

  ghost function EnqueueNext(s: State, x: nat, l: nat): State
    requires Shape(s) && x < |s.enq| && l < |s.lines| && s.enq[x] != EDone
  {
    match s.enq[x]
    case EIdle => Push(s, x, l)
    case EPushed => CountTask(s, x)
    case ENotify(_) => TryNotify(s, x)
    case EWake(k) => WakeToken(s, k).(enq := s.enq[x := EDone])
  }

  ghost function ExtractNext(s: State, e: nat, x: nat): State
    requires Enabled(s, Extract(e, x))
  {
    match s.ext[e]
    case XIdle => ReadLine(s, e, x)
    case XLock(_, _) => LockedExtract(s, e)
    case XTaken(_) => s.(num := s.num - 1, ext := s.ext[e := XIdle])
  }

  ghost function NotifyNext(s: State, b: nat, k: nat): State
    requires b < |s.cb| && k < |s.wake|
  {
    match s.cb[b]
    case CIdle => s.(wake := s.wake[k := s.wake[k] + 1], cb := s.cb[b := if s.wake[k] == 0 then CWake(k) else CIdle])
    case CWake(j) => WakeToken(s, j).(cb := s.cb[b := CIdle])
  }

  ghost predicate Step(s: State, s': State) {
    exists a: Action :: Enabled(s, a) && s' == Next(s, a)
  }

  ghost predicate IsRun(tr: seq<State>) {
    && tr != [] && Init(tr[0])
    && forall i :: 0 <= i < |tr| - 1 ==> Step(tr[i], tr[i + 1])
  }

  // ----- the invariant

  /** Delivery: an enqueued task is in its line, or has been handed out once; never both. */
  ghost predicate DeliveryInv(s: State)
    requires Shape(s)
  {
    && LinesAgree(s.lines, s.wd)
    && (forall x :: Task(s, x) ==>
          && (s.wd[x] == -1 || s.wd[x] == s.pushedTo[x])
          && s.taken[x] == (if s.enq[x] == EIdle || s.wd[x] != -1 then 0 else 1)
          && (s.enq[x] == EIdle ==> s.wd[x] == -1 && s.pushedTo[x] == -1)
          && (s.enq[x] != EIdle ==> Line(s, s.pushedTo[x])))
    && (forall e :: 0 <= e < |s.ext| && s.ext[e].XLock? ==>
          Task(s, s.ext[e].x) && s.pushedTo[s.ext[e].x] == s.ext[e].l && Line(s, s.ext[e].l))
  }

  ghost function Lengths(s: State): seq<int> { seq(|s.lines|, l requires 0 <= l < |s.lines| => |s.lines[l]|) }

  ghost function PushedBits(s: State): seq<int> {
    seq(|s.enq|, x requires 0 <= x < |s.enq| => if s.enq[x] == EPushed then 1 else 0)
  }

  ghost function PoppedBits(s: State): seq<int> {
    seq(|s.run|, r requires 0 <= r < |s.run| => if s.run[r] == RPopped then 1 else 0)
  }

  ghost function ExtractedBits(s: State): seq<int> {
    seq(|s.ext|, e requires 0 <= e < |s.ext| => if s.ext[e].XTaken? then 1 else 0)
  }

  /** Conservation: the counter, plus what is pushed and not counted, minus what is removed and not
      subtracted, is what the lines hold. */
  ghost predicate CountInv(s: State) {
    s.num + Sum(PushedBits(s)) - Sum(PoppedBits(s)) - Sum(ExtractedBits(s)) == Sum(Lengths(s))
  }

  /** Sleep objects have one owner at a time, and the ones of helpers are free when they have none. */
  ghost predicate OwnerInv(s: State)
    requires Shape(s)
  {
    && (forall r :: Runner(s, r) ==> (s.obj[r] == -1 <==> s.run[r] == RNone))
    && (forall r :: Runner(s, r) && s.obj[r] != -1 ==> Object(s, s.obj[r]) && s.owner[s.obj[r]] == r)
    && (forall k :: Object(s, k) && s.owner[k] != -1 ==> Runner(s, s.owner[k]) && s.obj[s.owner[k]] == k)
    && (forall r :: Runner(s, r) && r < s.workers ==> s.obj[r] == r && s.run[r] != RLeave)
    && (forall r :: Runner(s, r) ==> Line(s, s.at[r]))
    && Distinct(s.free)
    && (forall i :: 0 <= i < |s.free| ==> s.workers <= s.free[i] < 2 * s.workers && s.owner[s.free[i]] == -1)
    && (forall k :: s.workers <= k < 2 * s.workers && s.owner[k] == -1 ==> k in s.free)
    && (forall k :: 2 * s.workers <= k < |s.wake| ==> s.owner[k] == -1)
  }

  predicate Committed(p: RunnerPc) { p.RSleep? || p.RReset? }

  /** `wake_requests_` is never negative, and zero only while the owner is committed to sleep and has left a
      valid token. */
  ghost predicate WakeInv(s: State)
    requires Shape(s)
  {
    && (forall k :: Object(s, k) ==> s.wake[k] >= 0)
    && (forall k :: Object(s, k) && s.wake[k] == 0 ==>
          Runner(s, s.owner[k]) && Committed(s.run[s.owner[k]]) && s.token[k] == s.owner[k])
    && (forall k :: Object(s, k) ==> s.token[k] == -1 || Runner(s, s.token[k]))
    && (forall r :: Runner(s, r) && (s.run[r] == RSub || Committed(s.run[r])) ==>
          Object(s, s.obj[r]) && s.token[s.obj[r]] == r)
    && (forall x :: Task(s, x) && s.enq[x].EWake? ==> Object(s, s.enq[x].k) && s.token[s.enq[x].k] != -1)
    && (forall b :: 0 <= b < |s.cb| && s.cb[b].CWake? ==> Object(s, s.cb[b].k) && s.token[s.cb[b].k] != -1)
  }

  /** Somebody has counted a task and is about to look at sleep object 0. */
  ghost predicate NotifierComing(s: State) { exists x :: Task(s, x) && s.enq[x] == ENotify(0) }

  /** Somebody has found sleep object `k` asleep and is about to wake its owner up. */
  ghost predicate WakerComing(s: State, k: int) {
    || (exists x :: Task(s, x) && s.enq[x].EWake? && s.enq[x].k == k)
    || (exists b :: 0 <= b < |s.cb| && s.cb[b].CWake? && s.cb[b].k == k)
  }

  /** The counter of a thread only moves on from what its runner has read; and if a wake request has reached a sleeping
      runner, its counter has moved or is about to. */
  ghost predicate SleeperOk(s: State, r: int)
    requires Shape(s) && Runner(s, r)
  {
    var p := s.run[r];
    && (p == RToken || p == RSub || p == RSleep ==> s.counter[r] >= s.id[r])
    && (p == RSleep ==>
          && Object(s, s.obj[r])
          && (s.wake[s.obj[r]] == 0 || s.counter[r] > s.id[r] || WakerComing(s, s.obj[r])))
  }

  ghost predicate SleeperInv(s: State)
    requires Shape(s)
  {
    forall r {:trigger SleeperOk(s, r)} :: Runner(s, r) ==> SleeperOk(s, r)
  }

  /** No lost wake-up: if there are tasks when worker 0 is on its way to sleep, or asleep, a wake request has reached it
      or is coming. */
  ghost predicate AlarmInv(s: State)
    requires Shape(s)
  {
    s.workers > 0 ==>
      var p := s.run[0];
      && (p == RPrep || p == RToken || p == RSub ==> s.num <= 0 || s.wake[0] >= 2 || NotifierComing(s))
      && (p == RSleep ==> s.num <= 0 || s.wake[0] >= 1 || NotifierComing(s))
  }

  ghost predicate Inv(s: State) {
    Shape(s) && DeliveryInv(s) && CountInv(s) && OwnerInv(s) && WakeInv(s) && SleeperInv(s) && AlarmInv(s)
  }
}
