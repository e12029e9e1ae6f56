/** The linked lines do what the step system says: with every task named by its number, pushing, popping and
    extracting on the heap are the steps `Push`, `PopHead` and `LockedExtract`. */
module PoolLines {
  import opened Seqs
  import opened ThreadPool
  import WorkLines

  /** `contents` are the lines of `s`, with task number `x` being the object `tasks[x]`. */
  ghost predicate Shows(contents: seq<seq<WorkLines.Task>>, tasks: seq<WorkLines.Task>, lines: seq<seq<int>>) {
    && Distinct(tasks) && |contents| == |lines|
    && (forall l :: 0 <= l < |lines| ==> |contents[l]| == |lines[l]|)
    && (forall l, i :: 0 <= l < |lines| && 0 <= i < |lines[l]| ==>
          0 <= lines[l][i] < |tasks| && contents[l][i] == tasks[lines[l][i]])
  }

  /** On a line without repetitions, removing an element is leaving out its position. */
  lemma {:induction false} RemoveIsWithout(q: seq<int>, k: nat)
    requires Distinct(q) && k < |q|
    ensures Remove(q, q[k]) == WorkLines.Without(q, k)
  {
    if k > 0 {
      RemoveIsWithout(q[1..], k - 1);
      assert [q[0]] + WorkLines.Without(q[1..], k - 1) == WorkLines.Without(q, k);
    }
  }

  lemma PushShows(contents: seq<seq<WorkLines.Task>>, tasks: seq<WorkLines.Task>, lines: seq<seq<int>>, x: nat, l: nat)
    requires Shows(contents, tasks, lines) && x < |tasks| && l < |lines|
    ensures Shows(contents[l := [tasks[x]] + contents[l]], tasks, lines[l := [x] + lines[l]])
  {
  }

  lemma WithoutShows(contents: seq<seq<WorkLines.Task>>, tasks: seq<WorkLines.Task>, lines: seq<seq<int>>, l: nat,
      k: nat)
    requires Shows(contents, tasks, lines) && l < |lines| && k < |lines[l]|
    ensures Shows(contents[l := WorkLines.Without(contents[l], k)], tasks, lines[l := WorkLines.Without(lines[l], k)])
  {
  }

  /** A new pool shows the lines of every initial state with as many of them. */
  method NewPool(threadCount: nat, ghost tasks: seq<WorkLines.Task>, ghost s: State) returns (pool: WorkLines.TaskLines)
    requires Init(s) && |s.lines| == threadCount + 1 && Distinct(tasks)
    ensures fresh(pool) && pool.Valid() && Shows(pool.Contents(), tasks, s.lines) && pool.numTasks == s.num
  {
    pool := new WorkLines.TaskLines(threadCount);
  }

  method PushStep(pool: WorkLines.TaskLines, task: WorkLines.Task, l: nat,
                  ghost tasks: seq<WorkLines.Task>, ghost s: State, ghost x: nat)
    requires pool.Valid() && Shape(s) && Shows(pool.Contents(), tasks, s.lines)
    requires x < |tasks| == |s.enq| && tasks[x] == task && task.workerData == null && l < |s.lines|
    modifies pool`known, pool.lines[l], task, pool.lines[l].tasks
    ensures pool.Valid() && Shows(pool.Contents(), tasks, Push(s, x, l).lines)
  {
    PushShows(pool.Contents(), tasks, s.lines, x, l);
    pool.PushTo(l, task);
  }

  method PopStep(pool: WorkLines.TaskLines, l: nat, ghost tasks: seq<WorkLines.Task>, ghost s: State, ghost r: nat)
    returns (task: WorkLines.Task?)
    requires pool.Valid() && Shape(s) && Shows(pool.Contents(), tasks, s.lines)
    requires |tasks| == |s.enq| && l < |s.lines| && r < |s.run|
    modifies pool.lines[l], pool.lines[l].tasks
    ensures pool.Valid()
    ensures if s.lines[l] == [] then task == null && Shows(pool.Contents(), tasks, s.lines)
            else task == tasks[s.lines[l][0]] && Shows(pool.Contents(), tasks, PopHead(s, r, l).lines)
  {
    ghost var before := pool.Contents();
    task := pool.PopFrom(l);
    if s.lines[l] != [] {
      WithoutShows(before, tasks, s.lines, l, 0);
      assert before[l][1..] == WorkLines.Without(before[l], 0) && s.lines[l][1..] == WorkLines.Without(s.lines[l], 0);
    }
  }

  lemma ExtractShows(contents: seq<seq<WorkLines.Task>>, tasks: seq<WorkLines.Task>, s: State, e: nat, j: nat, k: nat)
    requires Shape(s) && DeliveryInv(s) && Shows(contents, tasks, s.lines) && |tasks| == |s.enq|
    requires e < |s.ext| && s.ext[e].XLock? && j < |contents| && k < |contents[j]|
        && contents[j][k] == tasks[s.ext[e].x]
    ensures LockedExtract(s, e).ext[e].XTaken?
    ensures Shows(contents[j := WorkLines.Without(contents[j], k)], tasks, LockedExtract(s, e).lines)
  {
    assert s.lines[j][k] == s.ext[e].x;
    WithoutShows(contents, tasks, s.lines, j, k);
    RemoveIsWithout(s.lines[j], k);
  }

  lemma SomewhereShows(contents: seq<seq<WorkLines.Task>>, tasks: seq<WorkLines.Task>, s: State, x: nat)
    requires Shape(s) && DeliveryInv(s) && Shows(contents, tasks, s.lines) && x < |tasks| == |s.enq|
    ensures s.wd[x] != -1 ==> 0 <= s.wd[x] < |contents| && tasks[x] in contents[s.wd[x]]
  {
    if s.wd[x] != -1 {
      var l := s.wd[x];
      var i :| 0 <= i < |s.lines[l]| && s.lines[l][i] == x;
      assert contents[l][i] == tasks[x];
    }
  }

  /** A task that is in a line of the pool is in the line that the extraction has read. */
  lemma LookIsRight(pool: WorkLines.TaskLines, tasks: seq<WorkLines.Task>, s: State, e: nat)
    requires pool.Valid() && Shape(s) && DeliveryInv(s) && Shows(pool.Contents(), tasks, s.lines) && |tasks| == |s.enq|
    requires e < |s.ext| && s.ext[e].XLock? && s.ext[e].x < |tasks|
    requires tasks[s.ext[e].x].workerData != null ==> tasks[s.ext[e].x] in pool.known
    ensures s.ext[e].l < |pool.lines|
    ensures var task := tasks[s.ext[e].x]; task.workerData == null || task.workerData == pool.lines[s.ext[e].l]
  {
    var x, l := s.ext[e].x, s.ext[e].l;
    if tasks[x].workerData != null {
      var j :| 0 <= j < |pool.lines| && pool.lines[j] == tasks[x].workerData;
      var i :| 0 <= i < |pool.lines[j].tasks| && pool.lines[j].tasks[i] == tasks[x];
      assert pool.Contents()[j][i] == tasks[s.lines[j][i]];
      assert s.lines[j][i] == x && s.wd[x] == j;
    }
  }

  /** The section of extraction `e` under the lock of the line it read earlier, whatever happened in between: succeeds
      exactly as the step does. */
  method ExtractStep(pool: WorkLines.TaskLines, task: WorkLines.Task, l: nat,
                     ghost tasks: seq<WorkLines.Task>, ghost s: State, ghost e: nat) returns (found: bool)
    requires pool.Valid() && Shape(s) && DeliveryInv(s) && Shows(pool.Contents(), tasks, s.lines) && |tasks| == |s.enq|
    requires e < |s.ext| && s.ext[e].XLock? && s.ext[e].x < |tasks| && tasks[s.ext[e].x] == task && l == s.ext[e].l
    requires task.workerData != null ==> task in pool.known
    modifies pool.lines, pool.known
    ensures pool.Valid()
    ensures found <==> LockedExtract(s, e).ext[e].XTaken?
    ensures Shows(pool.Contents(), tasks, LockedExtract(s, e).lines)
  {
    LookIsRight(pool, tasks, s, e);
    hide DeliveryInv;
    ghost var before := pool.Contents();
    SomewhereShows(before, tasks, s, s.ext[e].x);
    LineOfTask(s, e);
    ghost var k;
    found, k := pool.ExtractFrom(l, task);
    if found { ExtractShows(before, tasks, s, e, l, k); }
  }

  lemma LineOfTask(s: State, e: nat)
    requires Shape(s) && DeliveryInv(s) && e < |s.ext| && s.ext[e].XLock?
    ensures var x, l := s.ext[e].x, s.ext[e].l; Task(s, x) && Line(s, l) && (s.wd[x] == -1 || s.wd[x] == l)
  {
  }
}
