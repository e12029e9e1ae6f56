/** The intrusive, doubly linked lines of the thread pool. A task stores the address of the pointer that
    points to it, so that it can be unlinked without a search. */
module WorkLines {
  import opened Turns

  /** `prev_link_`: the address of a line's head pointer, or of another task's `next_`. */
  datatype Link = NoLink | HeadOf(line: WorkLine) | NextOf(task: Task)

  class Task {
    var next: Task?
    var prevLink: Link
    var workerData: WorkLine?

    /** A task as its creator hands it over. */
    constructor ()
      ensures next == null && prevLink == NoLink && workerData == null
    {
      next, prevLink, workerData := null, NoLink, null;
    }
  }

  /** Removes the element at `k`. */
  function Without<T>(s: seq<T>, k: nat): seq<T>
    requires k < |s|
  { s[..k] + s[k + 1..] }

  class WorkLine {
    var tasksStack: Task?
    ghost var tasks: seq<Task>    // the line, from its head

    /** The links agree with the sequence, and every task in it knows that it is in this line. */
    ghost predicate Valid()
      reads this, tasks
    {
      && tasksStack == (if tasks == [] then null else tasks[0])
      && (forall i, j :: 0 <= i < j < |tasks| ==> tasks[i] != tasks[j])
      && (forall i :: 0 <= i < |tasks| ==> LinkedAt(i))
    }

    ghost predicate LinkedAt(i: int)
      requires 0 <= i < |tasks|
      reads this`tasks, tasks
    {
      && tasks[i].workerData == this
      && tasks[i].next == (if i + 1 < |tasks| then tasks[i + 1] else null)
      && tasks[i].prevLink == (if i == 0 then HeadOf(this) else NextOf(tasks[i - 1]))
    }

    constructor ()
      ensures Valid() && tasks == []
    {
      tasksStack, tasks := null, [];
    }

    /** `push_unprotected`: adds the task in front. */
    method Push(task: Task)
      requires Valid() && task !in tasks
      modifies this, task, tasks
      ensures Valid() && tasks == [task] + old(tasks) && task.workerData == this
      ensures forall t <- old(tasks) :: t.workerData == old(t.workerData)
    {
      task.workerData := this;
      task.next := tasksStack;
      if tasksStack != null { tasksStack.prevLink := NextOf(task); }
      task.prevLink := HeadOf(this);
      tasksStack := task;
      tasks := [task] + tasks;
      forall i | 0 <= i < |tasks| ensures LinkedAt(i) {
        if i > 0 { assert old(LinkedAt(i - 1)); }
      }
    }

    /** `pop_unprotected`: takes the task in front, if any. */
    method Pop() returns (res: Task?)
      requires Valid()
      modifies this, tasks
      ensures Valid()
      ensures if old(tasks) == [] then res == null && tasks == []
              else res == old(tasks)[0] && tasks == old(tasks)[1..] && res.workerData == null && res.prevLink == NoLink
      ensures forall t <- old(tasks) :: t != res ==> t.workerData == old(t.workerData)
    {
      res := tasksStack;
      if res != null {
        assert LinkedAt(0);
        tasksStack := res.next;
        if tasksStack != null { tasksStack.prevLink := HeadOf(this); }
        res.prevLink := NoLink;
        res.workerData := null;
        tasks := tasks[1..];
        forall i | 0 <= i < |tasks| ensures LinkedAt(i) { assert old(LinkedAt(i + 1)); }
      }
    }

    /** Unlinks the task at position `k` through the address it stores. */
    method Unlink(task: Task, ghost k: int)
      requires Valid() && 0 <= k < |tasks| && tasks[k] == task
      modifies this, tasks
      ensures Valid() && tasks == Without(old(tasks), k)
      ensures task.workerData == null && task.prevLink == NoLink && task !in tasks
      ensures forall t <- old(tasks) :: t != task ==> t.workerData == old(t.workerData)
    {
      assert LinkedAt(k);
      if k + 1 < |tasks| { assert LinkedAt(k + 1); }
      match task.prevLink {
        case HeadOf(line) => line.tasksStack := task.next;
        case NextOf(prev) => prev.next := task.next;
      }
      if task.next != null { task.next.prevLink := task.prevLink; }
      task.workerData := null;
      task.prevLink := NoLink;
      tasks := Without(tasks, k);
      forall i | 0 <= i < |tasks| ensures LinkedAt(i) {
        assert old(LinkedAt(if i < k then i else i + 1));
      }
    }

    /** `work_line::extract_task`: unlinks exactly this task, wherever it is, and says whether it was there. */
    method Extract(task: Task) returns (found: bool, ghost k: int)
      requires Valid() && (task.workerData == this <==> task in tasks) && (task.workerData == null
          || task.workerData == this)
      modifies this, tasks
      ensures Valid()
      ensures found <==> task in old(tasks)
      ensures !found ==> tasks == old(tasks) && task.workerData == null
      ensures found ==> 0 <= k < |old(tasks)| && old(tasks)[k] == task && tasks == Without(old(tasks), k)
      ensures found ==> task.workerData == null && task.prevLink == NoLink && task !in tasks
      ensures forall t <- old(tasks) :: t != task ==> t.workerData == old(t.workerData)
    {
      if task.workerData == null { return false, -1; }
      k :| 0 <= k < |tasks| && tasks[k] == task;
      Unlink(task, k);
      return true, k;
    }
  }

  /** The lines of a pool and the tasks it may meet. */
  class TaskLines {
    const lines: seq<WorkLine>
    var numTasks: int
    var lineToPushTo: nat
    ghost var known: set<Task>

    ghost predicate Valid()
      reads this, lines, known
    {
      && lines != []
      && (forall i, j :: 0 <= i < j < |lines| ==> lines[i] != lines[j])
      && (forall i :: 0 <= i < |lines| ==> (forall t <- lines[i].tasks :: t in known) && lines[i].Valid())
      && (forall t <- known :: t.workerData != null ==> t.workerData in lines && t in t.workerData.tasks)
    }

    /** One line more than there are threads, all empty. */
    constructor (threadCount: nat)
      ensures Valid() && |lines| == threadCount + 1 && known == {} && numTasks == 0 && lineToPushTo == 0
      ensures forall l :: 0 <= l < |lines| ==> fresh(lines[l]) && Contents()[l] == []
    {
      var all: seq<WorkLine> := [];
      for i := 0 to threadCount + 1
        invariant |all| == i && (forall j :: 0 <= j < i ==> fresh(all[j]) && all[j].tasks == [] && all[j].Valid())
        invariant forall j, k :: 0 <= j < k < i ==> all[j] != all[k]
      {
        var line := new WorkLine();
        all := all + [line];
      }
      lines, numTasks, lineToPushTo, known := all, 0, 0, {};
    }

    ghost function Contents(): seq<seq<Task>>
      reads this, lines
    {
      seq(|lines|, i requires 0 <= i < |lines| reads lines => lines[i].tasks)
    }

    /** A task is in at most one line, and which one it is in is what it says. */
    lemma InAtMostOneLine(t: Task, i: nat, j: nat)
      requires Valid() && i < |lines| && j < |lines| && t in lines[i].tasks && t in lines[j].tasks
      ensures i == j && t.workerData == lines[i]
    {
      var a :| 0 <= a < |lines[i].tasks| && lines[i].tasks[a] == t;
      var b :| 0 <= b < |lines[j].tasks| && lines[j].tasks[b] == t;
      assert lines[i].LinkedAt(a) && lines[j].LinkedAt(b);
    }

    /** What is in another line is not touched by an operation on line `j`. */
    lemma Apart(j: nat)
      requires Valid() && j < |lines|
      ensures forall i, t :: 0 <= i < |lines| && i != j && t in lines[i].tasks ==>
                               t !in lines[j].tasks && t.workerData == lines[i]
      ensures forall t <- lines[j].tasks :: t.workerData == lines[j]
    {
      forall i, t | 0 <= i < |lines| && i != j && t in lines[i].tasks
        ensures t !in lines[j].tasks && t.workerData == lines[i]
      {
        InAtMostOneLine(t, i, i);
        if t in lines[j].tasks { InAtMostOneLine(t, i, j); }
      }
      forall t <- lines[j].tasks ensures t.workerData == lines[j] { InAtMostOneLine(t, j, j); }
    }

    /** Clears the links of a task that is in no line. */
    method Detach(task: Task)
      requires Valid() && task.workerData == null
      modifies task`next, task`prevLink
      ensures Valid() && Contents() == old(Contents()) && task.workerData == null
      ensures task.next == null && task.prevLink == NoLink
    {
      forall i | 0 <= i < |lines| ensures task !in lines[i].tasks { Apart(i); }
      task.next, task.prevLink := null, NoLink;
      forall i | 0 <= i < |lines| ensures lines[i].Valid() {
        forall k | 0 <= k < |lines[i].tasks| ensures lines[i].LinkedAt(k) { assert old(lines[i].LinkedAt(k)); }
      }
    }

    method PushTo(j: nat, task: Task)
      requires Valid() && j < |lines| && task.workerData == null
      modifies this`known, lines[j], task, lines[j].tasks
      ensures Valid() && known == old(known) + {task}
      ensures Contents() == old(Contents())[j := [task] + old(Contents())[j]]
    {
      forall i | 0 <= i < |lines| ensures task !in lines[i].tasks { Apart(i); }
      Apart(j);
      known := known + {task};
      lines[j].Push(task);
      OthersUntouched(j);
      forall t <- known | t.workerData != null ensures t.workerData in lines && t in t.workerData.tasks {
        if t != task { assert t.workerData == old(t.workerData) && t in old(t.workerData.tasks); }
      }
    }

    /** Takes the head of line `j`, if there is one. */
    method PopFrom(j: nat) returns (task: Task?)
      requires Valid() && j < |lines|
      modifies lines[j], lines[j].tasks
      ensures Valid()
      ensures if old(lines[j].tasks) == [] then task == null && Contents() == old(Contents())
              else task == old(lines[j].tasks)[0] && task.workerData == null && task in known
                   && Contents() == old(Contents())[j := old(lines[j].tasks)[1..]]
    {
      Apart(j);
      task := lines[j].Pop();
      OthersUntouched(j);
      forall t <- known | t.workerData != null ensures t.workerData in lines && t in t.workerData.tasks {
        assert t.workerData == old(t.workerData) && t in old(t.workerData.tasks);
      }
    }

    /** Only line `j` and what was in it changed: the other lines are as they were. */
    twostate lemma OthersUntouched(j: nat)
      requires j < |lines| && old(Valid())
      requires forall i :: 0 <= i < |lines| && i != j ==> unchanged(lines[i])
      requires forall i, t :: 0 <= i < |lines| && i != j && t in old(lines[i].tasks) ==> unchanged(t)
      ensures forall i :: 0 <= i < |lines| && i != j ==> lines[i].Valid() && lines[i].tasks == old(lines[i].tasks)
    {
      forall i | 0 <= i < |lines| && i != j ensures lines[i].Valid() {
        forall k | 0 <= k < |lines[i].tasks| ensures lines[i].LinkedAt(k) { assert old(lines[i].LinkedAt(k)); }
      }
    }

    /** The section of an extraction under the lock of line `j`, which the look without the lock has found in the task
        some time before: takes the task out of that line if it is still there. */
    method ExtractFrom(j: nat, task: Task) returns (found: bool, ghost k: int)
      requires Valid() && j < |lines| && (task.workerData == null || (task.workerData == lines[j] && task in known))
      modifies lines[j], lines[j].tasks
      ensures Valid() && task.workerData == null
      ensures found <==> task in old(lines[j].tasks)
      ensures !found ==> Contents() == old(Contents())
      ensures found ==> 0 <= k < |old(Contents())[j]| && old(Contents())[j][k] == task
                        && Contents() == old(Contents())[j := Without(old(Contents())[j], k)]
    {
      Apart(j);
      found, k := lines[j].Extract(task);
      OthersUntouched(j);
      forall t <- known | t.workerData != null ensures t.workerData in lines && t in t.workerData.tasks {
        assert t.workerData == old(t.workerData) && t in old(t.workerData.tasks);
      }
    }

    /** `thread_pool::extract_task`: succeeds exactly when the task is in a line, and takes it out of there. */
    method ExtractTask(task: Task) returns (found: bool)
      requires Valid() && (task.workerData != null ==> task in known)
      modifies this`numTasks, lines, known
      ensures Valid() && known == old(known)
      ensures found <==> exists j :: 0 <= j < |lines| && task in old(lines[j].tasks)
      ensures !found ==> Contents() == old(Contents()) && numTasks == old(numTasks)
      ensures found ==> task.workerData == null && numTasks == old(numTasks) - 1
      ensures found ==>
                exists j, k :: 0 <= j < |lines| && 0 <= k < |old(Contents())[j]| && old(Contents())[j][k] == task
                               && Contents() == old(Contents())[j := Without(old(Contents())[j], k)]
    {
      var line := task.workerData;
      if line == null {
        forall j | 0 <= j < |lines| ensures task !in lines[j].tasks { Apart(j); }
        return false;
      }
      var j :| 0 <= j < |lines| && lines[j] == line;
      ghost var k;
      found, k := ExtractFrom(j, task);
      numTasks := numTasks - 1;
    }

    /** Line `line` is the one of the first attempt, in turn from `start`, that meets no held lock; `start` if all
        do. */
    ghost predicate IsChoice(line: nat, start: nat, busy: seq<bool>)
      requires lines != [] && |busy| == |lines|
    {
      if forall i :: 0 <= i < |lines| ==> busy[i] then line == start
      else exists d :: 0 <= d < |lines| && line == Turn(start, d, |lines|) && !busy[d]
                       && forall e :: 0 <= e < d ==> busy[e]
    }

    /** The line an enqueue uses: the next one in turn whose lock it gets; the one whose turn it is, if it gets none.
        `busy[i]` tells whether somebody else holds the lock at the `i`-th attempt. */
    method ChooseLine(start: nat, busy: seq<bool>) returns (line: nat)
      requires lines != [] && start < |lines| && |busy| == |lines|
      ensures line < |lines| && IsChoice(line, start, busy)
    {
      for i := 0 to |lines|
        invariant forall e :: 0 <= e < i ==> busy[e]
      {
        if !busy[i] { return Turn(start, i, |lines|); }
      }
      line := start;
    }

    /** `enqueue`, up to the notification. */
    method Enqueue(task: Task, busy: seq<bool>) returns (line: nat)
      requires Valid() && task.workerData == null && |busy| == |lines|
      modifies this, lines, known, task
      ensures Valid() && line < |lines| && known == old(known) + {task}
      ensures Contents() == old(Contents())[line := [task] + old(Contents())[line]]
      ensures numTasks == old(numTasks) + 1 && lineToPushTo == old(lineToPushTo) + 1
      ensures IsChoice(line, old(lineToPushTo) % |lines|, busy)
    {
      Detach(task);
      line := ChooseLine(lineToPushTo % |lines|, busy);
      PushTo(line, task);
      Count();
    }

    /** The counters, which no line depends on. */
    method Count()
      requires Valid()
      modifies this`numTasks, this`lineToPushTo
      ensures Valid() && Contents() == old(Contents())
      ensures numTasks == old(numTasks) + 1 && lineToPushTo == old(lineToPushTo) + 1
    {
      numTasks := numTasks + 1;
      lineToPushTo := lineToPushTo + 1;
    }

    /** `try_pop`: the head of line `j`, unless the line is empty or somebody else holds its lock. */
    method TryPop(j: nat, busy: bool) returns (task: Task?)
      requires Valid() && j < |lines|
      modifies lines[j], lines[j].tasks
      ensures Valid()
      ensures if busy || old(Contents())[j] == [] then task == null && Contents() == old(Contents())
              else task == old(Contents())[j][0] && task.workerData == null
                   && Contents() == old(Contents())[j := old(Contents())[j][1..]]
    {
      if busy { return null; }
      task := PopFrom(j);
    }

    /** Attempt `e` of a search from `hint` is the first that gets the lock of a line with tasks: line `line`. */
    ghost predicate FirstFound(contents: seq<seq<Task>>, hint: nat, busy: seq<bool>, e: int, line: nat)
      requires |contents| == |lines| > 0
    {
      && 0 <= e < |busy| && !busy[e] && line == Turn(hint, e, |lines|) && contents[line] != []
      && forall d :: 0 <= d < e ==> busy[d] || contents[Turn(hint, d, |lines|)] == []
    }

    /** The search of `execute_work`: twice around the lines, skipping those whose lock somebody else holds at that
        attempt. It comes back empty-handed only if every line it could open was empty. */
    method TakeTask(hint: nat, busy: seq<bool>) returns (task: Task?, line: nat)
      requires Valid() && |busy| == 2 * |lines|
      modifies this`numTasks, lines, known
      ensures Valid() && known == old(known)
      ensures if task == null
              then Contents() == old(Contents()) && numTasks == old(numTasks)
                   && forall e :: 0 <= e < 2 * |lines| && !busy[e] ==> old(Contents())[Turn(hint, e, |lines|)] == []
              else (exists e :: FirstFound(old(Contents()), hint, busy, e, line)) && task == old(Contents())[line][0]
                   && Contents() == old(Contents())[line := old(Contents())[line][1..]]
                   && task.workerData == null && numTasks == old(numTasks) - 1
      ensures (forall e :: 0 <= e < |busy| ==> !busy[e]) ==>
                (task == null <==> forall j :: 0 <= j < |lines| ==> old(Contents())[j] == [])
    {
      for i := 0 to 2 * |lines|
        invariant Valid() && known == old(known) && numTasks == old(numTasks)
        invariant Contents() == old(Contents())
        invariant forall e :: 0 <= e < i && !busy[e] ==> old(Contents())[Turn(hint, e, |lines|)] == []
      {
        line := Turn(hint, i, |lines|);
        task := TryPop(line, busy[i]);
        if task != null {
          assert FirstFound(old(Contents()), hint, busy, i, line);
          numTasks := numTasks - 1;
          return;
        }
      }
      task, line := null, 0;
      if forall e :: 0 <= e < |busy| ==> !busy[e] {
        forall j | 0 <= j < |lines| ensures old(Contents())[j] == [] { var d := TurnReaches(hint, j, |lines|); }
      }
    }
  }
}
