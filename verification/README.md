# Verified protocols of concore2full

concore2full runs stackful coroutines on a pool of threads. A control flow may finish on another thread than
the one it started on, so small lock-free protocols pass continuations between threads. This project models
those protocols in Dafny and proves that, whatever the interleaving and however many actors take part, no
control flow is lost or duplicated, nobody returns before the work is done, no reachable state is a deadlock,
and memory is not used after it may have been released. The code keeps these promises with the exceptions
listed below; for each of them a concrete run shows it, and a theorem says exactly when the promise holds.

## How it is modelled

Every protocol appears twice, and the two are tied together; sleeping during a thread switch, which only adds reads
and waits to the switch, appears once.

* A **step system**: a `State`, a step of every actor, and runs as sequences of states. Each atomic operation
  and each section under a lock is one sequentially consistent step; a spin-wait is a guard; `callcc` stores a
  continuation token, and returning a token resumes it. An OS thread and a control flow are different things.
  Fields called history in a `State` count or record what happened and influence no step.
* A **class with the source's fields**, updated in place. Its methods are the source's functions, or their
  atomic operations where other threads can come in between. In the `*Object` modules the object carries its
  history, which every method keeps to be a run of the step system; so the theorems about runs hold of the
  object however its methods are interleaved, and the methods use them (a token read is never null, an object
  used still exists). The linked lines of the pool are proved against the sequences of the step system.

| protocol | step system | proof that every run keeps the invariant | theorems | object |
|---|---|---|---|---|
| bulk spawn frame | `BulkSpawn` | `BulkSpawnProof` | `BulkSpawnTheorems` | `BulkSpawnFrame` |
| thread switch | `ThreadSwitch` | `ThreadSwitchProof` | `ThreadSwitchTheorems`, `ThreadSwitchProgress` | `ThreadInfos` |
| sleeping during a thread switch | `ThreadSleep` | same | same | none of its own |
| thread pool | `ThreadPool` | `ThreadPoolProof` | `ThreadPoolTheorems`, `ThreadPoolSleep`, `ThreadPoolScan` | `WorkLines`, `PoolLines`, `ThreadPoolObject` |
| single spawn frame | `SpawnFrame` | same | same | `SpawnFrameObject` |
| copyable spawn frame | `CopyableSpawnFrame` | same | same, `SpawnSimulation` | `CopyableSpawnFrameObject` |
| quick-resume suspension | `QuickResume` | same | same | `QuickResumeObject` |

`Seqs` holds the counting facts (sums, pigeonhole, inverse partial injections), `Turns` the arithmetic of going
round the lines.

## Where the code departs from its comments and promises

The model follows the code.

* The bulk frame waits for `finalized_tasks_` on the slow path only. The early return of `await`
  (src/bulk_spawn_frame_base.cpp:135-137) can be taken while a worker still uses the frame:
  `FastPathOutrunsWorker` is such a run, and `FastReturnLeavesFrameAloneIff` says when it is safe.
* The single spawn frame reads `secondary_thread_` after it has published that it is finished
  (src/spawn_frame_base.cpp:58-60). `FrameReadAfterReturnHappens` is a run in which `await` has returned by
  then; `FrameReadAfterReturnIff` says that this is the only late use, and `SafeToDropIff` that the state word
  tells after `await` whether it can occur. The copyable frame reads it first and has no such run
  (`WorkerDoneBeforeFirstReturns`).
* The transitions listed at src/copyable_spawn_frame_base.cpp:16-18 lack the one from the initial state to
  all-done, made by the awaiter that executes the task in place (line 51).
* `switch_to` has an early return that would leave a flag set (src/thread_info.cpp:225-227).
  `StartOnOwnThreadLeaksFlag` shows when, and `LeakedFlagStays` that the thread would be lost for switches;
  `RequestsHandledOnce` shows that no run of `revert` gets there.
* A thread that helps the pool while it is suspended may pop its own resume task. The flow is resumed, but the
  rest of the suspended body never runs: `BodyCanBeAbandoned`. `AbandonedIff` says exactly when this can happen:
  if stop is requested after the thread last looked at its stop token (src/thread_pool.cpp:332) and before it has
  finished looking for a task. A stop requested before it offers help, while it sleeps in the pool or while it
  executes another task does no harm. An abandoned body keeps its sleep object for good.
* `sleep_helper::sleep` looks for a switch request, and then waits on the counter of the thread it was created on
  (src/sleep_helper.cpp:24-27). If that look led to a switch, it waits on the wrong counter, and can sleep through
  the next request for the thread it is on: `SleptThroughHappens` ends with two threads that wait for each other.
  `SleptThroughIff`: this happens only after a switch inside the call.
* A thread that suspends when no sleep object is free sleeps once, on an object of its own, and does not look at
  its stop token afterwards (src/thread_pool.cpp:134-139). Any wake-up of that thread, such as the one a thread
  switch sends (src/thread_info.cpp:247), ends the suspension without a notification: `EarlyResumeHappens`, and
  exactly then `EarlyResumeIff`. A late `await` of a copyable frame then returns before the user function was
  called: `ReturnBeforeCallHappens`, `ReturnBeforeCallIff`. The first `await`, and every `await` that got a sleep
  object, returns after the call.
* `num_tasks_` can be negative for a moment, because a task is pushed before it is counted:
  `CountCanBeNegative`; `TasksAreConserved` gives its exact value in every state.

## Model

| member | source | states |
|---|---|---|
| `BulkSpawnProof.RunKeepsInv` | src/bulk_spawn_frame_base.cpp:29-98 | every state of every run keeps the invariant: store slots and tasks in bijection, extraction slots and actors in bijection, slot contents, calls, finalization count |
| `BulkSpawnProof.StepKeepsInv` | src/bulk_spawn_frame_base.cpp:107-176 | each step of each worker and of the flow in `spawn` and `await` keeps that invariant |
| `BulkSpawnTheorems.ClaimsStayInBounds` | src/bulk_spawn_frame_base.cpp:29-56 | both assertions of the source hold in every run: a store index is below n, an extraction index at most n; no two actors hold the same extraction slot |
| `BulkSpawnTheorems.LastSlotClaimedAfterAllWork` | src/bulk_spawn_frame_base.cpp:39-56 | whoever is about to claim slot n: every user call has returned, each made once; a worker gets there only after the awaiter stored its continuation in that slot |
| `BulkSpawnTheorems.AwaitReturnsAfterAllWork` | src/bulk_spawn_frame_base.cpp:131-176 | on the fast and on the slow path `await` returns only after all n calls, each made exactly once |
| `BulkSpawnTheorems.SlowReturnLeavesFrameAlone` | src/bulk_spawn_frame_base.cpp:58-68 | once `await` has returned on the slow path, no actor accesses the frame any more |
| `BulkSpawnTheorems.FastReturnLeavesFrameAloneIff` | src/bulk_spawn_frame_base.cpp:134-137 | after the early return the frame is left alone if and only if the finalization count has reached n |
| `BulkSpawnTheorems.FastPathOutrunsWorker` | src/bulk_spawn_frame_base.cpp:134-137 | a run in which `await` has returned early while a worker still uses the frame |
| `BulkSpawnTheorems.NoDeadlock` | src/bulk_spawn_frame_base.cpp:139-173 | in every unfinished reachable state some step is enabled, even if the pool never pops another task |
| `BulkSpawnTheorems.RunsAreBounded` | src/bulk_spawn_frame_base.cpp:107-176 | a frame of n tasks makes at most 18n + 14 steps, whatever the interleaving |
| `BulkSpawnTheorems.MaximalRunsFinish` | src/bulk_spawn_frame_base.cpp:131-176 | every run that cannot go on is finished; the counters are n, n + 1, n + 1 on the slow path and n, n, n on the fast one, the stored continuations and the jumps are in bijection, and in-place tasks left tombstones nobody jumped to |
| `BulkSpawnFrame.Frame.constructor` | src/bulk_spawn_frame_base.cpp:107-126 | `spawn` prepares exactly the initial memory of the step system |
| `BulkSpawnFrame.Frame.StoreWorkerContinuation` | src/bulk_spawn_frame_base.cpp:29-37 | occupies the next slot and stores the continuation there, nothing else |
| `BulkSpawnFrame.Frame.ExtractContinuation` | src/bulk_spawn_frame_base.cpp:39-56 | returns the first slot from the current one that is not a tombstone, having claimed exactly the slots up to it |
| `BulkSpawnFrame.Frame.ExecuteInPlace` | src/bulk_spawn_frame_base.cpp:139-153 | whatever can still be extracted when its turn comes, and however many slots workers claim in between: every extracted task is called once, is finalized and leaves a tombstone in a slot of its own; the other tasks and slots are left alone |
| `BulkSpawnFrame.TombstonedAt` | src/bulk_spawn_frame_base.cpp:141-143 | slots with tombstones in some places hold them there, and what they held everywhere else |
| `ThreadSwitchProof.RunKeepsInv` | src/thread_info.cpp:15-52 | every state of every run keeps the invariant: residents and hosts are inverse permutations, and every thread and flow is in a legal phase of at most one switch |
| `ThreadSwitchProof.StepKeepsInv` | src/thread_info.cpp:95-170 | each step of a flow or of a coroutine body keeps that invariant |
| `ThreadSwitchTheorems.EachFlowInExactlyOnePlace` | src/thread_info.cpp:148-170 | for any number of threads, at every step each control flow is in exactly one place: on one thread, in one local, or in one mailbox |
| `ThreadSwitchTheorems.StepMovesOnlySwitchedPair` | src/thread_info.cpp:216-271 | the end of a switch exchanges the originator's flow with that of the thread it asked for: the first runs there, the second is what the originator is about to jump to; no other thread or flow moves, and no other step exchanges anybody |
| `ThreadSwitchTheorems.SwitchReturnsOnTarget` | src/thread_info.cpp:265-271 | in every state, whoever is back in `switch_to` is on the thread asked for, even before `done` is published, and a flow resumed by the originator handed itself to it: the two assertions of the source |
| `ThreadSwitchTheorems.LeavesWhereAsked` | src/thread_info.cpp:119-135 | a flow enters `switch_to` exactly when it reverts to another thread, and asks for that thread until it leaves; it leaves only by running on it, whether its own switch or another one brought it there |
| `ThreadSwitchTheorems.SwitchLeavesOnTarget` | src/thread_snapshot.cpp:9-16 | over whole runs, whoever is back in user code from `switch_to` runs on the thread it asked for |
| `ThreadSwitchTheorems.ProtocolIsDisciplined` | src/thread_info.cpp:95-115 | the switching flags mark disjoint originator/target pairs, a request names the partner, and mailboxes are empty outside a switch |
| `ThreadSwitchTheorems.RequestsHandledOnce` | src/thread_info.cpp:273-281 | a request is found only while its continuation is in the mailbox and unanswered; a flow that tries to start a switch is never on the thread it wants |
| `ThreadSwitchTheorems.HandledOncePerSwitch` | src/thread_info.cpp:148-170 | a step that finds a request handles the one of its partner, which was not handled before; a switch ends only when its request was handled; no other step handles or forgets one |
| `ThreadSwitchTheorems.HandlingsAreSwitches` | src/thread_info.cpp:216-281 | in every state of every run, the number of handlings is that of completed switches plus the handled ones under way: each request is handled exactly once |
| `ThreadSwitchTheorems.StartOnOwnThreadLeaksFlag` | src/thread_info.cpp:219-227 | starting a switch leaves a flag that nobody is going to clear if and only if it is started towards the thread the flow is on |
| `ThreadSwitchTheorems.LeakedFlagStays` | src/thread_info.cpp:95-115 | such a flag stays set on every path: the thread never again leads a switch or is the target of one |
| `ThreadSwitchTheorems.SwitchBringsHome` | src/thread_snapshot.cpp:9-16 | if flows only revert home, every completed switch strictly lowers the number of flows that are away |
| `ThreadSwitchTheorems.AtMostNMinusOneSwitches` | test/test_sync_execute.cpp:194-232 | with n threads, injective homes and any initial placement, at most n - 1 switches are ever completed |
| `ThreadSwitchProgress.WayHome` | src/thread_info.cpp:119-135 | from every state that keeps the invariant a path, in which flows revert home only, leads to every thread running its own flow with every `switch_to` returned |
| `ThreadSwitchProgress.EveryRunCanGetHome` | test/test_sync_execute.cpp:194-232 | no reachable state is stuck short of home: every run extends, by such a path, to one that ends with every thread running its own flow in user code |
| `ThreadSleep.SleepRunKeepsInv` | src/sleep_helper.cpp:21-27 | with flows that go to sleep while others ask for switches, every state keeps the invariant of the switch; who has read the counter and not moved runs on that thread |
| `ThreadSleep.RequestEndsSleep` | src/thread_info.cpp:246-253 | a flow asleep with no switch inside the call runs on the thread whose counter it waits on, and once that thread is asked, by an originator past its wake-up, the counter has passed its id |
| `ThreadSleep.SleptThroughIff` | src/sleep_helper.cpp:24-27 | no request is ever slept through if and only if no switch happened inside the call |
| `ThreadSleep.SleptThroughHappens` | src/sleep_helper.cpp:24-27 | a run of two threads in which a flow that moved inside the call sleeps through a request, and neither thread can go on |
| `ThreadInfos.TryStartSwitch` | src/thread_info.cpp:95-106 | sets both flags or none, exactly as the step does |
| `ThreadInfos.PostMail` | src/thread_info.cpp:236-238 | puts the continuation in the target's mailbox: the step, and nothing else on any thread |
| `ThreadInfos.PostRequest` | src/thread_info.cpp:239-240 | publishes the request: the step, and nothing else on any thread |
| `ThreadInfos.WakeTarget` | src/thread_info.cpp:246-247 | wakes the target up: the step, and nothing else on any thread |
| `ThreadInfos.FinishSwitch` | src/thread_info.cpp:109-115 | clears both flags, the originator's mailbox and the target's request, as the step that ends a switch |
| `ThreadInfos.ReadMail` | src/thread_info.cpp:155-157 | the target finds the flow of the thread that asks in its mailbox: the step |
| `ThreadInfos.ClearMail` | src/thread_info.cpp:158-160 | empties its mailbox: the step, and nothing else on any thread |
| `ThreadInfos.PostContinuation` | src/thread_info.cpp:162-166 | leaves its continuation in the originator's mailbox, which was empty: the step, and nothing else on any thread |
| `ThreadInfos.FindRequest` | src/thread_info.cpp:273-281 | finds the thread that asks for a switch, if any |
| `WorkLines.WorkLine.Push` | src/thread_pool.cpp:256-266 | the line becomes the task followed by the old line; links and owners of all its tasks agree |
| `WorkLines.WorkLine.Pop` | src/thread_pool.cpp:268-281 | takes the head of the line, if any, and keeps the rest linked |
| `WorkLines.WorkLine.Unlink` | src/thread_pool.cpp:242-249 | rewiring through the stored address removes exactly that position and keeps the order of the rest |
| `WorkLines.WorkLine.Extract` | src/thread_pool.cpp:231-254 | succeeds exactly if the task is in the line, removes exactly it, and leaves a consistent list |
| `WorkLines.TaskLines.constructor` | src/thread_pool.cpp:46 | one empty line more than threads, all distinct |
| `WorkLines.TaskLines.InAtMostOneLine` | src/thread_pool.cpp:17-26 | a task is in at most one line, and it is the one it names |
| `WorkLines.TaskLines.Detach` | src/thread_pool.cpp:84-85 | clears the links of a task that is in no line, and disturbs no line |
| `WorkLines.TaskLines.PushTo` | src/thread_pool.cpp:211-224 | prepends to one line; the other lines, tasks and the distinctness of lines are kept |
| `WorkLines.TaskLines.PopFrom` | src/thread_pool.cpp:225-230 | takes the head of one line; all other lines are untouched |
| `WorkLines.TaskLines.ExtractFrom` | src/thread_pool.cpp:231-254 | under the lock of one line: takes the task out if it is still there, and touches no other line |
| `WorkLines.TaskLines.ExtractTask` | src/thread_pool.cpp:106-117 | succeeds exactly if some line holds the task; removes it from that line alone and subtracts one |
| `WorkLines.TaskLines.ChooseLine` | src/thread_pool.cpp:88-101 | the first line in turn whose lock is free at its attempt; the one whose turn it is only if every attempt fails |
| `WorkLines.TaskLines.Enqueue` | src/thread_pool.cpp:79-104 | the task goes in front of the line of the first attempt, in turn, that meets no held lock, or of the line whose turn it is if all do; the count and the turn move on by one |
| `WorkLines.TaskLines.TryPop` | src/thread_pool.cpp:225-230 | the head of the line, unless it is empty or its lock is held |
| `WorkLines.TaskLines.TakeTask` | src/thread_pool.cpp:335-355 | takes the head of the line of the first attempt, from the hint on and twice around, that meets neither a held lock nor an empty line; if there is none, nothing is taken |
| `Turns.TurnReaches` | src/thread_pool.cpp:339-340 | once around the lines from any hint, every line has its turn |
| `Turns.NextTurn` | src/thread_pool.cpp:339-340 | the lines of a scan, one after the other as the step system takes them, are those of the source's formula |
| `PoolLines.RemoveIsWithout` | src/thread_pool.cpp:242-249 | removing a task and leaving out its position are the same on a line without repetitions |
| `PoolLines.NewPool` | src/thread_pool.cpp:46 | a new pool shows the lines of every initial state of the step system with as many lines |
| `PoolLines.PushStep` | src/thread_pool.cpp:256-266 | pushing on the linked line is the push step of the step system |
| `PoolLines.PopStep` | src/thread_pool.cpp:268-281 | popping from the linked line is the pop step of the step system |
| `PoolLines.LookIsRight` | src/thread_pool.cpp:106-111 | a task still in the pool is in the line that its extraction has read: the assertion under the lock, on the heap |
| `PoolLines.ExtractStep` | src/thread_pool.cpp:231-254 | the section under the lock of the line that was read earlier, whatever happened in between: it succeeds and acts on the linked lines as the locked extraction step |
| `ThreadPoolProof.RunKeepsInv` | src/thread_pool.cpp:79-209 | every state of every run keeps delivery, conservation, ownership of sleep objects, wake requests and the wake-up of worker 0 |
| `ThreadPoolProof.StepKeepsInv` | src/thread_pool.cpp:225-358 | each step of an enqueue, extraction, callback or runner keeps that invariant |
| `ThreadPoolTheorems.TaskInOneLineUntilHandedOut` | src/thread_pool.cpp:79-117 | in every state an enqueued task that was not handed out is in exactly one line, once; one that was is in none |
| `ThreadPoolTheorems.HandsOutIff` | src/thread_pool.cpp:225-254 | a step makes a task leave the lines if and only if it pops it off a head or extracts it successfully; so no step takes two |
| `ThreadPoolTheorems.HandedOutAtMostOnce` | src/thread_pool.cpp:335-355 | no two steps of a run hand out the same task |
| `ThreadPoolTheorems.RecheckIsSound` | src/thread_pool.cpp:106-117 | after the read without the lock, the task is in the line that was read or in none: the assertion under the lock holds |
| `ThreadPoolTheorems.ExtractionSucceedsIff` | src/thread_pool.cpp:106-117 | an undisturbed extraction takes the task and subtracts it if and only if it is in some line, and otherwise changes nothing |
| `ThreadPoolTheorems.TasksAreConserved` | src/thread_pool.cpp:283-293 | count plus uncounted pushes equals what the lines hold plus unsubtracted removals, in every state; it is negative only while a push is not counted |
| `ThreadPoolTheorems.CountCanBeNegative` | src/thread_pool.cpp:95-96 | a run in which the count is -1 |
| `ThreadPoolTheorems.SleepObjectsArePartitioned` | src/thread_pool.cpp:119-155 | free and held sleep objects of helpers always partition [threads, 2 * threads); no two runners share one; workers keep their own |
| `ThreadPoolTheorems.WakeRequestsNeverNegative` | src/thread_pool.cpp:173-209 | wake requests are never negative, and zero only while the single owner is committed to sleep with its thread as token |
| `ThreadPoolTheorems.NotifyFindsToken` | src/sleep_helper.cpp:10-17 | every notification moves the counter of a thread: the null-token branch is never reached |
| `ThreadPoolTheorems.NoLostWakeUp` | src/thread_pool.cpp:283-333 | with at least one worker, while a line holds a task and no enqueue, removal or notification is under way, worker 0 can move; if it was asleep its counter has passed its sleep id |
| `ThreadPoolTheorems.WorkerZeroTakesTask` | src/thread_pool.cpp:316-358 | from such a state every run of worker 0 alone takes a task: with n lines, whatever line it scans from and wherever in its loop it stands, after at most 3n + 5 steps, and until then it is not blocked |
| `ThreadPoolSleep.RequestWakesSleeper` | src/thread_pool.cpp:173-209 | for every runner asleep, whoever asked: its object has no wake request, or its counter has passed its sleep id, or an enqueue or a stop callback is about to move it |
| `ThreadPoolSleep.SleepsIffNotWoken` | src/thread_info.cpp:283-297 | a runner sleeps, until stop, if and only if nobody has moved the counter of its thread since it read it |
| `ThreadPoolSleep.IdleRunnerFallsAsleep` | src/thread_pool.cpp:316-333 | no busy waiting: when no task is left and nothing is under way, every run of a runner alone falls asleep, with n lines after at most 4n + 15 steps, and goes no further |
| `ThreadPoolSleep.LeavesOnlyOnStop` | src/thread_pool.cpp:320-333 | a runner leaves its loop only on stop, and takes no task after a look that saw it |
| `ThreadPoolSleep.StoppedHelperLeaves` | src/thread_pool.cpp:142-155 | from every state of every run, a helper alone that is asked to stop has given its sleep object back after at most 2n + 8 steps, and is not blocked before |
| `ThreadPoolScan.ScanFollowsTurns` | src/thread_pool.cpp:338-344 | whatever others do in between, the e-th line that a scan tries is e lines after the first, wrapping around, and it gives up only after going round twice |
| `ThreadPoolObject.ThreadPoolBase.constructor` | src/thread_pool.cpp:46-57 | for any number of threads, builds an initial state of the step system, with the free sleep objects [threads, 2 * threads) |
| `ThreadPoolObject.ThreadPoolBase.CountPushed` | src/thread_pool.cpp:283-286 | counts the task and decides whether to look for a sleeper |
| `ThreadPoolObject.ThreadPoolBase.RequestWake` | src/thread_pool.cpp:173-176 | adds one wake request and tells whether the owner was asleep |
| `ThreadPoolObject.ThreadPoolBase.RequestWakeOnStop` | src/thread_pool.cpp:144 | the same on behalf of a stop callback: one more wake request, and whether there was none |
| `ThreadPoolObject.ThreadPoolBase.NotifyToken` | src/sleep_helper.cpp:10-17 | the token is a thread, and its counter moves |
| `ThreadPoolObject.ThreadPoolBase.NotifyFirst` | src/thread_pool.cpp:287-291 | the loop wakes the first sleeper and only it, and leaves one more wake request with every object up to it |
| `ThreadPoolObject.ThreadPoolBase.NotifyOne` | src/thread_pool.cpp:283-293 | counts the task; notifies as above unless there are more tasks than sleep objects |
| `ThreadPoolObject.FirstAsleep` | src/thread_pool.cpp:287-291 | the first sleep object without a wake request |
| `ThreadPoolObject.ThreadPoolBase.TakeSleepObject` | src/thread_pool.cpp:122-130 | hands out the last free object, which nobody holds; fails exactly if none is free |
| `ThreadPoolObject.ThreadPoolBase.ReturnSleepObject` | src/thread_pool.cpp:150-154 | an object that comes back was not free |
| `ThreadPoolObject.ThreadPoolBase.PrepareSleep` | src/thread_info.cpp:283-286 | reads the sleep counter of the runner's thread, which is the id it will wait on |
| `ThreadPoolObject.ThreadPoolBase.LeaveToken` | src/thread_pool.cpp:194-195 | leaves the thread of the runner as the token of its sleep object |
| `ThreadPoolObject.ThreadPoolBase.TakeBackRequest` | src/thread_pool.cpp:196-204 | takes back one wake request and commits to sleep exactly if it was the only one; the result is not negative and the token is valid |
| `ThreadPoolObject.ThreadPoolBase.ResetRequests` | src/thread_pool.cpp:205-208 | the wake requests are one, whatever they were; the runner is awake again |
| `ThreadPoolObject.ThreadPoolBase.SubtractTask` | src/thread_pool.cpp:347-349 | subtracts a task that was popped or extracted |
| `SpawnFrame.RunKeepsInv` | src/spawn_frame_base.cpp:15-26 | in every run the state word follows from where worker and awaiter are, and so do tokens, calls and jumps |
| `SpawnFrame.AwaitReturnsAfterWork` | src/spawn_frame_base.cpp:37-102 | the user function is called at most once and before `await` returns; both continuations are jumped to at most once and never read before they are stored |
| `SpawnFrame.NoDeadlock` | src/spawn_frame_base.cpp:37-102 | nobody is stuck, even if the pool never pops the task; at the end the awaiter, and the worker's thread unless the task was taken back, have been continued exactly once |
| `SpawnFrame.RunsAreBounded` | src/spawn_frame_base.cpp:37-102 | worker and awaiter make at most 15 steps |
| `SpawnFrame.SafeToDropIff` | src/spawn_frame_base.cpp:37-67 | for each value of the state word after `await`: no run that returned with it still uses the frame, if and only if the value is not that of a finished thread switch |
| `SpawnFrame.FrameReadAfterReturnIff` | src/spawn_frame_base.cpp:55-61 | after `await` returned the frame is used for one read only, that of the worker's continuation by the body that published, with the worker gone |
| `SpawnFrame.FrameReadAfterReturnHappens` | src/spawn_frame_base.cpp:55-61 | a run in which that happens |
| `SpawnFrameObject.SpawnFrameBase.constructor` | src/spawn_frame_base.cpp:30-36 | `spawn` starts a run |
| `SpawnFrameObject.SpawnFrameBase.StoreContinuation` | src/spawn_frame_base.cpp:94 | the worker's step |
| `SpawnFrameObject.SpawnFrameBase.SignalStarted` | src/spawn_frame_base.cpp:95-96 | the worker's step |
| `SpawnFrameObject.SpawnFrameBase.AsyncComplete` | src/spawn_frame_base.cpp:70-77 | the worker's step; the work is done, and the awaiter has not been resumed |
| `SpawnFrameObject.SpawnFrameBase.ContinueAwaiter` | src/spawn_frame_base.cpp:82-86 | a late worker always finds the continuation of the flow in `await`, which then has returned |
| `SpawnFrameObject.SpawnFrameBase.LoadState` | src/spawn_frame_base.cpp:38-39 | the awaiter's step |
| `SpawnFrameObject.SpawnFrameBase.MainComplete` | src/spawn_frame_base.cpp:52-65 | the awaiter's step; if the exchange fails, the work is done |
| `SpawnFrameObject.SpawnFrameBase.StoreOriginator` | src/spawn_frame_base.cpp:56 | the step of the awaiter's body |
| `SpawnFrameObject.SpawnFrameBase.PublishFinished` | src/spawn_frame_base.cpp:57-58 | the step of the awaiter's body |
| `SpawnFrameObject.SpawnFrameBase.ContinueWorkerThread` | src/spawn_frame_base.cpp:59-60 | the body always finds the continuation of the worker's thread, and jumps to it for the first time |
| `CopyableSpawnFrame.RunKeepsInv` | src/copyable_spawn_frame_base.cpp:15-27 | for any number of awaiters, the state word follows from where the worker and the first awaiter are |
| `CopyableSpawnFrame.AwaitsReturnAfterWork` | src/copyable_spawn_frame_base.cpp:39-92 | one call at most; every `await` returns after it, but for a late one that left its suspension without a notification, and never the first; at most one thread switch, no continuation read before it is stored or resumed twice |
| `CopyableSpawnFrame.NotifiedMeansDone` | src/copyable_spawn_frame_base.cpp:99-118 | a notified token means all-done, except while a worker that came first is between the two; and all-done without a notification means that one is about to be sent |
| `CopyableSpawnFrame.ReturnBeforeCallIff` | src/copyable_spawn_frame_base.cpp:84-90 | whether a suspended late awaiter can return before the call is decided when it suspends: it can if and only if the pool had no free sleep object for it |
| `CopyableSpawnFrame.ReturnBeforeCallHappens` | src/copyable_spawn_frame_base.cpp:84-90 | a run with two awaiters in which the second returns before the call |
| `CopyableSpawnFrame.WorkerDoneBeforeFirstReturns` | src/copyable_spawn_frame_base.cpp:95-123 | once the first awaiter has returned, and so once all have, early or not, the worker accesses the frame no more |
| `CopyableSpawnFrame.NoDeadlock` | src/copyable_spawn_frame_base.cpp:41-123 | no awaiter is left stuck, even if the pool never pops the task and nobody else wakes a lone sleeper up; at the end the late awaiters have been notified |
| `CopyableSpawnFrame.RunsAreBounded` | src/copyable_spawn_frame_base.cpp:39-139 | m awaiters and the worker make at most 9m + 11 steps |
| `CopyableSpawnFrameObject.CopyableSpawnFrameBase.constructor` | src/copyable_spawn_frame_base.cpp:31-38 | `spawn` starts a run |
| `CopyableSpawnFrameObject.CopyableSpawnFrameBase.StoreContinuation` | src/copyable_spawn_frame_base.cpp:130-131 | the worker's step |
| `CopyableSpawnFrameObject.CopyableSpawnFrameBase.SignalStarted` | src/copyable_spawn_frame_base.cpp:132-133 | the worker's step |
| `CopyableSpawnFrameObject.CopyableSpawnFrameBase.AsyncComplete` | src/copyable_spawn_frame_base.cpp:95-100 | the worker's step; the work is done, and nobody has returned from `await` but late awaiters that left early |
| `CopyableSpawnFrameObject.CopyableSpawnFrameBase.Notify` | src/copyable_spawn_frame_base.cpp:101-118 | the step of whoever notifies; the work is done |
| `CopyableSpawnFrameObject.CopyableSpawnFrameBase.PublishAllDone` | src/copyable_spawn_frame_base.cpp:103-115 | the step of whoever publishes all-done; the work is done |
| `CopyableSpawnFrameObject.CopyableSpawnFrameBase.ContinueFirstAwaiter` | src/copyable_spawn_frame_base.cpp:120-121 | a late worker always finds the continuation of the first awaiter, still suspended, which then has returned |
| `CopyableSpawnFrameObject.CopyableSpawnFrameBase.Arrive` | src/copyable_spawn_frame_base.cpp:41-42 | exactly one awaiter is the first |
| `CopyableSpawnFrameObject.CopyableSpawnFrameBase.LoadState` | src/copyable_spawn_frame_base.cpp:83-87 | the awaiter's step; a late awaiter that returns at once finds the work done |
| `CopyableSpawnFrameObject.CopyableSpawnFrameBase.MainComplete` | src/copyable_spawn_frame_base.cpp:62-78 | the first awaiter's step; if the exchange fails, the work is done |
| `CopyableSpawnFrameObject.CopyableSpawnFrameBase.StoreFirstAwait` | src/copyable_spawn_frame_base.cpp:65-66 | the step of the first awaiter's body |
| `CopyableSpawnFrameObject.CopyableSpawnFrameBase.ReadSecondary` | src/copyable_spawn_frame_base.cpp:67 | the body always finds the continuation of the worker's thread |
| `CopyableSpawnFrameObject.CopyableSpawnFrameBase.PublishMainFinished` | src/copyable_spawn_frame_base.cpp:68-71 | the step of the body, which jumps to the worker's thread for the first time |
| `SpawnSimulation.WorkerStepSimulated` | src/copyable_spawn_frame_base.cpp:95-139 | with one awaiter, a worker step is silent or is the worker step of the single frame |
| `SpawnSimulation.AwaiterStepSimulated` | src/copyable_spawn_frame_base.cpp:39-92 | with one awaiter, an awaiter step is silent or is one or two awaiter steps of the single frame |
| `SpawnSimulation.EveryRunIsSimulated` | src/spawn_frame_base.cpp:37-102 | stuttering simulation: with one awaiter, every state of every run of the copyable frame stands for a state of one run of the single frame, which per step stays or moves on by at most two steps, with the same calls, jumps and returns |
| `QuickResume.RunKeepsInv` | src/suspend.cpp:38-85 | in every run the state word, the place of the task, the lifetime of the locals and the resumptions follow from where the actors are |
| `QuickResume.StepKeepsInv` | src/suspend.cpp:50-83 | each step of the notifier, the callback, a worker and the suspended thread keeps that invariant |
| `QuickResume.ResumedAtMostOnce` | src/suspend.cpp:38-85 | the task is enqueued at most once and the flow resumed at most once; before the notification only if the thread slept without a sleep object of the pool and somebody else moved its counter; the suspender jumps to what a worker left only if a worker took the task |
| `QuickResume.TaskOutlivesItsUsers` | src/suspend.cpp:47-60 | the task and its state word exist while the callback, the pool or a worker can access them |
| `QuickResume.MaximalRunsResume` | src/suspend.cpp:62-83 | a run that cannot go on was notified and has resumed the flow exactly once, even if nobody pops the resume task and nobody wakes the thread up for another reason; unless stop was requested after the helping thread last looked, its body is finished |
| `QuickResume.StoppedBeforehand` | src/suspend.cpp:43-45 | a flow that suspends after stop was requested goes on at once, and nothing is created or enqueued for it |
| `QuickResume.AbandonedIff` | src/thread_pool.cpp:320-345 | when stop is requested, in whatever round of helping, it is decided whether some continuation of the run abandons the body: if and only if the helping thread is past its last look at the stop token and still looks for a task |
| `QuickResume.RunsAreBounded` | src/suspend.cpp:38-85 | a suspension takes at most 26 steps and four more for every round of helping |
| `QuickResume.EndsAfterStop` | src/suspend.cpp:62-83 | once notified, a suspension takes at most 20 more steps, wherever the actors stand |
| `QuickResume.LeavesLoopOnStop` | src/thread_pool.cpp:320-333 | once stop was requested, each step of a helping thread brings it closer to the end of the loop, and either look leaves it |
| `QuickResume.BodyCanBeAbandoned` | src/suspend.cpp:62 | stop does come at that moment in some run, in the second round of helping |
| `QuickResume.EarlyResumeIff` | src/thread_pool.cpp:122-140 | as long as stop was not requested, some continuation resumes the flow without it if and only if the suspended thread does not help with a sleep object of the pool: it has not asked for one yet, or none was free |
| `QuickResume.EarlyResumeHappens` | src/suspend.cpp:62-69 | a run that resumes the flow without a notification |
| `QuickResumeObject.QuickResumeTask.constructor` | src/suspend.cpp:47-60 | the locals are created when the callback is registered |
| `QuickResumeObject.QuickResumeTask.CallbackClaims` | src/suspend.cpp:53-56 | the callback's step on a living object; if it succeeds nothing was enqueued before |
| `QuickResumeObject.QuickResumeTask.CallbackEnqueued` | src/suspend.cpp:57-58 | the callback's step on a living object |
| `QuickResumeObject.QuickResumeTask.ReadContinuation` | src/suspend.cpp:12-15 | whoever executes the task reads the suspended flow, from a living object |
| `QuickResumeObject.QuickResumeTask.StoreAfterExecute` | src/suspend.cpp:16-20 | the last use of the object, still living; nobody has resumed the flow or stored a continuation before |
| `QuickResumeObject.QuickResumeTask.SuspenderClaims` | src/suspend.cpp:64-69 | the step on a living object; if it succeeds, nothing was enqueued and the state word refuses a later enqueue |
| `QuickResumeObject.QuickResumeTask.ReadAfterExecute` | src/suspend.cpp:77-82 | what the suspender jumps to is always what a worker left |

## Left out

- Weak memory: every atomic operation is sequentially consistent; memory orders and reorderings are not modelled.
- Context switching and coroutine stacks (`callcc`, stack allocation): continuations are tokens.
- Counter wrap-around: `sleeping_counter_`, `wake_requests_` and `line_to_push_to_` are unbounded integers.
- Fairness: what is proved of progress is that steps are enabled, that measures go down, and that short paths exist, not that a scheduler takes them.
- The private sleep object of a helper that finds none free (src/thread_pool.cpp:132-140) is not in the pool model; what it does to a suspension is in the quick-resume and the copyable-frame model, where its wait ends on stop or on any other wake-up of the thread.
- Runs of the pool that change thread inside `sleep_helper::sleep` (src/sleep_helper.cpp:24-27): the wake-up theorems of the pool number threads as the runners on them; what such a change does to a sleeper is in `ThreadSleep`.
- `work_line_start_index_` and the line hints: the line a scan of the step system starts with is arbitrary; `TakeTask` takes the hint as a parameter.
- The sleep of a helping thread inside the quick-resume model ends at any time; that it ends on stop is the pool's notification.
- TakeTask: the contents of the lines are fixed during the call; the step system tries one line per step, with any other thread in between.
- ChooseLine: whether each attempt meets a held lock is a parameter.
- Enqueue: leaves out the notification, which is NotifyOne.
- NotifyFirst: nobody else moves during the loop; RequestWake and NotifyToken are its atomic operations, for any interleaving.
- NotifyOne: nobody else moves during the call; CountPushed, RequestWake and NotifyToken are its atomic operations, for any interleaving.
- ExecuteInPlace: what workers store in the slots they claim in between, and their own counts of finalization, are left to their own operations.
- The retry loop of `do_start_switch` and `wait_for_continuation`: their iterations are steps of the step system, so there is no method for the loop itself.
- Pool shutdown, `join` of OS threads, the destructor's check, and start-up of the global pool; the notifications that `join` sends are those of a stop callback.
- Thread lookup (`get_current_thread_info`, `g_threads`): the current thread is given.
- User functions: each call returns, and a nested spawn inside one is another frame with its own run.
- Late awaiters of the copyable frame: a suspension is two steps, with or without a sleep object; how it works inside is the quick-resume model.
- `std::stop_callback`: its destructor blocks while the callback runs, and registering after a stop request runs the callback at once, as section [stopcallback.cons] of ISO C++20 says.
- Profiling, C and template wrappers, tests and examples: they would add only easy members.
