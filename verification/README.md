# Scheduler and romfs models

A Dafny model of the concurrent and arithmetic core of two Linux scheduler trees
(a 5.x tree with a per-task dispatch counter `ctx`, and a 3.x Android tree) and of
the directory code of a modified romfs driver, with proofs of what that code is
meant to guarantee.

`dafny verify dfyconfig.toml` checks the whole project.

## What is modelled

- **Wakeup, switch and migration** (`Protocol`, `ProtocolInvariant`, `ProtocolSteps`,
  `SchedulerSafety`, `LostWakeup`, `Preemption`, `WakeMasks`, `OwnSteps`, `LockHolders`,
  `WakeProgress`, `SchedulerCounters`). Any number of CPUs, tasks and
  callers of `try_to_wake_up` interleave over `state`, `on_rq`, `on_cpu`, `cpu`, the
  current task, the wake_list, the runqueue locks and `pi_lock`, one atomic access at a
  time. Locks are owner fields. A wait is the pattern set state, test condition,
  schedule; a task forks, dies, is interrupted by signals, is moved while queued.
- **Utilization clamps** (`UclampBuckets`, `UclampRq`, `UclampGroups`,
  `UclampHierarchy`): the bucketed running maximum of a runqueue as specification and as
  code that updates in place, and the hierarchy of task groups above it, whose pruned
  update must agree with full recomputation while tasks come and go.
- **Task group trees** (`TaskGroups`, `TreeWalk`, `CfsQuota`, `RtBandwidth`): the walk
  written with jumps, and two admission checks made with it. A tree is numbered in
  pre-order: a group's first child follows it, its next sibling follows its subtree.
- **Load average** (`LoadAverage`, `LoadFolding`): fixed-point powers with rounding
  compared with exact real powers, and the distributed count behind the average.
- **Lazy address spaces** (`LazyMm`): reference counts under two versions of the
  context switch, one of which refines the other.
- **Wake queues** (`WakeQueue`) and **lock order** (`LockOrder`).
- **romfs** (`Romfs`, `RomfsInodes`, `RomfsMount`, `RomfsPages`): an image is a byte sequence; a directory is a
  chain of headers in it.
- `Sums` adds an integer view of the elements of a sequence; `Ratios` compares integer
  quotients with real ones.

## Reading the models

- Steps are sequentially consistent. A run is a list of enabled actions; a main result
  holds after every run from boot. That something can happen means that some run leads
  there; no scheduling fairness is assumed.
- In `Protocol` the scheduling class is abstract: a pick may choose any queued task, and
  may drop and retake the lock first. The lock may also be held by other code at any
  time between steps. A migration needs only the runqueue lock, which covers the stopper,
  the affinity change and the load balancer; a migration through `deactivate_task` is
  counted in `nr_uninterruptible` while the task is detached, as in the code. The
  sleeper may leave its wait loop at any time. Each wait may announce another state, and a
  wakeup may use any mask of sleeping states.
- `LazyMm` models `exit_mm`, which is not part of the repository, as taking a reference,
  clearing the mm and dropping the user later.
- `UclampHierarchy.Hierarchy` holds its runqueues as values; each enqueue, dequeue and
  refresh is the specification that the methods of `UclampRq.RunQueue` are proved to
  compute. A parameter says what other CPUs do before each step of a write. Groups are
  numbered in pre-order and come online in that order.
- A rejected CFS change leaves some effective quotas of the rejected walk stored; the
  next walk starts from the root and overwrites them. The model keeps this.
- `Romfs` takes from the device layer, which is not part of the repository, that a read
  fails exactly when it leaves the image, that the string length stops at the end of the
  image, and that the comparison also checks the terminator and refuses names over 128
  bytes.
- The comment in the lookup code speaks of the first 16 bytes of a name; the code
  compares the whole name, and so does the model.
- Counters and products are mathematical integers. The 32-bit header words of romfs,
  their sign extension in readdir and the byte arithmetic are modelled as they are.

## Promises that do not hold everywhere

- Not every name that readdir shows can be looked up. `RomfsMount.CutNameNotFound` gives
  an image; `Romfs.ShownNameFound` gives the exact condition, and
  `Romfs.EveryShownNameFound` a simple one that suffices.
- Lookup does not always come back with an inode or an error. When the executable name is
  looked up, the mode is set without looking whether an inode was found.
  `RomfsMount.DeadLinkFaults` gives an image; `RomfsInodes.FaultsExactlyWhen` gives the
  exact condition.

## Model

| member | source | states |
|---|---|---|
| ProtocolInvariant.BootInv | project_Process Scheduler/src/core.c:4101-4188 | The state at boot, one idle task running on each CPU, meets the invariant of the wakeup protocol. |
| ProtocolSteps.SchedInv | project_Process Scheduler/src/core.c:4101-4188 | Every step of `__schedule`, `prepare_task` and `finish_task` keeps the invariant: deciding to sleep or to honour a signal, dropping and retaking the lock while picking, switching, and clearing `on_cpu` of the task that was switched out. |
| ProtocolSteps.TaskStepInv | project_Process Scheduler/src/sched.h:153-194 | Every step of a running task keeps the invariant: setting its state, testing its condition, committing to sleep, waking up, dying, forking. |
| ProtocolSteps.WakeInv | project_Process Scheduler/src/core.c:2614-2750 | Every step of `try_to_wake_up` keeps the invariant, including the short path for the current task, the re-read after taking a stale runqueue lock, the spin on `on_cpu`, and the choice between local and remote queueing. |
| ProtocolSteps.RemoteInv | project_Process Scheduler/src/core.c:2369-2386 | `ttwu_remote` either finds the task moved and starts over, finds it off the runqueue and goes on, or makes it runnable where it is; each keeps the invariant. |
| ProtocolSteps.IpiInv | project_Process Scheduler/src/core.c:2388-2405 | Every step of `sched_ttwu_pending`, which takes the wake_list and activates its tasks one by one, keeps the invariant. |
| ProtocolSteps.BirthInv | project_Process Scheduler/src/core.c:3042-3081 | Every step of `wake_up_new_task` keeps the invariant. |
| ProtocolSteps.MigInv | project_Process Scheduler/src/core.c:1583-1602 | Every step of moving a queued task keeps the invariant, also while the task is between two runqueues and no runqueue lock is held. |
| ProtocolSteps.NextInv | project_Process Scheduler/src/core.c:2614-2750 | Every action of the protocol keeps the invariant. |
| ProtocolSteps.RunInv | project_Process Scheduler/src/core.c:2614-2750 | The invariant holds after every interleaving of any length, over any number of CPUs, tasks and wakeups. |
| SchedulerSafety.OneRunqueueOneCpu | project_Process Scheduler/src/core.c:2614-2750 | In every reachable state a task is in the queue of a CPU exactly when it is QUEUED and that is its cpu, and is being executed by a CPU exactly when `on_cpu` is set and that is its cpu: at most one runqueue and one CPU each. |
| SchedulerSafety.CpuChanges | project_Process Scheduler/src/core.c:1801-1851 | Whatever step writes a task's cpu found it off every CPU, and was a waker holding its pi_lock with the task WAKING and off the runqueue, or its birth, or a migration holding the source lock with the task MIGRATING. |
| SchedulerSafety.NoFatalCheck | project_Process Scheduler/src/core.c:1583-1602 | The idle task is always queued, so a pick never fails, and after a migration's second lock the task is still on the destination: the BUG_ON cannot fire. |
| SchedulerSafety.DeadStaysDead | project_Process Scheduler/src/core.c:4190-4205 | A task that scheduled out dead is never chosen by the scheduler, queued or put on a wake_list again, in any continuation of any run. |
| LostWakeup.HelpedNext | project_Process Scheduler/src/core.c:2614-2750 | Every action keeps this of a wakeup that set a sleeper's condition, as long as the sleeper stays in its wait: if its mask meets the state announced, it has yet to test the sleeper's state, or has matched it and is waking it, or the sleeper is runnable or on its runqueue's wake_list. |
| LostWakeup.NextSafe | project_Process Scheduler/src/core.c:2614-2750 | Every action keeps this of every sleeper: if it tested its condition too early and the condition now holds, some wakeup that set it helps it in that sense. |
| LostWakeup.WakerLeavesAwake | project_Process Scheduler/src/core.c:2643-2741 | Take any call by a caller that set the condition of a task in its wait, with a mask that meets the state the task announced. In every later state of that wait, once this one call has returned, the sleeper is runnable or on its runqueue's wake_list, whatever other wakeups are doing: no wakeup is lost. |
| LostWakeup.SignalNeverMissed | project_Process Scheduler/src/sched.h:153-194 | The same of a call made at any time, before, during or between waits in whatever states: as long as the condition is not reset, the task is never left asleep in a wait whose state the mask meets once the call has returned. |
| LostWakeup.NoLostWakeup | project_Process Scheduler/src/core.c:2643-2741 | In terms of the state alone: a sleeper whose condition was set, and whose signalling callers have returned, is runnable or on its runqueue's wake_list, even while other wakeups of it are under way, unless one of those callers used a mask that misses its state. |
| LostWakeup.NoMatchHelped | project_Process Scheduler/src/core.c:2650-2652 | A caller that set the condition and finds no match in the state found the sleeper already awake or on a wake_list. |
| LostWakeup.CommitsUnset | project_Process Scheduler/src/sched.h:153-194 | A task commits to sleep only if it finds its condition unset. |
| Preemption.PreemptedStaysQueued | project_Process Scheduler/src/core.c:4101-4188 | In every run, from the moment a preempting pass has the lock until its pick, the task it found running stays queued on that CPU and in the state it had, unless a wakeup makes it runnable; and a switch away from it then raises `nivcsw` alone. |
| Preemption.PassCounts | project_Process Scheduler/src/core.c:4136-4173 | In every reachable state the task found running goes off its runqueue exactly when the pass is not a preemption, its state is not running and no signal interrupts it; and whatever happens until the pick, the switch counts as voluntary exactly when the pass is not a preemption and that state was not running. |
| Preemption.NoSleepBeforeTest | project_Process Scheduler/src/sched.h:153-194 | If no task gives up the CPU of its own accord between announcing a sleep and testing its condition, then no task is ever off its runqueue between the two, however often it is preempted there. |
| Preemption.SignalNeverMissedByWait | project_Process Scheduler/src/sched.h:153-194 | A call made at any time is then missed by no wait, tested or not: once it has returned, and while its condition is not reset, a task waiting in a state the mask meets is awake, or on its runqueue with the test still ahead. |
| WakeMasks.MaskRespected | project_Process Scheduler/src/core.c:2650-2652 | A sleeper in a state that no wakeup of it, in flight or to come, looks for sleeps on in that state, off every runqueue and on no wake_list, in every continuation of every run. |
| WakeMasks.StateRespected | project_Process Scheduler/src/core.c:2614-2652 | A task in such a state that is still running keeps it, also against the short path for the current task, until it changes its state itself or a signal interrupts it. |
| WakeMasks.StaysAwake | project_Process Scheduler/src/core.c:2343-2361 | A task that finds its condition set, or that a wakeup activates, is in the running state and on a runqueue or between two until it sets its own state again. |
| WakeMasks.ArrivesWhereSent | project_Process Scheduler/src/core.c:1583-1602 | A task that a waker or its parent places on a CPU, or a migration moves to one, is on its way there in every later state until it is queued again, and that is on the queue of that CPU. |
| OwnSteps.SleepsAsSet | project_Process Scheduler/src/sched.h:153-207 | A task that sets its state, by any of the three ways, and is sought by no wakeup in it, goes to sleep or dies in exactly that state when it schedules. |
| OwnSteps.FreezerRespected | project_Process Scheduler/src/core.c:1412-1430 | The freezer's flag stays as the task last set it, and a task that sleeps frozen is not counted as load. |
| OwnSteps.EveryWaitEndsOnce | project_Process Scheduler/src/sched.h:153-194 | In every run the waits a task has begun are those it has ended and the one it is in, if any. |
| OwnSteps.ConditionIsLast | project_Process Scheduler/src/sched.h:153-194 | In every run a task's condition is as the last reset or signal left it. |
| LockHolders.GoodNext | project_Process Scheduler/src/core.c:4101-4188 | Every action keeps this: who holds a runqueue lock is inside the section it took it for. |
| LockHolders.FreeRq | project_Process Scheduler/src/core.c:4101-4188 | From every such state the holder of a runqueue lock, by its own steps alone, can let go of it; no other wakeup, no task's cpu and no wake_list changes meanwhile. |
| WakeProgress.MatchedFinishes | project_Process Scheduler/src/core.c:2614-2750 | From every such state a wakeup that has found a matching state can be brought to its end with the task queued and runnable, whether it has to wait for a lock, for a migration to end or for the task to leave its CPU. |
| WakeProgress.WakeupCanFinish | project_Process Scheduler/src/core.c:2614-2750 | From every reachable state every call of `try_to_wake_up` in flight can be brought to its end: no state traps it. |
| WakeProgress.NoTaskIsLost | project_Process Scheduler/src/core.c:2614-2750 | From every reachable state a task that is on no runqueue can become queued and runnable again if and only if it has not died, wherever it is in its birth, its sleep or its wakeup. |
| SchedulerCounters.NrUninterruptibleExact | project_Process Scheduler/src/core.c:1412-1430 | The sum of `nr_uninterruptible` over all CPUs is always the number of blocked tasks that contribute to load, plus the waking ones still flagged, plus the contributing ones that a migration through `deactivate_task` has detached at the moment, whichever CPUs they slept and woke on. |
| SchedulerCounters.NextBalanced | project_Process Scheduler/src/core.c:2343-2361 | Every action keeps that equation. |
| SchedulerCounters.CtxCountsDispatches | project_Process Scheduler/src/core.c:4152-4154 | A task's `ctx` grows by exactly the number of scheduler passes that picked it. |
| SchedulerCounters.DispatchAccounts | project_Process Scheduler/src/core.c:4136-4185 | Over any run, voluntary and involuntary switches of all tasks grow together by what `nr_switches` of all CPUs grows by, and `ctx` by that plus the passes that picked the running task again. |
| SchedulerCounters.DispatchAccountsFromBoot | project_Process Scheduler/src/fork.c:1934 | From boot, with counters reset at fork: `ctx` of every task is the number of passes that chose it, the switch counts add up to `nr_switches`, and total `ctx` exceeds it by exactly the re-picks. |
| SchedulerCounters.SwitchesCountLeavings | project_Process Scheduler/src/core.c:4136-4173 | Each task's `nvcsw` and `nivcsw` grow by exactly the voluntary and the other passes that switched away from it. |
| SchedulerCounters.SleepIsVoluntary | project_Process Scheduler/src/core.c:4137-4148 | In every reachable state a pass that switches away from a task that left the runqueue to sleep is a voluntary one. |
| UclampBuckets.BucketRange | project_Process Scheduler/src/core.c:816-824 | For every bucket count the bucket width is a nearest integer to 1024 divided by it, and a clamp value lies in the range of that width which its bucket stands for; the last bucket has no upper end. |
| UclampBuckets.Top | project_Process Scheduler/src/core.c:873-892 | The topmost non-empty bucket, or none. |
| UclampBuckets.IncIdInv | project_Process Scheduler/src/core.c:965-992 | Adding a task keeps one clamp index exact: counts, bucket values, cached value and idle value; and adds exactly that task. |
| UclampBuckets.DecIdInv | project_Process Scheduler/src/core.c:1003-1066 | Removing a task keeps it exact, removes exactly that task, fires neither warning, and goes idle exactly when the last task of the max clamp leaves. |
| UclampBuckets.BucketValues | project_Process Scheduler/src/core.c:965-992 | A bucket's value is set by the first task that comes into it, raised by a greater one, and left alone by one that leaves. |
| UclampBuckets.IdleValue | project_Process Scheduler/src/core.c:846-861 | When the last task leaves, the minimum clamp becomes 0 and the maximum clamp stays as that task had it. |
| UclampBuckets.CachedMax | project_Process Scheduler/src/core.c:987-991 | The cached value is at least the largest clamp of the active tasks, in the same bucket, and above it by less than the width of a bucket, except where the largest clamp lies in the last bucket. |
| UclampRq.IncInv | project_Process Scheduler/src/core.c:1069-1091 | `uclamp_rq_inc` keeps both clamp indices and the idle flag right. |
| UclampRq.DecInv | project_Process Scheduler/src/core.c:1093-1111 | `uclamp_rq_dec` keeps both clamp indices and the idle flag right. |
| UclampRq.ReincInv | project_Process Scheduler/src/core.c:1113-1128 | Taking a task out and putting it back with a new clamp keeps everything right, also in the middle, and the set of active tasks the same. |
| UclampRq.ReincStores | project_Process Scheduler/src/core.c:1113-1128 | It leaves the new clamps stored for that task and the stored clamps of every other task alone. |
| UclampRq.UclampArray.MaxValue | project_Process Scheduler/src/core.c:873-892 | The downward scan returns the value of the topmost non-empty bucket, or the fallback when there is none. |
| UclampRq.UclampArray.IncTask | project_Process Scheduler/src/core.c:965-992 | The update in place computes the specification. |
| UclampRq.UclampArray.DecTask | project_Process Scheduler/src/core.c:1003-1066 | The update in place computes the specification and reports the two warnings exactly. |
| UclampRq.RunQueue.constructor | project_Process Scheduler/src/core.c:1329-1341 | A new runqueue is idle, empty and valid. |
| UclampRq.RunQueue.Enqueue | project_Process Scheduler/src/core.c:1069-1091 | Enqueueing keeps the runqueue valid and computes the specification. |
| UclampRq.RunQueue.Dequeue | project_Process Scheduler/src/core.c:1093-1111 | Dequeueing keeps the runqueue valid and never warns. |
| UclampRq.RunQueue.Refresh | project_Process Scheduler/src/core.c:1130-1157 | Refreshing an active task's clamps keeps the runqueue valid and never warns. |
| UclampRq.OpsInv | project_Process Scheduler/src/core.c:965-1128 | Any sequence of increments, decrements and refreshes keeps the invariant. |
| UclampRq.OpsAgree | project_Process Scheduler/src/core.c:965-1128 | After any sequence of operations on a new runqueue the tasks accounted for, and the clamps stored for each, are those that the sequence put there last. |
| UclampRq.ClampsExact | project_Process Scheduler/src/core.c:821-1128 | After any sequence from the initial runqueue: the tasks and their clamps are those put there last, each bucket counts its active tasks, each non-empty bucket's value bounds them and lies in the bucket, the runqueue value is the top bucket's and above the true maximum by less than a bucket's width, both indices have the same tasks, and the idle flag holds exactly when there is none. |
| UclampGroups.ConsistentIsFull | project_Process Scheduler/src/core.c:7291-7337 | Effective clamps that agree at every group with a local rule are those of the full recomputation from the root. |
| UclampGroups.PrunedConsistent | project_Process Scheduler/src/core.c:7320-7328 | Skipping the subtree below a group whose effective clamps did not change loses nothing. |
| UclampGroups.Restrictive | project_Process Scheduler/src/core.c:7291-7337 | Along every path down, effective minimum and maximum never increase, and the minimum is at most the maximum. |
| UclampGroups.TightestRequest | project_Process Scheduler/src/core.c:7303-7317 | A group's effective maximum is the least maximum requested at or above it, and its effective minimum the least of all requests at or above it. |
| UclampHierarchy.MoveKeeps | project_Process Scheduler/src/core.c:1384-1410 | Enqueueing, dequeueing or moving a task keeps every runqueue right and accounting for exactly the tasks on it, and leaves every current task current. |
| UclampHierarchy.RefreshFreshens | project_Process Scheduler/src/core.c:1113-1128 | A refresh makes the task's stored clamps current and leaves those of others alone. |
| UclampHierarchy.EffectiveRight | project_Process Scheduler/src/core.c:894-940 | A task's effective clamps are its own requests brought between its group's bounds and then under the system limit; outside a restricting group, under the system limit alone. |
| UclampHierarchy.FullIsLeast | project_Process Scheduler/src/core.c:7291-7337 | The bounds a group gets by full recomputation are the least requests at or above it, the minimum not above the maximum. |
| UclampHierarchy.Hierarchy.constructor | project_Process Scheduler/src/core.c:7196-7212 | From the root, the groups come online one by one; in the end the hierarchy is consistent and every runqueue right. |
| UclampHierarchy.Hierarchy.Online | project_Process Scheduler/src/core.c:7018-7030 | A group that takes over its parent's effective clamps and is then updated leaves the groups online consistent. |
| UclampHierarchy.Hierarchy.Interfere | project_Process Scheduler/src/core.c:1384-1410 | Whatever other CPUs enqueue, dequeue and move, current tasks stay current, and the tasks are where the moves put them. |
| UclampHierarchy.Hierarchy.UpdateActive | project_Process Scheduler/src/core.c:1130-1157 | Refreshing one task makes its stored clamps current and leaves every current task current. |
| UclampHierarchy.Hierarchy.UpdateActiveTasks | project_Process Scheduler/src/core.c:1160-1171 | Refreshing a group's tasks one by one, while other CPUs go on, makes all tasks current, given that those of other groups were. |
| UclampHierarchy.Hierarchy.UpdateOne | project_Process Scheduler/src/core.c:7299-7335 | At one group: its effective clamps become those of the local rule, and all tasks are current again, although tasks may be enqueued between the writes of the two clamps. |
| UclampHierarchy.Hierarchy.UpdateEff | project_Process Scheduler/src/core.c:7291-7337 | The pruned pre-order walk leaves every group consistent and every enqueued task current, those in skipped subtrees included, whatever other CPUs do meanwhile. |
| UclampHierarchy.Hierarchy.WriteClamp | project_Process Scheduler/src/core.c:7382-7415 | A write changes that one request. Afterwards each group is held to the least requests at or above it, and every enqueued task has stored on its runqueue its own requests brought between its group's bounds and under the system limit; every runqueue meets its invariant, and the tasks are where the moves of other CPUs during the write put them. |
| UclampHierarchy.Hierarchy.ApplyAll | project_Process Scheduler/src/core.c:7382-7415 | All of this holds after any sequence of writes and moves, with moves during the writes, and the requests are those written last. |
| TreeWalk.Walk | project_Android Kernel Scheduler/scheduler/sched/core.c:658-687 | The walk with jumps terminates and returns what the recursive pre- and post-order traversal returns, for any visitors and state. |
| TreeWalk.VisitCalls | project_Android Kernel Scheduler/scheduler/sched/core.c:658-687 | The calls made are the events of the traversal in order, up to and including the first that returns non-zero, and that code is returned. |
| TreeWalk.KidCalls | project_Android Kernel Scheduler/scheduler/sched/core.c:658-687 | The same for the remaining children of a group. |
| CfsQuota.NearestAncestor | project_Android Kernel Scheduler/scheduler/sched/core.c:8126-8151 | The effective limit of a group is that of a group on the path above it, or its own, below which no group on the path is limited; without a limit on the path there is none. |
| CfsQuota.RatioIsShare | project_Android Kernel Scheduler/scheduler/sched/core.c:8106-8124 | A ratio is the share of a CPU, in whole microseconds, in units of 2^-20 and rounded down. |
| CfsQuota.FitsByShare | project_Android Kernel Scheduler/scheduler/sched/core.c:8126-8151 | An admitted group that is limited has less than the share of its nearest limited ancestor and 2^-20 more, and a group with no more than that share is never what makes a change be refused. |
| CfsQuota.VisitDecides | project_Android Kernel Scheduler/scheduler/sched/core.c:8126-8151 | A subtree is accepted exactly when each limited group's ratio is at most that of its nearest limited ancestor, and then holds the nearest limit, its own included, at every group. |
| CfsQuota.CfsGroups.SetBandwidth | project_Android Kernel Scheduler/scheduler/sched/core.c:7966-8025 | A change takes effect exactly when it is in range, not on the root, and the hierarchy still fits; otherwise no bandwidth changes; after a change that took effect the stored effective quotas are the nearest limits. |
| CfsQuota.CfsGroups.constructor | project_Android Kernel Scheduler/scheduler/sched/core.c:8106-8173 | A hierarchy without limits is admitted. |
| RtBandwidth.TgRtSchedulable | project_Android Kernel Scheduler/scheduler/sched/core.c:7608-7661 | The loop over the children, with one group's proposed values in place of its stored ones, decides as the specification does on the changed hierarchy. |
| RtBandwidth.VisitDecides | project_Android Kernel Scheduler/scheduler/sched/core.c:7664-7679 | The walk returns zero exactly when the check passes at every group. |
| RtBandwidth.AntichainBound | project_Android Kernel Scheduler/scheduler/sched/core.c:7608-7661 | Checks that look at a group and its children only imply that any groups inside a group, not nested in one another, have together at most its ratio. |
| RtBandwidth.AntichainTotal | project_Android Kernel Scheduler/scheduler/sched/core.c:7608-7661 | Over the whole hierarchy such groups stay within the root's ratio, and that within the global one. |
| RtBandwidth.RatioIsShare | project_Android Kernel Scheduler/scheduler/sched/core.c:7574-7580 | A ratio is the group's runtime over its period in units of 2^-20, rounded down. |
| RtBandwidth.GlobalIsShare | project_Android Kernel Scheduler/scheduler/sched/sched.h:662-673 | The global bandwidth in nanoseconds is the share that the two sysctl values in microseconds state. |
| RtBandwidth.AntichainShares | project_Android Kernel Scheduler/scheduler/sched/core.c:7608-7661 | In real shares of a CPU: k groups not nested in one another have together less than the root's share and k times 2^-20 more, and the root has less than the global share and 2^-20 more. |
| RtBandwidth.PassesFit | project_Android Kernel Scheduler/scheduler/sched/core.c:7608-7661 | The check passes at every group exactly when every group fits and, under a global limit, no group with tasks has a zero runtime. |
| RtBandwidth.NanosecondsExact | project_Android Kernel Scheduler/scheduler/sched/core.c:7711-7746 | The conversion to unsigned nanoseconds is exact where it fits, and a negative number wraps around. |
| RtBandwidth.RtGroups.constructor | project_Android Kernel Scheduler/scheduler/sched/core.c:7574-7580 | The bandwidths at boot pass. |
| RtBandwidth.RtGroups.SetBandwidth | project_Android Kernel Scheduler/scheduler/sched/core.c:7681-7709 | A change takes effect exactly when in the changed hierarchy every group fits and no group with tasks would starve, and otherwise changes nothing. |
| RtBandwidth.RtGroups.SetRuntime | project_Android Kernel Scheduler/scheduler/sched/core.c:7711-7722 | A new runtime, negative for none, with the stored period. |
| RtBandwidth.RtGroups.SetPeriod | project_Android Kernel Scheduler/scheduler/sched/core.c:7735-7746 | A new period with the stored runtime, in unsigned nanoseconds, where a negative one wraps around; zero is refused. |
| RtBandwidth.RtGroups.SetGlobal | project_Android Kernel Scheduler/scheduler/sched/core.c:7757-7850 | A write to the global limits takes effect exactly when they are sane and every group still passes, and is otherwise taken back. |
| RtBandwidth.RtGroups.ApplyAll | project_Android Kernel Scheduler/scheduler/sched/core.c:7574-7850 | After any sequence of accepted and rejected writes, any set of groups not nested in one another has together at most the root's ratio, and the root at most the global one; in real shares, at most the root's share and 2^-20 more for each group, and the root less than the global share and 2^-20 more. |
| LoadAverage.FixedPowerInt | project_Android Kernel Scheduler/scheduler/sched/core.c:2406-2429 | The loop computes repeated squaring with rounding after each product. |
| LoadAverage.CalcLoadN | project_Android Kernel Scheduler/scheduler/sched/core.c:2451-2457 | The bulk step is one decay by that power, which is at most one. |
| LoadAverage.CalcLoadBetween | project_Android Kernel Scheduler/scheduler/sched/core.c:2264-2271 | One step stays between the load and the active count. |
| LoadAverage.FixedPowerError | project_Android Kernel Scheduler/scheduler/sched/core.c:2406-2429 | For every base up to one and every n the result is at most one and within n/2 units of the exact scaled power. |
| LoadAverage.StepsNear | project_Android Kernel Scheduler/scheduler/sched/core.c:2264-2271 | n rounded steps are within n/2 of n exact ones. |
| LoadAverage.BulkStepError | project_Android Kernel Scheduler/scheduler/sched/core.c:2264-2271 | The bulk step differs from the n steps it replaces by at most n/2 + 1/2 + n*\|load - active\|/4096. |
| LoadFolding.ConservedNext | project_Android Kernel Scheduler/scheduler/sched/core.c:2246-2259 | Every atomic step of folding, idle entry, collection and CPU removal keeps the balance of counters, deltas in flight and per-CPU bases. |
| LoadFolding.LoadConserved | project_Android Kernel Scheduler/scheduler/sched/core.c:2510-2524 | In every interleaving the task counter, both idle counters and the deltas in flight add up to the sum of `calc_load_active`. |
| LoadFolding.LoadSettled | project_Android Kernel Scheduler/scheduler/sched/core.c:2543-2555 | Once every CPU has folded and nothing is in flight, the counters hold together the sums of `nr_running` and `nr_uninterruptible`. |
| LoadFolding.FoldTakesAll | project_Android Kernel Scheduler/scheduler/sched/core.c:2246-2259 | A CPU that has folded has nothing left to fold, and carries the whole change of its running and uninterruptible tasks. |
| LoadFolding.SettlesExactly | project_Android Kernel Scheduler/scheduler/sched/core.c:2510-2555 | From every reachable state with nothing in flight, once each CPU has given its change, directly or through either idle counter, and one CPU has collected both, the global counter alone is the number of running and uninterruptible tasks. |
| LoadFolding.CountsAreLast | project_Android Kernel Scheduler/scheduler/sched/core.c:2246-2259 | In every run the counts that are folded are the last ones the runqueue had. |
| LoadFolding.RemovedCpu | project_Android Kernel Scheduler/scheduler/sched/core.c:2510-2524 | A CPU that goes takes out exactly what it accounted for, and leaves the balance of the others. |
| LazyMm.NextInv | project_Process Scheduler/src/core.c:3432-3488 | Every switch of either version, finish, exit, fork and mm_users change keeps the reference counts exact. |
| LazyMm.CountsExact | project_Process Scheduler/src/core.c:3283-3343 | In every run of either version `mm_count` is one for live users, plus one for each kernel thread borrowing the mm, plus one for each pending drop; it is zero exactly when the mm was freed; and no CPU runs on a freed mm. |
| LazyMm.InUse | project_Process Scheduler/src/core.c:3432-3488 | The mm a CPU runs on has a positive count. |
| LazyMm.UsersExact | project_Process Scheduler/src/fork.c:1386-1430 | Over every stretch of every run `mm_users` is the number of tasks that have the mm, changed by the references taken and put elsewhere and those of the tasks that gave the mm up. |
| LazyMm.ForkGives | project_Process Scheduler/src/fork.c:1386-1430 | A child shares its parent's mm exactly if it was asked to and there is one; a copy is nobody else's; the child of a kernel thread has none. |
| LazyMm.ExitLeaves | project_Process Scheduler/src/core.c:3432-3488 | A task that gives up its mm goes on running on it, as a borrower, with its user reference still to be put. |
| LazyMm.SwitchRunsOn | project_Process Scheduler/src/core.c:3432-3488 | After a switch of either version a user task runs on its own mm and a kernel thread on that of the task before it, and a kernel thread that stopped running borrows nothing. |
| LazyMm.SameNetEffect | project_Android Kernel Scheduler/scheduler/sched/core.c:2055-2108 | A switch and the drop after it lead both versions from the same state to the same state, whatever drops other CPUs have pending. |
| LazyMm.MatchesEqual | project_Android Kernel Scheduler/scheduler/sched/core.c:2055-2108 | Related states of the two versions with no drop pending are equal, down to every count. |
| LazyMm.TransferRefinesGrab | project_Android Kernel Scheduler/scheduler/sched/core.c:1942-1975 | Every run of the version that grabs and drops is action by action a run of the version that hands over, never with a larger count, and equal whenever no drop is pending. |
| LazyMm.Machine.ContextSwitch | project_Process Scheduler/src/core.c:3432-3488 | The four-case switch as carried out computes the specification. |
| LazyMm.Machine.OldContextSwitch | project_Android Kernel Scheduler/scheduler/sched/core.c:2055-2108 | The older switch as carried out computes its specification. |
| LazyMm.Machine.FinishTaskSwitch | project_Process Scheduler/src/core.c:3283-3343 | The deferred drop is done and the pending mm cleared. |
| WakeQueue.ClaimInv | project_Process Scheduler/src/core.c:411-427 | The compare-and-exchange claims a task for exactly one head, or finds it held; a failed safe add gives its reference back. |
| WakeQueue.AppendInv | project_Process Scheduler/src/core.c:429-453 | Linking the claimed task extends the head's list at its end and nothing else. |
| WakeQueue.PopInv | project_Process Scheduler/src/core.c:479-489 | Taking the first task off shortens the list by it and frees its link at once. |
| WakeQueue.NextInv | project_Process Scheduler/src/core.c:411-496 | Every step keeps the links of all heads equal to disjoint lists and the references exact. |
| WakeQueue.LinksAreLists | project_Process Scheduler/src/core.c:411-496 | In every state of every run, for any number of heads, the links are disjoint tail-terminated lists without repetition. |
| WakeQueue.FailedAddHasWaker | project_Process Scheduler/src/core.c:411-427 | A task's link is set exactly when some head has it and has yet to wake it, so an add that gives up is covered. |
| WakeQueue.WakesEachOnceInOrder | project_Process Scheduler/src/core.c:479-496 | A drain that ends has woken the tasks added, each once, in order; the task it touches next is queued and referenced. |
| WakeQueue.LinkedReferenced | project_Process Scheduler/src/core.c:411-453 | A task whose link is set always has a positive count, from the moment it is claimed until it is taken off. |
| WakeQueue.ReferencesReturned | project_Process Scheduler/src/core.c:449-496 | When all heads are empty again every reference taken for them was given back and every link is clear. |
| WakeQueue.AskedAndGivenUp | project_Process Scheduler/src/core.c:411-496 | In every run a head holds what was added to it since it was last set up, and the callers' references to a task are those they took less those they gave up, whether or not a safe add found the task already queued. |
| WakeQueue.WakeUpQ | project_Process Scheduler/src/core.c:479-496 | The loop, with other contexts adding and waking between its steps, ends, has woken the tasks added in order, and leaves lists and references right; with no other context at work it clears each link, drops one reference for each task and changes nothing else. |
| LockOrder.CallSafe | project_Android Kernel Scheduler/scheduler/sched/sched.h:1082-1116 | Each function, called with the locks it asks for, waits only for locks above all it holds, releases only what it holds and returns with the locks it promises, on every outcome of its trylocks. |
| LockOrder.UnfairBalanceSafe | project_Android Kernel Scheduler/scheduler/sched/sched.h:1032-1051 | The trylock variant, which may take the lower lock second. |
| LockOrder.FairBalanceSafe | project_Android Kernel Scheduler/scheduler/sched/sched.h:1013-1022 | The variant that always releases first. |
| LockOrder.WakeLocalSafe | project_Android Kernel Scheduler/scheduler/sched/core.c:1653-1679 | The pi_lock taken under the runqueue lock by trylock, or after releasing it. |
| LockOrder.NextInv | project_Android Kernel Scheduler/scheduler/sched/sched.h:1032-1116 | Every step of every CPU keeps locks exclusive and every CPU safe. |
| LockOrder.CallsKeepPromises | project_Android Kernel Scheduler/scheduler/sched/sched.h:1032-1051 | In every reachable state no lock has two holders, a call that returned left the locks it promised, and double_lock_balance returned 1 exactly when it released a lock on the way. |
| LockOrder.NoCircle | project_Android Kernel Scheduler/scheduler/sched/sched.h:1082-1116 | No reachable state has CPUs waiting in a circle, each for a lock the next one holds. |
| LockOrder.WaitsEnd | project_Android Kernel Scheduler/scheduler/sched/sched.h:1082-1116 | From any waiting CPU the chain of holders leads to one that is not waiting. |
| Romfs.Strnlen | project_File system/src/super.c:201-204 | The length is bounded, counts no terminator, and stops at the limit, the end of the image or a terminator. |
| Romfs.ChainDistinct | project_File system/src/super.c:185-224 | A directory chain that ends visits no header twice. |
| Romfs.OpenDir.constructor | project_File system/src/super.c:167-183 | A newly opened directory has its whole chain to list. |
| Romfs.OpenDir.Readdir | project_File system/src/super.c:167-226 | One call lists the next visible entries that the buffer has room for, in order, and leaves the position so that the rest, and only the rest, is still to be listed; also when the directory or an entry cannot be read. |
| Romfs.OpenDir.ReadAll | project_File system/src/super.c:167-226 | Resumed calls with any rooms list together the chain in order without the hidden name, nothing twice and nothing skipped, up to the total room. |
| Romfs.VisibleOf | project_File system/src/super.c:167-226 | Each entry shown is that of a header of the chain, and not the hidden one. |
| Romfs.ShownAt | project_File system/src/super.c:167-226 | Each header that is not hidden is shown, after exactly the entries of the headers before it. |
| Romfs.NameInImage | project_File system/src/super.c:201-209 | The name shown is what the image has after the header, up to its terminator, 127 bytes or the end of the image. |
| Romfs.Lookup | project_File system/src/super.c:230-284 | The search loop finds the first header that matches and the offset its link points to, or reports absence, an unreadable header or a name too long, as the specification does. |
| RomfsInodes.LookupInode | project_File system/src/super.c:230-284 | The whole lookup gives the inode at the end of the hard links of the first header that matches, an error, or a fault. |
| RomfsInodes.FaultsExactlyWhen | project_File system/src/super.c:265-275 | For every image, directory and name, lookup faults exactly when the name is the executable one and the hard links of the first header that matches lead to a header that cannot be read. |
| RomfsInodes.Iget | project_File system/src/super.c:299-377 | The loop over hard links ends at the header they lead to, and gives its inode or an error. |
| RomfsInodes.FollowedEnds | project_File system/src/super.c:311-322 | Hard links lead to something that is not a hard link. |
| RomfsInodes.FirstLinkTwice | project_File system/src/super.c:266-269 | Following the first link before the inode is asked for makes no difference to the inode. |
| RomfsInodes.DataAfterName | project_File system/src/super.c:338-341 | The data of an inode starts at the first multiple of 16 bytes after its name and terminator. |
| RomfsInodes.InodeFields | project_File system/src/super.c:299-377 | What the bytes of a header say about its inode: type, executable or not, and the size of a file or of a directory. |
| RomfsInodes.ListedKind | project_File system/src/super.c:211-219 | The type readdir shows for a header is that of its inode, and marks hard links and nothing else. |
| Romfs.SearchStops | project_File system/src/super.c:230-284 | A search ends at a header exactly when that header matches, none before it does, and every comparison up to it stays inside the image. |
| Romfs.ListingIsPrefix | project_File system/src/super.c:185-224 | readdir and lookup read the same headers, and readdir stops short of lookup exactly at a header whose next word points above the signed range to a header that can be read. |
| Romfs.SearchMisses | project_File system/src/super.c:230-284 | A name that no header of the chain has is reported missing exactly when the chain ends with a link to nothing or past the image, and as a read error otherwise. |
| Romfs.MatchesIsName | project_File system/src/super.c:256-262 | A name matches a header exactly when readdir shows that name for it and the name was not cut. |
| Romfs.ShownNameFound | project_File system/src/super.c:167-284 | The name shown for a header leads lookup back to it exactly when the name was not cut, no earlier header has the same whole name and no earlier header lies too near the end of the image; this holds for the hidden header too. |
| Romfs.EveryShownNameFound | project_File system/src/super.c:167-284 | If no name is cut and no header is too near the end, every name listed is found, at the first header that lists it. |
| Romfs.ListedInode | project_File system/src/super.c:211-219 | The inode number listed for a header is the offset whose inode lookup returns, exactly unless a link's word has low bits set or the number exceeds the signed range. |
| Romfs.LongNameCut | project_File system/src/super.c:201-209 | A name of 128 bytes or more is listed cut to 127, without terminator. |
| RomfsMount.CutNameNotFound | project_File system/src/super.c:201-262 | An image that is mounted, whose one listed name lookup does not find. |
| RomfsMount.DeadLinkFaults | project_File system/src/super.c:265-275 | An image that is mounted, and a lookup in its root directory that faults. |
| RomfsMount.Checksum | project_File system/src/super.c:463-476 | The loop adds up the words of the superblock in unsigned 32-bit arithmetic. |
| RomfsPages.ReadPage | project_File system/src/super.c:109-153 | The page filled in place holds the file's bytes, shifted for the secret file, and zeros after them; a failed read gives an error and a page of zeros. |
| RomfsPages.PagesAreFile | project_File system/src/super.c:109-153 | The pages of a file, one after the other, are its bytes and then zeros. |
| RomfsPages.SecretReadsBack | project_File system/src/super.c:137-143 | Shifting the pages of the secret file back gives the file. |

## Left out

- Memory barriers, RCU, interrupt masking, lockdep and tracing.
- The static key that leaves clamping off until it is first used, and classes without clamping; a task that was not counted is skipped when it leaves.
- The scheduling classes themselves, among them the WRR class, and preemption decisions.
- Affinity masks: a chosen CPU is any existing one.
- The order within a wake_list: it is a set here.
- Delayed accounting, iowait counts and statistics other than the counters named above.
- Creation and removal of task groups: the trees are fixed while they are walked.
- UclampHierarchy.Hierarchy.WriteClamp: tasks stay in their groups; does not cover changes of the system-wide defaults, which the code applies lazily.
- RtBandwidth.TgRtSchedulable: does not model overflow of the runtime shifted left by 20 bits.
- LoadAverage.FixedPowerInt: does not model overflow of the unsigned products, and needs at least one fraction bit, as the rounding shift does.
- LoadFolding.LoadConserved: does not model the time window that decides which idle counter is written; any choice is allowed.
- The cgroup2 branch of the newer quota check.
- Setting up a wake queue head, which is not part of the repository: it is the step Reinit.
- LockOrder.CallSafe: orders runqueues by number where the code compares addresses, and does not cover holding two pi_locks.
- Romfs.Lookup: directory chains that run in a circle, on which the code does not return, are excluded.
- RomfsInodes.Iget: circles of hard links, on which the code does not return, are excluded, and so are the inode cache, device numbers and the operations installed.
- Mounting a romfs image, beyond the checks of its superblock.
- Romfs.OpenDir.Readdir: the buffer is a number of entries it accepts before it refuses one.
- The timing and plotting programs, the page-table tools and the procfs files.
