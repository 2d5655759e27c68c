/**
 The wakeup, switch and migration protocol of the core scheduler as a state
 machine.  A state holds every task, every runqueue and every call of
 try_to_wake_up in flight; an action is one atomic step of some agent.  Steps are
 sequentially consistent.  Work done under a runqueue lock is one step only where
 no field that is read without the lock changes twice in it.
 */
module Protocol {

  // The bits of task->state; the empty set is TASK_RUNNING.
  datatype Bit =
    | Interruptible | Uninterruptible | Stopped | Traced | Parked
    | Dead | WakeKill | Waking | NoLoad | New

  datatype OnRq = Off | Queued | Migrating

  // Where a task is in the loop: set state; test condition; schedule.  The bits set are kept with it.
  datatype Wait = NotWaiting | Announced | Committed

  // wake_up_new_task, run once for each task by its parent.
  datatype BirthPc = Unborn | BirthLocked | BirthPlaced | BirthHeld | Born

  // The migration of a queued task.  A counted migration goes through
  // deactivate_task and activate_task, an uncounted one is move_queued_task.
  datatype MigPc =
    | MigIdle
    | MigHeld(counted: bool)
    | MigDetached(counted: bool)
    | MigMoving(counted: bool, dest: nat)
    | MigDst(counted: bool, dest: nat)

  datatype PiHolder = PiFree | PiWaker(w: nat) | PiBirth

  // RqOther is any holder of a runqueue lock that is not modelled.
  datatype RqHolder =
    | RqFree | RqScheduler | RqIpi | RqOther
    | RqWaker(w: nat) | RqBirth(p: nat) | RqMig(p: nat)

  datatype Task = Task(
    state: set<Bit>, frozen: bool, onRq: OnRq, onCpu: bool, cpu: nat,
    pi: PiHolder, contributes: bool, idle: bool,
    ctx: nat, nvcsw: nat, nivcsw: nat,
    birth: BirthPc, mig: MigPc,
    wait: Wait, waitBits: set<Bit>, cond: bool)

  // __schedule on one CPU.  The lock is held everywhere but in Outside and Balancing.
  datatype SchedPc =
    | Outside
    | Deciding(preempt: bool)
    | Picking(voluntary: bool)
    | Balancing(voluntary: bool)
    | Picked(prev: nat)
    | Switching(prev: nat)
    | Finishing

  // sched_ttwu_pending on one CPU.
  datatype IpiPc = IpiIdle | IpiTaken(batch: set<nat>) | IpiActive(batch: set<nat>)

  datatype Rq = Rq(
    lock: RqHolder, curr: nat, idle: nat, queue: set<nat>, wakeList: set<nat>,
    sched: SchedPc, ipi: IpiPc, nrUninterruptible: int, nrSwitches: nat)

  datatype WakePc =
    | WStart | WLocked | WMatched | WRemote | WRemoteRead(c: nat) | WRemoteHeld(c: nat)
    | WSpin | WStable | WSet | WPlaced | WLocalHeld | WDone

  // A call of try_to_wake_up(target, mask).  A signalling caller has set the
  // target's condition just before the call.
  datatype Waker = Waker(target: nat, mask: set<Bit>, signals: bool, pc: WakePc)

  datatype State = State(tasks: seq<Task>, rqs: seq<Rq>, wakers: seq<Waker>)

  // Steps of the task running on a CPU: state changes and the wait loop.
  datatype TaskStep =
    | SetState(bits: set<Bit>)
    | SetSpecialState(bits: set<Bit>)
    | SetFrozen(frozen: bool)
    | WaitAnnounce(bits: set<Bit>)
    | WaitTest
    | WaitReturn
    | CondReset
    | Fork

  // Steps of __schedule and context_switch.
  datatype SchedStep =
    | SchedLock(preempt: bool)
    | SchedDecide(signal: bool)
    | BalanceDrop
    | BalanceRetake
    | Pick(next: nat)
    | PrepareTask
    | FinishTask
    | FinishLock
    | OtherLock
    | OtherUnlock

  // Steps of try_to_wake_up once called.
  datatype WakeStep =
    | WakeCurrent(c: nat)
    | WakeLockPi
    | WakeTestState
    | WakeReadOnRq
    | WakeReadRq
    | WakeLockRq
    | WakeRemote
    | WakeSpinDone
    | WakeSetWaking
    | WakePlace(d: nat)
    | WakeQueueRemote
    | WakeLockLocal
    | WakeActivate

  // Steps of sched_ttwu_pending.
  datatype IpiStep = IpiTake | IpiLock | IpiActivate(p: nat) | IpiUnlock

  // Steps of wake_up_new_task.
  datatype BirthStep = BirthLockPi | BirthPlace(d: nat) | BirthLockRq | BirthActivate

  // Steps of the migration of a queued task.
  datatype MigStep = MigLock(counted: bool) | MigDetach | MigMove(d: nat) | MigLockDst | MigAttach

  datatype Action =
    | ByTask(c: nat, task: TaskStep)
    | BySched(c: nat, sched: SchedStep)
    | WakeCall(p: nat, mask: set<Bit>, signals: bool)
    | ByWaker(w: nat, wake: WakeStep)
    | ByIpi(c: nat, ipi: IpiStep)
    | ByBirth(p: nat, birth: BirthStep)
    | ByMig(p: nat, mig: MigStep)

  const RUNNING: set<Bit> := {}

  // States no caller passes to set_current_state, and masks no caller passes to try_to_wake_up.
  const RESERVED: set<Bit> := {Waking, New, Dead}

  predicate ContributesToLoad(t: Task) {
    Uninterruptible in t.state && !t.frozen && NoLoad !in t.state
  }

  // signal_pending_state can only be true of these states.
  predicate SignalCanInterrupt(bits: set<Bit>) {
    Interruptible in bits || WakeKill in bits
  }

  // set_special_state: the dying state, or a stop, trace or park.
  predicate SpecialBits(bits: set<Bit>) {
    bits == {Dead} || (bits != {} && bits <= {Stopped, Traced, Parked, WakeKill})
  }

  predicate LockHeld(pc: SchedPc) { !pc.Outside? && !pc.Balancing? }

  predicate HoldsPi(pc: WakePc) { !pc.WStart? && !pc.WDone? }

  function Batch(ipi: IpiPc): set<nat> { if ipi.IpiIdle? then {} else ipi.batch }

  // The task running on CPU c is executing its own code.
  predicate RunsOn(s: State, c: nat) {
    HasCurrent(s, c) && s.rqs[c].sched.Outside? && Dead !in s.tasks[s.rqs[c].curr].state
  }

  predicate HasCurrent(s: State, c: nat) {
    c < |s.rqs| && s.rqs[c].curr < |s.tasks|
  }

  function Current(s: State, c: nat): Task
    requires HasCurrent(s, c)
  {
    s.tasks[s.rqs[c].curr]
  }

  function PutTask(s: State, p: nat, t: Task): State
    requires p < |s.tasks|
  {
    s.(tasks := s.tasks[p := t])
  }

  function PutRq(s: State, c: nat, r: Rq): State
    requires c < |s.rqs|
  {
    s.(rqs := s.rqs[c := r])
  }

  function PutPc(s: State, w: nat, pc: WakePc): State
    requires w < |s.wakers|
  {
    s.(wakers := s.wakers[w := s.wakers[w].(pc := pc)])
  }

  // In each group of steps: the agent is at that step, and any lock it takes is free.

  predicate TaskEnabled(s: State, c: nat, step: TaskStep) {
    RunsOn(s, c) &&
    var t := Current(s, c);
    match step
    case SetState(bits) => t.wait.NotWaiting? && bits !! RESERVED && (t.idle ==> bits == RUNNING)
    case SetSpecialState(bits) => t.wait.NotWaiting? && SpecialBits(bits) && t.pi.PiFree? && !t.idle
    case SetFrozen(_) => true
    case WaitAnnounce(bits) => t.wait.NotWaiting? && !t.idle && bits !! RESERVED && bits != RUNNING
    case WaitTest => t.wait.Announced?
    case WaitReturn => t.wait.Committed?
    case CondReset => t.wait.NotWaiting?
    case Fork => true
  }

  predicate SchedEnabled(s: State, c: nat, step: SchedStep) {
    HasCurrent(s, c) &&
    var r := s.rqs[c];
    match step
    case SchedLock(_) => r.lock.RqFree? && r.sched.Outside?
    case SchedDecide(signal) => r.sched.Deciding? && (signal ==> SignalCanInterrupt(Current(s, c).state))
    case BalanceDrop => r.sched.Picking?
    case BalanceRetake => r.lock.RqFree? && r.sched.Balancing?
    case Pick(next) => r.sched.Picking? && next < |s.tasks| && next in r.queue
    case PrepareTask => r.sched.Picked?
    case FinishTask => r.sched.Switching? && r.sched.prev < |s.tasks|
    case FinishLock => r.sched.Finishing?
    case OtherLock => r.lock.RqFree?
    case OtherUnlock => r.lock.RqOther?
  }

  predicate WakeEnabled(s: State, w: nat, step: WakeStep) {
    w < |s.wakers| && s.wakers[w].target < |s.tasks| && s.tasks[s.wakers[w].target].cpu < |s.rqs| &&
    var pc, t := s.wakers[w].pc, s.tasks[s.wakers[w].target];
    match step
    case WakeCurrent(c) =>
      pc.WStart? && c < |s.rqs| && s.rqs[c].sched.Outside? && s.rqs[c].curr == s.wakers[w].target
    case WakeLockPi => pc.WStart? && t.pi.PiFree?
    case WakeTestState => pc.WLocked?
    case WakeReadOnRq => pc.WMatched?
    case WakeReadRq => pc.WRemote?
    case WakeLockRq => pc.WRemoteRead? && pc.c < |s.rqs| && s.rqs[pc.c].lock.RqFree?
    case WakeRemote => pc.WRemoteHeld? && pc.c < |s.rqs|
    case WakeSpinDone => pc.WSpin? && !t.onCpu
    case WakeSetWaking => pc.WStable?
    case WakePlace(d) => pc.WSet? && d < |s.rqs|
    case WakeQueueRemote => pc.WPlaced?
    case WakeLockLocal => pc.WPlaced? && s.rqs[t.cpu].lock.RqFree?
    case WakeActivate => pc.WLocalHeld?
  }

  predicate IpiEnabled(s: State, c: nat, step: IpiStep) {
    c < |s.rqs| &&
    var r := s.rqs[c];
    match step
    case IpiTake => r.ipi.IpiIdle? && r.wakeList != {}
    case IpiLock => r.lock.RqFree? && r.ipi.IpiTaken?
    case IpiActivate(p) => r.ipi.IpiActive? && p < |s.tasks| && p in r.ipi.batch
    case IpiUnlock => r.ipi.IpiActive? && r.ipi.batch == {}
  }

  predicate BirthEnabled(s: State, p: nat, step: BirthStep) {
    p < |s.tasks| && s.tasks[p].cpu < |s.rqs| &&
    var t := s.tasks[p];
    match step
    case BirthLockPi => t.birth.Unborn? && t.pi.PiFree?
    case BirthPlace(d) => t.birth.BirthLocked? && d < |s.rqs|
    case BirthLockRq => t.birth.BirthPlaced? && s.rqs[t.cpu].lock.RqFree?
    case BirthActivate => t.birth.BirthHeld?
  }

  predicate MigEnabled(s: State, p: nat, step: MigStep) {
    p < |s.tasks| && s.tasks[p].cpu < |s.rqs| &&
    var t := s.tasks[p];
    match step
    case MigLock(_) =>
      t.mig.MigIdle? && s.rqs[t.cpu].lock.RqFree? && t.onRq.Queued? && !t.onCpu && !t.idle
    case MigDetach => t.mig.MigHeld?
    case MigMove(d) => t.mig.MigDetached? && d < |s.rqs|
    case MigLockDst => t.mig.MigMoving? && t.mig.dest < |s.rqs| && s.rqs[t.mig.dest].lock.RqFree?
    case MigAttach => t.mig.MigDst? && t.mig.dest < |s.rqs|
  }

  predicate Enabled(s: State, a: Action) {
    match a
    case ByTask(c, step) => TaskEnabled(s, c, step)
    case BySched(c, step) => SchedEnabled(s, c, step)
    case WakeCall(p, mask, _) => p < |s.tasks| && mask !! RESERVED
    case ByWaker(w, step) => WakeEnabled(s, w, step)
    case ByIpi(c, step) => IpiEnabled(s, c, step)
    case ByBirth(p, step) => BirthEnabled(s, p, step)
    case ByMig(p, step) => MigEnabled(s, p, step)
  }

  function Count(b: bool): int { if b then 1 else 0 }

  // deactivate_task(DEQUEUE_SLEEP) of the running task.
  function Deactivated(t: Task): Task { t.(onRq := Off) }

  // activate_task and ttwu_do_wakeup.
  function Activated(t: Task): Task { t.(onRq := Queued, state := RUNNING) }

  function NewTask(c: nat): Task {
    Task({New}, false, Off, false, c, PiFree, false, false, 0, 0, 0, Unborn, MigIdle, NotWaiting, {}, false)
  }

  function DecideNext(s: State, c: nat, signal: bool): State
    requires HasCurrent(s, c) && s.rqs[c].sched.Deciding?
  {
    var r, p := s.rqs[c], s.rqs[c].curr;
    var t := s.tasks[p];
    if r.sched.preempt || t.state == RUNNING then
      PutRq(s, c, r.(sched := Picking(false)))
    else if signal then
      PutRq(PutTask(s, p, t.(state := RUNNING)), c, r.(sched := Picking(true)))
    else
      PutRq(PutTask(s, p, Deactivated(t)), c,
            r.(sched := Picking(true), queue := r.queue - {p},
               nrUninterruptible := r.nrUninterruptible + Count(ContributesToLoad(t))))
  }

  function PickNext(s: State, c: nat, next: nat): State
    requires HasCurrent(s, c) && s.rqs[c].sched.Picking? && next < |s.tasks|
  {
    var r, prev := s.rqs[c], s.rqs[c].curr;
    var chosen := PutTask(s, next, s.tasks[next].(ctx := s.tasks[next].ctx + 1));
    if prev == next then
      PutRq(chosen, c, r.(sched := Outside, lock := RqFree))
    else
      var t := s.tasks[prev];
      PutRq(PutTask(chosen, prev, if r.sched.voluntary then t.(nvcsw := t.nvcsw + 1) else t.(nivcsw := t.nivcsw + 1)),
            c, r.(sched := Picked(prev), curr := next, nrSwitches := r.nrSwitches + 1))
  }

  function RemoteNext(s: State, w: nat): State
    requires w < |s.wakers| && s.wakers[w].target < |s.tasks|
    requires s.wakers[w].pc.WRemoteHeld? && s.wakers[w].pc.c < |s.rqs|
  {
    var p, c := s.wakers[w].target, s.wakers[w].pc.c;
    var t, s' := s.tasks[p], PutRq(s, c, s.rqs[c].(lock := RqFree));
    if t.cpu != c || t.onRq.Migrating? then PutPc(s', w, WRemote)
    else if t.onRq.Off? then PutPc(s', w, WSpin)
    else PutPc(PutTask(s', p, t.(state := RUNNING, pi := PiFree)), w, WDone)
  }

  // ttwu_do_activate of p on runqueue c.
  function ActivateOn(s: State, c: nat, p: nat, r: Rq): State
    requires c < |s.rqs| && p < |s.tasks|
  {
    PutRq(PutTask(s, p, Activated(s.tasks[p])), c,
          r.(queue := r.queue + {p}, nrUninterruptible := r.nrUninterruptible - Count(s.tasks[p].contributes)))
  }

  function TaskNext(s: State, c: nat, step: TaskStep): State
    requires TaskEnabled(s, c, step)
  {
    var p, t := s.rqs[c].curr, Current(s, c);
    match step
    case SetState(bits) => PutTask(s, p, t.(state := bits))
    case SetSpecialState(bits) => PutTask(s, p, t.(state := bits))
    case SetFrozen(frozen) => PutTask(s, p, t.(frozen := frozen))
    case WaitAnnounce(bits) => PutTask(s, p, t.(state := bits, wait := Announced, waitBits := bits))
    case WaitTest =>
      PutTask(s, p, if t.cond then t.(state := RUNNING, wait := NotWaiting) else t.(wait := Committed))
    case WaitReturn => PutTask(s, p, t.(wait := NotWaiting))
    case CondReset => PutTask(s, p, t.(cond := false))
    case Fork => s.(tasks := s.tasks + [NewTask(c)])
  }

  function SchedNext(s: State, c: nat, step: SchedStep): State
    requires SchedEnabled(s, c, step)
  {
    var r := s.rqs[c];
    match step
    case SchedLock(preempt) => PutRq(s, c, r.(lock := RqScheduler, sched := Deciding(preempt)))
    case SchedDecide(signal) => DecideNext(s, c, signal)
    case BalanceDrop => PutRq(s, c, r.(lock := RqFree, sched := Balancing(r.sched.voluntary)))
    case BalanceRetake => PutRq(s, c, r.(lock := RqScheduler, sched := Picking(r.sched.voluntary)))
    case Pick(next) => PickNext(s, c, next)
    case PrepareTask =>
      PutRq(PutTask(s, r.curr, s.tasks[r.curr].(onCpu := true)), c, r.(sched := Switching(r.sched.prev)))
    case FinishTask =>
      PutRq(PutTask(s, r.sched.prev, s.tasks[r.sched.prev].(onCpu := false)), c, r.(sched := Finishing))
    case FinishLock => PutRq(s, c, r.(lock := RqFree, sched := Outside))
    case OtherLock => PutRq(s, c, r.(lock := RqOther))
    case OtherUnlock => PutRq(s, c, r.(lock := RqFree))
  }

  function WakeNext(s: State, w: nat, step: WakeStep): State
    requires WakeEnabled(s, w, step)
  {
    var p, mask := s.wakers[w].target, s.wakers[w].mask;
    var t := s.tasks[p];
    var r := s.rqs[t.cpu];
    match step
    case WakeCurrent(_) =>
      PutPc(if t.state !! mask then s else PutTask(s, p, t.(state := RUNNING)), w, WDone)
    case WakeLockPi => PutPc(PutTask(s, p, t.(pi := PiWaker(w))), w, WLocked)
    case WakeTestState =>
      if t.state !! mask then PutPc(PutTask(s, p, t.(pi := PiFree)), w, WDone) else PutPc(s, w, WMatched)
    case WakeReadOnRq => PutPc(s, w, if t.onRq.Off? then WSpin else WRemote)
    case WakeReadRq => PutPc(s, w, WRemoteRead(t.cpu))
    case WakeLockRq =>
      var c := s.wakers[w].pc.c;
      PutPc(PutRq(s, c, s.rqs[c].(lock := RqWaker(w))), w, WRemoteHeld(c))
    case WakeRemote => RemoteNext(s, w)
    case WakeSpinDone => PutPc(s, w, WStable)
    case WakeSetWaking =>
      PutPc(PutTask(s, p, t.(contributes := ContributesToLoad(t), state := {Waking})), w, WSet)
    case WakePlace(d) => PutPc(PutTask(s, p, t.(cpu := d)), w, WPlaced)
    case WakeQueueRemote =>
      PutPc(PutRq(PutTask(s, p, t.(pi := PiFree)), t.cpu, r.(wakeList := r.wakeList + {p})), w, WDone)
    case WakeLockLocal => PutPc(PutRq(s, t.cpu, r.(lock := RqWaker(w))), w, WLocalHeld)
    case WakeActivate =>
      PutPc(ActivateOn(PutTask(s, p, t.(pi := PiFree)), t.cpu, p, r.(lock := RqFree)), w, WDone)
  }

  function IpiNext(s: State, c: nat, step: IpiStep): State
    requires IpiEnabled(s, c, step)
  {
    var r := s.rqs[c];
    match step
    case IpiTake => PutRq(s, c, r.(ipi := IpiTaken(r.wakeList), wakeList := {}))
    case IpiLock => PutRq(s, c, r.(lock := RqIpi, ipi := IpiActive(r.ipi.batch)))
    case IpiActivate(p) => ActivateOn(s, c, p, r.(ipi := IpiActive(r.ipi.batch - {p})))
    case IpiUnlock => PutRq(s, c, r.(lock := RqFree, ipi := IpiIdle))
  }

  function BirthNext(s: State, p: nat, step: BirthStep): State
    requires BirthEnabled(s, p, step)
  {
    var t := s.tasks[p];
    var r := s.rqs[t.cpu];
    match step
    case BirthLockPi => PutTask(s, p, t.(pi := PiBirth, birth := BirthLocked))
    case BirthPlace(d) => PutTask(s, p, t.(state := RUNNING, cpu := d, birth := BirthPlaced))
    case BirthLockRq => PutRq(PutTask(s, p, t.(birth := BirthHeld)), t.cpu, r.(lock := RqBirth(p)))
    case BirthActivate =>
      PutRq(PutTask(s, p, t.(onRq := Queued, pi := PiFree, birth := Born)), t.cpu,
            r.(lock := RqFree, queue := r.queue + {p}))
  }

  function MigNext(s: State, p: nat, step: MigStep): State
    requires MigEnabled(s, p, step)
  {
    var t := s.tasks[p];
    var r := s.rqs[t.cpu];
    match step
    case MigLock(counted) => PutRq(PutTask(s, p, t.(mig := MigHeld(counted))), t.cpu, r.(lock := RqMig(p)))
    case MigDetach =>
      PutRq(PutTask(s, p, t.(onRq := Migrating, mig := MigDetached(t.mig.counted))), t.cpu,
            r.(queue := r.queue - {p},
               nrUninterruptible := r.nrUninterruptible + Count(t.mig.counted && ContributesToLoad(t))))
    case MigMove(d) =>
      PutRq(PutTask(s, p, t.(cpu := d, mig := MigMoving(t.mig.counted, d))), t.cpu, r.(lock := RqFree))
    case MigLockDst =>
      var d := t.mig.dest;
      PutRq(PutTask(s, p, t.(mig := MigDst(t.mig.counted, d))), d, s.rqs[d].(lock := RqMig(p)))
    case MigAttach =>
      var q := s.rqs[t.mig.dest];
      PutRq(PutTask(s, p, t.(onRq := Queued, mig := MigIdle)), t.mig.dest,
            q.(lock := RqFree, queue := q.queue + {p},
               nrUninterruptible := q.nrUninterruptible - Count(t.mig.counted && ContributesToLoad(t))))
  }

  function Next(s: State, a: Action): State
    requires Enabled(s, a)
  {
    match a
    case ByTask(c, step) => TaskNext(s, c, step)
    case BySched(c, step) => SchedNext(s, c, step)
    case WakeCall(p, mask, signals) =>
      PutTask(s, p, s.tasks[p].(cond := s.tasks[p].cond || signals))
        .(wakers := s.wakers + [Waker(p, mask, signals, WStart)])
    case ByWaker(w, step) => WakeNext(s, w, step)
    case ByIpi(c, step) => IpiNext(s, c, step)
    case ByBirth(p, step) => BirthNext(s, p, step)
    case ByMig(p, step) => MigNext(s, p, step)
  }

  // The idle task of CPU c, which is task c at boot.
  function IdleTask(c: nat): Task {
    Task(RUNNING, false, Queued, true, c, PiFree, false, true, 0, 0, 0, Born, MigIdle, NotWaiting, {}, false)
  }

  // n CPUs, each running its idle task.
  function Boot(n: nat): State {
    State(seq(n, c requires 0 <= c => IdleTask(c)),
          seq(n, c requires 0 <= c => Rq(RqFree, c, c, {c}, {}, Outside, IpiIdle, 0, 0)), [])
  }

  // The actions can be taken in order from s and lead to z.
  ghost predicate Runs(s: State, acts: seq<Action>, z: State)
    decreases |acts|
  {
    if acts == [] then s == z
    else Enabled(s, acts[0]) && Runs(Next(s, acts[0]), acts[1..], z)
  }

  // The scheduler passes in the run that chose p.
  ghost function Dispatches(acts: seq<Action>, p: nat): int {
    if acts == [] then 0
    else Count(acts[0].BySched? && acts[0].sched == Pick(p)) + Dispatches(acts[1..], p)
  }
}
