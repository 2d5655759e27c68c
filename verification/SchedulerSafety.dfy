/**
 Safety of the scheduler over every run: where tasks are, who may move them, and
 that the scheduler's own fatal checks cannot fire.
 */
module SchedulerSafety {
  import opened Protocol
  import opened ProtocolInvariant
  import opened ProtocolSteps

  lemma Reachable(n: nat, acts: seq<Action>, z: State)
    requires Runs(Boot(n), acts, z)
    ensures Inv(z)
  {
    BootInv(n);
    RunInv(Boot(n), acts, z);
  }

  // Main result: a task is on the runqueue of its cpu when it is queued and on no other,
  // and is executed by its cpu when on_cpu is set and by no other.
  lemma OneRunqueueOneCpu(n: nat, acts: seq<Action>, z: State)
    requires Runs(Boot(n), acts, z)
    ensures forall p, c :: 0 <= p < |z.tasks| && 0 <= c < |z.rqs| ==>
              (p in z.rqs[c].queue <==> z.tasks[p].onRq.Queued? && z.tasks[p].cpu == c)
    ensures forall p, c :: 0 <= p < |z.tasks| && 0 <= c < |z.rqs| ==>
              (Executing(z.rqs[c], p) <==> z.tasks[p].onCpu && z.tasks[p].cpu == c)
    ensures forall c :: 0 <= c < |z.rqs| && z.rqs[c].sched.Outside? ==>
              z.rqs[c].curr in z.rqs[c].queue
  {
    Reachable(n, acts, z);
    forall p, c | 0 <= p < |z.tasks| && 0 <= c < |z.rqs|
      ensures p in z.rqs[c].queue <==> z.tasks[p].onRq.Queued? && z.tasks[p].cpu == c
      ensures Executing(z.rqs[c], p) <==> z.tasks[p].onCpu && z.tasks[p].cpu == c
    {
      assert TaskInv(z, p) && RqInv(z, c);
    }
    forall c | 0 <= c < |z.rqs| && z.rqs[c].sched.Outside? ensures z.rqs[c].curr in z.rqs[c].queue {
      assert RqInv(z, c) && TaskInv(z, z.rqs[c].curr);
    }
  }

  // How a step came to write a task's cpu: the checks set_task_cpu makes, and the lock it wants held.
  ghost predicate MayChangeCpu(s: State, a: Action, p: nat)
    requires p < |s.tasks| && s.tasks[p].cpu < |s.rqs|
  {
    var t := s.tasks[p];
    && !t.onCpu
    && (|| (a.ByWaker? && t.onRq.Off? && t.state == {Waking} && t.pi == PiWaker(a.w))
        || (a.ByBirth? && t.onRq.Off? && t.state == {New} && t.pi == PiBirth)
        || (a.ByMig? && t.onRq.Migrating? && s.rqs[t.cpu].lock == RqMig(p)))
  }

  lemma WakeCpu(s: State, w: nat, step: WakeStep, p: nat)
    requires Inv(s) && WakeEnabled(s, w, step) && p < |s.tasks|
    ensures TaskInv(s, p)
    ensures WakeNext(s, w, step).tasks[p].cpu != s.tasks[p].cpu ==> MayChangeCpu(s, ByWaker(w, step), p)
  {
    assert WakerInv(s, w);
    Facts(s, p);
  }

  lemma MoveCpu(s: State, q: nat, birth: BirthStep, mig: MigStep, p: nat)
    requires Inv(s) && p < |s.tasks|
    ensures TaskInv(s, p)
    ensures BirthEnabled(s, q, birth) && BirthNext(s, q, birth).tasks[p].cpu != s.tasks[p].cpu
            ==> MayChangeCpu(s, ByBirth(q, birth), p)
    ensures MigEnabled(s, q, mig) && MigNext(s, q, mig).tasks[p].cpu != s.tasks[p].cpu
            ==> MayChangeCpu(s, ByMig(q, mig), p)
  {
    Facts(s, p);
  }

  ghost predicate SameCpu(s: State, z: State, p: nat)
    requires p < |s.tasks|
  {
    p < |z.tasks| && z.tasks[p].cpu == s.tasks[p].cpu
  }

  lemma RunningCpu(s: State, c: nat, task: TaskStep, sched: SchedStep, ipi: IpiStep, p: nat)
    requires p < |s.tasks|
    ensures TaskEnabled(s, c, task) ==> SameCpu(s, TaskNext(s, c, task), p)
    ensures SchedEnabled(s, c, sched) ==> SameCpu(s, SchedNext(s, c, sched), p)
    ensures IpiEnabled(s, c, ipi) ==> SameCpu(s, IpiNext(s, c, ipi), p)
  {
  }

  // Main result: a waker changes a task's cpu only while the task is neither on a
  // runqueue nor on a CPU, and a migration only while it is marked as migrating.
  lemma CpuChanges(n: nat, acts: seq<Action>, s: State, a: Action, p: nat)
    requires Runs(Boot(n), acts, s) && Enabled(s, a) && p < |s.tasks|
    ensures s.tasks[p].cpu < |s.rqs| && p < |Next(s, a).tasks|
    ensures Next(s, a).tasks[p].cpu != s.tasks[p].cpu ==> MayChangeCpu(s, a, p)
  {
    Reachable(n, acts, s);
    assert TaskInv(s, p);
    match a
    case ByTask(c, step) => RunningCpu(s, c, step, OtherLock, IpiLock, p);
    case BySched(c, step) => RunningCpu(s, c, WaitTest, step, IpiLock, p);
    case ByIpi(c, step) => RunningCpu(s, c, WaitTest, OtherLock, step, p);
    case WakeCall(_, _, _) =>
    case ByWaker(w, step) => WakeCpu(s, w, step, p);
    case ByBirth(q, step) => MoveCpu(s, q, step, MigDetach, p);
    case ByMig(q, step) => MoveCpu(s, q, BirthLockPi, step, p);
  }

  // The fatal checks: the idle task can always be picked, and a migrated task
  // arrives at the CPU it was sent to.
  lemma NoFatalCheck(n: nat, acts: seq<Action>, z: State)
    requires Runs(Boot(n), acts, z)
    ensures forall c :: 0 <= c < |z.rqs| ==> z.rqs[c].idle in z.rqs[c].queue
    ensures forall p :: 0 <= p < |z.tasks| && z.tasks[p].mig.MigDst? ==> z.tasks[p].cpu == z.tasks[p].mig.dest
  {
    Reachable(n, acts, z);
    forall c | 0 <= c < |z.rqs| ensures z.rqs[c].idle in z.rqs[c].queue {
      assert RqInv(z, c) && TaskInv(z, z.rqs[c].idle);
    }
    forall p | 0 <= p < |z.tasks| && z.tasks[p].mig.MigDst? ensures z.tasks[p].cpu == z.tasks[p].mig.dest {
      assert TaskInv(z, p);
    }
  }

  ghost predicate Gone(s: State, p: nat) {
    p < |s.tasks| && s.tasks[p].state == {Dead} && s.tasks[p].onRq.Off?
  }

  lemma GoneWake(s: State, w: nat, step: WakeStep, p: nat)
    requires Inv(s) && WakeEnabled(s, w, step) && Gone(s, p)
    ensures Gone(WakeNext(s, w, step), p)
  {
    assert WakerInv(s, w) && Dead in s.tasks[p].state;
    if step.WakeCurrent? { assert RqInv(s, step.c); }
  }

  lemma GoneSched(s: State, c: nat, step: SchedStep, p: nat)
    requires Inv(s) && SchedEnabled(s, c, step) && Gone(s, p)
    ensures Gone(SchedNext(s, c, step), p)
  {
    assert RqInv(s, c);
  }

  lemma GoneNext(s: State, a: Action, p: nat)
    requires Inv(s) && Enabled(s, a) && Gone(s, p)
    ensures Gone(Next(s, a), p)
  {
    Facts(s, p);
    assert Dead in s.tasks[p].state;
    match a
    case ByTask(c, step) => assert RqInv(s, c);
    case BySched(c, step) => GoneSched(s, c, step, p);
    case ByWaker(w, step) => GoneWake(s, w, step, p);
    case ByIpi(c, step) => if step.IpiActivate? { assert RqInv(s, c) && Pending(s.rqs[c], step.p); }
    case _ =>
  }

  // No runqueue has such a task, and no wake_list.
  lemma GoneNowhere(s: State, p: nat)
    requires Inv(s) && Gone(s, p)
    ensures forall c :: 0 <= c < |s.rqs| ==> p !in s.rqs[c].queue && !Pending(s.rqs[c], p)
  {
    Facts(s, p);
    assert Dead in s.tasks[p].state;
    forall c | 0 <= c < |s.rqs| ensures p !in s.rqs[c].queue && !Pending(s.rqs[c], p) {
      assert RqInv(s, c);
    }
  }

  // Main result: a task that died and left its runqueue stays dead and off every runqueue and wake_list,
  // and no scheduler pass chooses it, although callers of try_to_wake_up may have read its state
  // before it died.
  lemma {:induction false} DeadStaysDead(n: nat, acts: seq<Action>, s: State, more: seq<Action>, z: State, p: nat)
    requires Runs(Boot(n), acts, s) && Runs(s, more, z) && Gone(s, p)
    ensures Gone(z, p) && Dispatches(more, p) == 0
    ensures forall c :: 0 <= c < |z.rqs| ==> p !in z.rqs[c].queue && !Pending(z.rqs[c], p)
    decreases |more|
  {
    Reachable(n, acts, s);
    GoneNowhere(s, p);
    if more != [] {
      GoneNext(s, more[0], p);
      ExtendRun(Boot(n), acts, s, more[0]);
      DeadStaysDead(n, acts + [more[0]], Next(s, more[0]), more[1..], z, p);
    }
  }

  lemma {:induction false} ExtendRun(b: State, acts: seq<Action>, s: State, a: Action)
    requires Runs(b, acts, s) && Enabled(s, a)
    ensures Runs(b, acts + [a], Next(s, a))
    decreases |acts|
  {
    if acts == [] {
      assert [a][1..] == [];
      assert Runs(Next(s, a), [], Next(s, a));
    } else {
      ExtendRun(Next(b, acts[0]), acts[1..], s, a);
      assert (acts + [a])[1..] == acts[1..] + [a];
    }
  }
}
