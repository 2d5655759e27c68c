/**
 Wakeups do what they were asked to and no more: a mask that misses a task's state
 leaves the task alone, and a task that is moved arrives where it was sent.
 */
module WakeMasks {
  import opened Protocol
  import opened ProtocolInvariant
  import opened ProtocolSteps

  // ---- Masks ----

  // The wakeup, if it is of p, has returned, or has yet to test p's state and looks for other states.
  ghost predicate Misses(s: State, p: nat, bits: set<Bit>, w: nat)
    requires w < |s.wakers|
  {
    var x := s.wakers[w];
    x.target == p ==> x.pc.WDone? || ((x.pc.WStart? || x.pc.WLocked?) && x.mask !! bits)
  }

  // p is in a state that no wakeup of it looks for.
  ghost predicate Unsought(s: State, p: nat, bits: set<Bit>) {
    && p < |s.tasks| && s.tasks[p].state == bits && bits !! {Waking, New} && bits != RUNNING
    && forall w :: 0 <= w < |s.wakers| ==> Misses(s, p, bits, w)
  }

  // No wakeup of p is called for one of these bits.
  ghost predicate CallsMiss(acts: seq<Action>, p: nat, bits: set<Bit>) {
    forall k :: 0 <= k < |acts| && acts[k].WakeCall? && acts[k].p == p ==> acts[k].mask !! bits
  }

  // The running task sets its own state, or finds its condition set, or a signal keeps it from sleeping.
  ghost predicate OwnChange(s: State, a: Action, p: nat) {
    && (a.ByTask? || a.BySched?) && HasCurrent(s, a.c) && s.rqs[a.c].curr == p
    && (a.ByTask? ==>
          a.task.SetState? || a.task.SetSpecialState? || a.task.WaitAnnounce? || (a.task.WaitTest? && s.tasks[p].cond))
    && (a.BySched? ==> a.sched == SchedDecide(true))
  }

  lemma UnsoughtByWaker(s: State, v: nat, step: WakeStep, p: nat, bits: set<Bit>)
    requires Inv(s) && WakeEnabled(s, v, step) && Unsought(s, p, bits)
    ensures Unsought(WakeNext(s, v, step), p, bits)
    ensures WakeNext(s, v, step).tasks[p].onRq == s.tasks[p].onRq || s.wakers[v].target != p
  {
    assert Misses(s, p, bits, v) && WakerInv(s, v);
    forall w | 0 <= w < |s.wakers| ensures Misses(WakeNext(s, v, step), p, bits, w) {
      assert Misses(s, p, bits, w);
    }
  }

  lemma SameCalls(s: State, z: State, p: nat, bits: set<Bit>)
    requires Unsought(s, p, bits) && z.wakers == s.wakers && p < |z.tasks| && z.tasks[p].state == bits
    ensures Unsought(z, p, bits)
  {
    forall w | 0 <= w < |z.wakers| ensures Misses(z, p, bits, w) {
      assert Misses(s, p, bits, w);
    }
  }

  lemma UnsoughtByCall(s: State, q: nat, mask: set<Bit>, signals: bool, p: nat, bits: set<Bit>)
    requires Enabled(s, WakeCall(q, mask, signals)) && Unsought(s, p, bits) && (q == p ==> mask !! bits)
    ensures Unsought(Next(s, WakeCall(q, mask, signals)), p, bits)
  {
    var z := Next(s, WakeCall(q, mask, signals));
    forall w | 0 <= w < |z.wakers| ensures Misses(z, p, bits, w) {
      if w < |s.wakers| { assert Misses(s, p, bits, w); }
    }
  }

  lemma UnsoughtBySched(s: State, c: nat, step: SchedStep, p: nat, bits: set<Bit>)
    requires SchedEnabled(s, c, step) && Unsought(s, p, bits) && !OwnChange(s, BySched(c, step), p)
    ensures Unsought(SchedNext(s, c, step), p, bits)
  {
    SameCalls(s, SchedNext(s, c, step), p, bits);
  }

  lemma UnsoughtByIpi(s: State, c: nat, step: IpiStep, p: nat, bits: set<Bit>)
    requires Inv(s) && IpiEnabled(s, c, step) && Unsought(s, p, bits)
    ensures Unsought(IpiNext(s, c, step), p, bits)
  {
    assert RqInv(s, c);
    if step.IpiActivate? { assert Pending(s.rqs[c], step.p) && PendingInv(s, c, step.p) && Waking in {Waking}; }
    SameCalls(s, IpiNext(s, c, step), p, bits);
  }

  lemma UnsoughtByMove(s: State, q: nat, birth: BirthStep, mig: MigStep, p: nat, bits: set<Bit>)
    requires Inv(s) && Unsought(s, p, bits)
    ensures BirthEnabled(s, q, birth) ==> Unsought(BirthNext(s, q, birth), p, bits)
    ensures MigEnabled(s, q, mig) ==> Unsought(MigNext(s, q, mig), p, bits)
  {
    assert TaskInv(s, p);
    if BirthEnabled(s, q, birth) { SameCalls(s, BirthNext(s, q, birth), p, bits); }
    if MigEnabled(s, q, mig) { SameCalls(s, MigNext(s, q, mig), p, bits); }
  }

  lemma UnsoughtNext(s: State, a: Action, p: nat, bits: set<Bit>)
    requires Inv(s) && Enabled(s, a) && Unsought(s, p, bits) && !OwnChange(s, a, p) && CallsMiss([a], p, bits)
    ensures Unsought(Next(s, a), p, bits)
  {
    match a
    case ByTask(c, step) => SameCalls(s, TaskNext(s, c, step), p, bits);
    case BySched(c, step) => UnsoughtBySched(s, c, step, p, bits);
    case WakeCall(q, mask, signals) =>
      assert [a][0] == a;
      UnsoughtByCall(s, q, mask, signals, p, bits);
    case ByWaker(w, step) => UnsoughtByWaker(s, w, step, p, bits);
    case ByIpi(c, step) => UnsoughtByIpi(s, c, step, p, bits);
    case ByBirth(q, step) => UnsoughtByMove(s, q, step, MigDetach, p, bits);
    case ByMig(q, step) => UnsoughtByMove(s, q, BirthLockPi, step, p, bits);
  }

  // A task off its runqueue does nothing by itself.
  lemma AsleepNext(s: State, a: Action, p: nat, bits: set<Bit>)
    requires Inv(s) && Enabled(s, a) && Unsought(s, p, bits) && s.tasks[p].onRq.Off? && CallsMiss([a], p, bits)
    ensures Unsought(Next(s, a), p, bits) && Next(s, a).tasks[p].onRq.Off?
  {
    Facts(s, p);
    if a.ByTask? || a.BySched? { assert RqInv(s, a.c); }
    assert !OwnChange(s, a, p);
    UnsoughtNext(s, a, p, bits);
    StaysOff(s, a, p, bits);
  }

  lemma StaysOffByAgents(s: State, c: nat, task: TaskStep, sched: SchedStep, p: nat)
    requires p < |s.tasks| && s.tasks[p].onRq.Off?
    ensures TaskEnabled(s, c, task) ==> p < |TaskNext(s, c, task).tasks| && TaskNext(s, c, task).tasks[p].onRq.Off?
    ensures SchedEnabled(s, c, sched) ==>
              p < |SchedNext(s, c, sched).tasks| && SchedNext(s, c, sched).tasks[p].onRq.Off?
  {
  }

  lemma StaysOffByMove(s: State, q: nat, birth: BirthStep, mig: MigStep, p: nat, bits: set<Bit>)
    requires Inv(s) && Unsought(s, p, bits) && s.tasks[p].onRq.Off?
    ensures BirthEnabled(s, q, birth) ==> BirthNext(s, q, birth).tasks[p].onRq.Off?
    ensures MigEnabled(s, q, mig) ==> MigNext(s, q, mig).tasks[p].onRq.Off?
  {
    assert TaskInv(s, p);
  }

  lemma StaysOff(s: State, a: Action, p: nat, bits: set<Bit>)
    requires Inv(s) && Enabled(s, a) && Unsought(s, p, bits) && s.tasks[p].onRq.Off?
    ensures p < |Next(s, a).tasks| && Next(s, a).tasks[p].onRq.Off?
  {
    match a
    case ByTask(c, step) => StaysOffByAgents(s, c, step, OtherLock, p);
    case BySched(c, step) => StaysOffByAgents(s, c, WaitTest, step, p);
    case WakeCall(_, _, _) =>
    case ByWaker(w, step) => UnsoughtByWaker(s, w, step, p, bits);
    case ByIpi(c, step) =>
      assert RqInv(s, c);
      if step.IpiActivate? { assert Pending(s.rqs[c], step.p) && PendingInv(s, c, step.p) && Waking in {Waking}; }
    case ByBirth(q, step) => StaysOffByMove(s, q, step, MigDetach, p, bits);
    case ByMig(q, step) => StaysOffByMove(s, q, BirthLockPi, step, p, bits);
  }

  lemma {:induction false} RunAsleep(s: State, acts: seq<Action>, z: State, p: nat, bits: set<Bit>)
    requires Inv(s) && Runs(s, acts, z) && CallsMiss(acts, p, bits) && Unsought(s, p, bits) && s.tasks[p].onRq.Off?
    ensures Inv(z) && Unsought(z, p, bits) && z.tasks[p].onRq.Off?
    decreases |acts|
  {
    if acts != [] {
      assert [acts[0]][0] == acts[0];
      NextInv(s, acts[0]);
      AsleepNext(s, acts[0], p, bits);
      RunAsleep(Next(s, acts[0]), acts[1..], z, p, bits);
    }
  }

  // Main result: a sleeper in a state that no wakeup of it in flight looks for, nor any made later, sleeps on
  // in that state, off its runqueue and on no wake_list, in every continuation of every run.
  lemma MaskRespected(n: nat, acts: seq<Action>, s: State, more: seq<Action>, z: State, p: nat, bits: set<Bit>)
    requires Runs(Boot(n), acts, s) && Runs(s, more, z) && CallsMiss(more, p, bits)
    requires Unsought(s, p, bits) && s.tasks[p].onRq.Off?
    ensures p < |z.tasks| && z.tasks[p].state == bits && z.tasks[p].onRq.Off?
    ensures forall c :: 0 <= c < |z.rqs| ==> p !in z.rqs[c].queue && !Pending(z.rqs[c], p)
  {
    BootInv(n);
    RunInv(Boot(n), acts, s);
    RunAsleep(s, more, z, p, bits);
    Facts(z, p);
    assert Waking in {Waking};
    forall c | 0 <= c < |z.rqs| ensures p !in z.rqs[c].queue && !Pending(z.rqs[c], p) {
      assert RqInv(z, c);
    }
  }

  ghost predicate NoOwnChange(s: State, acts: seq<Action>, p: nat)
    decreases |acts|
  {
    acts != [] ==> Enabled(s, acts[0]) && !OwnChange(s, acts[0], p) && NoOwnChange(Next(s, acts[0]), acts[1..], p)
  }

  // The same of a task that runs or is queued: as long as it does not set its state itself and no signal
  // does, wakeups that look for other states leave its state alone, those of the task's own CPU included.
  lemma {:induction false} StateRespected(s: State, acts: seq<Action>, z: State, p: nat, bits: set<Bit>)
    requires Inv(s) && Runs(s, acts, z) && CallsMiss(acts, p, bits) && NoOwnChange(s, acts, p) && Unsought(s, p, bits)
    ensures Unsought(z, p, bits)
    decreases |acts|
  {
    if acts != [] {
      assert [acts[0]][0] == acts[0];
      NextInv(s, acts[0]);
      UnsoughtNext(s, acts[0], p, bits);
      StateRespected(Next(s, acts[0]), acts[1..], z, p, bits);
    }
  }

  // ---- Awake until it decides otherwise ----

  ghost predicate Awake(s: State, p: nat) {
    p < |s.tasks| && s.tasks[p].state == RUNNING && !s.tasks[p].onRq.Off?
  }

  lemma AwakeByWaker(s: State, w: nat, step: WakeStep, p: nat)
    requires Inv(s) && WakeEnabled(s, w, step) && Awake(s, p)
    ensures Awake(WakeNext(s, w, step), p)
  {
    assert WakerInv(s, w);
  }

  lemma AwakeByAgents(s: State, c: nat, task: TaskStep, sched: SchedStep, p: nat)
    requires Awake(s, p)
    ensures TaskEnabled(s, c, task) && !OwnChange(s, ByTask(c, task), p) ==> Awake(TaskNext(s, c, task), p)
    ensures SchedEnabled(s, c, sched) ==> Awake(SchedNext(s, c, sched), p)
  {
  }

  lemma AwakeByMove(s: State, q: nat, birth: BirthStep, mig: MigStep, p: nat)
    requires Awake(s, p)
    ensures BirthEnabled(s, q, birth) ==> Awake(BirthNext(s, q, birth), p)
    ensures MigEnabled(s, q, mig) ==> Awake(MigNext(s, q, mig), p)
  {
  }

  lemma AwakeNext(s: State, a: Action, p: nat)
    requires Inv(s) && Enabled(s, a) && Awake(s, p) && !OwnChange(s, a, p)
    ensures Awake(Next(s, a), p)
  {
    match a
    case ByTask(c, step) => AwakeByAgents(s, c, step, OtherLock, p);
    case BySched(c, step) => AwakeByAgents(s, c, WaitReturn, step, p);
    case WakeCall(_, _, _) =>
    case ByWaker(w, step) => AwakeByWaker(s, w, step, p);
    case ByIpi(_, _) =>
    case ByBirth(q, step) => AwakeByMove(s, q, step, MigDetach, p);
    case ByMig(q, step) => AwakeByMove(s, q, BirthLockPi, step, p);
  }

  lemma {:induction false} RunAwake(s: State, acts: seq<Action>, z: State, p: nat)
    requires Inv(s) && Runs(s, acts, z) && NoOwnChange(s, acts, p) && Awake(s, p)
    ensures Awake(z, p)
    decreases |acts|
  {
    if acts != [] {
      NextInv(s, acts[0]);
      AwakeNext(s, acts[0], p);
      RunAwake(Next(s, acts[0]), acts[1..], z, p);
    }
  }

  // Main result: a task that finds its condition set, or is activated by a wakeup, is runnable and on a runqueue
  // or between two until it sets its own state again.
  lemma StaysAwake(n: nat, acts: seq<Action>, s: State, a: Action, p: nat, more: seq<Action>, z: State)
    requires Runs(Boot(n), acts, s) && Enabled(s, a)
    requires || (a.ByTask? && a.task.WaitTest? && s.rqs[a.c].curr == p && s.tasks[p].cond)
             || (a.ByIpi? && a.ipi == IpiActivate(p))
             || (a.ByWaker? && a.wake.WakeActivate? && s.wakers[a.w].target == p)
    requires Runs(Next(s, a), more, z) && NoOwnChange(Next(s, a), more, p)
    ensures p < |z.tasks| && z.tasks[p].state == RUNNING && !z.tasks[p].onRq.Off?
  {
    BootInv(n);
    RunInv(Boot(n), acts, s);
    NextInv(s, a);
    if a.ByTask? { assert RqInv(s, a.c); }
    RunAwake(Next(s, a), more, z, p);
  }

  // ---- Arriving where sent ----

  // p is on its way to CPU d: placed there by its waker or its parent, on d's wake_list, or moved there by a
  // migration.
  ghost predicate Headed(s: State, p: nat, d: nat) {
    p < |s.tasks| && d < |s.rqs| &&
    var t := s.tasks[p];
    && t.cpu == d && !t.onRq.Queued?
    && (|| (t.state == {Waking}
            && (|| Pending(s.rqs[d], p)
                || (&& t.pi.PiWaker? && t.pi.w < |s.wakers|
                    && (s.wakers[t.pi.w].pc.WPlaced? || s.wakers[t.pi.w].pc.WLocalHeld?))))
        || t.mig.MigMoving? || t.mig.MigDst? || t.birth.BirthPlaced? || t.birth.BirthHeld?)
  }

  ghost predicate Arrived(s: State, p: nat, d: nat) {
    p < |s.tasks| && d < |s.rqs| && s.tasks[p].cpu == d && s.tasks[p].onRq.Queued? && p in s.rqs[d].queue
  }

  lemma HeadedByOther(s: State, v: nat, step: WakeStep, p: nat, d: nat)
    requires Inv(s) && WakeEnabled(s, v, step) && Headed(s, p, d) && s.wakers[v].target != p
    ensures Headed(WakeNext(s, v, step), p, d)
  {
    assert TaskInv(s, p);
  }

  lemma HeadedByWaker(s: State, v: nat, step: WakeStep, p: nat, d: nat)
    requires Inv(s) && WakeEnabled(s, v, step) && Headed(s, p, d) && s.wakers[v].target == p
    ensures Headed(WakeNext(s, v, step), p, d) || Arrived(WakeNext(s, v, step), p, d)
  {
    assert WakerInv(s, v);
    Facts(s, p);
    assert Waking in {Waking};
  }

  lemma HeadedByIpi(s: State, c: nat, step: IpiStep, p: nat, d: nat)
    requires Inv(s) && IpiEnabled(s, c, step) && Headed(s, p, d)
    ensures Headed(IpiNext(s, c, step), p, d) || Arrived(IpiNext(s, c, step), p, d)
  {
    assert RqInv(s, c) && TaskInv(s, p);
    if step.IpiActivate? { assert Pending(s.rqs[c], step.p) && PendingInv(s, c, step.p); }
  }

  lemma HeadedByMove(s: State, q: nat, birth: BirthStep, mig: MigStep, p: nat, d: nat)
    requires Inv(s) && Headed(s, p, d)
    ensures BirthEnabled(s, q, birth) ==> Headed(BirthNext(s, q, birth), p, d) || Arrived(BirthNext(s, q, birth), p, d)
    ensures MigEnabled(s, q, mig) ==> Headed(MigNext(s, q, mig), p, d) || Arrived(MigNext(s, q, mig), p, d)
  {
    Facts(s, p);
    assert Waking in {Waking};
  }

  lemma HeadedByTask(s: State, c: nat, step: TaskStep, p: nat, d: nat)
    requires Inv(s) && Headed(s, p, d) && TaskEnabled(s, c, step)
    ensures Headed(TaskNext(s, c, step), p, d)
  {
    assert RqInv(s, c);
  }

  lemma HeadedBySched(s: State, c: nat, step: SchedStep, p: nat, d: nat)
    requires Inv(s) && Headed(s, p, d) && SchedEnabled(s, c, step)
    ensures Headed(SchedNext(s, c, step), p, d)
  {
    assert RqInv(s, c);
  }

  lemma HeadedNext(s: State, a: Action, p: nat, d: nat)
    requires Inv(s) && Enabled(s, a) && Headed(s, p, d)
    ensures Headed(Next(s, a), p, d) || Arrived(Next(s, a), p, d)
  {
    match a
    case ByTask(c, step) => HeadedByTask(s, c, step, p, d);
    case BySched(c, step) => HeadedBySched(s, c, step, p, d);
    case WakeCall(_, _, _) =>
    case ByWaker(w, step) =>
      if s.wakers[w].target == p { HeadedByWaker(s, w, step, p, d); } else { HeadedByOther(s, w, step, p, d); }
    case ByIpi(c, step) => HeadedByIpi(s, c, step, p, d);
    case ByBirth(q, step) => HeadedByMove(s, q, step, MigDetach, p, d);
    case ByMig(q, step) => HeadedByMove(s, q, BirthLockPi, step, p, d);
  }

  // p is on no runqueue before the last state of the run.
  ghost predicate UnqueuedAlong(s: State, acts: seq<Action>, p: nat)
    decreases |acts|
  {
    acts != [] ==>
      p < |s.tasks| && !s.tasks[p].onRq.Queued? && Enabled(s, acts[0]) && UnqueuedAlong(Next(s, acts[0]), acts[1..], p)
  }

  lemma {:induction false} RunHeaded(s: State, acts: seq<Action>, z: State, p: nat, d: nat)
    requires Inv(s) && Runs(s, acts, z) && UnqueuedAlong(s, acts, p) && (Headed(s, p, d) || Arrived(s, p, d))
    ensures Headed(z, p, d) || Arrived(z, p, d)
    decreases |acts|
  {
    if acts != [] {
      NextInv(s, acts[0]);
      HeadedNext(s, acts[0], p, d);
      RunHeaded(Next(s, acts[0]), acts[1..], z, p, d);
    }
  }

  // Main result: a task that its waker or its parent places on CPU d, or that a migration moves to d, is on its
  // way to d in every later state until it is queued again, and that is on d.
  lemma ArrivesWhereSent(n: nat, acts: seq<Action>, s: State, a: Action, p: nat, d: nat, more: seq<Action>, z: State)
    requires Runs(Boot(n), acts, s) && Enabled(s, a)
    requires || (a.ByWaker? && a.wake == WakePlace(d) && s.wakers[a.w].target == p)
             || a == ByMig(p, MigMove(d)) || a == ByBirth(p, BirthPlace(d))
    requires Runs(Next(s, a), more, z) && UnqueuedAlong(Next(s, a), more, p)
    ensures p < |z.tasks| && d < |z.rqs| && z.tasks[p].cpu == d
    ensures z.tasks[p].onRq.Queued? ==> p in z.rqs[d].queue
  {
    BootInv(n);
    RunInv(Boot(n), acts, s);
    Facts(s, p);
    if a.ByWaker? { assert WakerInv(s, a.w); }
    NextInv(s, a);
    RunHeaded(Next(s, a), more, z, p, d);
  }
}
