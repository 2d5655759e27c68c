/**
 Every action of the wakeup protocol preserves the invariant.
 */
module ProtocolSteps {
  import opened Protocol
  import opened ProtocolInvariant

  // ---- __schedule ----

  // A step that only moves the lock and the scheduler's place in it.
  lemma LockStepInv(s: State, c: nat, r: Rq)
    requires Inv(s) && c < |s.rqs|
    requires r == s.rqs[c].(lock := r.lock, sched := r.sched)
    requires s.rqs[c].lock.RqFree? || s.rqs[c].lock.RqOther? || s.rqs[c].lock.RqScheduler?
    requires LockHeld(r.sched) ==> r.lock.RqScheduler?
    requires !s.rqs[c].sched.Picked? && !s.rqs[c].sched.Switching? && !r.sched.Picked? && !r.sched.Switching?
    requires s.rqs[c].sched.Picking? || s.rqs[c].sched.Balancing? ==>
               (r.sched.Picking? || r.sched.Balancing?) && r.sched.voluntary == s.rqs[c].sched.voluntary
    ensures Inv(PutRq(s, c, r))
  {
    assert RqInv(s, c);
    Facts(s, s.rqs[c].curr);
    FrameInv(s, PutRq(s, c, r), s.rqs[c].curr, c, |s.wakers|);
  }

  lemma DeactivateInv(s: State, c: nat, r: Rq)
    requires Inv(s) && HasCurrent(s, c) && s.rqs[c].sched.Deciding? && Current(s, c).state != RUNNING
    requires r == s.rqs[c].(sched := Picking(true), queue := s.rqs[c].queue - {s.rqs[c].curr},
                            nrUninterruptible := r.nrUninterruptible)
    ensures Inv(PutRq(PutTask(s, s.rqs[c].curr, Deactivated(Current(s, c))), c, r))
  {
    var p := s.rqs[c].curr;
    assert RqInv(s, c);
    Facts(s, p);
    FrameInv(s, PutRq(PutTask(s, p, Deactivated(s.tasks[p])), c, r), p, c, |s.wakers|);
  }

  lemma InterruptedInv(s: State, c: nat)
    requires Inv(s) && HasCurrent(s, c) && s.rqs[c].sched.Deciding?
    ensures Inv(PutRq(PutTask(s, s.rqs[c].curr, Current(s, c).(state := RUNNING)), c,
                      s.rqs[c].(sched := Picking(true))))
  {
    var p := s.rqs[c].curr;
    assert RqInv(s, c);
    Facts(s, p);
    FrameInv(s, PutRq(PutTask(s, p, s.tasks[p].(state := RUNNING)), c, s.rqs[c].(sched := Picking(true))),
             p, c, |s.wakers|);
  }

  // Picking another task than the running one.
  lemma SwitchTouches(s: State, c: nat, next: nat)
    requires Inv(s) && SchedEnabled(s, c, Pick(next)) && next != s.rqs[c].curr
    ensures Touches(s, PickNext(s, c, next), next, c, |s.wakers|)
  {
    assert RqInv(s, c) && TaskInv(s, next) && TaskInv(s, s.rqs[c].curr);
  }

  lemma SwitchInv(s: State, c: nat, next: nat)
    requires Inv(s) && SchedEnabled(s, c, Pick(next)) && next != s.rqs[c].curr
    ensures Inv(PickNext(s, c, next))
  {
    SwitchTouches(s, c, next);
    assert RqInv(s, c);
    Facts(s, next);
    assert TaskInv(s, s.rqs[c].curr);
    FrameInv(s, PickNext(s, c, next), next, c, |s.wakers|);
  }

  // Picking the running task again.
  lemma RepickInv(s: State, c: nat, next: nat)
    requires Inv(s) && SchedEnabled(s, c, Pick(next)) && next == s.rqs[c].curr
    ensures Inv(PickNext(s, c, next))
  {
    assert RqInv(s, c);
    Facts(s, next);
    FrameInv(s, PickNext(s, c, next), next, c, |s.wakers|);
  }

  lemma PrepareInv(s: State, c: nat, r: Rq)
    requires Inv(s) && HasCurrent(s, c) && s.rqs[c].sched.Picked?
    requires r == s.rqs[c].(sched := Switching(s.rqs[c].sched.prev))
    ensures Inv(PutRq(PutTask(s, r.curr, s.tasks[r.curr].(onCpu := true)), c, r))
  {
    assert RqInv(s, c);
    Facts(s, r.curr);
    FrameInv(s, PutRq(PutTask(s, r.curr, s.tasks[r.curr].(onCpu := true)), c, r), r.curr, c, |s.wakers|);
  }

  lemma FinishInv(s: State, c: nat, p: nat)
    requires Inv(s) && c < |s.rqs| && p < |s.tasks| && s.rqs[c].sched == Switching(p)
    ensures Inv(PutRq(PutTask(s, p, s.tasks[p].(onCpu := false)), c, s.rqs[c].(sched := Finishing)))
  {
    assert RqInv(s, c);
    Facts(s, p);
    FrameInv(s, PutRq(PutTask(s, p, s.tasks[p].(onCpu := false)), c, s.rqs[c].(sched := Finishing)),
             p, c, |s.wakers|);
  }

  lemma SchedInv(s: State, c: nat, step: SchedStep)
    requires Inv(s) && SchedEnabled(s, c, step)
    ensures Inv(SchedNext(s, c, step))
  {
    assert RqInv(s, c);
    match step
    case SchedDecide(signal) =>
      if s.rqs[c].sched.preempt || Current(s, c).state == RUNNING {
        LockStepInv(s, c, s.rqs[c].(sched := Picking(false)));
      } else if signal {
        InterruptedInv(s, c);
      } else {
        DeactivateInv(s, c, DecideNext(s, c, signal).rqs[c]);
      }
    case Pick(next) => if next == s.rqs[c].curr { RepickInv(s, c, next); } else { SwitchInv(s, c, next); }
    case PrepareTask => PrepareInv(s, c, s.rqs[c].(sched := Switching(s.rqs[c].sched.prev)));
    case FinishTask => FinishInv(s, c, s.rqs[c].sched.prev);
    case _ => LockStepInv(s, c, SchedNext(s, c, step).rqs[c]);
  }

  // ---- The running task ----

  // The running task rewrites its own state, flags and place in the wait loop.
  lemma SelfStepInv(s: State, c: nat, t: Task)
    requires Inv(s) && HasCurrent(s, c) && s.rqs[c].sched.Outside?
    requires t == Current(s, c).(state := t.state, frozen := t.frozen, wait := t.wait, waitBits := t.waitBits,
                                 cond := t.cond)
    requires t.waitBits !! RESERVED
    requires Waking !in t.state && New !in t.state && (Dead in t.state ==> t.state == {Dead})
    requires Dead in t.state ==> t.pi.PiFree?
    requires t.idle ==> t.state == RUNNING && t.wait.NotWaiting?
    requires !t.wait.NotWaiting? ==> t.state == RUNNING || t.state == t.waitBits
    ensures Inv(PutTask(s, s.rqs[c].curr, t))
  {
    assert RqInv(s, c);
    Facts(s, s.rqs[c].curr);
    FrameInv(s, PutTask(s, s.rqs[c].curr, t), s.rqs[c].curr, c, |s.wakers|);
  }

  // A new task appended to the table.
  lemma ForkInv(s: State, c: nat)
    requires Inv(s) && c < |s.rqs|
    ensures Inv(s.(tasks := s.tasks + [NewTask(c)]))
  {
    var z := s.(tasks := s.tasks + [NewTask(c)]);
    forall p | 0 <= p < |z.tasks| ensures TaskInv(z, p) {
      assert RqInv(s, c);
      if p < |s.tasks| { assert TaskInv(s, p); }
    }
    forall d | 0 <= d < |z.rqs| ensures RqInv(z, d) {
      assert RqInv(s, d);
      forall q | Pending(s.rqs[d], q) ensures PendingInv(z, d, q) { assert PendingInv(s, d, q); }
    }
    forall w | 0 <= w < |z.wakers| ensures WakerInv(z, w) {
      assert WakerInv(s, w);
    }
  }

  lemma TaskStepInv(s: State, c: nat, step: TaskStep)
    requires Inv(s) && TaskEnabled(s, c, step)
    ensures Inv(TaskNext(s, c, step))
  {
    assert RqInv(s, c) && TaskInv(s, s.rqs[c].curr);
    if step.Fork? {
      ForkInv(s, c);
    } else {
      SelfStepInv(s, c, TaskNext(s, c, step).tasks[s.rqs[c].curr]);
    }
  }

  // ---- try_to_wake_up ----

  lemma WakeCallInv(s: State, p: nat, mask: set<Bit>, signals: bool)
    requires Inv(s) && Enabled(s, WakeCall(p, mask, signals))
    ensures Inv(Next(s, WakeCall(p, mask, signals)))
  {
    var z := Next(s, WakeCall(p, mask, signals));
    forall q | 0 <= q < |z.tasks| ensures TaskInv(z, q) {
      assert TaskInv(s, q);
    }
    forall d | 0 <= d < |z.rqs| ensures RqInv(z, d) {
      assert RqInv(s, d);
      forall q | Pending(s.rqs[d], q) ensures PendingInv(z, d, q) { assert PendingInv(s, d, q) && TaskInv(s, q); }
    }
    forall w | 0 <= w < |z.wakers| ensures WakerInv(z, w) {
      if w < |s.wakers| { assert WakerInv(s, w); } else { assert TaskInv(s, p); }
    }
  }

  // A step that only reads.
  lemma ReadStepInv(s: State, w: nat, pc: WakePc)
    requires Inv(s) && w < |s.wakers| && s.wakers[w].target < |s.tasks|
    requires HoldsPi(s.wakers[w].pc) && !Carrying(s.wakers[w].pc) && !s.wakers[w].pc.WRemoteHeld?
    requires Matched(pc) && !Carrying(pc) && !pc.WRemoteHeld?
    requires s.tasks[s.wakers[w].target].state !! RESERVED
    requires pc.WSpin? || pc.WStable? ==> s.tasks[s.wakers[w].target].onRq.Off?
    requires pc.WStable? ==> !s.tasks[s.wakers[w].target].onCpu
    requires pc.WRemoteRead? ==> pc.c < |s.rqs|
    ensures Inv(PutPc(s, w, pc))
  {
    var p := s.wakers[w].target;
    assert WakerInv(s, w);
    Facts(s, p);
    FrameInv(s, PutPc(s, w, pc), p, s.tasks[p].cpu, w);
  }

  // Taking or leaving a runqueue lock while holding the pi_lock.
  lemma WakerLockTouched(s: State, w: nat, c: nat, lock: RqHolder, pc: WakePc)
    requires Inv(s) && w < |s.wakers| && c < |s.rqs| && s.wakers[w].target < |s.tasks|
    requires s.rqs[c].lock == RqFree || s.rqs[c].lock == RqWaker(w)
    requires lock == RqFree || lock == RqWaker(w)
    requires Matched(s.wakers[w].pc) && Matched(pc)
    requires Carrying(s.wakers[w].pc) <==> Carrying(pc)
    requires pc.WRemoteHeld? ==> pc.c == c && lock == RqWaker(w)
    requires pc.WLocalHeld? ==> c == s.tasks[s.wakers[w].target].cpu && lock == RqWaker(w)
    requires !pc.WRemoteRead? && !pc.WStable?
    requires pc.WSpin? ==> s.tasks[s.wakers[w].target].onRq.Off?
    ensures TouchedOk(s, PutPc(PutRq(s, c, s.rqs[c].(lock := lock)), w, pc), s.wakers[w].target, c, w)
  {
    assert WakerInv(s, w) && RqInv(s, c);
    Facts(s, s.wakers[w].target);
  }

  lemma WakerLockInv(s: State, w: nat, c: nat, lock: RqHolder, pc: WakePc)
    requires Inv(s) && w < |s.wakers| && c < |s.rqs| && s.wakers[w].target < |s.tasks|
    requires s.rqs[c].lock == RqFree || s.rqs[c].lock == RqWaker(w)
    requires lock == RqFree || lock == RqWaker(w)
    requires Matched(s.wakers[w].pc) && Matched(pc)
    requires Carrying(s.wakers[w].pc) <==> Carrying(pc)
    requires pc.WRemoteHeld? ==> pc.c == c && lock == RqWaker(w)
    requires pc.WLocalHeld? ==> c == s.tasks[s.wakers[w].target].cpu && lock == RqWaker(w)
    requires !pc.WRemoteRead? && !pc.WStable?
    requires pc.WSpin? ==> s.tasks[s.wakers[w].target].onRq.Off?
    ensures Inv(PutPc(PutRq(s, c, s.rqs[c].(lock := lock)), w, pc))
  {
    var p := s.wakers[w].target;
    WakerLockTouched(s, w, c, lock, pc);
    assert WakerInv(s, w) && TaskInv(s, p);
    FrameInv(s, PutPc(PutRq(s, c, s.rqs[c].(lock := lock)), w, pc), p, c, w);
  }

  // Taking the pi_lock, or giving it up without a wakeup.
  lemma PiLockInv(s: State, w: nat, pi: PiHolder, pc: WakePc)
    requires Inv(s) && w < |s.wakers| && s.wakers[w].target < |s.tasks|
    requires || (s.wakers[w].pc.WStart? && s.tasks[s.wakers[w].target].pi.PiFree? && pc.WLocked? && pi == PiWaker(w))
             || (s.wakers[w].pc.WLocked? && pc.WDone? && pi == PiFree)
    ensures Inv(PutPc(PutTask(s, s.wakers[w].target, s.tasks[s.wakers[w].target].(pi := pi)), w, pc))
  {
    var p := s.wakers[w].target;
    assert WakerInv(s, w);
    Facts(s, p);
    FrameInv(s, PutPc(PutTask(s, p, s.tasks[p].(pi := pi)), w, pc), p, s.tasks[p].cpu, w);
  }

  // A wakeup that ends without touching the task.
  lemma EndInv(s: State, w: nat)
    requires Inv(s) && w < |s.wakers| && s.wakers[w].pc.WStart?
    ensures Inv(PutPc(s, w, WDone))
  {
    assert WakerInv(s, w);
    var p := s.wakers[w].target;
    Facts(s, p);
    FrameInv(s, PutPc(s, w, WDone), p, s.tasks[p].cpu, w);
  }

  // ttwu_remote on a queued task.
  lemma RemoteWakeTouches(s: State, z: State, w: nat, p: nat, c: nat)
    requires Inv(s) && w < |s.wakers| && p < |s.tasks| && c < |s.rqs|
    requires s.wakers[w].target == p && s.wakers[w].pc == WRemoteHeld(c) && s.tasks[p].cpu == c
    requires z == PutPc(PutTask(PutRq(s, c, s.rqs[c].(lock := RqFree)),
                                p, s.tasks[p].(state := RUNNING, pi := PiFree)), w, WDone)
    ensures Touches(s, z, p, c, w)
  {
    assert WakerInv(s, w);
  }

  lemma RemoteWakeInv(s: State, w: nat, p: nat, c: nat)
    requires Inv(s) && w < |s.wakers| && p < |s.tasks| && c < |s.rqs|
    requires s.wakers[w].target == p && s.wakers[w].pc == WRemoteHeld(c)
    requires s.tasks[p].cpu == c && s.tasks[p].onRq.Queued?
    ensures Inv(PutPc(PutTask(PutRq(s, c, s.rqs[c].(lock := RqFree)),
                              p, s.tasks[p].(state := RUNNING, pi := PiFree)), w, WDone))
  {
    var z := PutPc(PutTask(PutRq(s, c, s.rqs[c].(lock := RqFree)),
                           p, s.tasks[p].(state := RUNNING, pi := PiFree)), w, WDone);
    assert WakerInv(s, w);
    Facts(s, p);
    RemoteWakeTouches(s, z, w, p, c);
    FrameInv(s, z, p, c, w);
  }

  lemma SetWakingInv(s: State, w: nat, p: nat, t: Task)
    requires Inv(s) && w < |s.wakers| && p < |s.tasks| && s.wakers[w].target == p && s.wakers[w].pc.WStable?
    requires t == s.tasks[p].(state := {Waking}, contributes := t.contributes)
    ensures Inv(PutPc(PutTask(s, p, t), w, WSet))
  {
    assert WakerInv(s, w);
    Facts(s, p);
    FrameInv(s, PutPc(PutTask(s, p, t), w, WSet), p, s.tasks[p].cpu, w);
  }

  lemma PlaceInv(s: State, w: nat, p: nat, d: nat)
    requires Inv(s) && w < |s.wakers| && p < |s.tasks| && s.wakers[w].target == p && s.wakers[w].pc.WSet?
    requires d < |s.rqs|
    ensures Inv(PutPc(PutTask(s, p, s.tasks[p].(cpu := d)), w, WPlaced))
  {
    assert WakerInv(s, w) && RqInv(s, d);
    Facts(s, p);
    assert !Pending(s.rqs[s.tasks[p].cpu], p) && !Pending(s.rqs[d], p);
    FrameInv(s, PutPc(PutTask(s, p, s.tasks[p].(cpu := d)), w, WPlaced), p, s.tasks[p].cpu, w);
  }

  lemma QueueRemoteInv(s: State, w: nat, p: nat, r: Rq)
    requires Inv(s) && w < |s.wakers| && p < |s.tasks| && s.wakers[w].target == p && s.wakers[w].pc.WPlaced?
    requires s.tasks[p].cpu < |s.rqs| && r == s.rqs[s.tasks[p].cpu].(wakeList := s.rqs[s.tasks[p].cpu].wakeList + {p})
    ensures Inv(PutPc(PutRq(PutTask(s, p, s.tasks[p].(pi := PiFree)), s.tasks[p].cpu, r), w, WDone))
  {
    assert WakerInv(s, w);
    Facts(s, p);
    assert !Pending(s.rqs[s.tasks[p].cpu], p);
    FrameInv(s, PutPc(PutRq(PutTask(s, p, s.tasks[p].(pi := PiFree)), s.tasks[p].cpu, r), w, WDone),
             p, s.tasks[p].cpu, w);
  }

  lemma ActivateInv(s: State, w: nat, p: nat, r: Rq)
    requires Inv(s) && w < |s.wakers| && p < |s.tasks| && s.wakers[w].target == p && s.wakers[w].pc.WLocalHeld?
    requires s.tasks[p].cpu < |s.rqs|
    requires r == s.rqs[s.tasks[p].cpu].(lock := RqFree, queue := s.rqs[s.tasks[p].cpu].queue + {p},
                                         nrUninterruptible := r.nrUninterruptible)
    ensures Inv(PutPc(PutRq(PutTask(s, p, Activated(s.tasks[p].(pi := PiFree))), s.tasks[p].cpu, r), w, WDone))
  {
    assert WakerInv(s, w);
    Facts(s, p);
    assert !Pending(s.rqs[s.tasks[p].cpu], p);
    FrameInv(s, PutPc(PutRq(PutTask(s, p, Activated(s.tasks[p].(pi := PiFree))), s.tasks[p].cpu, r), w, WDone),
             p, s.tasks[p].cpu, w);
  }

  lemma WakeCurrentInv(s: State, w: nat, c: nat)
    requires Inv(s) && WakeEnabled(s, w, WakeCurrent(c))
    ensures Inv(WakeNext(s, w, WakeCurrent(c)))
  {
    var p := s.wakers[w].target;
    assert WakerInv(s, w) && TaskInv(s, p);
    EndInv(s, w);
    if !(s.tasks[p].state !! s.wakers[w].mask) {
      SelfStepInv(s, c, s.tasks[p].(state := RUNNING));
      EndInv(PutTask(s, p, s.tasks[p].(state := RUNNING)), w);
    }
  }

  lemma RemoteInv(s: State, w: nat)
    requires Inv(s) && WakeEnabled(s, w, WakeRemote)
    ensures Inv(RemoteNext(s, w))
  {
    var p, c := s.wakers[w].target, s.wakers[w].pc.c;
    assert WakerInv(s, w);
    if s.tasks[p].cpu != c || s.tasks[p].onRq.Migrating? {
      WakerLockInv(s, w, c, RqFree, WRemote);
    } else if s.tasks[p].onRq.Off? {
      WakerLockInv(s, w, c, RqFree, WSpin);
    } else {
      RemoteWakeInv(s, w, p, c);
    }
  }

  lemma TestStateInv(s: State, w: nat)
    requires Inv(s) && WakeEnabled(s, w, WakeTestState)
    ensures Inv(WakeNext(s, w, WakeTestState))
  {
    var p := s.wakers[w].target;
    assert WakerInv(s, w) && TaskInv(s, p);
    if s.tasks[p].state !! s.wakers[w].mask {
      PiLockInv(s, w, PiFree, WDone);
    } else {
      ReadStepInv(s, w, WMatched);
    }
  }

  lemma WakeInv(s: State, w: nat, step: WakeStep)
    requires Inv(s) && WakeEnabled(s, w, step)
    ensures Inv(WakeNext(s, w, step))
  {
    var p := s.wakers[w].target;
    assert WakerInv(s, w);
    match step
    case WakeCurrent(c) => WakeCurrentInv(s, w, c);
    case WakeLockPi => PiLockInv(s, w, PiWaker(w), WLocked);
    case WakeTestState => TestStateInv(s, w);
    case WakeReadOnRq => ReadStepInv(s, w, if s.tasks[p].onRq.Off? then WSpin else WRemote);
    case WakeReadRq => ReadStepInv(s, w, WRemoteRead(s.tasks[p].cpu));
    case WakeLockRq => WakerLockInv(s, w, s.wakers[w].pc.c, RqWaker(w), WRemoteHeld(s.wakers[w].pc.c));
    case WakeRemote => RemoteInv(s, w);
    case WakeSpinDone => ReadStepInv(s, w, WStable);
    case WakeSetWaking => SetWakingInv(s, w, p, WakeNext(s, w, step).tasks[p]);
    case WakePlace(d) => PlaceInv(s, w, p, d);
    case WakeQueueRemote => QueueRemoteInv(s, w, p, WakeNext(s, w, step).rqs[s.tasks[p].cpu]);
    case WakeLockLocal => WakerLockInv(s, w, s.tasks[p].cpu, RqWaker(w), WLocalHeld);
    case WakeActivate =>
      var r := WakeNext(s, w, step).rqs[s.tasks[p].cpu];
      ActivateInv(s, w, p, r);
      assert WakeNext(s, w, step).tasks == s.tasks[p := Activated(s.tasks[p].(pi := PiFree))];
  }

  // ---- sched_ttwu_pending ----

  // Taking the wake_list, or entering or leaving the lock.
  lemma IpiLockInv(s: State, c: nat, step: IpiStep)
    requires Inv(s) && IpiEnabled(s, c, step) && !step.IpiActivate?
    ensures Inv(IpiNext(s, c, step))
  {
    assert RqInv(s, c);
    var p := s.rqs[c].curr;
    Facts(s, p);
    assert !Pending(s.rqs[c], p);
    FrameInv(s, IpiNext(s, c, step), p, c, |s.wakers|);
  }

  lemma IpiActivateInv(s: State, c: nat, p: nat, r: Rq)
    requires Inv(s) && c < |s.rqs| && s.rqs[c].ipi.IpiActive? && p < |s.tasks| && p in s.rqs[c].ipi.batch
    requires r == s.rqs[c].(ipi := IpiActive(s.rqs[c].ipi.batch - {p}), queue := s.rqs[c].queue + {p},
                            nrUninterruptible := r.nrUninterruptible)
    ensures Inv(PutRq(PutTask(s, p, Activated(s.tasks[p])), c, r))
  {
    assert RqInv(s, c) && Pending(s.rqs[c], p) && PendingInv(s, c, p);
    Facts(s, p);
    FrameInv(s, PutRq(PutTask(s, p, Activated(s.tasks[p])), c, r), p, c, |s.wakers|);
  }

  lemma IpiInv(s: State, c: nat, step: IpiStep)
    requires Inv(s) && IpiEnabled(s, c, step)
    ensures Inv(IpiNext(s, c, step))
  {
    if step.IpiActivate? {
      IpiActivateInv(s, c, step.p, IpiNext(s, c, step).rqs[c]);
    } else {
      IpiLockInv(s, c, step);
    }
  }

  // ---- wake_up_new_task ----

  lemma BirthMoveInv(s: State, p: nat, t: Task)
    requires Inv(s) && p < |s.tasks| && t.cpu < |s.rqs|
    requires || (s.tasks[p].birth.Unborn? && s.tasks[p].pi.PiFree?
                 && t == s.tasks[p].(pi := PiBirth, birth := BirthLocked))
             || (s.tasks[p].birth.BirthLocked?
                 && t == s.tasks[p].(state := RUNNING, cpu := t.cpu, birth := BirthPlaced))
    ensures Inv(PutTask(s, p, t))
  {
    Facts(s, p);
    assert RqInv(s, t.cpu);
    FrameInv(s, PutTask(s, p, t), p, s.tasks[p].cpu, |s.wakers|);
  }

  lemma BirthQueueInv(s: State, p: nat, c: nat, t: Task, r: Rq)
    requires Inv(s) && p < |s.tasks| && c < |s.rqs| && s.tasks[p].cpu == c
    requires || (s.tasks[p].birth.BirthPlaced? && s.rqs[c].lock.RqFree?
                 && t == s.tasks[p].(birth := BirthHeld) && r == s.rqs[c].(lock := RqBirth(p)))
             || (s.tasks[p].birth.BirthHeld? && t == s.tasks[p].(onRq := Queued, pi := PiFree, birth := Born)
                 && r == s.rqs[c].(lock := RqFree, queue := s.rqs[c].queue + {p}))
    ensures Inv(PutRq(PutTask(s, p, t), c, r))
  {
    Facts(s, p);
    FrameInv(s, PutRq(PutTask(s, p, t), c, r), p, c, |s.wakers|);
  }

  lemma BirthInv(s: State, p: nat, step: BirthStep)
    requires Inv(s) && BirthEnabled(s, p, step)
    ensures Inv(BirthNext(s, p, step))
  {
    assert TaskInv(s, p);
    var c, z := s.tasks[p].cpu, BirthNext(s, p, step);
    if step.BirthLockPi? || step.BirthPlace? {
      BirthMoveInv(s, p, z.tasks[p]);
    } else {
      BirthQueueInv(s, p, c, z.tasks[p], z.rqs[c]);
    }
  }

  // ---- Migration of a queued task ----

  lemma MigLockInv(s: State, p: nat, c: nat, counted: bool)
    requires Inv(s) && MigEnabled(s, p, MigLock(counted)) && c == s.tasks[p].cpu
    ensures Inv(PutRq(PutTask(s, p, s.tasks[p].(mig := MigHeld(counted))), c, s.rqs[c].(lock := RqMig(p))))
  {
    Facts(s, p);
    FrameInv(s, PutRq(PutTask(s, p, s.tasks[p].(mig := MigHeld(counted))), c, s.rqs[c].(lock := RqMig(p))),
             p, c, |s.wakers|);
  }

  lemma MigDetachInv(s: State, p: nat, c: nat, counted: bool, r: Rq)
    requires Inv(s) && p < |s.tasks| && s.tasks[p].mig == MigHeld(counted)
    requires c == s.tasks[p].cpu && c < |s.rqs|
    requires r == s.rqs[c].(queue := s.rqs[c].queue - {p}, nrUninterruptible := r.nrUninterruptible)
    ensures Inv(PutRq(PutTask(s, p, s.tasks[p].(onRq := Migrating, mig := MigDetached(counted))), c, r))
  {
    Facts(s, p);
    FrameInv(s, PutRq(PutTask(s, p, s.tasks[p].(onRq := Migrating, mig := MigDetached(counted))), c, r),
             p, c, |s.wakers|);
  }

  lemma MigMoveTouches(s: State, z: State, p: nat, c: nat, counted: bool, d: nat)
    requires Inv(s) && p < |s.tasks| && s.tasks[p].mig == MigDetached(counted)
    requires c == s.tasks[p].cpu && c < |s.rqs| && d < |s.rqs|
    requires z == PutRq(PutTask(s, p, s.tasks[p].(cpu := d, mig := MigMoving(counted, d))),
                        c, s.rqs[c].(lock := RqFree))
    ensures Touches(s, z, p, c, |s.wakers|)
  {
    assert TaskInv(s, p);
  }

  lemma MigMoveInv(s: State, p: nat, c: nat, counted: bool, d: nat)
    requires Inv(s) && p < |s.tasks| && s.tasks[p].mig == MigDetached(counted)
    requires c == s.tasks[p].cpu && c < |s.rqs| && d < |s.rqs|
    ensures Inv(PutRq(PutTask(s, p, s.tasks[p].(cpu := d, mig := MigMoving(counted, d))), c, s.rqs[c].(lock := RqFree)))
  {
    var z := PutRq(PutTask(s, p, s.tasks[p].(cpu := d, mig := MigMoving(counted, d))), c, s.rqs[c].(lock := RqFree));
    MigMoveTouches(s, z, p, c, counted, d);
    Facts(s, p);
    assert RqInv(s, d);
    FrameInv(s, z, p, c, |s.wakers|);
  }

  lemma MigLockDstInv(s: State, p: nat, counted: bool, d: nat)
    requires Inv(s) && p < |s.tasks| && s.tasks[p].mig == MigMoving(counted, d) && d < |s.rqs| && s.rqs[d].lock.RqFree?
    ensures Inv(PutRq(PutTask(s, p, s.tasks[p].(mig := MigDst(counted, d))), d, s.rqs[d].(lock := RqMig(p))))
  {
    Facts(s, p);
    FrameInv(s, PutRq(PutTask(s, p, s.tasks[p].(mig := MigDst(counted, d))), d, s.rqs[d].(lock := RqMig(p))),
             p, d, |s.wakers|);
  }

  lemma MigAttachInv(s: State, p: nat, counted: bool, d: nat, r: Rq)
    requires Inv(s) && p < |s.tasks| && s.tasks[p].mig == MigDst(counted, d) && d < |s.rqs|
    requires r == s.rqs[d].(lock := RqFree, queue := s.rqs[d].queue + {p}, nrUninterruptible := r.nrUninterruptible)
    ensures Inv(PutRq(PutTask(s, p, s.tasks[p].(onRq := Queued, mig := MigIdle)), d, r))
  {
    Facts(s, p);
    FrameInv(s, PutRq(PutTask(s, p, s.tasks[p].(onRq := Queued, mig := MigIdle)), d, r), p, d, |s.wakers|);
  }

  lemma MigInv(s: State, p: nat, step: MigStep)
    requires Inv(s) && MigEnabled(s, p, step)
    ensures Inv(MigNext(s, p, step))
  {
    var t := s.tasks[p];
    match step
    case MigLock(counted) => MigLockInv(s, p, t.cpu, counted);
    case MigDetach => MigDetachInv(s, p, t.cpu, t.mig.counted, MigNext(s, p, step).rqs[t.cpu]);
    case MigMove(d) => MigMoveInv(s, p, t.cpu, t.mig.counted, d);
    case MigLockDst => MigLockDstInv(s, p, t.mig.counted, t.mig.dest);
    case MigAttach => MigAttachInv(s, p, t.mig.counted, t.mig.dest, MigNext(s, p, step).rqs[t.mig.dest]);
  }

  // ---- All actions, and all runs ----

  lemma NextInv(s: State, a: Action)
    requires Inv(s) && Enabled(s, a)
    ensures Inv(Next(s, a))
  {
    match a
    case ByTask(c, step) => TaskStepInv(s, c, step);
    case BySched(c, step) => SchedInv(s, c, step);
    case WakeCall(p, mask, signals) => WakeCallInv(s, p, mask, signals);
    case ByWaker(w, step) => WakeInv(s, w, step);
    case ByIpi(c, step) => IpiInv(s, c, step);
    case ByBirth(p, step) => BirthInv(s, p, step);
    case ByMig(p, step) => MigInv(s, p, step);
  }

  lemma {:induction false} RunInv(s: State, acts: seq<Action>, z: State)
    requires Inv(s) && Runs(s, acts, z)
    ensures Inv(z)
    decreases |acts|
  {
    if acts != [] {
      NextInv(s, acts[0]);
      RunInv(Next(s, acts[0]), acts[1..], z);
    }
  }
}
