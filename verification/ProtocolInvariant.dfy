/**
 The inductive invariant of the wakeup protocol: one part for each task, each
 runqueue and each wakeup in flight.
 */
module ProtocolInvariant {
  import opened Protocol

  // p is what CPU r has in its registers: current once claimed, or the task being switched out.
  ghost predicate Executing(r: Rq, p: nat) {
    || (r.curr == p && !r.sched.Picked?)
    || ((r.sched.Picked? || r.sched.Switching?) && r.sched.prev == p)
  }

  // p is on the wake_list of runqueue r or in the batch its CPU has taken from it.
  ghost predicate Pending(r: Rq, p: nat) {
    p in r.wakeList || p in Batch(r.ipi)
  }

  // The caller has found a matching state and has not yet queued the task.
  ghost predicate Matched(pc: WakePc) { !pc.WStart? && !pc.WLocked? && !pc.WDone? }

  // The caller has written TASK_WAKING and has not yet queued the task.
  ghost predicate Carrying(pc: WakePc) { pc.WSet? || pc.WPlaced? || pc.WLocalHeld? }

  // The holder of the task's pi_lock is a wakeup that carries it.
  ghost predicate Carried(s: State, t: Task) {
    t.pi.PiWaker? && t.pi.w < |s.wakers| && Carrying(s.wakers[t.pi.w].pc)
  }

  ghost predicate TaskInv(s: State, p: nat) {
    p < |s.tasks| && s.tasks[p].cpu < |s.rqs| &&
    var t := s.tasks[p];
    var r := s.rqs[t.cpu];
    && (t.onRq.Queued? <==> p in r.queue)
    && (t.onCpu <==> Executing(r, p))
    // a reserved bit stands alone
    && (Waking in t.state ==> t.state == {Waking})
    && (New in t.state ==> t.state == {New})
    && (Dead in t.state ==> t.state == {Dead})
    && (Waking in t.state ==> t.onRq.Off? && !t.onCpu && (Pending(r, p) || Carried(s, t)))
    // pi_lock
    && (t.pi.PiWaker? ==>
          t.pi.w < |s.wakers| && s.wakers[t.pi.w].target == p && HoldsPi(s.wakers[t.pi.w].pc))
    && (t.pi.PiBirth? <==> t.birth.BirthLocked? || t.birth.BirthPlaced? || t.birth.BirthHeld?)
    // birth
    && (!t.birth.Born? ==> t.onRq.Off? && !t.onCpu && t.mig.MigIdle?)
    && (t.birth.Unborn? || t.birth.BirthLocked? <==> New in t.state)
    && (t.onRq.Off? ==> (t.state == RUNNING <==> t.birth.BirthPlaced? || t.birth.BirthHeld?))
    && (t.birth.BirthHeld? ==> r.lock == RqBirth(p))
    // migration
    && (t.mig.MigHeld? ==> t.onRq.Queued?)
    && (t.onRq.Migrating? <==> t.mig.MigDetached? || t.mig.MigMoving? || t.mig.MigDst?)
    && (!t.mig.MigIdle? ==> !t.onCpu)
    && (t.mig.MigHeld? || t.mig.MigDetached? || t.mig.MigDst? ==> r.lock == RqMig(p))
    && (t.mig.MigMoving? || t.mig.MigDst? ==> t.mig.dest == t.cpu)
    // idle tasks never leave their runqueue
    && (t.idle ==> t.onRq.Queued? && t.mig.MigIdle? && t.state == RUNNING && t.wait.NotWaiting?)
    // the wait loop
    && t.waitBits !! RESERVED
    && (!t.wait.NotWaiting? ==> t.state == RUNNING || t.state == {Waking} || t.state == t.waitBits)
  }

  // A task that waits in runqueue c's wake_list or batch.
  ghost predicate PendingInv(s: State, c: nat, q: nat) {
    q < |s.tasks| && s.tasks[q].cpu == c && s.tasks[q].state == {Waking} && !Carried(s, s.tasks[q])
  }

  ghost predicate RqCore(s: State, c: nat) {
    c < |s.rqs| && s.rqs[c].curr < |s.tasks| && s.rqs[c].idle < |s.tasks| &&
    var r := s.rqs[c];
    var t := s.tasks[r.curr];
    && s.tasks[r.idle].idle && s.tasks[r.idle].cpu == c
    && t.cpu == c && t.mig.MigIdle?
    && (t.onRq.Queued? || ((r.sched.Picking? || r.sched.Balancing?) && r.sched.voluntary && t.onRq.Off?))
    && (r.sched.Picked? || r.sched.Switching? ==>
          r.sched.prev < |s.tasks| && r.sched.prev != r.curr && s.tasks[r.sched.prev].cpu == c)
    && (LockHeld(r.sched) ==> r.lock == RqScheduler)
    && (r.ipi.IpiActive? ==> r.lock == RqIpi)
    && r.wakeList !! Batch(r.ipi)
  }

  ghost predicate RqInv(s: State, c: nat) {
    && RqCore(s, c)
    && (forall q :: q in s.rqs[c].queue ==> q < |s.tasks| && s.tasks[q].cpu == c)
    && (forall q :: Pending(s.rqs[c], q) ==> PendingInv(s, c, q))
  }

  ghost predicate WakerInv(s: State, w: nat) {
    w < |s.wakers| && s.wakers[w].target < |s.tasks| &&
    var x := s.wakers[w];
    var t := s.tasks[x.target];
    && x.mask !! RESERVED
    && (HoldsPi(x.pc) ==> t.pi == PiWaker(w))
    && (Matched(x.pc) && !Carrying(x.pc) ==> t.state !! RESERVED)
    && (x.pc.WSpin? || x.pc.WStable? || Carrying(x.pc) ==> t.onRq.Off?)
    && (x.pc.WStable? || Carrying(x.pc) ==> !t.onCpu)
    && (Carrying(x.pc) ==> t.state == {Waking})
    && (x.pc.WRemoteRead? ==> x.pc.c < |s.rqs|)
    && (x.pc.WRemoteHeld? ==> x.pc.c < |s.rqs| && s.rqs[x.pc.c].lock == RqWaker(w))
    && (x.pc.WLocalHeld? ==> t.cpu < |s.rqs| && s.rqs[t.cpu].lock == RqWaker(w))
  }

  ghost predicate Inv(s: State) {
    && (forall p :: 0 <= p < |s.tasks| ==> TaskInv(s, p))
    && (forall c :: 0 <= c < |s.rqs| ==> RqInv(s, c))
    && (forall w :: 0 <= w < |s.wakers| ==> WakerInv(s, w))
  }

  lemma BootInv(n: nat)
    ensures Inv(Boot(n))
  {
  }

  // ---- Framing: what a step that touches one task, one runqueue and one wakeup must show ----

  // Equal but for the statistics, which the invariant does not mention.
  ghost predicate SameTask(t: Task, u: Task) {
    u == t.(ctx := u.ctx, nvcsw := u.nvcsw, nivcsw := u.nivcsw)
  }

  // The parts of a task that the invariants of runqueues mention.
  ghost predicate SameOutside(t: Task, u: Task) {
    u.cpu == t.cpu && u.state == t.state && u.mig == t.mig && u.onRq == t.onRq && u.idle == t.idle && u.pi == t.pi
  }

  // Nothing that another task or another wakeup relies on changes in the runqueue.
  ghost predicate RqStep(r: Rq, q: Rq, p: nat, w: nat) {
    && (forall x :: x != p ==> (x in q.queue <==> x in r.queue))
    && (forall x :: x != p ==> (Pending(q, x) <==> Pending(r, x)))
    && (forall x :: x != p ==> (Executing(q, x) <==> Executing(r, x)))
    && (q.lock == r.lock || r.lock.RqFree? || r.lock.RqOther? || r.lock.RqScheduler? || r.lock.RqIpi?
        || r.lock == RqWaker(w) || r.lock == RqBirth(p) || r.lock == RqMig(p))
  }

  // From s to z only task p, runqueue c and wakeup w of task p change.
  ghost predicate Touches(s: State, z: State, p: nat, c: nat, w: nat) {
    && |z.tasks| == |s.tasks| && |z.rqs| == |s.rqs| && |z.wakers| == |s.wakers|
    && p < |s.tasks| && c < |s.rqs|
    && (forall q :: 0 <= q < |s.tasks| && q != p ==> SameTask(s.tasks[q], z.tasks[q]))
    && (forall d :: 0 <= d < |s.rqs| && d != c ==> z.rqs[d] == s.rqs[d])
    && (forall x :: 0 <= x < |s.wakers| && x != w ==> z.wakers[x] == s.wakers[x])
    && RqStep(s.rqs[c], z.rqs[c], p, w)
    && (s.tasks[p].cpu == c
        || (SameOutside(s.tasks[p], z.tasks[p]) && (Carried(s, s.tasks[p]) <==> Carried(z, z.tasks[p]))))
    && (w < |s.wakers| ==> s.wakers[w].target == z.wakers[w].target == p)
  }

  // What is left to show of the three objects.
  ghost predicate TouchedOk(s: State, z: State, p: nat, c: nat, w: nat) {
    && TaskInv(z, p)
    && RqCore(z, c)
    && (p in z.rqs[c].queue ==> z.tasks[p].cpu == c)
    && (Pending(z.rqs[c], p) ==> PendingInv(z, c, p))
    && (w < |z.wakers| ==> WakerInv(z, w))
  }

  lemma FrameInv(s: State, z: State, p: nat, c: nat, w: nat)
    requires Inv(s) && Touches(s, z, p, c, w) && TouchedOk(s, z, p, c, w)
    requires s.tasks[p].pi.PiWaker? && s.tasks[p].pi.w != w ==> WakerInv(z, s.tasks[p].pi.w)
    ensures Inv(z)
  {
    forall q | 0 <= q < |z.tasks| ensures TaskInv(z, q) {
      FrameTask(s, z, p, c, w, q);
    }
    forall d | 0 <= d < |z.rqs| ensures RqInv(z, d) {
      FrameRq(s, z, p, c, w, d);
    }
    forall x | 0 <= x < |z.wakers| ensures WakerInv(z, x) {
      FrameWaker(s, z, p, c, w, x);
    }
  }

  lemma FrameTask(s: State, z: State, p: nat, c: nat, w: nat, q: nat)
    requires Inv(s) && Touches(s, z, p, c, w)
    requires TaskInv(z, p) && q < |z.tasks|
    ensures TaskInv(z, q)
  {
    if q != p {
      assert TaskInv(s, q);
      assert SameTask(s.tasks[q], z.tasks[q]);
    }
  }

  lemma FrameRq(s: State, z: State, p: nat, c: nat, w: nat, d: nat)
    requires Inv(s) && Touches(s, z, p, c, w) && TouchedOk(s, z, p, c, w) && d < |z.rqs|
    ensures RqInv(z, d)
  {
    assert RqInv(s, d);
    forall q | Pending(z.rqs[d], q) ensures PendingInv(z, d, q) {
      FramePending(s, z, p, c, w, d, q);
    }
    assert forall q :: 0 <= q < |s.tasks| && q != p ==> SameTask(s.tasks[q], z.tasks[q]);
  }

  lemma FramePending(s: State, z: State, p: nat, c: nat, w: nat, d: nat, q: nat)
    requires Inv(s) && Touches(s, z, p, c, w) && d < |z.rqs| && Pending(z.rqs[d], q)
    requires Pending(z.rqs[c], p) ==> PendingInv(z, c, p)
    ensures PendingInv(z, d, q)
  {
    assert RqInv(s, d);
    if q != p {
      assert PendingInv(s, d, q) && TaskInv(s, q);
      assert SameTask(s.tasks[q], z.tasks[q]);
    }
  }

  lemma FrameWaker(s: State, z: State, p: nat, c: nat, w: nat, x: nat)
    requires Inv(s) && Touches(s, z, p, c, w)
    requires x < |z.wakers| && (w < |z.wakers| ==> WakerInv(z, w))
    requires s.tasks[p].pi.PiWaker? && s.tasks[p].pi.w != w ==> WakerInv(z, s.tasks[p].pi.w)
    ensures WakerInv(z, x)
  {
    if x != w {
      assert WakerInv(s, x);
      var q := s.wakers[x].target;
      assert q != p ==> SameTask(s.tasks[q], z.tasks[q]);
    }
  }

  // The facts about task p and the wakeup that holds its pi_lock.
  lemma Facts(s: State, p: nat)
    requires Inv(s) && p < |s.tasks|
    ensures TaskInv(s, p) && RqInv(s, s.tasks[p].cpu)
    ensures s.tasks[p].pi.PiWaker? ==> WakerInv(s, s.tasks[p].pi.w)
    ensures forall d :: 0 <= d < |s.rqs| && Pending(s.rqs[d], p) ==> PendingInv(s, d, p)
  {
    assert TaskInv(s, p);
    forall d | 0 <= d < |s.rqs| && Pending(s.rqs[d], p) ensures PendingInv(s, d, p) {
      assert RqInv(s, d);
    }
  }
}
