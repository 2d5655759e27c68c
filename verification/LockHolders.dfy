/**
 Who holds a runqueue lock is inside the section it took the lock for, can always
 take its next step there, and lets go of the lock by its own steps alone.
 */
module LockHolders {
  import opened Protocol
  import opened ProtocolInvariant
  import opened ProtocolSteps
  import SchedulerSafety
  import Preemption

  // The holder of runqueue c's lock is where it needs the lock.
  ghost predicate HolderAt(s: State, c: nat)
    requires c < |s.rqs|
  {
    match s.rqs[c].lock
    case RqFree => true
    case RqOther => true
    case RqScheduler => LockHeld(s.rqs[c].sched)
    case RqIpi => s.rqs[c].ipi.IpiActive?
    case RqWaker(w) =>
      && w < |s.wakers| && s.wakers[w].target < |s.tasks|
      && (s.wakers[w].pc == WRemoteHeld(c) || (s.wakers[w].pc.WLocalHeld? && s.tasks[s.wakers[w].target].cpu == c))
    case RqBirth(p) => p < |s.tasks| && s.tasks[p].birth.BirthHeld? && s.tasks[p].cpu == c
    case RqMig(p) =>
      && p < |s.tasks| && s.tasks[p].cpu == c
      && (s.tasks[p].mig.MigHeld? || s.tasks[p].mig.MigDetached? || s.tasks[p].mig.MigDst?)
  }

  ghost predicate Held(s: State) { forall c :: 0 <= c < |s.rqs| ==> HolderAt(s, c) }

  ghost predicate Good(s: State) { Inv(s) && Held(s) }

  // ---- Every step keeps it ----

  lemma HeldByTask(s: State, c: nat, step: TaskStep)
    requires Good(s) && TaskEnabled(s, c, step)
    ensures Held(TaskNext(s, c, step))
  {
    forall d | 0 <= d < |s.rqs| ensures HolderAt(TaskNext(s, c, step), d) { assert HolderAt(s, d); }
  }

  ghost predicate SameAgent(t: Task, u: Task) { u.cpu == t.cpu && u.birth == t.birth && u.mig == t.mig }

  // A scheduler's step touches its own runqueue, and no migration, birth or wakeup.
  lemma HeldElsewhere(s: State, z: State, c: nat)
    requires Held(s) && |z.rqs| == |s.rqs| && |z.tasks| == |s.tasks| && z.wakers == s.wakers && c < |s.rqs|
    requires forall q :: 0 <= q < |s.tasks| ==> SameAgent(s.tasks[q], z.tasks[q])
    requires z.rqs == s.rqs[c := z.rqs[c]] && HolderAt(z, c)
    ensures Held(z)
  {
    forall d | 0 <= d < |z.rqs| ensures HolderAt(z, d) { assert HolderAt(s, d); }
  }

  lemma HeldByPass(s: State, c: nat, step: SchedStep)
    requires Good(s) && SchedEnabled(s, c, step) && (step.SchedDecide? || step.Pick?)
    ensures Held(SchedNext(s, c, step))
  {
    assert RqInv(s, c) && HolderAt(s, c);
    HeldElsewhere(s, SchedNext(s, c, step), c);
  }

  lemma HeldBySched(s: State, c: nat, step: SchedStep)
    requires Good(s) && SchedEnabled(s, c, step) && !step.SchedDecide? && !step.Pick?
    ensures Held(SchedNext(s, c, step))
  {
    assert RqInv(s, c);
    forall d | 0 <= d < |s.rqs| ensures HolderAt(SchedNext(s, c, step), d) { assert HolderAt(s, d); }
  }

  lemma HeldByReader(s: State, w: nat, step: WakeStep)
    requires Good(s) && WakeEnabled(s, w, step)
    requires !step.WakePlace? && !step.WakeLockRq? && !step.WakeRemote? && !step.WakeLockLocal? && !step.WakeActivate?
    ensures Held(WakeNext(s, w, step))
  {
    forall d | 0 <= d < |s.rqs| ensures HolderAt(WakeNext(s, w, step), d) { assert HolderAt(s, d); }
  }

  lemma HeldByLocker(s: State, w: nat, step: WakeStep)
    requires Good(s) && WakeEnabled(s, w, step)
    requires step.WakeLockRq? || step.WakeRemote? || step.WakeLockLocal? || step.WakeActivate?
    ensures Held(WakeNext(s, w, step))
  {
    assert WakerInv(s, w);
    forall d | 0 <= d < |s.rqs| ensures HolderAt(WakeNext(s, w, step), d) { assert HolderAt(s, d); }
  }

  // A waker changes the cpu of a task only while nobody holds a runqueue lock for that task.
  lemma HeldByPlacer(s: State, w: nat, c: nat)
    requires Good(s) && WakeEnabled(s, w, WakePlace(c))
    ensures Held(WakeNext(s, w, WakePlace(c)))
  {
    assert WakerInv(s, w) && TaskInv(s, s.wakers[w].target);
    forall d | 0 <= d < |s.rqs| ensures HolderAt(WakeNext(s, w, WakePlace(c)), d) {
      assert HolderAt(s, d);
      if s.rqs[d].lock.RqWaker? { assert WakerInv(s, s.rqs[d].lock.w); }
    }
  }

  lemma HeldByWaker(s: State, w: nat, step: WakeStep)
    requires Good(s) && WakeEnabled(s, w, step)
    ensures Held(WakeNext(s, w, step))
  {
    if step.WakePlace? {
      HeldByPlacer(s, w, step.d);
    } else if step.WakeLockRq? || step.WakeRemote? || step.WakeLockLocal? || step.WakeActivate? {
      HeldByLocker(s, w, step);
    } else {
      HeldByReader(s, w, step);
    }
  }

  lemma HeldByIpi(s: State, c: nat, step: IpiStep)
    requires Good(s) && IpiEnabled(s, c, step)
    ensures Held(IpiNext(s, c, step))
  {
    assert RqInv(s, c);
    forall d | 0 <= d < |s.rqs| ensures HolderAt(IpiNext(s, c, step), d) { assert HolderAt(s, d); }
  }

  lemma HeldByBirth(s: State, p: nat, step: BirthStep)
    requires Good(s) && BirthEnabled(s, p, step)
    ensures Held(BirthNext(s, p, step))
  {
    assert TaskInv(s, p);
    forall d | 0 <= d < |s.rqs| ensures HolderAt(BirthNext(s, p, step), d) {
      assert HolderAt(s, d);
      if s.rqs[d].lock.RqWaker? { assert WakerInv(s, s.rqs[d].lock.w); }
    }
  }

  lemma HeldByMig(s: State, p: nat, step: MigStep)
    requires Good(s) && MigEnabled(s, p, step)
    ensures Held(MigNext(s, p, step))
  {
    assert TaskInv(s, p);
    forall d | 0 <= d < |s.rqs| ensures HolderAt(MigNext(s, p, step), d) {
      assert HolderAt(s, d);
      if s.rqs[d].lock.RqWaker? { assert WakerInv(s, s.rqs[d].lock.w); }
    }
  }

  lemma HeldByCall(s: State, p: nat, mask: set<Bit>, signals: bool)
    requires Good(s) && Enabled(s, WakeCall(p, mask, signals))
    ensures Held(Next(s, WakeCall(p, mask, signals)))
  {
    forall d | 0 <= d < |s.rqs| ensures HolderAt(Next(s, WakeCall(p, mask, signals)), d) { assert HolderAt(s, d); }
  }

  lemma GoodNext(s: State, a: Action)
    requires Good(s) && Enabled(s, a)
    ensures Good(Next(s, a))
  {
    NextInv(s, a);
    match a
    case ByTask(c, step) => HeldByTask(s, c, step);
    case BySched(c, step) =>
      if step.SchedDecide? || step.Pick? { HeldByPass(s, c, step); } else { HeldBySched(s, c, step); }
    case WakeCall(p, mask, signals) => HeldByCall(s, p, mask, signals);
    case ByWaker(w, step) => HeldByWaker(s, w, step);
    case ByIpi(c, step) => HeldByIpi(s, c, step);
    case ByBirth(p, step) => HeldByBirth(s, p, step);
    case ByMig(p, step) => HeldByMig(s, p, step);
  }

  lemma {:induction false} RunGood(s: State, acts: seq<Action>, z: State)
    requires Good(s) && Runs(s, acts, z)
    ensures Good(z)
    decreases |acts|
  {
    if acts != [] {
      GoodNext(s, acts[0]);
      RunGood(Next(s, acts[0]), acts[1..], z);
    }
  }

  // ---- Some run leads from one state to another ----

  ghost predicate Leads(s: State, z: State) { exists acts :: Runs(s, acts, z) }

  lemma LeadsNowhere(s: State)
    ensures Leads(s, s)
  {
    assert Runs(s, [], s);
  }

  lemma LeadsOn(s: State, y: State, a: Action)
    requires Leads(s, y) && Good(y) && Enabled(y, a)
    ensures Leads(s, Next(y, a)) && Good(Next(y, a))
  {
    var acts :| Runs(s, acts, y);
    SchedulerSafety.ExtendRun(s, acts, y, a);
    GoodNext(y, a);
  }

  lemma LeadsFar(s: State, y: State, z: State)
    requires Leads(s, y) && Leads(y, z)
    ensures Leads(s, z)
  {
    var acts :| Runs(s, acts, y);
    var more :| Runs(y, more, z);
    Preemption.RunsJoin(s, acts, y, more, z);
  }

  // ---- The holder's next step ----

  ghost function Release(s: State, c: nat): Action
    requires Held(s) && c < |s.rqs| && !s.rqs[c].lock.RqFree?
  {
    assert HolderAt(s, c);
    var r := s.rqs[c];
    match r.lock
    case RqOther => BySched(c, OtherUnlock)
    case RqScheduler =>
      BySched(c, match r.sched
                 case Deciding(_) => SchedDecide(false)
                 case Picking(_) => Pick(r.idle)
                 case Picked(_) => PrepareTask
                 case Switching(_) => FinishTask
                 case Finishing => FinishLock)
    case RqIpi => if r.ipi.batch == {} then ByIpi(c, IpiUnlock) else var p :| p in r.ipi.batch; ByIpi(c, IpiActivate(p))
    case RqWaker(w) => ByWaker(w, if s.wakers[w].pc.WLocalHeld? then WakeActivate else WakeRemote)
    case RqBirth(p) => ByBirth(p, BirthActivate)
    case RqMig(p) =>
      ByMig(p, if s.tasks[p].mig.MigHeld? then MigDetach
               else if s.tasks[p].mig.MigDetached? then MigMove(c)
               else MigAttach)
  }

  // How many of them are left at most.
  ghost function Left(s: State, c: nat): nat
    requires c < |s.rqs|
  {
    var r := s.rqs[c];
    match r.lock
    case RqScheduler =>
      (match r.sched
       case Deciding(_) => 5
       case Picking(_) => 4
       case Picked(_) => 3
       case Switching(_) => 2
       case _ => 1)
    case RqIpi => if r.ipi.IpiActive? then |r.ipi.batch| + 1 else 1
    case RqMig(p) => if p < |s.tasks| && s.tasks[p].mig.MigHeld? then 2 else 1
    case _ => 1
  }

  ghost predicate HoldsRq(pc: WakePc) { pc.WRemoteHeld? || pc.WLocalHeld? }

  // What letting go of a lock leaves alone, wherever the lock is.
  ghost predicate Keeps(s: State, z: State) {
    && |z.tasks| == |s.tasks| && |z.rqs| == |s.rqs| && |z.wakers| == |s.wakers|
    && (forall u :: 0 <= u < |s.wakers| ==> SameWaker(s.wakers[u], z.wakers[u]))
    && (forall q :: 0 <= q < |s.tasks| ==> SamePlace(s.tasks[q], z.tasks[q]))
    && (forall d :: 0 <= d < |s.rqs| ==> z.rqs[d].wakeList == s.rqs[d].wakeList)
  }

  ghost predicate SameWaker(x: Waker, y: Waker) { y.target == x.target && (HoldsRq(x.pc) || y == x) }

  ghost predicate SamePlace(t: Task, u: Task) {
    && u.cpu == t.cpu && (t.birth.BirthHeld? || u.birth == t.birth)
    && (t.mig.MigIdle? || t.mig.MigMoving? ==> u.mig == t.mig)
  }

  // And at the lock itself.
  ghost predicate KeepsAt(r: Rq, q: Rq) {
    && (if r.lock == RqScheduler then q.lock == RqScheduler || q.sched.Outside?
        else q.sched == r.sched && q.curr == r.curr)
    && (if r.lock == RqIpi then q.ipi.IpiIdle? || (q.ipi.IpiActive? && q.lock == RqIpi) else q.ipi == r.ipi)
  }

  // The lock is free, or its holder is nearer to freeing it.
  ghost predicate Nearer(s: State, z: State, c: nat)
    requires c < |s.rqs|
  {
    && Keeps(s, z) && KeepsAt(s.rqs[c], z.rqs[c])
    && (z.rqs[c].lock.RqFree? || (z.rqs[c].lock == s.rqs[c].lock && Left(z, c) < Left(s, c)))
  }

  lemma DecidingReleases(s: State, c: nat)
    requires Good(s) && c < |s.rqs| && s.rqs[c].lock.RqScheduler? && s.rqs[c].sched.Deciding?
    ensures Enabled(s, Release(s, c)) && Nearer(s, Next(s, Release(s, c)), c)
  {
    assert HolderAt(s, c) && RqInv(s, c);
  }

  // The idle task can always be picked.
  lemma PickingReleases(s: State, c: nat)
    requires Good(s) && c < |s.rqs| && s.rqs[c].lock.RqScheduler? && s.rqs[c].sched.Picking?
    ensures Enabled(s, Release(s, c)) && Nearer(s, Next(s, Release(s, c)), c)
  {
    assert HolderAt(s, c) && RqInv(s, c) && TaskInv(s, s.rqs[c].idle);
  }

  lemma SwitchReleases(s: State, c: nat)
    requires Good(s) && c < |s.rqs| && (s.rqs[c].lock.RqScheduler? || s.rqs[c].lock.RqOther?)
    requires s.rqs[c].lock.RqScheduler? ==> !s.rqs[c].sched.Deciding? && !s.rqs[c].sched.Picking?
    ensures Enabled(s, Release(s, c)) && Nearer(s, Next(s, Release(s, c)), c)
  {
    assert HolderAt(s, c) && RqInv(s, c);
  }

  lemma IpiReleases(s: State, c: nat)
    requires Good(s) && c < |s.rqs| && s.rqs[c].lock.RqIpi?
    ensures Enabled(s, Release(s, c)) && Nearer(s, Next(s, Release(s, c)), c)
  {
    assert HolderAt(s, c) && RqInv(s, c);
    if s.rqs[c].ipi.batch != {} {
      var p := Release(s, c).ipi.p;
      assert Pending(s.rqs[c], p) && PendingInv(s, c, p);
    }
  }

  lemma WakerReleases(s: State, c: nat)
    requires Good(s) && c < |s.rqs| && s.rqs[c].lock.RqWaker?
    ensures Enabled(s, Release(s, c)) && Nearer(s, Next(s, Release(s, c)), c)
  {
    var w := s.rqs[c].lock.w;
    assert HolderAt(s, c) && WakerInv(s, w) && TaskInv(s, s.wakers[w].target);
  }

  lemma MoverReleases(s: State, c: nat)
    requires Good(s) && c < |s.rqs| && (s.rqs[c].lock.RqBirth? || s.rqs[c].lock.RqMig?)
    ensures Enabled(s, Release(s, c)) && Nearer(s, Next(s, Release(s, c)), c)
  {
    assert HolderAt(s, c) && TaskInv(s, s.rqs[c].lock.p);
  }

  lemma KeepsTrans(s: State, y: State, z: State)
    requires Keeps(s, y) && Keeps(y, z)
    ensures Keeps(s, z)
  {
    forall u | 0 <= u < |s.wakers| ensures SameWaker(s.wakers[u], z.wakers[u]) {
      assert SameWaker(s.wakers[u], y.wakers[u]) && SameWaker(y.wakers[u], z.wakers[u]);
    }
    forall q | 0 <= q < |s.tasks| ensures SamePlace(s.tasks[q], z.tasks[q]) {
      assert SamePlace(s.tasks[q], y.tasks[q]) && SamePlace(y.tasks[q], z.tasks[q]);
    }
  }

  // Main result: from every good state the holder of a runqueue lock, by its own steps, frees it; no other
  // waker, no task's cpu and no wake_list changes meanwhile.
  lemma {:induction false} FreeRq(s: State, c: nat) returns (z: State)
    requires Good(s) && c < |s.rqs|
    ensures Leads(s, z) && Good(z) && Keeps(s, z) && KeepsAt(s.rqs[c], z.rqs[c]) && z.rqs[c].lock.RqFree?
    decreases if s.rqs[c].lock.RqFree? then 0 else Left(s, c)
  {
    z := s;
    LeadsNowhere(s);
    if !s.rqs[c].lock.RqFree? {
      var a := Release(s, c);
      match s.rqs[c].lock {
        case RqIpi => IpiReleases(s, c);
        case RqWaker(_) => WakerReleases(s, c);
        case RqBirth(_) => MoverReleases(s, c);
        case RqMig(_) => MoverReleases(s, c);
        case RqScheduler =>
          if s.rqs[c].sched.Deciding? {
            DecidingReleases(s, c);
          } else if s.rqs[c].sched.Picking? {
            PickingReleases(s, c);
          } else {
            SwitchReleases(s, c);
          }
        case _ => SwitchReleases(s, c);
      }
      LeadsOn(s, s, a);
      var y := Next(s, a);
      z := FreeRq(y, c);
      LeadsFar(s, y, z);
      KeepsTrans(s, y, z);
    }
  }
}
