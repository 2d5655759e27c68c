/**
 No reachable state traps a wakeup: every call of try_to_wake_up in flight can run
 to its end, whatever locks are held and whatever else is under way.
 */
module WakeProgress {
  import opened Protocol
  import opened ProtocolInvariant
  import opened ProtocolSteps
  import opened LockHolders
  import SchedulerSafety

  // What the end of a call leaves of the others: those that hold no runqueue lock are where they were.
  ghost predicate Spares(s: State, z: State, w: nat) {
    && |z.tasks| == |s.tasks| && |z.rqs| == |s.rqs| && |z.wakers| == |s.wakers|
    && (forall u :: 0 <= u < |s.wakers| && u != w ==> SameWaker(s.wakers[u], z.wakers[u]))
    && (w < |s.wakers| ==> z.wakers[w].target == s.wakers[w].target)
  }

  ghost predicate Reaches(s: State, z: State, w: nat) { Leads(s, z) && Good(z) && Spares(s, z, w) }

  lemma SparesTrans(s: State, y: State, z: State, w: nat)
    requires Spares(s, y, w) && Spares(y, z, w)
    ensures Spares(s, z, w)
  {
    forall u | 0 <= u < |s.wakers| && u != w ensures SameWaker(s.wakers[u], z.wakers[u]) {
      assert SameWaker(s.wakers[u], y.wakers[u]) && SameWaker(y.wakers[u], z.wakers[u]);
    }
  }

  lemma ReachesFar(s: State, y: State, z: State, w: nat)
    requires Reaches(s, y, w) && Reaches(y, z, w)
    ensures Reaches(s, z, w)
  {
    LeadsFar(s, y, z);
    SparesTrans(s, y, z, w);
  }

  // The call's own step.
  lemma ByItself(s: State, w: nat, step: WakeStep) returns (z: State)
    requires Good(s) && WakeEnabled(s, w, step)
    ensures z == WakeNext(s, w, step) && Reaches(s, z, w)
  {
    z := WakeNext(s, w, step);
    LeadsNowhere(s);
    LeadsOn(s, s, ByWaker(w, step));
  }

  // Another agent's step, which no call notices.
  lemma ByOther(s: State, a: Action, w: nat) returns (z: State)
    requires Good(s) && Enabled(s, a) && (a.ByMig? || a.ByBirth? || (a.BySched? && a.sched == BalanceRetake))
    ensures z == Next(s, a) && Reaches(s, z, w) && z.wakers == s.wakers
  {
    z := Next(s, a);
    LeadsNowhere(s);
    LeadsOn(s, s, a);
  }

  lemma FreeFor(s: State, c: nat, w: nat) returns (z: State)
    requires Good(s) && c < |s.rqs| && w < |s.wakers| && !HoldsRq(s.wakers[w].pc)
    ensures Reaches(s, z, w) && Keeps(s, z) && KeepsAt(s.rqs[c], z.rqs[c]) && z.rqs[c].lock.RqFree?
    ensures z.wakers[w] == s.wakers[w]
  {
    z := FreeRq(s, c);
    assert SameWaker(s.wakers[w], z.wakers[w]);
  }

  // ---- The end of a call ----

  ghost predicate Finished(z: State, w: nat) {
    w < |z.wakers| && z.wakers[w].pc.WDone? && z.wakers[w].target < |z.tasks| && z.tasks[z.wakers[w].target].pi.PiFree?
  }

  // On the runqueue of its cpu and in the running state.
  ghost predicate Ready(z: State, p: nat) {
    && p < |z.tasks| && z.tasks[p].cpu < |z.rqs| && p in z.rqs[z.tasks[p].cpu].queue
    && z.tasks[p].onRq.Queued? && z.tasks[p].state == RUNNING
  }

  ghost predicate Woken(z: State, w: nat) { Finished(z, w) && Ready(z, z.wakers[w].target) }

  lemma PlacedFinishes(s: State, w: nat) returns (z: State)
    requires Good(s) && w < |s.wakers| && s.wakers[w].pc.WPlaced?
    ensures Reaches(s, z, w) && Woken(z, w)
  {
    assert WakerInv(s, w) && TaskInv(s, s.wakers[w].target);
    var free := FreeFor(s, s.tasks[s.wakers[w].target].cpu, w);
    assert WakerInv(free, w) && TaskInv(free, free.wakers[w].target);
    assert SamePlace(s.tasks[s.wakers[w].target], free.tasks[s.wakers[w].target]);
    var held := ByItself(free, w, WakeLockLocal);
    z := ByItself(held, w, WakeActivate);
    ReachesFar(s, free, held, w);
    ReachesFar(s, held, z, w);
  }

  lemma StableFinishes(s: State, w: nat) returns (z: State)
    requires Good(s) && w < |s.wakers| && s.wakers[w].pc.WStable?
    ensures Reaches(s, z, w) && Woken(z, w)
  {
    assert WakerInv(s, w) && TaskInv(s, s.wakers[w].target);
    var waking := ByItself(s, w, WakeSetWaking);
    z := SetFinishes(waking, w);
    ReachesFar(s, waking, z, w);
  }

  lemma SetFinishes(s: State, w: nat) returns (z: State)
    requires Good(s) && w < |s.wakers| && s.wakers[w].pc.WSet?
    ensures Reaches(s, z, w) && Woken(z, w)
  {
    assert WakerInv(s, w) && TaskInv(s, s.wakers[w].target);
    var placed := ByItself(s, w, WakePlace(s.tasks[s.wakers[w].target].cpu));
    z := PlacedFinishes(placed, w);
    ReachesFar(s, placed, z, w);
  }

  // ---- Waiting until the task is off its CPU ----

  // A pass that has the lock ends, and then a task it took off its runqueue is off the CPU.
  lemma PassEnds(s: State, w: nat) returns (z: State)
    requires Good(s) && w < |s.wakers| && s.wakers[w].pc.WSpin? && s.wakers[w].target < |s.tasks|
    requires var c := s.tasks[s.wakers[w].target].cpu; c < |s.rqs| && s.rqs[c].lock.RqScheduler?
    ensures Reaches(s, z, w) && z.wakers[w] == s.wakers[w] && !z.tasks[z.wakers[w].target].onCpu
  {
    var p := s.wakers[w].target;
    var c := s.tasks[p].cpu;
    z := FreeFor(s, c, w);
    assert SamePlace(s.tasks[p], z.tasks[p]);
    assert WakerInv(z, w) && TaskInv(z, p) && RqInv(z, c);
  }

  // Where a task that is off its runqueue can still be on a CPU.
  lemma StillOnCpu(s: State, w: nat)
    requires Good(s) && w < |s.wakers| && s.wakers[w].pc.WSpin? && s.wakers[w].target < |s.tasks|
    requires s.tasks[s.wakers[w].target].onCpu
    ensures var c := s.tasks[s.wakers[w].target].cpu;
            c < |s.rqs| && (s.rqs[c].lock.RqScheduler? || (s.rqs[c].sched.Balancing? && !LockHeld(s.rqs[c].sched)))
  {
    var p := s.wakers[w].target;
    assert WakerInv(s, w) && TaskInv(s, p) && RqInv(s, s.tasks[p].cpu);
  }

  lemma LeavesCpu(s: State, w: nat) returns (z: State)
    requires Good(s) && w < |s.wakers| && s.wakers[w].pc.WSpin? && s.wakers[w].target < |s.tasks|
    ensures Reaches(s, z, w) && z.wakers[w] == s.wakers[w] && !z.tasks[z.wakers[w].target].onCpu
  {
    var p := s.wakers[w].target;
    z := s;
    LeadsNowhere(s);
    if s.tasks[p].onCpu {
      StillOnCpu(s, w);
      var c := s.tasks[p].cpu;
      if s.rqs[c].lock.RqScheduler? {
        z := PassEnds(s, w);
      } else {
        assert HolderAt(s, c);
        var free := FreeFor(s, c, w);
        assert SamePlace(s.tasks[p], free.tasks[p]) && RqInv(free, c);
        var again := ByOther(free, BySched(c, BalanceRetake), w);
        z := PassEnds(again, w);
        ReachesFar(s, free, again, w);
        ReachesFar(s, again, z, w);
      }
    }
  }

  lemma SpinFinishes(s: State, w: nat) returns (z: State)
    requires Good(s) && w < |s.wakers| && s.wakers[w].pc.WSpin?
    ensures Reaches(s, z, w) && Woken(z, w)
  {
    assert WakerInv(s, w);
    var off := LeavesCpu(s, w);
    assert WakerInv(off, w) && TaskInv(off, off.wakers[w].target);
    var stable := ByItself(off, w, WakeSpinDone);
    z := StableFinishes(stable, w);
    ReachesFar(s, off, stable, w);
    ReachesFar(s, stable, z, w);
  }

  // ---- The path of a task found on a runqueue ----

  // A migration under way comes to its end.
  lemma MigrationEnds(s: State, w: nat, p: nat) returns (z: State)
    requires Good(s) && w < |s.wakers| && !HoldsRq(s.wakers[w].pc) && p < |s.tasks|
    ensures Reaches(s, z, w) && z.wakers[w] == s.wakers[w] && z.tasks[p].mig.MigIdle?
    decreases match s.tasks[p].mig
              case MigIdle => 0
              case MigDst(_, _) => 1
              case MigMoving(_, _) => 2
              case MigDetached(_) => 3
              case MigHeld(_) => 4
  {
    assert TaskInv(s, p);
    z := s;
    LeadsNowhere(s);
    var t := s.tasks[p];
    if !t.mig.MigIdle? {
      var next := s;
      match t.mig {
        case MigHeld(_) => next := ByOther(s, ByMig(p, MigDetach), w);
        case MigDetached(_) => next := ByOther(s, ByMig(p, MigMove(t.cpu)), w);
        case MigDst(_, _) => next := ByOther(s, ByMig(p, MigAttach), w);
        case MigMoving(_, _) =>
          var free := FreeFor(s, t.mig.dest, w);
          assert SamePlace(t, free.tasks[p]);
          next := ByOther(free, ByMig(p, MigLockDst), w);
          ReachesFar(s, free, next, w);
      }
      z := MigrationEnds(next, w, p);
      ReachesFar(s, next, z, w);
    }
  }

  // Holding the lock it read, the call finds the task there, gone to sleep, or gone to another CPU.
  lemma ReadFinishes(s: State, w: nat) returns (z: State)
    requires Good(s) && w < |s.wakers| && s.wakers[w].pc.WRemoteRead?
    ensures Reaches(s, z, w) && (Woken(z, w) || z.wakers[w].pc.WRemote?)
    ensures var p, c := s.wakers[w].target, s.wakers[w].pc.c;
            p < |s.tasks| && s.tasks[p].cpu == c && s.tasks[p].mig.MigIdle? ==> Woken(z, w)
  {
    var p, c := s.wakers[w].target, s.wakers[w].pc.c;
    assert WakerInv(s, w);
    var free := FreeFor(s, c, w);
    assert WakerInv(free, w) && TaskInv(free, p) && SamePlace(s.tasks[p], free.tasks[p]);
    var held := ByItself(free, w, WakeLockRq);
    z := HeldFinishes(held, w);
    ReachesFar(s, free, held, w);
    ReachesFar(s, held, z, w);
  }

  lemma HeldFinishes(s: State, w: nat) returns (z: State)
    requires Good(s) && w < |s.wakers| && s.wakers[w].pc.WRemoteHeld?
    ensures Reaches(s, z, w) && (Woken(z, w) || z.wakers[w].pc.WRemote?)
    ensures var p, c := s.wakers[w].target, s.wakers[w].pc.c;
            p < |s.tasks| && s.tasks[p].cpu == c && s.tasks[p].mig.MigIdle? ==> Woken(z, w)
  {
    assert WakerInv(s, w) && TaskInv(s, s.wakers[w].target);
    var looked := ByItself(s, w, WakeRemote);
    z := looked;
    if looked.wakers[w].pc.WSpin? {
      z := SpinFinishes(looked, w);
      ReachesFar(s, looked, z, w);
    }
  }

  lemma RemoteFinishes(s: State, w: nat) returns (z: State)
    requires Good(s) && w < |s.wakers| && s.wakers[w].pc.WRemote?
    ensures Reaches(s, z, w) && Woken(z, w)
  {
    var p := s.wakers[w].target;
    assert WakerInv(s, w);
    var settled := MigrationEnds(s, w, p);
    assert WakerInv(settled, w) && TaskInv(settled, p);
    var read := ByItself(settled, w, WakeReadRq);
    z := ReadFinishes(read, w);
    ReachesFar(s, settled, read, w);
    ReachesFar(s, read, z, w);
  }

  lemma OnceMore(s: State, looked: State, w: nat) returns (z: State)
    requires Reaches(s, looked, w) && (Woken(looked, w) || (w < |looked.wakers| && looked.wakers[w].pc.WRemote?))
    ensures Reaches(s, z, w) && Woken(z, w)
  {
    z := looked;
    if !Woken(looked, w) {
      z := RemoteFinishes(looked, w);
      ReachesFar(s, looked, z, w);
    }
  }

  // ---- From anywhere ----

  lemma MatchedFinishes(s: State, w: nat) returns (z: State)
    requires Good(s) && w < |s.wakers| && Matched(s.wakers[w].pc)
    ensures Reaches(s, z, w) && Woken(z, w)
  {
    assert WakerInv(s, w) && TaskInv(s, s.wakers[w].target);
    match s.wakers[w].pc
    case WMatched =>
      var read := ByItself(s, w, WakeReadOnRq);
      if read.wakers[w].pc.WSpin? { z := SpinFinishes(read, w); } else { z := RemoteFinishes(read, w); }
      ReachesFar(s, read, z, w);
    case WRemote => z := RemoteFinishes(s, w);
    case WRemoteRead(_) =>
      var looked := ReadFinishes(s, w);
      z := OnceMore(s, looked, w);
    case WRemoteHeld(_) =>
      var looked := HeldFinishes(s, w);
      z := OnceMore(s, looked, w);
    case WSpin => z := SpinFinishes(s, w);
    case WStable => z := StableFinishes(s, w);
    case WSet => z := SetFinishes(s, w);
    case WPlaced => z := PlacedFinishes(s, w);
    case WLocalHeld => z := ByItself(s, w, WakeActivate);
  }

  lemma LockedFinishes(s: State, w: nat) returns (z: State)
    requires Good(s) && w < |s.wakers| && !s.wakers[w].pc.WStart? && !s.wakers[w].pc.WDone?
    ensures Reaches(s, z, w) && Finished(z, w)
  {
    if Matched(s.wakers[w].pc) {
      z := MatchedFinishes(s, w);
    } else {
      assert WakerInv(s, w) && TaskInv(s, s.wakers[w].target);
      var tested := ByItself(s, w, WakeTestState);
      z := tested;
      if tested.wakers[w].pc.WMatched? {
        z := MatchedFinishes(tested, w);
        ReachesFar(s, tested, z, w);
      }
    }
  }

  // The first wakeup of a new task, once it has the pi_lock.
  lemma BirthEnds(s: State, p: nat, w: nat) returns (z: State)
    requires Good(s) && p < |s.tasks| && s.tasks[p].pi.PiBirth?
    requires w < |s.wakers| ==> !HoldsRq(s.wakers[w].pc)
    ensures Leads(s, z) && Good(z) && |z.wakers| == |s.wakers| && (w < |s.wakers| ==> z.wakers[w] == s.wakers[w])
    ensures p < |z.tasks| && z.tasks[p].pi.PiFree? && Ready(z, p)
    decreases if s.tasks[p].birth.BirthHeld? then 1 else if s.tasks[p].birth.BirthPlaced? then 2 else 3
  {
    assert TaskInv(s, p);
    var t := s.tasks[p];
    LeadsNowhere(s);
    if t.birth.BirthHeld? {
      LeadsOn(s, s, ByBirth(p, BirthActivate));
      z := Next(s, ByBirth(p, BirthActivate));
    } else {
      var a, ready := if t.birth.BirthPlaced? then BirthLockRq else BirthPlace(t.cpu), s;
      if t.birth.BirthPlaced? {
        ready := FreeRq(s, t.cpu);
        assert SamePlace(t, ready.tasks[p]) && TaskInv(ready, p);
        assert w < |s.wakers| ==> SameWaker(s.wakers[w], ready.wakers[w]);
      }
      LeadsOn(s, ready, ByBirth(p, a));
      var next := Next(ready, ByBirth(p, a));
      z := BirthEnds(next, p, w);
      LeadsFar(s, next, z);
    }
  }

  // Whoever holds the pi_lock that a call waits for lets go of it.
  lemma PiFreed(s: State, w: nat) returns (z: State)
    requires Good(s) && w < |s.wakers| && s.wakers[w].pc.WStart?
    ensures Leads(s, z) && Good(z) && |z.wakers| == |s.wakers| && z.wakers[w] == s.wakers[w]
    ensures z.wakers[w].target < |z.tasks| && z.tasks[z.wakers[w].target].pi.PiFree?
  {
    var p := s.wakers[w].target;
    assert WakerInv(s, w) && TaskInv(s, p);
    z := s;
    LeadsNowhere(s);
    match s.tasks[p].pi
    case PiFree =>
    case PiBirth => z := BirthEnds(s, p, w);
    case PiWaker(v) =>
      z := LockedFinishes(s, v);
      assert SameWaker(s.wakers[w], z.wakers[w]);
  }

  // Main result: from every reachable state, every call of try_to_wake_up in flight can be brought to its
  // end, and if it has found a state its mask looks for, with the task runnable.
  lemma WakeupCanFinish(n: nat, acts: seq<Action>, s: State, w: nat) returns (z: State)
    requires Runs(Boot(n), acts, s) && w < |s.wakers|
    ensures Leads(s, z) && w < |z.wakers| && z.wakers[w].pc.WDone? && z.wakers[w].target == s.wakers[w].target
    ensures Matched(s.wakers[w].pc) ==> Ready(z, s.wakers[w].target)
  {
    BootInv(n);
    BootHeld(n);
    RunGood(Boot(n), acts, s);
    z := s;
    LeadsNowhere(s);
    if Matched(s.wakers[w].pc) {
      z := MatchedFinishes(s, w);
    } else if s.wakers[w].pc.WLocked? {
      z := LockedFinishes(s, w);
    } else if s.wakers[w].pc.WStart? {
      var free := PiFreed(s, w);
      assert WakerInv(free, w) && TaskInv(free, free.wakers[w].target);
      var locked := ByItself(free, w, WakeLockPi);
      z := LockedFinishes(locked, w);
      LeadsFar(free, locked, z);
      LeadsFar(s, free, z);
    }
  }

  lemma BootHeld(n: nat)
    ensures Held(Boot(n))
  {
  }

  // ---- No task is lost ----

  // p is off its runqueue, in a state that a wakeup may look for.
  ghost predicate Sleeps(s: State, p: nat) {
    p < |s.tasks| && s.tasks[p].onRq.Off? && s.tasks[p].state != RUNNING && s.tasks[p].state !! RESERVED
  }

  lemma CallMatches(s: State, p: nat) returns (z: State, w: nat)
    requires Good(s) && Sleeps(s, p) && s.tasks[p].pi.PiFree?
    ensures Leads(s, z) && Good(z) && w < |z.wakers| && z.wakers[w].target == p && Matched(z.wakers[w].pc)
  {
    var call := WakeCall(p, s.tasks[p].state, false);
    w := |s.wakers|;
    LeadsNowhere(s);
    LeadsOn(s, s, call);
    var called := Next(s, call);
    assert TaskInv(called, p);
    LeadsOn(s, called, ByWaker(w, WakeLockPi));
    var locked := WakeNext(called, w, WakeLockPi);
    assert locked.tasks[p].state == s.tasks[p].state;
    LeadsOn(s, locked, ByWaker(w, WakeTestState));
    z := WakeNext(locked, w, WakeTestState);
  }

  // A wakeup that holds the pi_lock wakes the sleeper, or lets go and leaves it as it is.
  lemma HolderWakesOrLeaves(s: State, p: nat) returns (z: State)
    requires Good(s) && Sleeps(s, p) && s.tasks[p].pi.PiWaker?
    ensures Leads(s, z) && Good(z) && (Ready(z, p) || (Sleeps(z, p) && z.tasks[p].pi.PiFree?))
  {
    assert TaskInv(s, p);
    var v := s.tasks[p].pi.w;
    if Matched(s.wakers[v].pc) {
      z := MatchedFinishes(s, v);
    } else {
      var tested := ByItself(s, v, WakeTestState);
      z := tested;
      if tested.wakers[v].pc.WMatched? {
        z := MatchedFinishes(tested, v);
        LeadsFar(s, tested, z);
      }
    }
  }

  lemma SleeperWakes(s: State, p: nat) returns (z: State)
    requires Good(s) && Sleeps(s, p)
    ensures Leads(s, z) && Ready(z, p)
  {
    assert TaskInv(s, p);
    var free := s;
    LeadsNowhere(s);
    if s.tasks[p].pi.PiWaker? {
      free := HolderWakesOrLeaves(s, p);
    }
    z := free;
    if !Ready(free, p) {
      var found, w := CallMatches(free, p);
      z := MatchedFinishes(found, w);
      LeadsFar(free, found, z);
      LeadsFar(s, free, z);
    }
  }

  // The CPU finishes the batch it has taken from its wake_list.
  lemma BatchEnds(s: State, c: nat) returns (z: State)
    requires Good(s) && c < |s.rqs|
    ensures Leads(s, z) && Good(z) && |z.rqs| == |s.rqs| && z.rqs[c].ipi.IpiIdle?
    ensures z.rqs[c].wakeList == s.rqs[c].wakeList
  {
    assert HolderAt(s, c) && RqInv(s, c);
    z := s;
    LeadsNowhere(s);
    if s.rqs[c].ipi.IpiActive? {
      z := FreeRq(s, c);
    } else if s.rqs[c].ipi.IpiTaken? {
      var free := FreeRq(s, c);
      LeadsOn(s, free, ByIpi(c, IpiLock));
      var locked := Next(free, ByIpi(c, IpiLock));
      z := FreeRq(locked, c);
      LeadsFar(s, locked, z);
    }
  }

  lemma InBatchWakes(s: State, c: nat, p: nat) returns (z: State)
    requires Good(s) && c < |s.rqs| && p in Batch(s.rqs[c].ipi)
    ensures Leads(s, z) && Ready(z, p)
  {
    assert HolderAt(s, c) && RqInv(s, c) && Pending(s.rqs[c], p) && PendingInv(s, c, p);
    var active := s;
    LeadsNowhere(s);
    if s.rqs[c].ipi.IpiTaken? {
      var free := FreeRq(s, c);
      assert RqInv(free, c) && Pending(free.rqs[c], p) && PendingInv(free, c, p);
      LeadsOn(s, free, ByIpi(c, IpiLock));
      active := Next(free, ByIpi(c, IpiLock));
    }
    LeadsOn(s, active, ByIpi(c, IpiActivate(p)));
    z := Next(active, ByIpi(c, IpiActivate(p)));
  }

  lemma PendingWakes(s: State, c: nat, p: nat) returns (z: State)
    requires Good(s) && c < |s.rqs| && Pending(s.rqs[c], p)
    ensures Leads(s, z) && Ready(z, p)
  {
    if p in Batch(s.rqs[c].ipi) {
      z := InBatchWakes(s, c, p);
    } else {
      var idle := BatchEnds(s, c);
      LeadsOn(s, idle, ByIpi(c, IpiTake));
      var taken := Next(idle, ByIpi(c, IpiTake));
      z := InBatchWakes(taken, c, p);
      LeadsFar(s, taken, z);
    }
  }

  // A task whose wakeup is under way arrives.
  lemma WakingWakes(s: State, p: nat) returns (z: State)
    requires Good(s) && p < |s.tasks| && s.tasks[p].state == {Waking}
    ensures Leads(s, z) && Ready(z, p)
  {
    assert TaskInv(s, p) && Waking in s.tasks[p].state;
    if Pending(s.rqs[s.tasks[p].cpu], p) {
      z := PendingWakes(s, s.tasks[p].cpu, p);
    } else {
      z := MatchedFinishes(s, s.tasks[p].pi.w);
    }
  }

  // A new task is woken for the first time.
  lemma NewWakes(s: State, p: nat) returns (z: State)
    requires Good(s) && p < |s.tasks| && s.tasks[p].onRq.Off? && !s.tasks[p].birth.Born?
    ensures Leads(s, z) && Ready(z, p)
  {
    assert TaskInv(s, p);
    var ready := s;
    LeadsNowhere(s);
    if s.tasks[p].birth.Unborn? {
      var free := s;
      if s.tasks[p].pi.PiWaker? {
        free := NewLeft(s, p);
      }
      LeadsOn(s, free, ByBirth(p, BirthLockPi));
      ready := Next(free, ByBirth(p, BirthLockPi));
    }
    z := BirthEnds(ready, p, |ready.wakers|);
    LeadsFar(s, ready, z);
  }

  // No wakeup looks for a new task: one that holds its pi_lock lets go.
  lemma NewLeft(s: State, p: nat) returns (z: State)
    requires Good(s) && p < |s.tasks| && s.tasks[p].birth.Unborn? && s.tasks[p].pi.PiWaker?
    ensures Leads(s, z) && Good(z) && p < |z.tasks| && z.tasks[p].cpu < |z.rqs|
    ensures z.tasks[p].birth.Unborn? && z.tasks[p].pi.PiFree?
  {
    assert TaskInv(s, p);
    var v := s.tasks[p].pi.w;
    assert WakerInv(s, v) && New in s.tasks[p].state;
    z := ByItself(s, v, WakeTestState);
  }

  // Main result: a task that is on no runqueue can become runnable again from every reachable state if and
  // only if it has not died: no interleaving of wakeups, switches, migrations and births loses it.
  lemma NoTaskIsLost(n: nat, acts: seq<Action>, s: State, p: nat)
    requires Runs(Boot(n), acts, s) && p < |s.tasks| && s.tasks[p].onRq.Off?
    ensures (exists z :: Leads(s, z) && Ready(z, p)) <==> s.tasks[p].state != {Dead}
  {
    BootInv(n);
    BootHeld(n);
    RunGood(Boot(n), acts, s);
    if s.tasks[p].state == {Dead} {
      forall z | Leads(s, z) ensures !Ready(z, p) {
        var more :| Runs(s, more, z);
        SchedulerSafety.DeadStaysDead(n, acts, s, more, z, p);
      }
    } else {
      var z := OffWakes(s, p);
    }
  }

  lemma OffWakes(s: State, p: nat) returns (z: State)
    requires Good(s) && p < |s.tasks| && s.tasks[p].onRq.Off? && s.tasks[p].state != {Dead}
    ensures Leads(s, z) && Ready(z, p)
  {
    assert TaskInv(s, p);
    if !s.tasks[p].birth.Born? {
      z := NewWakes(s, p);
    } else if Waking in s.tasks[p].state {
      z := WakingWakes(s, p);
    } else {
      z := SleeperWakes(s, p);
    }
  }
}
