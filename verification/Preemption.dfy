/**
 What one pass of __schedule does to the task it finds running: a preempted task
 keeps its place and its state whatever it was about to do, and the switch is
 counted as it was entered.
 */
module Preemption {
  import opened Protocol
  import opened ProtocolInvariant
  import opened ProtocolSteps
  import opened LostWakeup

  // The action is CPU c's pick, which ends its pass or begins the switch.
  ghost predicate IsPick(a: Action, c: nat) { a.BySched? && a.c == c && a.sched.Pick? }

  ghost predicate NoPick(acts: seq<Action>, c: nat) {
    forall k :: 0 <= k < |acts| ==> !IsPick(acts[k], c)
  }

  // CPU c is in a pass that was entered by preemption, with p running in state bits or made runnable since.
  ghost predicate Preempted(s: State, c: nat, p: nat, bits: set<Bit>) {
    && c < |s.rqs| && s.rqs[c].curr == p && p < |s.tasks|
    && (s.rqs[c].sched == Deciding(true) || s.rqs[c].sched == Picking(false) || s.rqs[c].sched == Balancing(false))
    && s.tasks[p].onRq.Queued? && s.tasks[p].cpu == c
    && (s.tasks[p].state == bits || s.tasks[p].state == RUNNING)
  }

  lemma PreemptedByWaker(s: State, w: nat, step: WakeStep, c: nat, p: nat, bits: set<Bit>)
    requires Inv(s) && WakeEnabled(s, w, step) && Preempted(s, c, p, bits)
    ensures Preempted(WakeNext(s, w, step), c, p, bits)
  {
    assert WakerInv(s, w) && TaskInv(s, p) && RqInv(s, c);
  }

  lemma PreemptedBySched(s: State, d: nat, step: SchedStep, c: nat, p: nat, bits: set<Bit>)
    requires Inv(s) && SchedEnabled(s, d, step) && Preempted(s, c, p, bits) && !IsPick(BySched(d, step), c)
    ensures Preempted(SchedNext(s, d, step), c, p, bits)
  {
    assert RqInv(s, c) && RqInv(s, d) && TaskInv(s, p);
  }

  lemma PreemptedByMove(s: State, q: nat, birth: BirthStep, mig: MigStep, c: nat, p: nat, bits: set<Bit>)
    requires Inv(s) && Preempted(s, c, p, bits)
    ensures BirthEnabled(s, q, birth) ==> Preempted(BirthNext(s, q, birth), c, p, bits)
    ensures MigEnabled(s, q, mig) ==> Preempted(MigNext(s, q, mig), c, p, bits)
  {
    assert RqInv(s, c) && TaskInv(s, p);
  }

  lemma PreemptedByIpi(s: State, d: nat, step: IpiStep, c: nat, p: nat, bits: set<Bit>)
    requires Inv(s) && IpiEnabled(s, d, step) && Preempted(s, c, p, bits)
    ensures Preempted(IpiNext(s, d, step), c, p, bits)
  {
    assert RqInv(s, d) && TaskInv(s, p);
    if step.IpiActivate? { assert Pending(s.rqs[d], step.p); }
  }

  lemma PreemptedByTask(s: State, d: nat, step: TaskStep, c: nat, p: nat, bits: set<Bit>)
    requires Inv(s) && TaskEnabled(s, d, step) && Preempted(s, c, p, bits)
    ensures Preempted(TaskNext(s, d, step), c, p, bits)
  {
    assert RqInv(s, c) && RqInv(s, d) && TaskInv(s, p);
  }

  lemma PreemptedNext(s: State, a: Action, c: nat, p: nat, bits: set<Bit>)
    requires Inv(s) && Enabled(s, a) && Preempted(s, c, p, bits) && !IsPick(a, c)
    ensures Preempted(Next(s, a), c, p, bits)
  {
    match a
    case ByTask(d, step) => PreemptedByTask(s, d, step, c, p, bits);
    case BySched(d, step) => PreemptedBySched(s, d, step, c, p, bits);
    case WakeCall(_, _, _) =>
    case ByWaker(w, step) => PreemptedByWaker(s, w, step, c, p, bits);
    case ByIpi(d, step) => PreemptedByIpi(s, d, step, c, p, bits);
    case ByBirth(q, step) => PreemptedByMove(s, q, step, MigDetach, c, p, bits);
    case ByMig(q, step) => PreemptedByMove(s, q, BirthLockPi, step, c, p, bits);
  }

  lemma {:induction false} RunPreempted(s: State, acts: seq<Action>, z: State, c: nat, p: nat, bits: set<Bit>)
    requires Inv(s) && Runs(s, acts, z) && NoPick(acts, c) && Preempted(s, c, p, bits)
    ensures Inv(z) && Preempted(z, c, p, bits)
    decreases |acts|
  {
    if acts != [] {
      NextInv(s, acts[0]);
      PreemptedNext(s, acts[0], c, p, bits);
      RunPreempted(Next(s, acts[0]), acts[1..], z, c, p, bits);
    }
  }

  lemma PassBegins(s: State, c: nat)
    requires Inv(s) && SchedEnabled(s, c, SchedLock(true))
    ensures var z, p := SchedNext(s, c, SchedLock(true)), s.rqs[c].curr; Inv(z) && Preempted(z, c, p, s.tasks[p].state)
  {
    NextInv(s, BySched(c, SchedLock(true)));
    assert RqInv(s, c) && TaskInv(s, s.rqs[c].curr);
  }

  lemma PassStands(z: State, c: nat, p: nat, bits: set<Bit>)
    requires Inv(z) && Preempted(z, c, p, bits)
    ensures z.rqs[c].curr == p && z.tasks[p].onRq.Queued? && z.tasks[p].cpu == c && p in z.rqs[c].queue
    ensures z.tasks[p].state == bits || z.tasks[p].state == RUNNING
    ensures forall next :: SchedEnabled(z, c, Pick(next)) && next != p ==>
              PickNext(z, c, next).tasks[p] == z.tasks[p].(nivcsw := z.tasks[p].nivcsw + 1)
  {
    assert TaskInv(z, p);
  }

  // Main result: from the moment a preempting pass has the lock until its pick, the task it found running
  // stays queued on that CPU and in its state, unless a wakeup makes it runnable; and if the pass then
  // switches away from it, that counts as involuntary.
  lemma PreemptedStaysQueued(n: nat, acts: seq<Action>, s: State, c: nat, more: seq<Action>, z: State)
    requires Runs(Boot(n), acts, s) && SchedEnabled(s, c, SchedLock(true))
    requires Runs(SchedNext(s, c, SchedLock(true)), more, z) && NoPick(more, c)
    ensures var p := s.rqs[c].curr;
            && c < |z.rqs| && z.rqs[c].curr == p && p < |z.tasks|
            && z.tasks[p].onRq.Queued? && z.tasks[p].cpu == c && p in z.rqs[c].queue
            && (z.tasks[p].state == s.tasks[p].state || z.tasks[p].state == RUNNING)
            && (forall next :: SchedEnabled(z, c, Pick(next)) && next != p ==>
                  PickNext(z, c, next).tasks[p] == z.tasks[p].(nivcsw := z.tasks[p].nivcsw + 1))
  {
    var p := s.rqs[c].curr;
    BootInv(n);
    RunInv(Boot(n), acts, s);
    PassBegins(s, c);
    RunPreempted(SchedNext(s, c, SchedLock(true)), more, z, c, p, s.tasks[p].state);
    PassStands(z, c, p, s.tasks[p].state);
  }

  // ---- Every pass is counted as it was entered ----

  // CPU c is picking, in a pass that found p running and is voluntary or not.
  ghost predicate InPass(s: State, c: nat, p: nat, voluntary: bool) {
    c < |s.rqs| && s.rqs[c].curr == p < |s.tasks|
    && (s.rqs[c].sched == Picking(voluntary) || s.rqs[c].sched == Balancing(voluntary))
  }

  lemma InPassByAgents(s: State, a: Action, c: nat, p: nat, voluntary: bool)
    requires Enabled(s, a) && InPass(s, c, p, voluntary) && (a.ByWaker? || a.ByIpi? || a.ByTask?)
    ensures InPass(Next(s, a), c, p, voluntary)
  {
    match a
    case ByWaker(w, step) => InPassByWaker(s, w, step, c, p, voluntary);
    case ByIpi(_, _) =>
    case ByTask(_, _) =>
  }

  lemma InPassByWaker(s: State, w: nat, step: WakeStep, c: nat, p: nat, voluntary: bool)
    requires WakeEnabled(s, w, step) && InPass(s, c, p, voluntary)
    ensures InPass(WakeNext(s, w, step), c, p, voluntary)
  {
  }

  lemma InPassByMove(s: State, q: nat, birth: BirthStep, mig: MigStep, c: nat, p: nat, voluntary: bool)
    requires InPass(s, c, p, voluntary)
    ensures BirthEnabled(s, q, birth) ==> InPass(BirthNext(s, q, birth), c, p, voluntary)
    ensures MigEnabled(s, q, mig) ==> InPass(MigNext(s, q, mig), c, p, voluntary)
  {
  }

  lemma InPassNext(s: State, a: Action, c: nat, p: nat, voluntary: bool)
    requires Enabled(s, a) && InPass(s, c, p, voluntary) && !IsPick(a, c)
    ensures InPass(Next(s, a), c, p, voluntary)
  {
    match a
    case BySched(_, _) =>
    case WakeCall(_, _, _) =>
    case ByBirth(q, step) => InPassByMove(s, q, step, MigDetach, c, p, voluntary);
    case ByMig(q, step) => InPassByMove(s, q, BirthLockPi, step, c, p, voluntary);
    case _ => InPassByAgents(s, a, c, p, voluntary);
  }

  lemma {:induction false} RunInPass(s: State, acts: seq<Action>, z: State, c: nat, p: nat, voluntary: bool)
    requires Runs(s, acts, z) && NoPick(acts, c) && InPass(s, c, p, voluntary)
    ensures InPass(z, c, p, voluntary)
    decreases |acts|
  {
    if acts != [] {
      InPassNext(s, acts[0], c, p, voluntary);
      RunInPass(Next(s, acts[0]), acts[1..], z, c, p, voluntary);
    }
  }

  lemma DecidesOff(s: State, c: nat, signal: bool)
    requires Inv(s) && SchedEnabled(s, c, SchedDecide(signal))
    ensures var p, after := s.rqs[c].curr, DecideNext(s, c, signal);
            var willing := !s.rqs[c].sched.preempt && s.tasks[p].state != RUNNING;
            && (after.tasks[p].onRq.Off? <==> willing && !signal)
            && (p in after.rqs[c].queue <==> !(willing && !signal))
            && after.tasks[p].state == (if willing && signal then RUNNING else s.tasks[p].state)
  {
    assert RqInv(s, c) && TaskInv(s, s.rqs[c].curr);
  }

  // Main result: the task found running goes off its runqueue exactly when the pass is not a preemption, its
  // state is not running and no signal interrupts it; and a switch away from it in that pass counts as
  // voluntary exactly when the pass is not a preemption and its state was not running.
  lemma PassCounts(n: nat, acts: seq<Action>, s: State, c: nat, signal: bool, more: seq<Action>, z: State, next: nat)
    requires Runs(Boot(n), acts, s) && SchedEnabled(s, c, SchedDecide(signal))
    requires Runs(DecideNext(s, c, signal), more, z) && NoPick(more, c)
    requires SchedEnabled(z, c, Pick(next)) && next != s.rqs[c].curr
    ensures var p := s.rqs[c].curr;
            var willing := !s.rqs[c].sched.preempt && s.tasks[p].state != RUNNING;
            && (DecideNext(s, c, signal).tasks[p].onRq.Off? <==> willing && !signal)
            && (p in DecideNext(s, c, signal).rqs[c].queue <==> !(willing && !signal))
            && DecideNext(s, c, signal).tasks[p].state == (if willing && signal then RUNNING else s.tasks[p].state)
            && p < |z.tasks|
            && PickNext(z, c, next).tasks[p] == if willing then z.tasks[p].(nvcsw := z.tasks[p].nvcsw + 1)
                                                else z.tasks[p].(nivcsw := z.tasks[p].nivcsw + 1)
  {
    var p := s.rqs[c].curr;
    BootInv(n);
    RunInv(Boot(n), acts, s);
    DecidesOff(s, c, signal);
    RunInPass(DecideNext(s, c, signal), more, z, c, p, !s.rqs[c].sched.preempt && s.tasks[p].state != RUNNING);
  }

  // ---- Waits that have not been tested yet ----

  // No task gives up the CPU between announcing its sleep and testing its condition.
  ghost predicate TestsFirst(s: State, acts: seq<Action>)
    decreases |acts|
  {
    acts != [] ==>
      && Enabled(s, acts[0])
      && !(acts[0].BySched? && acts[0].sched == SchedLock(false) && Current(s, acts[0].c).wait.Announced?)
      && TestsFirst(Next(s, acts[0]), acts[1..])
  }

  ghost predicate AnnouncedOk(s: State, p: nat) {
    p < |s.tasks| ==> s.tasks[p].wait.Announced? ==> !s.tasks[p].onRq.Off?
  }

  ghost predicate DecidingOk(s: State, c: nat) {
    c < |s.rqs| && s.rqs[c].sched == Deciding(false) ==> HasCurrent(s, c) && !Current(s, c).wait.Announced?
  }

  ghost predicate NoneAsleepUntested(s: State) {
    (forall p :: 0 <= p < |s.tasks| ==> AnnouncedOk(s, p)) && (forall c :: 0 <= c < |s.rqs| ==> DecidingOk(s, c))
  }

  // Only a scheduler pass takes a task off its runqueue.
  lemma OffByWaker(s: State, w: nat, step: WakeStep, p: nat)
    requires WakeEnabled(s, w, step) && p < |s.tasks|
    ensures p < |WakeNext(s, w, step).tasks| && (WakeNext(s, w, step).tasks[p].onRq.Off? ==> s.tasks[p].onRq.Off?)
  {
  }

  lemma OffByMove(s: State, q: nat, birth: BirthStep, mig: MigStep, p: nat)
    requires p < |s.tasks|
    ensures BirthEnabled(s, q, birth) ==>
              p < |BirthNext(s, q, birth).tasks| && (BirthNext(s, q, birth).tasks[p].onRq.Off? ==> s.tasks[p].onRq.Off?)
    ensures MigEnabled(s, q, mig) ==>
              p < |MigNext(s, q, mig).tasks| && (MigNext(s, q, mig).tasks[p].onRq.Off? ==> s.tasks[p].onRq.Off?)
  {
  }

  lemma AnnouncedBySched(s: State, c: nat, step: SchedStep, p: nat)
    requires Inv(s) && SchedEnabled(s, c, step) && NoneAsleepUntested(s) && p < |s.tasks|
    ensures AnnouncedOk(SchedNext(s, c, step), p)
  {
    assert AnnouncedOk(s, p) && DecidingOk(s, c);
  }

  lemma AnnouncedByTask(s: State, c: nat, step: TaskStep, p: nat)
    requires Inv(s) && TaskEnabled(s, c, step) && NoneAsleepUntested(s) && p < |TaskNext(s, c, step).tasks|
    ensures AnnouncedOk(TaskNext(s, c, step), p)
  {
    assert RqInv(s, c);
    if p < |s.tasks| { assert AnnouncedOk(s, p); }
  }

  lemma AnnouncedNext(s: State, a: Action, p: nat)
    requires Inv(s) && Enabled(s, a) && NoneAsleepUntested(s) && p < |Next(s, a).tasks|
    ensures AnnouncedOk(Next(s, a), p)
  {
    match a
    case ByTask(c, step) => AnnouncedByTask(s, c, step, p);
    case BySched(c, step) => AnnouncedBySched(s, c, step, p);
    case WakeCall(_, _, _) => assert AnnouncedOk(s, p);
    case ByWaker(w, step) =>
      assert AnnouncedOk(s, p);
      WaitKept(s, a, p);
      OffByWaker(s, w, step, p);
    case ByIpi(_, _) =>
      assert AnnouncedOk(s, p);
      WaitKept(s, a, p);
    case ByBirth(q, step) =>
      assert AnnouncedOk(s, p);
      WaitKept(s, a, p);
      OffByMove(s, q, step, MigDetach, p);
    case ByMig(q, step) =>
      assert AnnouncedOk(s, p);
      WaitKept(s, a, p);
      OffByMove(s, q, BirthLockPi, step, p);
  }

  // Only CPU c's own steps change what it is running or where it is in __schedule.
  lemma SchedKept(s: State, a: Action, c: nat)
    requires Enabled(s, a) && c < |s.rqs| && !(a.BySched? && a.c == c)
    ensures c < |Next(s, a).rqs| && Next(s, a).rqs[c].sched == s.rqs[c].sched && Next(s, a).rqs[c].curr == s.rqs[c].curr
  {
    match a
    case ByWaker(w, step) => SchedKeptByWaker(s, w, step, c);
    case ByBirth(q, step) =>
    case ByMig(q, step) =>
    case _ =>
  }

  lemma SchedKeptByWaker(s: State, w: nat, step: WakeStep, c: nat)
    requires WakeEnabled(s, w, step) && c < |s.rqs|
    ensures var z := WakeNext(s, w, step);
            c < |z.rqs| && z.rqs[c].sched == s.rqs[c].sched && z.rqs[c].curr == s.rqs[c].curr
  {
  }

  lemma DecidingBySelf(s: State, c: nat, step: SchedStep)
    requires Inv(s) && SchedEnabled(s, c, step) && NoneAsleepUntested(s)
    requires !(step == SchedLock(false) && Current(s, c).wait.Announced?)
    ensures DecidingOk(SchedNext(s, c, step), c)
  {
    assert DecidingOk(s, c);
  }

  // A task that is being scheduled away does not move in its wait.
  lemma DecidingByTask(s: State, d: nat, step: TaskStep, c: nat)
    requires Inv(s) && TaskEnabled(s, d, step) && c < |s.rqs| && DecidingOk(s, c)
    ensures DecidingOk(TaskNext(s, d, step), c)
  {
    assert RqInv(s, c) && RqInv(s, d);
  }

  lemma DecidingNext(s: State, a: Action, c: nat)
    requires Inv(s) && Enabled(s, a) && NoneAsleepUntested(s) && c < |s.rqs|
    requires !(a.BySched? && a.sched == SchedLock(false) && Current(s, a.c).wait.Announced?)
    ensures DecidingOk(Next(s, a), c)
  {
    assert DecidingOk(s, c) && RqInv(s, c);
    if a.BySched? && a.c == c {
      DecidingBySelf(s, c, a.sched);
    } else if a.ByTask? {
      DecidingByTask(s, a.c, a.task, c);
    } else {
      SchedKept(s, a, c);
      if !a.WakeCall? { WaitKept(s, a, s.rqs[c].curr); }
    }
  }

  lemma SameCpus(s: State, a: Action)
    requires Enabled(s, a)
    ensures |Next(s, a).rqs| == |s.rqs|
  {
    match a
    case ByWaker(_, _) =>
    case BySched(_, _) =>
    case _ =>
  }

  lemma {:induction false} RunTestsFirst(s: State, acts: seq<Action>, z: State)
    requires Inv(s) && NoneAsleepUntested(s) && Runs(s, acts, z) && TestsFirst(s, acts)
    ensures Inv(z) && NoneAsleepUntested(z)
    decreases |acts|
  {
    if acts != [] {
      var next := Next(s, acts[0]);
      NextInv(s, acts[0]);
      SameCpus(s, acts[0]);
      forall p | 0 <= p < |next.tasks| ensures AnnouncedOk(next, p) { AnnouncedNext(s, acts[0], p); }
      forall c | 0 <= c < |next.rqs| ensures DecidingOk(next, c) { DecidingNext(s, acts[0], c); }
      RunTestsFirst(next, acts[1..], z);
    }
  }

  // Main result: where no task gives up the CPU between announcing a sleep and testing its condition, no task
  // sleeps before the test, however often it is preempted there.
  lemma NoSleepBeforeTest(n: nat, acts: seq<Action>, z: State, p: nat)
    requires Runs(Boot(n), acts, z) && TestsFirst(Boot(n), acts) && p < |z.tasks|
    ensures z.tasks[p].wait.Announced? ==> !z.tasks[p].onRq.Off?
  {
    BootInv(n);
    RunTestsFirst(Boot(n), acts, z);
    assert AnnouncedOk(z, p);
  }

  lemma Regroup<T>(xs: seq<T>, ys: seq<T>)
    requires xs != []
    ensures xs + ys == [xs[0]] + (xs[1..] + ys)
  {
  }

  lemma RunsCons(b: State, a: Action, rest: seq<Action>, z: State)
    requires Enabled(b, a) && Runs(Next(b, a), rest, z)
    ensures Runs(b, [a] + rest, z)
  {
    assert ([a] + rest)[1..] == rest;
  }

  lemma {:induction false} RunsJoin(b: State, acts: seq<Action>, s: State, more: seq<Action>, z: State)
    requires Runs(b, acts, s) && Runs(s, more, z)
    ensures Runs(b, acts + more, z)
    decreases |acts|
  {
    if acts == [] {
      assert acts + more == more;
    } else {
      RunsJoin(Next(b, acts[0]), acts[1..], s, more, z);
      Regroup(acts, more);
      RunsCons(b, acts[0], acts[1..] + more, z);
    }
  }

  lemma CallsStay(s: State, a: Action)
    requires Enabled(s, a)
    ensures |s.wakers| <= |Next(s, a).wakers|
  {
    match a
    case ByWaker(_, _) =>
    case BySched(_, _) =>
    case _ =>
  }

  lemma {:induction false} RunStaysSet(s: State, acts: seq<Action>, z: State, p: nat)
    requires Runs(s, acts, z) && StaysSet(s, acts, p)
    ensures p < |z.tasks| && z.tasks[p].cond && |s.wakers| <= |z.wakers|
    decreases |acts|
  {
    if acts != [] {
      CallsStay(s, acts[0]);
      RunStaysSet(Next(s, acts[0]), acts[1..], z, p);
    }
  }

  // Main result: then a call made at any time is not missed by any wait, tested or not: once it has returned,
  // and as long as the condition is not reset, a task that waits in a state the mask meets is awake, or is
  // still on its runqueue with the test ahead of it.
  lemma SignalNeverMissedByWait(n: nat, acts: seq<Action>, s: State, p: nat, mask: set<Bit>, called: State,
                                more: seq<Action>, z: State)
    requires Runs(Boot(n), acts, s) && Enabled(s, WakeCall(p, mask, true)) && called == Next(s, WakeCall(p, mask, true))
    requires Runs(called, more, z) && StaysSet(called, more, p)
    requires TestsFirst(Boot(n), acts + ([WakeCall(p, mask, true)] + more))
    ensures |s.wakers| < |z.wakers| && p < |z.tasks|
    ensures Waits(z, p) && Meets(mask, z.tasks[p].waitBits) && z.wakers[|s.wakers|].pc.WDone? ==>
              Awake(z, p) || (z.tasks[p].wait.Announced? && z.tasks[p].cond && !z.tasks[p].onRq.Off?)
  {
    var rest := [WakeCall(p, mask, true)] + more;
    RunStaysSet(called, more, z, p);
    assert rest[1..] == more;
    assert Runs(s, rest, z);
    RunsJoin(Boot(n), acts, s, rest, z);
    NoSleepBeforeTest(n, acts + rest, z, p);
    if z.tasks[p].wait.Committed? {
      SignalNeverMissed(n, acts, s, p, mask, more, z);
    }
  }
}
