/**
 No lost wakeup: a caller that sets a sleeper's condition and then calls
 try_to_wake_up does not return before the sleeper is awake or sure to be
 activated, whatever else is going on.
 */
module LostWakeup {
  import opened Protocol
  import opened ProtocolInvariant
  import opened ProtocolSteps

  ghost predicate Runnable(t: Task) { t.state == RUNNING && !t.onRq.Off? }

  // p needs nobody's help any more.
  ghost predicate Awake(s: State, p: nat) {
    p < |s.tasks| && s.tasks[p].cpu < |s.rqs| && (Runnable(s.tasks[p]) || Pending(s.rqs[s.tasks[p].cpu], p))
  }

  ghost predicate Waits(s: State, p: nat) { p < |s.tasks| && !s.tasks[p].wait.NotWaiting? }

  // A state in bits is one that a wakeup with this mask looks for.
  ghost predicate Meets(mask: set<Bit>, bits: set<Bit>) { !(mask !! bits) }

  // Wakeup w, which set p's condition while p was in its wait with these bits: if its mask meets them, it
  // has p still to find, has found it and is waking it, or p is awake.
  ghost predicate Helped(s: State, p: nat, w: nat, mask: set<Bit>, bits: set<Bit>) {
    && Waits(s, p) && s.tasks[p].cpu < |s.rqs| && s.tasks[p].cond && s.tasks[p].waitBits == bits
    && w < |s.wakers| && s.wakers[w].target == p && s.wakers[w].signals && s.wakers[w].mask == mask
    && (Meets(mask, bits) ==>
          s.wakers[w].pc.WStart? || s.wakers[w].pc.WLocked? || Matched(s.wakers[w].pc) || Awake(s, p))
  }

  // ---- Every action keeps a wakeup's help ----

  lemma HelpedByTask(s: State, c: nat, step: TaskStep, p: nat, w: nat, mask: set<Bit>, bits: set<Bit>)
    requires Inv(s) && TaskEnabled(s, c, step) && Helped(s, p, w, mask, bits) && Waits(TaskNext(s, c, step), p)
    ensures Helped(TaskNext(s, c, step), p, w, mask, bits)
  {
  }

  lemma HelpedByPick(s: State, c: nat, next: nat, p: nat, w: nat, mask: set<Bit>, bits: set<Bit>)
    requires SchedEnabled(s, c, Pick(next)) && Helped(s, p, w, mask, bits)
    ensures Helped(PickNext(s, c, next), p, w, mask, bits)
  {
  }

  // A task whose state is running is not taken off its runqueue, even if it meant to sleep.
  lemma HelpedByDecide(s: State, c: nat, signal: bool, p: nat, w: nat, mask: set<Bit>, bits: set<Bit>)
    requires Inv(s) && SchedEnabled(s, c, SchedDecide(signal)) && Helped(s, p, w, mask, bits)
    ensures Helped(DecideNext(s, c, signal), p, w, mask, bits)
  {
    assert TaskInv(s, p) && RqInv(s, c);
  }

  lemma HelpedBySched(s: State, c: nat, step: SchedStep, p: nat, w: nat, mask: set<Bit>, bits: set<Bit>)
    requires Inv(s) && SchedEnabled(s, c, step) && Helped(s, p, w, mask, bits)
    ensures Helped(SchedNext(s, c, step), p, w, mask, bits)
  {
    match step
    case Pick(next) => HelpedByPick(s, c, next, p, w, mask, bits);
    case SchedDecide(signal) => HelpedByDecide(s, c, signal, p, w, mask, bits);
    case _ =>
  }

  // A step of a wakeup of another task.
  lemma HelpedByFar(s: State, v: nat, step: WakeStep, p: nat, w: nat, mask: set<Bit>, bits: set<Bit>)
    requires Inv(s) && WakeEnabled(s, v, step) && Helped(s, p, w, mask, bits) && s.wakers[v].target != p
    ensures Helped(WakeNext(s, v, step), p, w, mask, bits)
  {
  }

  // A step of another wakeup of p that makes p awake or leaves its state alone.
  lemma HelpedByNear(s: State, v: nat, step: WakeStep, p: nat, w: nat, mask: set<Bit>, bits: set<Bit>)
    requires Inv(s) && WakeEnabled(s, v, step) && Helped(s, p, w, mask, bits) && s.wakers[v].target == p && v != w
    requires !step.WakeSetWaking? && !step.WakePlace?
    ensures Helped(WakeNext(s, v, step), p, w, mask, bits)
  {
    assert WakerInv(s, v) && TaskInv(s, p);
  }

  // A wakeup that holds p's pi_lock between the match and the activation: w has yet to test p.
  lemma HelpedByCarrier(s: State, v: nat, step: WakeStep, p: nat, w: nat, mask: set<Bit>, bits: set<Bit>)
    requires Inv(s) && WakeEnabled(s, v, step) && Helped(s, p, w, mask, bits) && s.wakers[v].target == p && v != w
    requires step.WakeSetWaking? || step.WakePlace?
    ensures Helped(WakeNext(s, v, step), p, w, mask, bits)
  {
    assert WakerInv(s, v) && WakerInv(s, w);
    Facts(s, p);
  }

  // A failed state test of w: p is awake, or is on a wake_list.
  lemma NoMatchHelped(s: State, p: nat, w: nat, mask: set<Bit>, bits: set<Bit>)
    requires Inv(s) && Helped(s, p, w, mask, bits) && Meets(mask, bits) && s.tasks[p].state !! mask
    requires (s.tasks[p].pi == PiWaker(w) && s.wakers[w].pc.WLocked?) || s.tasks[p].onCpu
    ensures Awake(s, p)
  {
    assert WakerInv(s, w);
    Facts(s, p);
    assert s.tasks[p].state != bits;
    assert s.tasks[p].state == {Waking} ==> Waking in s.tasks[p].state;
  }

  lemma HelpedByItself(s: State, step: WakeStep, p: nat, w: nat, mask: set<Bit>, bits: set<Bit>)
    requires Inv(s) && WakeEnabled(s, w, step) && Helped(s, p, w, mask, bits)
    ensures Helped(WakeNext(s, w, step), p, w, mask, bits)
  {
    assert WakerInv(s, w);
    Facts(s, p);
    if step.WakeCurrent? {
      assert RqInv(s, step.c);
    }
    if (step.WakeCurrent? || step.WakeTestState?) && Meets(mask, bits) && s.tasks[p].state !! mask {
      NoMatchHelped(s, p, w, mask, bits);
    }
  }

  lemma HelpedByIpi(s: State, c: nat, step: IpiStep, p: nat, w: nat, mask: set<Bit>, bits: set<Bit>)
    requires Inv(s) && IpiEnabled(s, c, step) && Helped(s, p, w, mask, bits)
    ensures Helped(IpiNext(s, c, step), p, w, mask, bits)
  {
    assert TaskInv(s, p) && RqInv(s, c);
  }

  lemma HelpedByBirth(s: State, q: nat, step: BirthStep, p: nat, w: nat, mask: set<Bit>, bits: set<Bit>)
    requires Inv(s) && BirthEnabled(s, q, step) && Helped(s, p, w, mask, bits)
    ensures Helped(BirthNext(s, q, step), p, w, mask, bits)
  {
    assert TaskInv(s, p);
  }

  lemma HelpedByMig(s: State, q: nat, step: MigStep, p: nat, w: nat, mask: set<Bit>, bits: set<Bit>)
    requires Inv(s) && MigEnabled(s, q, step) && Helped(s, p, w, mask, bits)
    ensures Helped(MigNext(s, q, step), p, w, mask, bits)
  {
    Facts(s, p);
  }

  lemma HelpedNext(s: State, a: Action, p: nat, w: nat, mask: set<Bit>, bits: set<Bit>)
    requires Inv(s) && Enabled(s, a) && Helped(s, p, w, mask, bits) && Waits(Next(s, a), p)
    ensures Helped(Next(s, a), p, w, mask, bits)
  {
    match a
    case ByTask(c, step) => HelpedByTask(s, c, step, p, w, mask, bits);
    case BySched(c, step) => HelpedBySched(s, c, step, p, w, mask, bits);
    case WakeCall(_, _, _) =>
    case ByWaker(v, step) =>
      if v == w {
        HelpedByItself(s, step, p, w, mask, bits);
      } else if s.wakers[v].target != p {
        HelpedByFar(s, v, step, p, w, mask, bits);
      } else if step.WakeSetWaking? || step.WakePlace? {
        HelpedByCarrier(s, v, step, p, w, mask, bits);
      } else {
        HelpedByNear(s, v, step, p, w, mask, bits);
      }
    case ByIpi(c, step) => HelpedByIpi(s, c, step, p, w, mask, bits);
    case ByBirth(q, step) => HelpedByBirth(s, q, step, p, w, mask, bits);
    case ByMig(q, step) => HelpedByMig(s, q, step, p, w, mask, bits);
  }

  // ---- One wakeup over a run ----

  // p is in its wait in every state of the run.
  ghost predicate StaysWaiting(s: State, acts: seq<Action>, p: nat)
    decreases |acts|
  {
    Waits(s, p) && (acts != [] ==> Enabled(s, acts[0]) && StaysWaiting(Next(s, acts[0]), acts[1..], p))
  }

  lemma {:induction false} RunHelped(s: State, acts: seq<Action>, z: State, p: nat, w: nat,
                                     mask: set<Bit>, bits: set<Bit>)
    requires Inv(s) && Runs(s, acts, z) && StaysWaiting(s, acts, p) && Helped(s, p, w, mask, bits)
    ensures Inv(z) && Helped(z, p, w, mask, bits)
    decreases |acts|
  {
    if acts != [] {
      NextInv(s, acts[0]);
      HelpedNext(s, acts[0], p, w, mask, bits);
      RunHelped(Next(s, acts[0]), acts[1..], z, p, w, mask, bits);
    }
  }

  // Main result: take any call of try_to_wake_up by a caller that has just set p's condition while p
  // is in its wait, with a mask that meets the state p has set.  In every later state of that wait, once
  // this one call has returned, p is runnable or on its runqueue's wake_list, whatever the other wakeups
  // of p are doing.
  lemma WakerLeavesAwake(n: nat, acts: seq<Action>, s: State, p: nat, mask: set<Bit>, more: seq<Action>, z: State)
    requires Runs(Boot(n), acts, s) && Enabled(s, WakeCall(p, mask, true))
    requires Meets(mask, s.tasks[p].waitBits)
    requires var called := Next(s, WakeCall(p, mask, true)); Runs(called, more, z) && StaysWaiting(called, more, p)
    ensures p < |z.tasks| && z.tasks[p].cpu < |z.rqs| && |s.wakers| < |z.wakers|
    ensures z.wakers[|s.wakers|].pc.WDone? ==> Awake(z, p)
  {
    var called := Next(s, WakeCall(p, mask, true));
    BootInv(n);
    RunInv(Boot(n), acts, s);
    NextInv(s, WakeCall(p, mask, true));
    assert TaskInv(s, p);
    RunHelped(called, more, z, p, |s.wakers|, mask, s.tasks[p].waitBits);
  }

  // p's condition holds in every state of the run.
  ghost predicate StaysSet(s: State, acts: seq<Action>, p: nat)
    decreases |acts|
  {
    && p < |s.tasks| && s.tasks[p].cond
    && (acts != [] ==> Enabled(s, acts[0]) && StaysSet(Next(s, acts[0]), acts[1..], p))
  }

  ghost predicate SameWait(s: State, z: State, p: nat)
    requires p < |s.tasks|
  {
    && p < |z.tasks| && z.tasks[p].wait == s.tasks[p].wait
    && z.tasks[p].waitBits == s.tasks[p].waitBits && z.tasks[p].cond == s.tasks[p].cond
  }

  // Nobody but the task itself moves in its wait, and nobody but a caller of a wakeup sets its condition.
  lemma WaitKeptByScheduler(s: State, c: nat, sched: SchedStep, ipi: IpiStep, p: nat)
    requires p < |s.tasks|
    ensures SchedEnabled(s, c, sched) ==> SameWait(s, SchedNext(s, c, sched), p)
    ensures IpiEnabled(s, c, ipi) ==> SameWait(s, IpiNext(s, c, ipi), p)
  {
  }

  lemma WaitKeptByWaker(s: State, w: nat, step: WakeStep, p: nat)
    requires WakeEnabled(s, w, step) && p < |s.tasks|
    ensures SameWait(s, WakeNext(s, w, step), p)
  {
  }

  lemma WaitKeptByMove(s: State, q: nat, birth: BirthStep, mig: MigStep, p: nat)
    requires p < |s.tasks|
    ensures BirthEnabled(s, q, birth) ==> SameWait(s, BirthNext(s, q, birth), p)
    ensures MigEnabled(s, q, mig) ==> SameWait(s, MigNext(s, q, mig), p)
  {
  }

  lemma WaitKept(s: State, a: Action, p: nat)
    requires Enabled(s, a) && p < |s.tasks| && !a.ByTask? && !a.WakeCall?
    ensures SameWait(s, Next(s, a), p)
  {
    match a
    case BySched(c, step) => WaitKeptByScheduler(s, c, step, IpiLock, p);
    case ByWaker(w, step) => WaitKeptByWaker(s, w, step, p);
    case ByIpi(c, step) => WaitKeptByScheduler(s, c, OtherLock, step, p);
    case ByBirth(q, step) => WaitKeptByMove(s, q, step, MigDetach, p);
    case ByMig(q, step) => WaitKeptByMove(s, q, BirthLockPi, step, p);
  }

  // A task commits to sleep only when it finds its condition unset.
  lemma CommitsUnset(s: State, a: Action, p: nat)
    requires Enabled(s, a) && p < |s.tasks| && !s.tasks[p].wait.Committed?
    ensures p < |Next(s, a).tasks| && (Next(s, a).tasks[p].wait.Committed? ==> !Next(s, a).tasks[p].cond)
  {
    if !a.ByTask? && !a.WakeCall? {
      WaitKept(s, a, p);
    }
  }

  lemma {:induction false} RunSet(s: State, acts: seq<Action>, z: State, p: nat, w: nat, mask: set<Bit>, bits: set<Bit>)
    requires Inv(s) && Runs(s, acts, z) && StaysSet(s, acts, p)
    requires s.tasks[p].wait.Committed? ==> Helped(s, p, w, mask, bits)
    ensures Inv(z) && p < |z.tasks| && (z.tasks[p].wait.Committed? ==> Helped(z, p, w, mask, bits))
    decreases |acts|
  {
    if acts != [] {
      var next := Next(s, acts[0]);
      NextInv(s, acts[0]);
      if !s.tasks[p].wait.Committed? {
        CommitsUnset(s, acts[0], p);
      } else if next.tasks[p].wait.Committed? {
        HelpedNext(s, acts[0], p, w, mask, bits);
      }
      RunSet(next, acts[1..], z, p, w, mask, bits);
    }
  }

  // Main result: the same of a call made at any time, before, during or between waits: as long as the
  // condition it set is not reset, p is never left asleep in a wait whose bits the mask meets once the
  // call has returned.
  lemma SignalNeverMissed(n: nat, acts: seq<Action>, s: State, p: nat, mask: set<Bit>, more: seq<Action>, z: State)
    requires Runs(Boot(n), acts, s) && Enabled(s, WakeCall(p, mask, true))
    requires var called := Next(s, WakeCall(p, mask, true)); Runs(called, more, z) && StaysSet(called, more, p)
    ensures p < |z.tasks| && z.tasks[p].cpu < |z.rqs|
    ensures z.tasks[p].wait.Committed? ==> |s.wakers| < |z.wakers|
    ensures z.tasks[p].wait.Committed? && Meets(mask, z.tasks[p].waitBits) && z.wakers[|s.wakers|].pc.WDone? ==>
              Awake(z, p)
  {
    BootInv(n);
    RunInv(Boot(n), acts, s);
    NextInv(s, WakeCall(p, mask, true));
    assert TaskInv(s, p);
    RunSet(Next(s, WakeCall(p, mask, true)), more, z, p, |s.wakers|, mask, s.tasks[p].waitBits);
    assert TaskInv(z, p);
  }

  // ---- In terms of the state alone ----

  // p tested its condition, found it false, and goes to sleep although the condition now holds.
  ghost predicate Oversleeps(t: Task) { t.wait.Committed? && t.cond }

  ghost predicate SomeoneHelps(s: State, p: nat) {
    p < |s.tasks| && exists w :: 0 <= w < |s.wakers| && Helped(s, p, w, s.wakers[w].mask, s.tasks[p].waitBits)
  }

  ghost predicate AllHelped(s: State) {
    forall p :: 0 <= p < |s.tasks| && Oversleeps(s.tasks[p]) ==> SomeoneHelps(s, p)
  }

  // The condition of a committed task is set only by a caller that then helps it.
  lemma SetByHelper(s: State, a: Action, p: nat)
    requires Inv(s) && Enabled(s, a) && p < |s.tasks| && !s.tasks[p].cond
    requires p < |Next(s, a).tasks| && Oversleeps(Next(s, a).tasks[p])
    ensures SomeoneHelps(Next(s, a), p)
  {
    assert TaskInv(s, p);
    if a.WakeCall? {
      assert Helped(Next(s, a), p, |s.wakers|, a.mask, s.tasks[p].waitBits);
    } else if !a.ByTask? {
      WaitKept(s, a, p);
    }
  }

  lemma NextHelped(s: State, a: Action, p: nat)
    requires Inv(s) && Enabled(s, a) && p < |s.tasks| && (Oversleeps(s.tasks[p]) ==> SomeoneHelps(s, p))
    requires p < |Next(s, a).tasks| && Oversleeps(Next(s, a).tasks[p])
    ensures SomeoneHelps(Next(s, a), p)
  {
    if Oversleeps(s.tasks[p]) {
      var w :| 0 <= w < |s.wakers| && Helped(s, p, w, s.wakers[w].mask, s.tasks[p].waitBits);
      HelpedNext(s, a, p, w, s.wakers[w].mask, s.tasks[p].waitBits);
    } else if s.tasks[p].wait.Committed? {
      SetByHelper(s, a, p);
    } else {
      CommitsUnset(s, a, p);
    }
  }

  lemma NextSafe(s: State, a: Action)
    requires Inv(s) && Enabled(s, a) && AllHelped(s)
    ensures AllHelped(Next(s, a))
  {
    var z := Next(s, a);
    forall p | 0 <= p < |z.tasks| && Oversleeps(z.tasks[p]) ensures SomeoneHelps(z, p) {
      if p < |s.tasks| {
        NextHelped(s, a, p);
      } else {
        NewTaskAwake(s, a, p);
      }
    }
  }

  lemma NewTaskAwake(s: State, a: Action, p: nat)
    requires Enabled(s, a) && |s.tasks| <= p < |Next(s, a).tasks|
    ensures !Oversleeps(Next(s, a).tasks[p])
  {
    match a
    case ByTask(_, _) =>
    case BySched(_, _) =>
    case ByWaker(_, _) =>
    case _ =>
  }

  lemma {:induction false} RunSafe(s: State, acts: seq<Action>, z: State)
    requires Inv(s) && AllHelped(s) && Runs(s, acts, z)
    ensures Inv(z) && AllHelped(z)
    decreases |acts|
  {
    if acts != [] {
      NextInv(s, acts[0]);
      NextSafe(s, acts[0]);
      RunSafe(Next(s, acts[0]), acts[1..], z);
    }
  }

  // Main result: once the callers that set p's condition have returned, a sleeper whose condition was
  // set is awake, even while other wakeups of it are still under way; unless one of those callers used
  // a mask that misses the state p sleeps in.
  lemma NoLostWakeup(n: nat, acts: seq<Action>, z: State, p: nat)
    requires Runs(Boot(n), acts, z) && p < |z.tasks|
    requires z.tasks[p].wait.Committed? && z.tasks[p].cond
    requires forall w :: 0 <= w < |z.wakers| && z.wakers[w].target == p && z.wakers[w].signals ==> z.wakers[w].pc.WDone?
    ensures || Awake(z, p)
            || exists w :: 0 <= w < |z.wakers| && z.wakers[w].target == p && z.wakers[w].signals
                           && !Meets(z.wakers[w].mask, z.tasks[p].waitBits)
  {
    BootInv(n);
    RunSafe(Boot(n), acts, z);
    assert SomeoneHelps(z, p);
  }
}
