/**
 The scheduler's counters over every run: nr_uninterruptible, whose parts mean
 nothing one by one but whose sum counts sleepers, and the dispatch counter ctx
 against the context-switch statistics.
 */
module SchedulerCounters {
  import opened Protocol
  import opened ProtocolInvariant
  import opened ProtocolSteps
  import opened Sums

  // ---- nr_uninterruptible ----

  // Whether the task is counted: it sleeps and contributes to load, or is being woken from
  // such a sleep, or is detached by a migration that counts.
  ghost function Counted(t: Task): int {
    var heavy := Uninterruptible in t.state && NoLoad !in t.state && !t.frozen;
    match t.onRq
    case Queued => 0
    case Off => Count(if t.state == {Waking} then t.contributes else heavy)
    case Migrating => Count(!t.mig.MigIdle? && t.mig.counted && heavy)
  }

  ghost function NrUninterruptible(r: Rq): int { r.nrUninterruptible }

  // The counters balance.
  ghost predicate Balanced(s: State) {
    Sum(s.rqs, NrUninterruptible) == Sum(s.tasks, Counted)
  }

  // A step that changes task p and runqueue c by the same amount.
  lemma BalancedStep(s: State, z: State, p: nat, t: Task, c: nat, r: Rq)
    requires Balanced(s) && p < |s.tasks| && c < |s.rqs|
    requires z.tasks == s.tasks[p := t] && z.rqs == s.rqs[c := r]
    requires Counted(t) - Counted(s.tasks[p]) == r.nrUninterruptible - s.rqs[c].nrUninterruptible
    ensures Balanced(z)
  {
    SumUpdate(s.tasks, p, t, Counted);
    SumUpdate(s.rqs, c, r, NrUninterruptible);
  }

  lemma TaskBalanced(s: State, c: nat, step: TaskStep)
    requires Inv(s) && TaskEnabled(s, c, step) && Balanced(s)
    ensures Balanced(TaskNext(s, c, step))
  {
    assert RqInv(s, c);
    var p, z := s.rqs[c].curr, TaskNext(s, c, step);
    if step.Fork? {
      SumAppend(s.tasks, NewTask(c), Counted);
    } else {
      BalancedStep(s, z, p, z.tasks[p], c, s.rqs[c]);
    }
  }

  lemma PickBalanced(s: State, c: nat, next: nat)
    requires SchedEnabled(s, c, Pick(next)) && Balanced(s)
    ensures Balanced(PickNext(s, c, next))
  {
    var p, z := s.rqs[c].curr, PickNext(s, c, next);
    var mid := PutTask(s, next, s.tasks[next].(ctx := s.tasks[next].ctx + 1));
    BalancedStep(s, mid, next, mid.tasks[next], c, s.rqs[c]);
    BalancedStep(mid, z, p, z.tasks[p], c, z.rqs[c]);
  }

  // Going to sleep: the CPU counts the task exactly if it contributes to load.
  lemma DecideBalanced(s: State, c: nat, signal: bool)
    requires Inv(s) && SchedEnabled(s, c, SchedDecide(signal)) && Balanced(s)
    ensures Balanced(DecideNext(s, c, signal))
  {
    var p, z := s.rqs[c].curr, DecideNext(s, c, signal);
    assert RqInv(s, c) && TaskInv(s, p);
    BalancedStep(s, z, p, z.tasks[p], c, z.rqs[c]);
  }

  lemma SchedBalanced(s: State, c: nat, step: SchedStep)
    requires Inv(s) && SchedEnabled(s, c, step) && Balanced(s)
    ensures Balanced(SchedNext(s, c, step))
  {
    var z := SchedNext(s, c, step);
    match step
    case Pick(next) => PickBalanced(s, c, next);
    case SchedDecide(signal) => DecideBalanced(s, c, signal);
    case FinishTask => BalancedStep(s, z, s.rqs[c].sched.prev, z.tasks[s.rqs[c].sched.prev], c, z.rqs[c]);
    case _ => BalancedStep(s, z, s.rqs[c].curr, z.tasks[s.rqs[c].curr], c, z.rqs[c]);
  }

  // The running task wakes itself.
  lemma WakeCurrentBalanced(s: State, w: nat, c: nat)
    requires Inv(s) && WakeEnabled(s, w, WakeCurrent(c)) && Balanced(s)
    ensures Balanced(WakeNext(s, w, WakeCurrent(c)))
  {
    var p, z := s.wakers[w].target, WakeNext(s, w, WakeCurrent(c));
    assert WakerInv(s, w) && RqInv(s, c) && TaskInv(s, p);
    assert z.tasks == s.tasks[p := z.tasks[p]] && z.rqs == s.rqs[c := z.rqs[c]];
    BalancedStep(s, z, p, z.tasks[p], c, z.rqs[c]);
  }

  // ttwu_remote: a task made runnable where it is was queued, so nobody counted it.
  lemma RemoteBalanced(s: State, w: nat)
    requires Inv(s) && WakeEnabled(s, w, WakeRemote) && Balanced(s)
    ensures Balanced(RemoteNext(s, w))
  {
    var p, c, z := s.wakers[w].target, s.wakers[w].pc.c, RemoteNext(s, w);
    assert TaskInv(s, p);
    assert z.tasks == s.tasks[p := z.tasks[p]] && z.rqs == s.rqs[c := z.rqs[c]];
    BalancedStep(s, z, p, z.tasks[p], c, z.rqs[c]);
  }

  // The flag remembers whether the sleep was counted, and the activation takes the count back.
  lemma WakingBalanced(s: State, w: nat, step: WakeStep)
    requires Inv(s) && WakeEnabled(s, w, step) && (step.WakeSetWaking? || step.WakeActivate?) && Balanced(s)
    ensures Balanced(WakeNext(s, w, step))
  {
    var p, z := s.wakers[w].target, WakeNext(s, w, step);
    var c := s.tasks[p].cpu;
    assert WakerInv(s, w) && TaskInv(s, p);
    assert z.tasks == s.tasks[p := z.tasks[p]] && z.rqs == s.rqs[c := z.rqs[c]];
    BalancedStep(s, z, p, z.tasks[p], c, z.rqs[c]);
  }

  lemma WakeBalanced(s: State, w: nat, step: WakeStep)
    requires Inv(s) && WakeEnabled(s, w, step) && Balanced(s)
    requires !step.WakeCurrent? && !step.WakeRemote? && !step.WakeSetWaking? && !step.WakeActivate?
    ensures Balanced(WakeNext(s, w, step))
  {
    var p, z := s.wakers[w].target, WakeNext(s, w, step);
    var c := if step.WakeLockRq? then s.wakers[w].pc.c else s.tasks[p].cpu;
    assert z.tasks == s.tasks[p := z.tasks[p]] && z.rqs == s.rqs[c := z.rqs[c]];
    BalancedStep(s, z, p, z.tasks[p], c, z.rqs[c]);
  }

  lemma WakerBalanced(s: State, w: nat, step: WakeStep)
    requires Inv(s) && WakeEnabled(s, w, step) && Balanced(s)
    ensures Balanced(WakeNext(s, w, step))
  {
    match step
    case WakeCurrent(c) => WakeCurrentBalanced(s, w, c);
    case WakeRemote => RemoteBalanced(s, w);
    case WakeSetWaking => WakingBalanced(s, w, step);
    case WakeActivate => WakingBalanced(s, w, step);
    case _ => WakeBalanced(s, w, step);
  }

  lemma IpiBalanced(s: State, c: nat, step: IpiStep)
    requires Inv(s) && IpiEnabled(s, c, step) && Balanced(s)
    ensures Balanced(IpiNext(s, c, step))
  {
    assert RqInv(s, c);
    var z := IpiNext(s, c, step);
    var p := if step.IpiActivate? then step.p else s.rqs[c].curr;
    Facts(s, p);
    assert step.IpiActivate? ==> Pending(s.rqs[c], p);
    BalancedStep(s, z, p, z.tasks[p], c, z.rqs[c]);
  }

  lemma BirthBalanced(s: State, p: nat, step: BirthStep)
    requires Inv(s) && BirthEnabled(s, p, step) && Balanced(s)
    ensures Balanced(BirthNext(s, p, step))
  {
    var c, z := s.tasks[p].cpu, BirthNext(s, p, step);
    Facts(s, p);
    BalancedStep(s, z, p, z.tasks[p], c, z.rqs[c]);
  }

  lemma MigBalanced(s: State, p: nat, step: MigStep)
    requires Inv(s) && MigEnabled(s, p, step) && Balanced(s)
    ensures Balanced(MigNext(s, p, step))
  {
    var c, z := s.tasks[p].cpu, MigNext(s, p, step);
    Facts(s, p);
    BalancedStep(s, z, p, z.tasks[p], c, z.rqs[c]);
  }

  lemma NextBalanced(s: State, a: Action)
    requires Inv(s) && Enabled(s, a) && Balanced(s)
    ensures Balanced(Next(s, a))
  {
    var z := Next(s, a);
    match a
    case ByTask(c, step) => TaskBalanced(s, c, step);
    case BySched(c, step) => SchedBalanced(s, c, step);
    case WakeCall(p, mask, signals) => SumUpdate(s.tasks, p, z.tasks[p], Counted);
    case ByWaker(w, step) => WakerBalanced(s, w, step);
    case ByIpi(c, step) => IpiBalanced(s, c, step);
    case ByBirth(p, step) => BirthBalanced(s, p, step);
    case ByMig(p, step) => MigBalanced(s, p, step);
  }

  lemma {:induction false} RunBalanced(s: State, acts: seq<Action>, z: State)
    requires Inv(s) && Balanced(s) && Runs(s, acts, z)
    ensures Balanced(z)
    decreases |acts|
  {
    if acts != [] {
      NextInv(s, acts[0]);
      NextBalanced(s, acts[0]);
      RunBalanced(Next(s, acts[0]), acts[1..], z);
    }
  }

  // Main result: over all CPUs, nr_uninterruptible counts exactly the sleepers that
  // contribute to load, wherever they went to sleep and wherever they were woken.
  lemma NrUninterruptibleExact(n: nat, acts: seq<Action>, z: State)
    requires Runs(Boot(n), acts, z)
    ensures Sum(z.rqs, NrUninterruptible) == Sum(z.tasks, Counted)
  {
    BootInv(n);
    SumZero(Boot(n).rqs, NrUninterruptible);
    SumZero(Boot(n).tasks, Counted);
    RunBalanced(Boot(n), acts, z);
  }

  // ---- ctx ----

  // The passes that chose the task already running.
  ghost function Repicks(s: State, acts: seq<Action>): int
    decreases |acts|
  {
    if acts == [] || !Enabled(s, acts[0]) then 0
    else Count(Repick(s, acts[0])) + Repicks(Next(s, acts[0]), acts[1..])
  }

  ghost predicate Repick(s: State, a: Action) {
    a.BySched? && a.sched.Pick? && a.c < |s.rqs| && a.sched.next == s.rqs[a.c].curr
  }

  ghost function Ctx(t: Task): int { t.ctx }
  ghost function Switched(t: Task): int { t.nvcsw + t.nivcsw }
  ghost function NrSwitches(r: Rq): int { r.nrSwitches }

  // A task's dispatch counter; a task not yet forked has none.
  ghost function CtxOf(s: State, p: nat): int {
    if p < |s.tasks| then s.tasks[p].ctx else 0
  }

  ghost predicate Fresh(t: Task) { t.ctx == t.nvcsw == t.nivcsw == 0 }

  // A step that leaves the statistics alone; a new task starts with none.
  ghost predicate Quiet(s: State, z: State) {
    && |z.rqs| == |s.rqs| && (z.tasks == s.tasks || |z.tasks| == |s.tasks| || |z.tasks| == |s.tasks| + 1)
    && (forall q :: 0 <= q < |s.tasks| ==>
          && z.tasks[q].ctx == s.tasks[q].ctx
          && z.tasks[q].nvcsw == s.tasks[q].nvcsw && z.tasks[q].nivcsw == s.tasks[q].nivcsw)
    && (|z.tasks| > |s.tasks| ==> z.tasks[..|s.tasks|] == s.tasks && Fresh(z.tasks[|s.tasks|]))
    && (forall c :: 0 <= c < |s.rqs| ==> z.rqs[c].nrSwitches == s.rqs[c].nrSwitches)
  }

  lemma TaskQuiet(s: State, c: nat, step: TaskStep)
    requires TaskEnabled(s, c, step)
    ensures Quiet(s, TaskNext(s, c, step))
  {
  }

  lemma SchedQuiet(s: State, c: nat, step: SchedStep)
    requires SchedEnabled(s, c, step) && !step.Pick?
    ensures Quiet(s, SchedNext(s, c, step))
  {
  }

  lemma WakeQuiet(s: State, w: nat, step: WakeStep)
    requires WakeEnabled(s, w, step)
    ensures Quiet(s, WakeNext(s, w, step))
  {
  }

  lemma MoveQuiet(s: State, p: nat, birth: BirthStep, mig: MigStep)
    ensures BirthEnabled(s, p, birth) ==> Quiet(s, BirthNext(s, p, birth))
    ensures MigEnabled(s, p, mig) ==> Quiet(s, MigNext(s, p, mig))
  {
  }

  lemma NextQuiet(s: State, a: Action)
    requires Enabled(s, a) && !(a.BySched? && a.sched.Pick?)
    ensures Quiet(s, Next(s, a))
  {
    match a
    case ByTask(c, step) => TaskQuiet(s, c, step);
    case BySched(c, step) => SchedQuiet(s, c, step);
    case WakeCall(_, _, _) =>
    case ByWaker(w, step) => WakeQuiet(s, w, step);
    case ByIpi(c, step) =>
    case ByBirth(p, step) => MoveQuiet(s, p, step, MigDetach);
    case ByMig(p, step) => MoveQuiet(s, p, BirthLockPi, step);
  }

  lemma CtxNext(s: State, a: Action, p: nat)
    requires Enabled(s, a)
    ensures CtxOf(Next(s, a), p) == CtxOf(s, p) + Count(a.BySched? && a.sched == Pick(p))
  {
    if a.BySched? && a.sched.Pick? {
      assert Next(s, a) == PickNext(s, a.c, a.sched.next);
    } else {
      NextQuiet(s, a);
    }
  }

  // Main result: a task's ctx is the number of scheduler passes that chose it since its fork.
  lemma {:induction false} CtxCountsDispatches(s: State, acts: seq<Action>, z: State, p: nat)
    requires Runs(s, acts, z)
    ensures CtxOf(z, p) == CtxOf(s, p) + Dispatches(acts, p)
    decreases |acts|
  {
    if acts != [] {
      CtxNext(s, acts[0], p);
      CtxCountsDispatches(Next(s, acts[0]), acts[1..], z, p);
    }
  }

  // ---- nvcsw and nivcsw ----

  // The passes that switched away from p, voluntarily or not.
  ghost function Leavings(s: State, acts: seq<Action>, p: nat, voluntary: bool): int
    decreases |acts|
  {
    if acts == [] || !Enabled(s, acts[0]) then 0
    else Count(Leaving(s, acts[0], p, voluntary)) + Leavings(Next(s, acts[0]), acts[1..], p, voluntary)
  }

  ghost predicate Leaving(s: State, a: Action, p: nat, voluntary: bool) {
    a.BySched? && a.sched.Pick? && a.c < |s.rqs| && s.rqs[a.c].curr == p != a.sched.next
    && s.rqs[a.c].sched == Picking(voluntary)
  }

  ghost function SwitchesOf(s: State, p: nat, voluntary: bool): int {
    if p >= |s.tasks| then 0 else if voluntary then s.tasks[p].nvcsw else s.tasks[p].nivcsw
  }

  lemma SwitchesNext(s: State, a: Action, p: nat, voluntary: bool)
    requires Enabled(s, a)
    ensures SwitchesOf(Next(s, a), p, voluntary) == SwitchesOf(s, p, voluntary) + Count(Leaving(s, a, p, voluntary))
  {
    if a.BySched? && a.sched.Pick? {
      assert Next(s, a) == PickNext(s, a.c, a.sched.next);
    } else {
      NextQuiet(s, a);
    }
  }

  // Each task's two counters are the voluntary and the other passes that switched away from it.
  lemma {:induction false} SwitchesCountLeavings(s: State, acts: seq<Action>, z: State, p: nat, voluntary: bool)
    requires Runs(s, acts, z)
    ensures SwitchesOf(z, p, voluntary) == SwitchesOf(s, p, voluntary) + Leavings(s, acts, p, voluntary)
    decreases |acts|
  {
    if acts != [] {
      SwitchesNext(s, acts[0], p, voluntary);
      SwitchesCountLeavings(Next(s, acts[0]), acts[1..], z, p, voluntary);
    }
  }

  // A pass that switches away from a task that went to sleep is a voluntary one.
  lemma SleepIsVoluntary(n: nat, acts: seq<Action>, z: State, c: nat, next: nat)
    requires Runs(Boot(n), acts, z) && SchedEnabled(z, c, Pick(next))
    ensures Current(z, c).onRq.Off? ==> Leaving(z, BySched(c, Pick(next)), z.rqs[c].curr, true)
  {
    BootInv(n);
    RunInv(Boot(n), acts, z);
    assert RqInv(z, c) && TaskInv(z, next);
  }

  lemma QuietSums(s: State, z: State)
    requires Quiet(s, z)
    ensures Sum(z.tasks, Ctx) == Sum(s.tasks, Ctx)
    ensures Sum(z.tasks, Switched) == Sum(s.tasks, Switched)
    ensures Sum(z.rqs, NrSwitches) == Sum(s.rqs, NrSwitches)
  {
    SumSame(s.rqs, z.rqs, NrSwitches);
    if |z.tasks| == |s.tasks| {
      SumSame(s.tasks, z.tasks, Ctx);
      SumSame(s.tasks, z.tasks, Switched);
    }
  }

  // A pass raises ctx of the task chosen, and then a switch count of the task left.
  lemma PickSum(s: State, c: nat, next: nat, f: Task -> int, chosen: Task, left: Task)
    requires SchedEnabled(s, c, Pick(next)) && chosen == s.tasks[next].(ctx := s.tasks[next].ctx + 1)
    requires left == PickNext(s, c, next).tasks[s.rqs[c].curr]
    ensures var p := s.rqs[c].curr;
            Sum(PickNext(s, c, next).tasks, f)
            == Sum(s.tasks, f) + f(chosen) - f(s.tasks[next]) + if next == p then 0 else f(left) - f(s.tasks[p])
  {
    var p, mid := s.rqs[c].curr, s.tasks[next := chosen];
    SumUpdate(s.tasks, next, chosen, f);
    if next != p {
      SumUpdate(mid, p, left, f);
    }
    assert PickNext(s, c, next).tasks == if next == p then mid else mid[p := left];
  }

  lemma PickStep(s: State, c: nat, next: nat)
    requires SchedEnabled(s, c, Pick(next))
    ensures Sum(PickNext(s, c, next).tasks, Ctx) == Sum(s.tasks, Ctx) + 1
    ensures Sum(PickNext(s, c, next).tasks, Switched) == Sum(s.tasks, Switched) + Count(next != s.rqs[c].curr)
    ensures Sum(PickNext(s, c, next).rqs, NrSwitches) == Sum(s.rqs, NrSwitches) + Count(next != s.rqs[c].curr)
  {
    var z, chosen := PickNext(s, c, next), s.tasks[next].(ctx := s.tasks[next].ctx + 1);
    PickSum(s, c, next, Ctx, chosen, z.tasks[s.rqs[c].curr]);
    PickSum(s, c, next, Switched, chosen, z.tasks[s.rqs[c].curr]);
    SumUpdate(s.rqs, c, z.rqs[c], NrSwitches);
  }

  // Main result: over all tasks ever created and all CPUs, the voluntary and involuntary
  // switch counts add up to nr_switches, and ctx exceeds it by exactly the re-picks.
  lemma {:induction false} DispatchAccounts(s: State, acts: seq<Action>, z: State)
    requires Runs(s, acts, z)
    ensures Sum(z.tasks, Switched) - Sum(s.tasks, Switched) == Sum(z.rqs, NrSwitches) - Sum(s.rqs, NrSwitches)
    ensures Sum(z.tasks, Ctx) - Sum(s.tasks, Ctx)
         == Sum(z.rqs, NrSwitches) - Sum(s.rqs, NrSwitches) + Repicks(s, acts)
    decreases |acts|
  {
    if acts != [] {
      var a := acts[0];
      if a.BySched? && a.sched.Pick? {
        PickStep(s, a.c, a.sched.next);
      } else {
        NextQuiet(s, a);
        QuietSums(s, Next(s, a));
      }
      DispatchAccounts(Next(s, a), acts[1..], z);
    }
  }

  // The same from boot, where every counter is zero.
  lemma DispatchAccountsFromBoot(n: nat, acts: seq<Action>, z: State)
    requires Runs(Boot(n), acts, z)
    ensures Sum(z.tasks, Switched) == Sum(z.rqs, NrSwitches)
    ensures Sum(z.tasks, Ctx) == Sum(z.rqs, NrSwitches) + Repicks(Boot(n), acts)
    ensures forall p :: 0 <= p < |z.tasks| ==> z.tasks[p].ctx == Dispatches(acts, p)
  {
    var b := Boot(n);
    SumZero(b.tasks, Ctx);
    SumZero(b.tasks, Switched);
    SumZero(b.rqs, NrSwitches);
    DispatchAccounts(b, acts, z);
    forall p | 0 <= p < |z.tasks| ensures z.tasks[p].ctx == Dispatches(acts, p) {
      CtxCountsDispatches(b, acts, z, p);
    }
  }
}
