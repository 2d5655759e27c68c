/**
 What a task does to itself has the effect it is meant to have: it sleeps or dies in
 the state it set, the freezer's flag stays as set, and every wait ends once.
 */
module OwnSteps {
  import opened Protocol
  import opened ProtocolInvariant
  import opened ProtocolSteps
  import opened SchedulerCounters
  import LostWakeup
  import opened WakeMasks

  // ---- Going to sleep ----

  // The step sets the running task's state to these bits.
  ghost predicate Sets(step: TaskStep, bits: set<Bit>) {
    step == SetState(bits) || step == SetSpecialState(bits) || step == WaitAnnounce(bits)
  }

  // Main result: a task that sets its state, and is not woken by a wakeup that looks for that state, goes to
  // sleep in it when it schedules, unless it set another one or a signal came.  A dying task dies so.
  lemma SleepsAsSet(n: nat, acts: seq<Action>, s: State, c: nat, step: TaskStep, bits: set<Bit>,
                    more: seq<Action>, z: State, d: nat)
    requires Runs(Boot(n), acts, s) && TaskEnabled(s, c, step) && Sets(step, bits) && bits != RUNNING
    requires forall w :: 0 <= w < |s.wakers| ==> Misses(s, s.rqs[c].curr, bits, w)
    requires Runs(TaskNext(s, c, step), more, z) && NoOwnChange(TaskNext(s, c, step), more, s.rqs[c].curr)
    requires CallsMiss(more, s.rqs[c].curr, bits)
    requires SchedEnabled(z, d, SchedDecide(false)) && z.rqs[d].sched == Deciding(false)
    requires z.rqs[d].curr == s.rqs[c].curr
    ensures var p, after := s.rqs[c].curr, DecideNext(z, d, false);
            p < |after.tasks| && after.tasks[p].onRq.Off? && after.tasks[p].state == bits
  {
    var p, set' := s.rqs[c].curr, TaskNext(s, c, step);
    BootInv(n);
    RunInv(Boot(n), acts, s);
    NextInv(s, ByTask(c, step));
    forall w | 0 <= w < |set'.wakers| ensures Misses(set', p, bits, w) { assert Misses(s, p, bits, w); }
    StateRespected(set', more, z, p, bits);
  }

  // ---- The freezer's flag ----

  // The action is p's own setting of the flag.
  ghost predicate Freezes(s: State, a: Action, p: nat) {
    a.ByTask? && a.task.SetFrozen? && a.c < |s.rqs| && s.rqs[a.c].curr == p
  }

  ghost predicate NoFreeze(s: State, acts: seq<Action>, p: nat)
    decreases |acts|
  {
    acts != [] ==> Enabled(s, acts[0]) && !Freezes(s, acts[0], p) && NoFreeze(Next(s, acts[0]), acts[1..], p)
  }

  ghost predicate SameFlag(s: State, z: State, p: nat)
    requires p < |s.tasks|
  {
    p < |z.tasks| && z.tasks[p].frozen == s.tasks[p].frozen
  }

  lemma FlagByWaker(s: State, w: nat, step: WakeStep, p: nat)
    requires WakeEnabled(s, w, step) && p < |s.tasks|
    ensures SameFlag(s, WakeNext(s, w, step), p)
  {
  }

  lemma FlagByMove(s: State, q: nat, birth: BirthStep, mig: MigStep, p: nat)
    requires p < |s.tasks|
    ensures BirthEnabled(s, q, birth) ==> SameFlag(s, BirthNext(s, q, birth), p)
    ensures MigEnabled(s, q, mig) ==> SameFlag(s, MigNext(s, q, mig), p)
  {
  }

  lemma FlagBySched(s: State, c: nat, step: SchedStep, p: nat)
    requires SchedEnabled(s, c, step) && p < |s.tasks|
    ensures SameFlag(s, SchedNext(s, c, step), p)
  {
  }

  lemma FlagNext(s: State, a: Action, p: nat)
    requires Enabled(s, a) && p < |s.tasks| && !Freezes(s, a, p)
    ensures SameFlag(s, Next(s, a), p)
  {
    match a
    case ByWaker(w, step) => FlagByWaker(s, w, step, p);
    case ByBirth(q, step) => FlagByMove(s, q, step, MigDetach, p);
    case ByMig(q, step) => FlagByMove(s, q, BirthLockPi, step, p);
    case BySched(c, step) => FlagBySched(s, c, step, p);
    case _ =>
  }

  lemma {:induction false} RunFlag(s: State, acts: seq<Action>, z: State, p: nat)
    requires Runs(s, acts, z) && NoFreeze(s, acts, p) && p < |s.tasks|
    ensures SameFlag(s, z, p)
    decreases |acts|
  {
    if acts != [] {
      FlagNext(s, acts[0], p);
      RunFlag(Next(s, acts[0]), acts[1..], z, p);
    }
  }

  // Main result: the flag stays as a task last set it; and a task that sleeps frozen is not counted as load.
  lemma FreezerRespected(s: State, c: nat, frozen: bool, acts: seq<Action>, z: State)
    requires TaskEnabled(s, c, SetFrozen(frozen))
    requires Runs(TaskNext(s, c, SetFrozen(frozen)), acts, z)
    requires NoFreeze(TaskNext(s, c, SetFrozen(frozen)), acts, s.rqs[c].curr)
    ensures var p := s.rqs[c].curr;
            && p < |z.tasks| && z.tasks[p].frozen == frozen
            && (frozen && z.tasks[p].onRq.Off? && z.tasks[p].state != {Waking} ==> Counted(z.tasks[p]) == 0)
  {
    RunFlag(TaskNext(s, c, SetFrozen(frozen)), acts, z, s.rqs[c].curr);
  }

  // ---- Waits ----

  // p begins a wait, or ends one by finding its condition set or by returning.
  ghost predicate Begins(s: State, a: Action, p: nat) {
    a.ByTask? && a.task.WaitAnnounce? && a.c < |s.rqs| && s.rqs[a.c].curr == p
  }

  ghost predicate Ends(s: State, a: Action, p: nat) {
    && a.ByTask? && HasCurrent(s, a.c) && s.rqs[a.c].curr == p
    && (a.task.WaitReturn? || (a.task.WaitTest? && s.tasks[p].cond))
  }

  ghost function Waiting(s: State, p: nat): int { Count(LostWakeup.Waits(s, p)) }

  ghost function Begun(s: State, acts: seq<Action>, p: nat): int
    decreases |acts|
  {
    if acts == [] || !Enabled(s, acts[0]) then 0
    else Count(Begins(s, acts[0], p)) + Begun(Next(s, acts[0]), acts[1..], p)
  }

  ghost function Ended(s: State, acts: seq<Action>, p: nat): int
    decreases |acts|
  {
    if acts == [] || !Enabled(s, acts[0]) then 0
    else Count(Ends(s, acts[0], p)) + Ended(Next(s, acts[0]), acts[1..], p)
  }

  lemma WaitingNext(s: State, a: Action, p: nat)
    requires Enabled(s, a)
    ensures Waiting(Next(s, a), p) == Waiting(s, p) + Count(Begins(s, a, p)) - Count(Ends(s, a, p))
  {
    if !a.ByTask? && !a.WakeCall? {
      if p < |s.tasks| { LostWakeup.WaitKept(s, a, p); } else { SameTasks(s, a); }
    }
  }

  lemma SameTasks(s: State, a: Action)
    requires Enabled(s, a) && !(a.ByTask? && a.task.Fork?)
    ensures |Next(s, a).tasks| == |s.tasks|
  {
    match a
    case ByWaker(_, _) =>
    case BySched(_, _) =>
    case _ =>
  }

  // Main result: in every run, the waits a task has begun are those it has ended and the one it is in, if any.
  lemma {:induction false} EveryWaitEndsOnce(s: State, acts: seq<Action>, z: State, p: nat)
    requires Runs(s, acts, z)
    ensures Waiting(s, p) + Begun(s, acts, p) == Ended(s, acts, p) + Waiting(z, p)
    decreases |acts|
  {
    if acts != [] {
      WaitingNext(s, acts[0], p);
      EveryWaitEndsOnce(Next(s, acts[0]), acts[1..], z, p);
    }
  }

  // ---- Conditions ----

  // p resets its condition, or a wakeup of it sets the condition first.
  ghost predicate Resets(s: State, a: Action, p: nat) {
    a.ByTask? && a.task.CondReset? && a.c < |s.rqs| && s.rqs[a.c].curr == p
  }

  ghost predicate SetsCondition(a: Action, p: nat) { a.WakeCall? && a.p == p && a.signals }

  // What the last of these leaves.
  ghost function CondAfter(s: State, acts: seq<Action>, p: nat, before: bool): bool
    decreases |acts|
  {
    if acts == [] || !Enabled(s, acts[0]) then before
    else
      CondAfter(Next(s, acts[0]), acts[1..], p, !Resets(s, acts[0], p) && (before || SetsCondition(acts[0], p)))
  }

  lemma CondNext(s: State, a: Action, p: nat)
    requires Enabled(s, a) && p < |s.tasks|
    ensures p < |Next(s, a).tasks|
    ensures Next(s, a).tasks[p].cond == (!Resets(s, a, p) && (s.tasks[p].cond || SetsCondition(a, p)))
  {
    if !a.ByTask? && !a.WakeCall? {
      LostWakeup.WaitKept(s, a, p);
    }
  }

  // Main result: in every run a condition is as the last reset or signal left it.
  lemma {:induction false} ConditionIsLast(s: State, acts: seq<Action>, z: State, p: nat)
    requires Runs(s, acts, z) && p < |s.tasks|
    ensures p < |z.tasks| && z.tasks[p].cond == CondAfter(s, acts, p, s.tasks[p].cond)
    decreases |acts|
  {
    if acts != [] {
      CondNext(s, acts[0], p);
      ConditionIsLast(Next(s, acts[0]), acts[1..], z, p);
    }
  }

  // ---- Forks ----

  ghost function Forks(acts: seq<Action>): nat {
    if acts == [] then 0 else (if acts[0].ByTask? && acts[0].task.Fork? then 1 else 0) + Forks(acts[1..])
  }

  // In every run the tasks are those there were and one for each fork.
  lemma {:induction false} ForksCounted(s: State, acts: seq<Action>, z: State)
    requires Runs(s, acts, z)
    ensures |z.tasks| == |s.tasks| + Forks(acts)
    decreases |acts|
  {
    if acts != [] {
      if !(acts[0].ByTask? && acts[0].task.Fork?) {
        SameTasks(s, acts[0]);
      }
      ForksCounted(Next(s, acts[0]), acts[1..], z);
    }
  }
}
