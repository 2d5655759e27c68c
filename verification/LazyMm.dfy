/**
 Lazy address spaces: kernel threads run on the address space of the task before
 them, and reference counts must keep it alive.  Two versions of the context
 switch are modelled, the one that grabs and drops at every borrowing and the one
 that hands a borrowed reference over, and the second is shown to do the same.
 */
module LazyMm {
  import opened Sums

  datatype Option<T> = None | Some(value: T)

  // A user task has an mm, which is also its active_mm; a kernel thread has none and borrows.
  datatype Task = Task(mm: Option<nat>, activeMm: Option<nat>)

  // mm_users and mm_count; holders are the mm_users not held through a task's mm.
  datatype Mm = Mm(users: nat, holders: nat, count: int, freed: bool)

  datatype Rq = Rq(curr: nat, prevMm: Option<nat>)

  datatype State = State(tasks: seq<Task>, rqs: seq<Rq>, mms: seq<Mm>)

  datatype ForkKind = ShareVm | CopyVm

  datatype Action =
    | Switch(c: nat, next: nat)
    | Finish(c: nat)
    | ExitMm(c: nat)
    | Fork(c: nat, kind: ForkKind)
    | GetUser(m: nat)
    | PutUser(m: nat)

  // ---- Reference counts ----

  function Grab(x: Mm): Mm { x.(count := x.count + 1) }

  // mmdrop: the last reference frees.
  function Drop(x: Mm): Mm { x.(count := x.count - 1, freed := x.freed || x.count == 1) }

  // mmput on behalf of a holder: the last user gives back the users' reference.
  function Put(x: Mm): Mm
    requires x.users > 0 && x.holders > 0
  {
    var y := x.(users := x.users - 1, holders := x.holders - 1);
    if y.users == 0 then Drop(y) else y
  }

  // ---- The two context switches ----

  predicate CanSwitch(s: State, c: nat, next: nat) {
    && c < |s.rqs| && next < |s.tasks| && s.rqs[c].curr < |s.tasks| && s.rqs[c].prevMm.None?
    && (forall d :: 0 <= d < |s.rqs| ==> s.rqs[d].curr != next)
    && s.tasks[s.rqs[c].curr].activeMm.Some? && s.tasks[s.rqs[c].curr].activeMm.value < |s.mms|
  }

  // kernel to kernel: hand over; user to kernel: grab; kernel to user: drop later; user to user: nothing.
  function SwitchByTransfer(s: State, c: nat, next: nat): State
    requires CanSwitch(s, c, next)
  {
    var p := s.rqs[c].curr;
    var prev, incoming, held := s.tasks[p], s.tasks[next], s.tasks[p].activeMm;
    match (prev.mm, incoming.mm)
    case (None, None) =>
      State(s.tasks[next := incoming.(activeMm := held)][p := prev.(activeMm := None)],
            s.rqs[c := Rq(next, None)], s.mms)
    case (Some(_), None) =>
      State(s.tasks[next := incoming.(activeMm := held)],
            s.rqs[c := Rq(next, None)], s.mms[held.value := Grab(s.mms[held.value])])
    case (None, Some(_)) =>
      State(s.tasks[p := prev.(activeMm := None)], s.rqs[c := Rq(next, held)], s.mms)
    case (Some(_), Some(_)) =>
      State(s.tasks, s.rqs[c := Rq(next, None)], s.mms)
  }

  // Grab for every borrower, and drop later after every borrower.
  function SwitchByGrab(s: State, c: nat, next: nat): State
    requires CanSwitch(s, c, next)
  {
    var p := s.rqs[c].curr;
    var held := s.tasks[p].activeMm;
    var borrowed := if s.tasks[next].mm.None?
      then s.(tasks := s.tasks[next := s.tasks[next].(activeMm := held)],
              mms := s.mms[held.value := Grab(s.mms[held.value])])
      else s;
    if s.tasks[p].mm.None?
    then borrowed.(tasks := borrowed.tasks[p := borrowed.tasks[p].(activeMm := None)],
                   rqs := s.rqs[c := Rq(next, held)])
    else borrowed.(rqs := s.rqs[c := Rq(next, None)])
  }

  // ---- All steps ----

  predicate Enabled(s: State, a: Action) {
    match a
    case Switch(c, next) => CanSwitch(s, c, next)
    case Finish(c) => c < |s.rqs| && (s.rqs[c].prevMm.Some? ==> s.rqs[c].prevMm.value < |s.mms|)
    case ExitMm(c) =>
      && c < |s.rqs| && s.rqs[c].curr < |s.tasks|
      && s.tasks[s.rqs[c].curr].mm.Some? && s.tasks[s.rqs[c].curr].mm.value < |s.mms|
    case Fork(c, _) =>
      c < |s.rqs| && s.rqs[c].curr < |s.tasks|
      && (s.tasks[s.rqs[c].curr].mm.Some? ==> s.tasks[s.rqs[c].curr].mm.value < |s.mms|)
    case GetUser(m) => m < |s.mms| && s.mms[m].users > 0
    case PutUser(m) => m < |s.mms| && s.mms[m].users > 0 && s.mms[m].holders > 0
  }

  // finish_task_switch: drop what the switch left to drop.
  function FinishNext(s: State, c: nat): State
    requires Enabled(s, Finish(c))
  {
    match s.rqs[c].prevMm
    case None => s
    case Some(m) => s.(rqs := s.rqs[c := s.rqs[c].(prevMm := None)], mms := s.mms[m := Drop(s.mms[m])])
  }

  // The running task gives up its mm and goes on as a borrower; its user reference is put later.
  function ExitNext(s: State, c: nat): State
    requires Enabled(s, ExitMm(c))
  {
    var p := s.rqs[c].curr;
    var m := s.tasks[p].mm.value;
    s.(tasks := s.tasks[p := Task(None, s.tasks[p].activeMm)],
       mms := s.mms[m := Grab(s.mms[m]).(holders := s.mms[m].holders + 1)])
  }

  // copy_mm.
  function ForkNext(s: State, c: nat, kind: ForkKind): State
    requires Enabled(s, Fork(c, kind))
  {
    var parent := s.tasks[s.rqs[c].curr];
    match parent.mm
    case None => s.(tasks := s.tasks + [Task(None, None)])
    case Some(m) =>
      if kind.ShareVm? then
        s.(tasks := s.tasks + [Task(Some(m), Some(m))], mms := s.mms[m := s.mms[m].(users := s.mms[m].users + 1)])
      else
        s.(tasks := s.tasks + [Task(Some(|s.mms|), Some(|s.mms|))], mms := s.mms + [Mm(1, 0, 1, false)])
  }

  // One step; byTransfer selects the version of the context switch.
  function Next(byTransfer: bool, s: State, a: Action): State
    requires Enabled(s, a)
  {
    match a
    case Switch(c, next) => if byTransfer then SwitchByTransfer(s, c, next) else SwitchByGrab(s, c, next)
    case Finish(c) => FinishNext(s, c)
    case ExitMm(c) => ExitNext(s, c)
    case Fork(c, kind) => ForkNext(s, c, kind)
    case GetUser(m) => s.(mms := s.mms[m := s.mms[m].(users := s.mms[m].users + 1, holders := s.mms[m].holders + 1)])
    case PutUser(m) => s.(mms := s.mms[m := Put(s.mms[m])])
  }

  // n CPUs whose idle tasks borrow mm 0, which its one permanent holder keeps.
  function Boot(n: nat): State {
    State(seq(n, _ => Task(None, Some(0))), seq(n, c requires 0 <= c => Rq(c, None)), [Mm(1, 1, n + 1, false)])
  }

  ghost predicate Runs(byTransfer: bool, s: State, acts: seq<Action>, z: State)
    decreases |acts|
  {
    if acts == [] then s == z
    else Enabled(s, acts[0]) && Runs(byTransfer, Next(byTransfer, s, acts[0]), acts[1..], z)
  }

  // ---- The invariant ----

  ghost function One(b: bool): int { if b then 1 else 0 }

  ghost function Uses(m: nat): Task -> int { (t: Task) => One(t.mm == Some(m)) }
  ghost function Borrows(m: nat): Task -> int { (t: Task) => One(t.mm.None? && t.activeMm == Some(m)) }
  ghost function Leaves(m: nat): Rq -> int { (r: Rq) => One(r.prevMm == Some(m)) }

  ghost predicate Running(s: State, t: nat) { exists c :: 0 <= c < |s.rqs| && s.rqs[c].curr == t }

  // A user task is on its own mm; a kernel thread borrows exactly while it runs.
  ghost predicate TaskOk(s: State, t: nat)
    requires t < |s.tasks|
  {
    var x := s.tasks[t];
    && (x.activeMm.Some? ==> x.activeMm.value < |s.mms|)
    && (x.mm.Some? ==> x.activeMm == x.mm)
    && (x.mm.None? ==> (x.activeMm.Some? <==> Running(s, t)))
  }

  ghost predicate Shape(s: State) {
    && (forall c :: 0 <= c < |s.rqs| ==>
          s.rqs[c].curr < |s.tasks| && (s.rqs[c].prevMm.Some? ==> s.rqs[c].prevMm.value < |s.mms|))
    && (forall c, d :: 0 <= c < d < |s.rqs| ==> s.rqs[c].curr != s.rqs[d].curr)
    && (forall t :: 0 <= t < |s.tasks| ==> TaskOk(s, t))
  }

  // mm_users counts the tasks on the mm and the other holders; mm_count is one for live users, one
  // for each kernel thread that borrows the mm, and one for each runqueue that has yet to drop it.
  ghost predicate MmOk(s: State, m: nat)
    requires m < |s.mms|
  {
    var x := s.mms[m];
    && x.users == Sum(s.tasks, Uses(m)) + x.holders
    && x.count == One(x.users > 0) + Sum(s.tasks, Borrows(m)) + Sum(s.rqs, Leaves(m))
    && (x.freed <==> x.count == 0)
  }

  ghost predicate Inv(s: State) {
    Shape(s) && forall m :: 0 <= m < |s.mms| ==> MmOk(s, m)
  }

  lemma BootInv(n: nat)
    ensures Inv(Boot(n))
  {
    var s := Boot(n);
    forall t | 0 <= t < n ensures TaskOk(s, t) {
      assert s.rqs[t].curr == t;
    }
    SumZero(s.tasks, Uses(0));
    SumZero(s.rqs, Leaves(0));
    SumOnes(s.tasks, Borrows(0));
  }

  lemma {:induction false} SumOnes<T(!new)>(xs: seq<T>, f: T -> int)
    requires forall i :: 0 <= i < |xs| ==> f(xs[i]) == 1
    ensures Sum(xs, f) == |xs|
  {
    if xs != [] {
      SumOnes(xs[..|xs| - 1], f);
    }
  }

  // ---- Every step keeps it ----

  lemma SwitchRunning(s: State, z: State, c: nat, next: nat, t: nat)
    requires Shape(s) && CanSwitch(s, c, next)
    requires |z.rqs| == |s.rqs| && z.rqs[c].curr == next
    requires forall d :: 0 <= d < |s.rqs| && d != c ==> z.rqs[d].curr == s.rqs[d].curr
    ensures Running(z, t) <==> t == next || (Running(s, t) && t != s.rqs[c].curr)
  {
    if Running(s, t) && t != s.rqs[c].curr {
      var d :| 0 <= d < |s.rqs| && s.rqs[d].curr == t;
      assert z.rqs[d].curr == t;
    }
    assert z.rqs[c].curr == next;
  }

  // The outgoing task is running, the incoming one is not.
  lemma SwitchFacts(s: State, c: nat, next: nat)
    requires Inv(s) && CanSwitch(s, c, next)
    ensures next != s.rqs[c].curr && TaskOk(s, next) && TaskOk(s, s.rqs[c].curr)
    ensures Running(s, s.rqs[c].curr) && !Running(s, next)
  {
  }

  lemma SwitchShape(byTransfer: bool, s: State, c: nat, next: nat)
    requires Inv(s) && CanSwitch(s, c, next)
    ensures Shape(Next(byTransfer, s, Switch(c, next)))
  {
    var z := Next(byTransfer, s, Switch(c, next));
    SwitchFacts(s, c, next);
    forall t | 0 <= t < |z.tasks| ensures TaskOk(z, t) {
      assert TaskOk(s, t);
      SwitchRunning(s, z, c, next, t);
    }
  }

  // Both versions change the sums of one mm alike, but for the reference left to drop.
  lemma SwitchSums(byTransfer: bool, s: State, c: nat, next: nat, m: nat)
    requires Inv(s) && CanSwitch(s, c, next) && m < |s.mms|
    ensures var z, p := Next(byTransfer, s, Switch(c, next)), s.rqs[c].curr;
            && Sum(z.tasks, Uses(m)) == Sum(s.tasks, Uses(m))
            && Sum(z.tasks, Borrows(m)) == Sum(s.tasks, Borrows(m))
                 - One(s.tasks[p].mm.None? && s.tasks[p].activeMm == Some(m))
                 + One(s.tasks[next].mm.None? && s.tasks[p].activeMm == Some(m))
            && Sum(z.rqs, Leaves(m)) == Sum(s.rqs, Leaves(m)) + One(z.rqs[c].prevMm == Some(m))
  {
    var z, p := Next(byTransfer, s, Switch(c, next)), s.rqs[c].curr;
    SwitchFacts(s, c, next);
    var mid := s.tasks[next := z.tasks[next]];
    assert z.tasks == mid[p := z.tasks[p]];
    SumUpdate(s.tasks, next, z.tasks[next], Uses(m));
    SumUpdate(mid, p, z.tasks[p], Uses(m));
    SumUpdate(s.tasks, next, z.tasks[next], Borrows(m));
    SumUpdate(mid, p, z.tasks[p], Borrows(m));
    SumUpdate(s.rqs, c, z.rqs[c], Leaves(m));
  }

  lemma SwitchInv(byTransfer: bool, s: State, c: nat, next: nat)
    requires Inv(s) && CanSwitch(s, c, next)
    ensures Inv(Next(byTransfer, s, Switch(c, next)))
  {
    var z := Next(byTransfer, s, Switch(c, next));
    SwitchShape(byTransfer, s, c, next);
    forall m | 0 <= m < |z.mms| ensures MmOk(z, m) {
      assert MmOk(s, m);
      SwitchSums(byTransfer, s, c, next, m);
      InUse(s, c);
      assert z.mms[m].count >= 0 by { Counted(z, m); }
    }
  }

  lemma Counted(s: State, m: nat)
    ensures Sum(s.tasks, Uses(m)) >= 0 && Sum(s.tasks, Borrows(m)) >= 0 && Sum(s.rqs, Leaves(m)) >= 0
  {
    SumNonNegative(s.tasks, Uses(m));
    SumNonNegative(s.tasks, Borrows(m));
    SumNonNegative(s.rqs, Leaves(m));
  }

  // Main result: the address space a CPU runs on is referenced and has not been freed.
  lemma InUse(s: State, c: nat)
    requires Inv(s) && c < |s.rqs|
    ensures var a := s.tasks[s.rqs[c].curr].activeMm;
            a.Some? && a.value < |s.mms| && s.mms[a.value].count > 0 && !s.mms[a.value].freed
  {
    var p := s.rqs[c].curr;
    assert Running(s, p) && TaskOk(s, p);
    var m := s.tasks[p].activeMm.value;
    assert MmOk(s, m);
    Counted(s, m);
    SumBounds(s.tasks, Uses(m), p);
    SumBounds(s.tasks, Borrows(m), p);
  }

  // An address space a runqueue has yet to drop is still there.
  lemma LeftInUse(s: State, c: nat)
    requires Inv(s) && c < |s.rqs| && s.rqs[c].prevMm.Some?
    ensures s.mms[s.rqs[c].prevMm.value].count > 0
  {
    var m := s.rqs[c].prevMm.value;
    assert MmOk(s, m);
    Counted(s, m);
    SumBounds(s.rqs, Leaves(m), c);
  }

  lemma FinishInv(s: State, c: nat)
    requires Inv(s) && Enabled(s, Finish(c))
    ensures Inv(FinishNext(s, c))
  {
    var z := FinishNext(s, c);
    if s.rqs[c].prevMm.Some? {
      LeftInUse(s, c);
      SameRunning(s, z);
      forall t | 0 <= t < |z.tasks| ensures TaskOk(z, t) { assert TaskOk(s, t); }
      forall m | 0 <= m < |z.mms| ensures MmOk(z, m) {
        assert MmOk(s, m);
        SumUpdate(s.rqs, c, z.rqs[c], Leaves(m));
      }
    }
  }

  lemma SameRunning(s: State, z: State)
    requires |z.rqs| == |s.rqs| && forall d :: 0 <= d < |s.rqs| ==> z.rqs[d].curr == s.rqs[d].curr
    ensures forall t :: Running(z, t) <==> Running(s, t)
  {
    forall t ensures Running(z, t) <==> Running(s, t) {
      if Running(s, t) {
        var d :| 0 <= d < |s.rqs| && s.rqs[d].curr == t;
        assert z.rqs[d].curr == t;
      }
    }
  }

  lemma ExitInv(s: State, c: nat)
    requires Inv(s) && Enabled(s, ExitMm(c))
    ensures Inv(ExitNext(s, c))
  {
    var z, p := ExitNext(s, c), s.rqs[c].curr;
    assert TaskOk(s, p) && Running(s, p);
    SameRunning(s, z);
    forall t | 0 <= t < |z.tasks| ensures TaskOk(z, t) { assert TaskOk(s, t); }
    forall m | 0 <= m < |z.mms| ensures MmOk(z, m) {
      assert MmOk(s, m);
      InUse(s, c);
      SumUpdate(s.tasks, p, z.tasks[p], Uses(m));
      SumUpdate(s.tasks, p, z.tasks[p], Borrows(m));
    }
  }

  lemma ForkInv(s: State, c: nat, kind: ForkKind)
    requires Inv(s) && Enabled(s, Fork(c, kind))
    ensures Inv(ForkNext(s, c, kind))
  {
    var z, p := ForkNext(s, c, kind), s.rqs[c].curr;
    var child := z.tasks[|s.tasks|];
    assert z.tasks == s.tasks + [child];
    SameRunning(s, z);
    forall t | 0 <= t < |z.tasks| ensures TaskOk(z, t) { if t < |s.tasks| { assert TaskOk(s, t); } }
    forall m | 0 <= m < |z.mms| ensures MmOk(z, m) {
      ForkMm(s, c, kind, m);
    }
  }

  // The sums over the tasks with the child.
  lemma ForkSums(s: State, c: nat, kind: ForkKind, m: nat)
    requires Enabled(s, Fork(c, kind))
    ensures var z := ForkNext(s, c, kind); var child := z.tasks[|s.tasks|];
            && Sum(z.tasks, Uses(m)) == Sum(s.tasks, Uses(m)) + Uses(m)(child)
            && Sum(z.tasks, Borrows(m)) == Sum(s.tasks, Borrows(m)) + Borrows(m)(child)
            && z.rqs == s.rqs
  {
    var child := ForkNext(s, c, kind).tasks[|s.tasks|];
    SumAppend(s.tasks, child, Uses(m));
    SumAppend(s.tasks, child, Borrows(m));
  }

  lemma ForkMm(s: State, c: nat, kind: ForkKind, m: nat)
    requires Inv(s) && Enabled(s, Fork(c, kind)) && m < |ForkNext(s, c, kind).mms|
    ensures MmOk(ForkNext(s, c, kind), m)
  {
    ForkSums(s, c, kind, m);
    if m < |s.mms| {
      assert MmOk(s, m);
      SumBounds(s.tasks, Uses(m), s.rqs[c].curr);
    } else {
      NobodyYet(s, m);
    }
  }

  lemma NobodyYet(s: State, m: nat)
    requires Shape(s) && m >= |s.mms|
    ensures Sum(s.tasks, Uses(m)) == 0 && Sum(s.tasks, Borrows(m)) == 0 && Sum(s.rqs, Leaves(m)) == 0
  {
    forall t | 0 <= t < |s.tasks| ensures Uses(m)(s.tasks[t]) == 0 && Borrows(m)(s.tasks[t]) == 0 {
      assert TaskOk(s, t);
    }
    SumZero(s.tasks, Uses(m));
    SumZero(s.tasks, Borrows(m));
    SumZero(s.rqs, Leaves(m));
  }

  lemma UserInv(s: State, a: Action)
    requires Inv(s) && Enabled(s, a) && (a.GetUser? || a.PutUser?)
    ensures Inv(Next(true, s, a))
  {
    var z := Next(true, s, a);
    SameRunning(s, z);
    forall t | 0 <= t < |z.tasks| ensures TaskOk(z, t) { assert TaskOk(s, t); }
    forall m | 0 <= m < |z.mms| ensures MmOk(z, m) {
      assert MmOk(s, m);
      Counted(s, m);
    }
  }

  lemma NextInv(byTransfer: bool, s: State, a: Action)
    requires Inv(s) && Enabled(s, a)
    ensures Inv(Next(byTransfer, s, a))
  {
    match a
    case Switch(c, next) => SwitchInv(byTransfer, s, c, next);
    case Finish(c) => FinishInv(s, c);
    case ExitMm(c) => ExitInv(s, c);
    case Fork(c, kind) => ForkInv(s, c, kind);
    case _ => UserInv(s, a);
  }

  lemma {:induction false} RunInv(byTransfer: bool, s: State, acts: seq<Action>, z: State)
    requires Inv(s) && Runs(byTransfer, s, acts, z)
    ensures Inv(z)
    decreases |acts|
  {
    if acts != [] {
      NextInv(byTransfer, s, acts[0]);
      RunInv(byTransfer, Next(byTransfer, s, acts[0]), acts[1..], z);
    }
  }

  // Main result: in every run of either version mm_count is exact and no CPU runs on a freed mm.
  lemma CountsExact(byTransfer: bool, n: nat, acts: seq<Action>, z: State)
    requires Runs(byTransfer, Boot(n), acts, z)
    ensures forall m :: 0 <= m < |z.mms| ==>
              z.mms[m].count == One(z.mms[m].users > 0) + Sum(z.tasks, Borrows(m)) + Sum(z.rqs, Leaves(m))
    ensures forall m :: 0 <= m < |z.mms| ==> (z.mms[m].freed <==> z.mms[m].count == 0)
    ensures forall c :: 0 <= c < |z.rqs| ==>
              z.rqs[c].curr < |z.tasks| && z.tasks[z.rqs[c].curr].activeMm.Some?
              && z.tasks[z.rqs[c].curr].activeMm.value < |z.mms| && !z.mms[z.tasks[z.rqs[c].curr].activeMm.value].freed
  {
    BootInv(n);
    RunInv(byTransfer, Boot(n), acts, z);
    forall m | 0 <= m < |z.mms|
      ensures z.mms[m].count == One(z.mms[m].users > 0) + Sum(z.tasks, Borrows(m)) + Sum(z.rqs, Leaves(m))
      ensures z.mms[m].freed <==> z.mms[m].count == 0
    {
      assert MmOk(z, m);
    }
    forall c | 0 <= c < |z.rqs|
      ensures z.rqs[c].curr < |z.tasks| && z.tasks[z.rqs[c].curr].activeMm.Some?
              && z.tasks[z.rqs[c].curr].activeMm.value < |z.mms| && !z.mms[z.tasks[z.rqs[c].curr].activeMm.value].freed
    {
      InUse(z, c);
    }
  }

  // ---- Which address space a task gets ----

  // A child shares its parent's mm exactly if it was asked to and there is one; a copy is nobody else's, and
  // the child of a kernel thread has none.
  lemma ForkGives(byTransfer: bool, n: nat, acts: seq<Action>, s: State, c: nat, kind: ForkKind)
    requires Runs(byTransfer, Boot(n), acts, s) && Enabled(s, Fork(c, kind))
    ensures var z, parent := ForkNext(s, c, kind), s.tasks[s.rqs[c].curr];
            && |z.tasks| == |s.tasks| + 1 && z.rqs == s.rqs && z.tasks[..|s.tasks|] == s.tasks
            && var child := z.tasks[|s.tasks|];
            && (parent.mm.None? ==> child == Task(None, None) && z.mms == s.mms)
            && (parent.mm.Some? ==> child.mm.Some? && child.activeMm == child.mm && child.mm.value < |z.mms|)
            && (parent.mm.Some? && kind.ShareVm? ==>
                  child.mm == parent.mm && |z.mms| == |s.mms|
                  && z.mms[child.mm.value].users == s.mms[child.mm.value].users + 1)
            && (parent.mm.Some? && kind.CopyVm? ==>
                  && z.mms[child.mm.value].users == 1 && z.mms[child.mm.value].holders == 0
                  && (forall t :: 0 <= t < |s.tasks| ==> s.tasks[t].mm != child.mm && s.tasks[t].activeMm != child.mm)
                  && (forall m :: 0 <= m < |s.mms| ==> m != child.mm.value && z.mms[m] == s.mms[m]))
  {
    BootInv(n);
    RunInv(byTransfer, Boot(n), acts, s);
    forall t | 0 <= t < |s.tasks| ensures s.tasks[t].mm != Some(|s.mms|) && s.tasks[t].activeMm != Some(|s.mms|) {
      assert TaskOk(s, t);
    }
  }

  // The action takes or gives back a user reference of m that no task's mm holds.
  ghost function HolderChange(s: State, a: Action, m: nat): int {
    match a
    case GetUser(k) => One(k == m)
    case PutUser(k) => -One(k == m)
    case ExitMm(c) => One(c < |s.rqs| && s.rqs[c].curr < |s.tasks| && s.tasks[s.rqs[c].curr].mm == Some(m))
    case _ => 0
  }

  ghost function HolderChanges(byTransfer: bool, s: State, acts: seq<Action>, m: nat): int
    decreases |acts|
  {
    if acts == [] || !Enabled(s, acts[0]) then 0
    else HolderChange(s, acts[0], m) + HolderChanges(byTransfer, Next(byTransfer, s, acts[0]), acts[1..], m)
  }

  lemma {:induction false} RunHolders(byTransfer: bool, s: State, acts: seq<Action>, z: State, m: nat)
    requires Runs(byTransfer, s, acts, z) && m < |s.mms|
    ensures m < |z.mms| && z.mms[m].holders == s.mms[m].holders + HolderChanges(byTransfer, s, acts, m)
    decreases |acts|
  {
    if acts != [] {
      RunHolders(byTransfer, Next(byTransfer, s, acts[0]), acts[1..], z, m);
    }
  }

  // Main result: in every run mm_users counts the tasks that have this mm, the references taken, and those
  // of the tasks that gave the mm up, less the references put.
  lemma UsersExact(byTransfer: bool, n: nat, acts: seq<Action>, s: State, more: seq<Action>, z: State, m: nat)
    requires Runs(byTransfer, Boot(n), acts, s) && m < |s.mms| && Runs(byTransfer, s, more, z)
    ensures m < |z.mms|
    ensures z.mms[m].users - Sum(z.tasks, Uses(m))
         == s.mms[m].users - Sum(s.tasks, Uses(m)) + HolderChanges(byTransfer, s, more, m)
  {
    BootInv(n);
    RunInv(byTransfer, Boot(n), acts, s);
    RunInv(byTransfer, s, more, z);
    RunHolders(byTransfer, s, more, z, m);
    assert MmOk(s, m) && MmOk(z, m);
  }

  // A task that gives its mm up goes on running on it without having it.
  lemma ExitLeaves(byTransfer: bool, n: nat, acts: seq<Action>, s: State, c: nat)
    requires Runs(byTransfer, Boot(n), acts, s) && Enabled(s, ExitMm(c))
    ensures var z, p := ExitNext(s, c), s.rqs[c].curr;
            && z.rqs == s.rqs && p < |z.tasks| && z.tasks[p] == Task(None, s.tasks[p].mm)
            && z.mms[s.tasks[p].mm.value].users == s.mms[s.tasks[p].mm.value].users
  {
    BootInv(n);
    RunInv(byTransfer, Boot(n), acts, s);
    assert TaskOk(s, s.rqs[c].curr);
  }

  // A user task runs on its own mm and a kernel thread on that of the task before it, in either version;
  // a kernel thread that stops running borrows nothing.
  lemma SwitchRunsOn(byTransfer: bool, s: State, c: nat, next: nat)
    requires Inv(s) && CanSwitch(s, c, next)
    ensures var z, p := Next(byTransfer, s, Switch(c, next)), s.rqs[c].curr;
            && c < |z.rqs| && z.rqs[c].curr == next != p && next < |z.tasks| == |s.tasks|
            && z.tasks[next].mm == s.tasks[next].mm
            && z.tasks[next].activeMm == (if s.tasks[next].mm.Some? then s.tasks[next].mm else s.tasks[p].activeMm)
            && z.tasks[p] == (if s.tasks[p].mm.Some? then s.tasks[p] else Task(None, None))
            && (forall t :: 0 <= t < |s.tasks| && t != p && t != next ==> z.tasks[t] == s.tasks[t])
            && (forall d :: 0 <= d < |s.rqs| && d != c ==> z.rqs[d] == s.rqs[d])
  {
    SwitchFacts(s, c, next);
  }

  // ---- One version does what the other does ----

  // The state of the grabbing version g beside that of the handing-over version h: g may have drops
  // left to do that h never needs.
  ghost predicate Matches(g: State, h: State) {
    && g.tasks == h.tasks && |g.rqs| == |h.rqs| && |g.mms| == |h.mms|
    && (forall c :: 0 <= c < |g.rqs| ==>
          g.rqs[c].curr == h.rqs[c].curr && (h.rqs[c].prevMm == g.rqs[c].prevMm || h.rqs[c].prevMm.None?))
    && (forall m :: 0 <= m < |g.mms| ==> g.mms[m].users == h.mms[m].users && g.mms[m].holders == h.mms[m].holders)
  }

  lemma MatchesSwitch(g: State, h: State, c: nat, next: nat)
    requires Inv(g) && Inv(h) && Matches(g, h) && CanSwitch(g, c, next)
    ensures CanSwitch(h, c, next) && Matches(SwitchByGrab(g, c, next), SwitchByTransfer(h, c, next))
  {
    SwitchFacts(g, c, next);
  }

  lemma MatchesNext(g: State, h: State, a: Action)
    requires Inv(g) && Inv(h) && Matches(g, h) && Enabled(g, a)
    ensures Enabled(h, a) && Matches(Next(false, g, a), Next(true, h, a))
  {
    match a
    case Switch(c, next) => MatchesSwitch(g, h, c, next);
    case Finish(_) =>
    case ExitMm(_) =>
    case Fork(_, _) =>
    case _ =>
  }

  lemma {:induction false} MatchesRun(g: State, h: State, acts: seq<Action>, g': State) returns (h': State)
    requires Inv(g) && Inv(h) && Matches(g, h) && Runs(false, g, acts, g')
    ensures Runs(true, h, acts, h') && Inv(g') && Inv(h') && Matches(g', h')
    decreases |acts|
  {
    if acts == [] {
      h' := h;
    } else {
      MatchesNext(g, h, acts[0]);
      NextInv(false, g, acts[0]);
      NextInv(true, h, acts[0]);
      h' := MatchesRun(Next(false, g, acts[0]), Next(true, h, acts[0]), acts[1..], g');
    }
  }

  // Both versions do the same to a CPU: a switch and the drop after it lead to the same state, whatever
  // drops other CPUs have left to do.
  lemma SameNetEffect(s: State, c: nat, next: nat)
    requires Inv(s) && CanSwitch(s, c, next)
    ensures Enabled(SwitchByGrab(s, c, next), Finish(c)) && Enabled(SwitchByTransfer(s, c, next), Finish(c))
    ensures FinishNext(SwitchByGrab(s, c, next), c) == FinishNext(SwitchByTransfer(s, c, next), c)
  {
    SwitchFacts(s, c, next);
    InUse(s, c);
  }

  // With no drop left to do the two states are the same, down to every count.
  lemma MatchesEqual(g: State, h: State)
    requires Inv(g) && Inv(h) && Matches(g, h) && forall c :: 0 <= c < |g.rqs| ==> g.rqs[c].prevMm.None?
    ensures g == h
  {
    assert g.rqs == h.rqs;
    forall m | 0 <= m < |g.mms| ensures g.mms[m] == h.mms[m] {
      assert MmOk(g, m) && MmOk(h, m);
    }
  }

  // Main result: every run of the grabbing version is, action by action, a run of the version that
  // hands over, and whenever no drop is pending the two have reached the same state.
  lemma TransferRefinesGrab(n: nat, acts: seq<Action>, g: State) returns (h: State)
    requires Runs(false, Boot(n), acts, g)
    ensures Runs(true, Boot(n), acts, h)
    ensures (forall c :: 0 <= c < |g.rqs| ==> g.rqs[c].prevMm.None?) ==> g == h
    ensures forall m :: 0 <= m < |g.mms| ==> |g.mms| == |h.mms| && h.mms[m].count <= g.mms[m].count
  {
    BootInv(n);
    h := MatchesRun(Boot(n), Boot(n), acts, g);
    if forall c :: 0 <= c < |g.rqs| ==> g.rqs[c].prevMm.None? {
      MatchesEqual(g, h);
    }
    forall m | 0 <= m < |g.mms| ensures h.mms[m].count <= g.mms[m].count {
      assert MmOk(g, m) && MmOk(h, m);
      FewerLeaves(g.rqs, h.rqs, m);
    }
  }

  lemma {:induction false} FewerLeaves(xs: seq<Rq>, ys: seq<Rq>, m: nat)
    requires |xs| == |ys| && forall c :: 0 <= c < |xs| ==> ys[c].prevMm == xs[c].prevMm || ys[c].prevMm.None?
    ensures Sum(ys, Leaves(m)) <= Sum(xs, Leaves(m))
  {
    if xs != [] {
      FewerLeaves(xs[..|xs| - 1], ys[..|ys| - 1], m);
    }
  }

  // ---- The switches as they are carried out ----

  class Machine {
    var tasks: seq<Task>
    var rqs: seq<Rq>
    var mms: seq<Mm>

    ghost function Model(): State
      reads this
    {
      State(tasks, rqs, mms)
    }

    // context_switch, handing a borrowed reference over.
    method ContextSwitch(c: nat, next: nat)
      requires CanSwitch(Model(), c, next)
      modifies this
      ensures Model() == SwitchByTransfer(old(Model()), c, next)
    {
      var prev := rqs[c].curr;
      var held := tasks[prev].activeMm;
      if tasks[next].mm.None? {
        tasks := tasks[next := tasks[next].(activeMm := held)];
        if tasks[prev].mm.Some? {
          mms := mms[held.value := Grab(mms[held.value])];
        } else {
          tasks := tasks[prev := tasks[prev].(activeMm := None)];
        }
      } else if tasks[prev].mm.None? {
        rqs := rqs[c := rqs[c].(prevMm := held)];
        tasks := tasks[prev := tasks[prev].(activeMm := None)];
      }
      rqs := rqs[c := rqs[c].(curr := next)];
    }

    // The older context_switch, grabbing for each borrower.
    method OldContextSwitch(c: nat, next: nat)
      requires CanSwitch(Model(), c, next)
      modifies this
      ensures Model() == SwitchByGrab(old(Model()), c, next)
    {
      var prev := rqs[c].curr;
      var held := tasks[prev].activeMm;
      if tasks[next].mm.None? {
        tasks := tasks[next := tasks[next].(activeMm := held)];
        mms := mms[held.value := Grab(mms[held.value])];
      }
      if tasks[prev].mm.None? {
        tasks := tasks[prev := tasks[prev].(activeMm := None)];
        rqs := rqs[c := rqs[c].(prevMm := held)];
      }
      rqs := rqs[c := rqs[c].(curr := next)];
    }

    // finish_task_switch.
    method FinishTaskSwitch(c: nat)
      requires Enabled(Model(), Finish(c))
      modifies this
      ensures Model() == FinishNext(old(Model()), c)
    {
      var m := rqs[c].prevMm;
      rqs := rqs[c := rqs[c].(prevMm := None)];
      if m.Some? {
        mms := mms[m.value := Drop(mms[m.value])];
      }
    }
  }
}
