/**
 The distributed count of active tasks behind the load average: each CPU folds
 the change of its own count into a global counter, or into an idle counter that
 somebody else collects, and nothing is lost in between.
 */
module LoadFolding {
  import opened Sums

  // Where a CPU is in calc_load_account_active, calc_load_enter_idle, calc_global_load or
  // calc_global_load_remove, and the delta it carries.
  datatype Pc =
    | Quiet
    | ToTasks(delta: int)
    | ToIdle(delta: int)
    | Collected(delta: int)
    | Removing

  datatype Cpu = Cpu(nrRunning: int, nrUninterruptible: int, calcActive: int, pc: Pc)

  datatype State = State(cpus: seq<Cpu>, tasks: int, idle0: int, idle1: int)

  datatype Action =
    | Change(c: nat, nrRunning: int, nrUninterruptible: int)
    | FoldTick(c: nat)
    | FoldIdle(c: nat)
    | AddTasks(c: nat)
    | AddIdle(c: nat, second: bool)
    | Collect(c: nat, second: bool)
    | AddCollected(c: nat)
    | RemoveSub(c: nat)
    | RemoveZero(c: nat)

  predicate Enabled(s: State, a: Action) {
    a.c < |s.cpus| &&
    var pc := s.cpus[a.c].pc;
    match a
    case Change(_, _, _) => true
    case FoldTick(_) => pc.Quiet?
    case FoldIdle(_) => pc.Quiet?
    case AddTasks(_) => pc.ToTasks?
    case AddIdle(_, _) => pc.ToIdle?
    case Collect(_, _) => pc.Quiet?
    case AddCollected(_) => pc.Collected?
    case RemoveSub(_) => pc.Quiet?
    case RemoveZero(_) => pc.Removing?
  }

  function NrActive(x: Cpu): int { x.nrRunning + x.nrUninterruptible }

  // calc_load_fold_active: the delta, and the CPU with its new base.
  function Delta(x: Cpu): int { NrActive(x) - x.calcActive }
  function Folded(x: Cpu, pc: Pc): Cpu { x.(calcActive := NrActive(x), pc := pc) }

  function Put(s: State, c: nat, x: Cpu): State
    requires c < |s.cpus|
  {
    s.(cpus := s.cpus[c := x])
  }

  function Next(s: State, a: Action): State
    requires Enabled(s, a)
  {
    var x := s.cpus[a.c];
    match a
    case Change(c, running, uninterruptible) =>
      Put(s, c, x.(nrRunning := running, nrUninterruptible := uninterruptible))
    case FoldTick(c) => if Delta(x) == 0 then s else Put(s, c, Folded(x, ToTasks(Delta(x))))
    case FoldIdle(c) => if Delta(x) == 0 then s else Put(s, c, Folded(x, ToIdle(Delta(x))))
    case AddTasks(c) => Put(s, c, x.(pc := Quiet)).(tasks := s.tasks + x.pc.delta)
    case AddIdle(c, second) =>
      if second then Put(s, c, x.(pc := Quiet)).(idle1 := s.idle1 + x.pc.delta)
      else Put(s, c, x.(pc := Quiet)).(idle0 := s.idle0 + x.pc.delta)
    case Collect(c, second) =>
      if second then Put(s, c, x.(pc := Collected(s.idle1))).(idle1 := 0)
      else Put(s, c, x.(pc := Collected(s.idle0))).(idle0 := 0)
    case AddCollected(c) => Put(s, c, x.(pc := Quiet)).(tasks := s.tasks + x.pc.delta)
    case RemoveSub(c) => Put(s, c, x.(pc := Removing)).(tasks := s.tasks - x.calcActive)
    case RemoveZero(c) => Put(s, c, x.(calcActive := 0, pc := Quiet))
  }

  ghost predicate Runs(s: State, acts: seq<Action>, z: State)
    decreases |acts|
  {
    if acts == [] then s == z else Enabled(s, acts[0]) && Runs(Next(s, acts[0]), acts[1..], z)
  }

  function Boot(n: nat): State { State(seq(n, _ => Cpu(0, 0, 0, Quiet)), 0, 0, 0) }

  // ---- Conservation ----

  // What the CPU has taken from one place and not yet put into another.
  ghost function InFlight(x: Cpu): int {
    match x.pc
    case Quiet => 0
    case ToTasks(d) => d
    case ToIdle(d) => d
    case Collected(d) => d
    case Removing => x.calcActive
  }

  ghost function Base(x: Cpu): int { x.calcActive }

  ghost predicate Conserved(s: State) {
    s.tasks + s.idle0 + s.idle1 + Sum(s.cpus, InFlight) == Sum(s.cpus, Base)
  }

  lemma ConservedNext(s: State, a: Action)
    requires Enabled(s, a) && Conserved(s)
    ensures Conserved(Next(s, a))
  {
    var z := Next(s, a);
    SumUpdate(s.cpus, a.c, z.cpus[a.c], InFlight);
    SumUpdate(s.cpus, a.c, z.cpus[a.c], Base);
    assert s.cpus[a.c := s.cpus[a.c]] == s.cpus;
  }

  lemma {:induction false} RunConserved(s: State, acts: seq<Action>, z: State)
    requires Conserved(s) && Runs(s, acts, z)
    ensures Conserved(z)
    decreases |acts|
  {
    if acts != [] {
      ConservedNext(s, acts[0]);
      RunConserved(Next(s, acts[0]), acts[1..], z);
    }
  }

  // Main result: in every interleaving the global counter, both idle counters and the deltas in
  // flight add up to what the CPUs have accounted for.
  lemma LoadConserved(n: nat, acts: seq<Action>, z: State)
    requires Runs(Boot(n), acts, z)
    ensures z.tasks + z.idle0 + z.idle1 + Sum(z.cpus, InFlight) == Sum(z.cpus, Base)
  {
    SumZero(Boot(n).cpus, InFlight);
    SumZero(Boot(n).cpus, Base);
    RunConserved(Boot(n), acts, z);
  }

  ghost function Running(x: Cpu): int { x.nrRunning }
  ghost function Uninterruptible(x: Cpu): int { x.nrUninterruptible }

  // Hence, once every CPU has folded and no delta is in flight, the counters hold the number of
  // runnable and uninterruptible tasks.
  lemma LoadSettled(n: nat, acts: seq<Action>, z: State)
    requires Runs(Boot(n), acts, z)
    requires forall c :: 0 <= c < |z.cpus| ==> z.cpus[c].pc.Quiet? && Folds(z.cpus[c])
    ensures z.tasks + z.idle0 + z.idle1 == Sum(z.cpus, Running) + Sum(z.cpus, Uninterruptible)
  {
    LoadConserved(n, acts, z);
    SumZero(z.cpus, InFlight);
    SumAgree(z.cpus);
  }

  // Folding the CPU's count would change nothing.
  ghost predicate Folds(x: Cpu) { Folded(x, x.pc) == x }

  // A CPU that has just folded has nothing to fold, and carries the whole change of its count.
  lemma FoldTakesAll(s: State, c: nat, z: State)
    requires Enabled(s, FoldTick(c)) && z == Next(s, FoldTick(c))
    ensures Folds(z.cpus[c])
    ensures var x := s.cpus[c];
            z.cpus[c].pc == if Folds(x) then Quiet else ToTasks(x.nrRunning + x.nrUninterruptible - x.calcActive)
  {
  }

  lemma {:induction false} SumAgree(xs: seq<Cpu>)
    requires forall c :: 0 <= c < |xs| ==> Folds(xs[c])
    ensures Sum(xs, Base) == Sum(xs, Running) + Sum(xs, Uninterruptible)
  {
    if xs != [] {
      assert Folds(xs[|xs| - 1]);
      SumAgree(xs[..|xs| - 1]);
    }
  }

  // ---- Settling ----

  // How a CPU gives its change to the global counter: itself, or through one of the idle counters.
  datatype Route = Directly | ByIdle(second: bool)

  // The CPU folds and puts the delta, if there is one, where its route says.
  ghost function Give(s: State, c: nat, route: Route): State
    requires c < |s.cpus| && s.cpus[c].pc.Quiet?
  {
    match route
    case Directly =>
      var t := Next(s, FoldTick(c));
      if t.cpus[c].pc.Quiet? then t else Next(t, AddTasks(c))
    case ByIdle(second) =>
      var t := Next(s, FoldIdle(c));
      if t.cpus[c].pc.Quiet? then t else Next(t, AddIdle(c, second))
  }

  ghost function GiveAll(s: State, routes: seq<Route>): State
    requires |routes| <= |s.cpus| && AllQuiet(s)
    ensures AllQuiet(GiveAll(s, routes)) && |GiveAll(s, routes).cpus| == |s.cpus|
    decreases |routes|
  {
    if routes == [] then s
    else
      var k := |routes| - 1;
      Give(GiveAll(s, routes[..k]), k, routes[k])
  }

  // One CPU collects an idle counter.
  ghost function Gather(s: State, c: nat, second: bool): (z: State)
    requires c < |s.cpus| && s.cpus[c].pc.Quiet?
    ensures z.cpus == s.cpus
  {
    Next(Next(s, Collect(c, second)), AddCollected(c))
  }

  ghost function GatherBoth(s: State, c: nat): State
    requires c < |s.cpus| && s.cpus[c].pc.Quiet?
  {
    Gather(Gather(s, c, false), c, true)
  }

  ghost predicate AllQuiet(s: State) { forall c :: 0 <= c < |s.cpus| ==> s.cpus[c].pc.Quiet? }

  // Giving keeps the counts and what the counters add up to, and leaves nothing to fold.
  lemma GiveKeeps(s: State, c: nat, route: Route)
    requires Conserved(s) && c < |s.cpus| && AllQuiet(s)
    ensures var z := Give(s, c, route);
            && Conserved(z) && Folds(z.cpus[c]) && |z.cpus| == |s.cpus|
            && z.cpus == s.cpus[c := s.cpus[c].(calcActive := s.cpus[c].nrRunning + s.cpus[c].nrUninterruptible)]
            && (route != Directly ==> z.tasks == s.tasks)
            && (route != ByIdle(false) ==> z.idle0 == s.idle0) && (route != ByIdle(true) ==> z.idle1 == s.idle1)
  {
    var fold := if route.Directly? then FoldTick(c) else FoldIdle(c);
    var t := Next(s, fold);
    ConservedNext(s, fold);
    if !t.cpus[c].pc.Quiet? {
      ConservedNext(t, if route.Directly? then AddTasks(c) else AddIdle(c, route.second));
    }
  }

  ghost predicate SameCounts(x: Cpu, y: Cpu) {
    x.nrRunning == y.nrRunning && x.nrUninterruptible == y.nrUninterruptible
  }

  lemma {:induction false} GiveAllKeeps(s: State, routes: seq<Route>)
    requires Conserved(s) && |routes| <= |s.cpus| && AllQuiet(s)
    ensures var z := GiveAll(s, routes);
            && Conserved(z) && (forall c :: 0 <= c < |s.cpus| ==> SameCounts(z.cpus[c], s.cpus[c]))
            && (forall c :: 0 <= c < |routes| ==> Folds(z.cpus[c]))
    decreases |routes|
  {
    if routes != [] {
      var k := |routes| - 1;
      GiveAllKeeps(s, routes[..k]);
      GiveKeeps(GiveAll(s, routes[..k]), k, routes[k]);
    }
  }

  lemma GatherKeeps(s: State, c: nat, second: bool)
    requires Conserved(s) && c < |s.cpus| && AllQuiet(s)
    ensures var z := Gather(s, c, second);
            && Conserved(z)
            && (if second then z.idle1 == 0 && z.idle0 == s.idle0 else z.idle0 == 0 && z.idle1 == s.idle1)
  {
    ConservedNext(s, Collect(c, second));
    ConservedNext(Next(s, Collect(c, second)), AddCollected(c));
  }

  // Main result: from every reachable state with no delta in flight, once each CPU has given its change by
  // whatever route and one CPU has collected both idle counters, the global counter alone is the number of
  // running and uninterruptible tasks.
  lemma SettlesExactly(n: nat, acts: seq<Action>, s: State, routes: seq<Route>, c: nat)
    requires Runs(Boot(n), acts, s) && AllQuiet(s) && |routes| == |s.cpus| && c < |s.cpus|
    ensures var z := GatherBoth(GiveAll(s, routes), c);
            z.tasks == Sum(s.cpus, Running) + Sum(s.cpus, Uninterruptible) && z.idle0 == z.idle1 == 0
  {
    LoadConserved(n, acts, s);
    var given := GiveAll(s, routes);
    GiveAllKeeps(s, routes);
    GatherKeeps(given, c, false);
    var half := Gather(given, c, false);
    GatherKeeps(half, c, true);
    SumZero(given.cpus, InFlight);
    SumAgree(given.cpus);
    SumsSame(given.cpus, s.cpus);
  }

  lemma {:induction false} SumsSame(xs: seq<Cpu>, ys: seq<Cpu>)
    requires |xs| == |ys| && forall c :: 0 <= c < |xs| ==> SameCounts(xs[c], ys[c])
    ensures Sum(xs, Running) == Sum(ys, Running) && Sum(xs, Uninterruptible) == Sum(ys, Uninterruptible)
  {
    if xs != [] {
      assert SameCounts(xs[|xs| - 1], ys[|xs| - 1]);
      SumsSame(xs[..|xs| - 1], ys[..|xs| - 1]);
    }
  }

  // ---- CPUs that change and CPUs that go ----

  // The last counts that c was given.
  ghost function LastChange(acts: seq<Action>, c: nat): (int, int) {
    if acts == [] then (0, 0)
    else
      match acts[|acts| - 1]
      case Change(d, running, uninterruptible) =>
        if d == c then (running, uninterruptible) else LastChange(acts[..|acts| - 1], c)
      case _ => LastChange(acts[..|acts| - 1], c)
  }

  lemma {:induction false} RunsSplit(s: State, acts: seq<Action>, z: State) returns (y: State)
    requires Runs(s, acts, z) && acts != []
    ensures Runs(s, acts[..|acts| - 1], y) && Enabled(y, acts[|acts| - 1]) && z == Next(y, acts[|acts| - 1])
    decreases |acts|
  {
    if |acts| == 1 {
      y := s;
    } else {
      y := RunsSplit(Next(s, acts[0]), acts[1..], z);
      assert acts[1..][..|acts| - 2] == acts[..|acts| - 1][1..];
    }
  }

  // In every run the counts that are folded are the last ones the runqueue had.
  lemma {:induction false} CountsAreLast(n: nat, acts: seq<Action>, z: State, c: nat)
    requires Runs(Boot(n), acts, z) && c < n
    ensures c < |z.cpus| && (z.cpus[c].nrRunning, z.cpus[c].nrUninterruptible) == LastChange(acts, c)
    decreases |acts|
  {
    if acts != [] {
      var y := RunsSplit(Boot(n), acts, z);
      CountsAreLast(n, acts[..|acts| - 1], y, c);
    }
  }

  // A CPU that goes takes what it accounted for out of the global counter, and leaves the rest right.
  lemma RemovedCpu(n: nat, acts: seq<Action>, s: State, c: nat)
    requires Runs(Boot(n), acts, s) && AllQuiet(s) && c < |s.cpus|
    ensures var z := Next(Next(s, RemoveSub(c)), RemoveZero(c));
            && z.cpus[c].calcActive == 0 && (forall d :: 0 <= d < |s.cpus| && d != c ==> z.cpus[d] == s.cpus[d])
            && z.tasks + z.idle0 + z.idle1 == Sum(s.cpus, Base) - s.cpus[c].calcActive == Sum(z.cpus, Base)
  {
    LoadConserved(n, acts, s);
    var half := Next(s, RemoveSub(c));
    var z := Next(half, RemoveZero(c));
    ConservedNext(s, RemoveSub(c));
    ConservedNext(half, RemoveZero(c));
    SumZero(s.cpus, InFlight);
    SumZero(z.cpus, InFlight);
    SumUpdate(s.cpus, c, z.cpus[c], Base);
    assert z.cpus == s.cpus[c := z.cpus[c]];
  }
}
