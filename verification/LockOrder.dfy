/**
 Taking several spinlocks at once: the runqueue locks of two CPUs, or a task's
 pi_lock with a runqueue lock.  Each kernel function is written as the lock
 operations it performs, any number of CPUs run them interleaved, and no CPU ever
 waits for itself in a circle.
 */
module LockOrder {
  datatype Lock = Pi(task: nat) | Rq(cpu: nat)

  // Try takes the lock if it is free and otherwise goes through the fallback first.
  datatype Instr = Take(l: Lock) | Release(l: Lock) | Try(l: Lock, fallback: seq<Instr>) | Return(value: int)

  // What a call promises its caller: the locks held when it returns, and whether its value
  // is 1 exactly when a lock was released on the way.
  datatype Promise = Promise(held: set<Lock>, tells: bool)

  datatype Cpu = Cpu(held: set<Lock>, todo: seq<Instr>, dropped: bool, value: int, promise: Promise)

  datatype Call =
    | LockPi(t: nat)
    | UnlockPi(t: nat)
    | LockRq(i: nat)
    | UnlockRq(i: nat)
    | DoubleRqLock(i: nat, j: nat)
    | DoubleRqUnlock(i: nat, j: nat)
    | DoubleLockBalance(i: nat, busiest: nat, fair: bool)
    | DoubleUnlockBalance(i: nat, busiest: nat)
    | TryToWakeUpLocal(t: nat, i: nat)

  // ---- The functions ----

  function DoubleRqLockBody(i: nat, j: nat): seq<Instr> {
    if i == j then [Take(Rq(i))]
    else if i < j then [Take(Rq(i)), Take(Rq(j))]
    else [Take(Rq(j)), Take(Rq(i))]
  }

  function Body(call: Call): seq<Instr> {
    match call
    case LockPi(t) => [Take(Pi(t))]
    case UnlockPi(t) => [Release(Pi(t))]
    case LockRq(i) => [Take(Rq(i))]
    case UnlockRq(i) => [Release(Rq(i))]
    case DoubleRqLock(i, j) => DoubleRqLockBody(i, j)
    case DoubleRqUnlock(i, j) => if i != j then [Release(Rq(i)), Release(Rq(j))] else [Release(Rq(i))]
    case DoubleLockBalance(i, busiest, fair) =>
      if fair then [Release(Rq(i))] + DoubleRqLockBody(i, busiest) + [Return(1)]
      else
        [Return(0),
         Try(Rq(busiest),
             if busiest < i then [Release(Rq(i)), Take(Rq(busiest)), Take(Rq(i)), Return(1)]
             else [Take(Rq(busiest))])]
    case DoubleUnlockBalance(_, busiest) => [Release(Rq(busiest))]
    case TryToWakeUpLocal(t, i) =>
      [Try(Pi(t), [Release(Rq(i)), Take(Pi(t)), Take(Rq(i))]), Release(Pi(t))]
  }

  ghost predicate NoRq(held: set<Lock>) { forall l :: l in held ==> l.Pi? }

  // The locks each function demands of its caller.
  ghost predicate Callable(held: set<Lock>, call: Call) {
    match call
    case LockPi(t) => held == {}
    case UnlockPi(t) => Pi(t) in held
    case LockRq(i) => NoRq(held)
    case UnlockRq(i) => Rq(i) in held
    case DoubleRqLock(i, j) => NoRq(held)
    case DoubleRqUnlock(i, j) => Rq(i) in held && Rq(j) in held
    case DoubleLockBalance(i, busiest, _) => i != busiest && Rq(i) in held && NoRq(held - {Rq(i)})
    case DoubleUnlockBalance(i, busiest) => i != busiest && Rq(i) in held && Rq(busiest) in held
    case TryToWakeUpLocal(t, i) => held == {Rq(i)}
  }

  function Promised(held: set<Lock>, call: Call): Promise {
    match call
    case LockPi(t) => Promise(held + {Pi(t)}, false)
    case UnlockPi(t) => Promise(held - {Pi(t)}, false)
    case LockRq(i) => Promise(held + {Rq(i)}, false)
    case UnlockRq(i) => Promise(held - {Rq(i)}, false)
    case DoubleRqLock(i, j) => Promise(held + {Rq(i), Rq(j)}, false)
    case DoubleRqUnlock(i, j) => Promise(held - {Rq(i), Rq(j)}, false)
    case DoubleLockBalance(_, busiest, _) => Promise(held + {Rq(busiest)}, true)
    case DoubleUnlockBalance(_, busiest) => Promise(held - {Rq(busiest)}, false)
    case TryToWakeUpLocal(_, _) => Promise(held, false)
  }

  // ---- The machine ----

  datatype Action = Begin(c: nat, call: Call) | Step(c: nat)

  // A lock is free when no CPU holds it.
  ghost predicate Free(s: seq<Cpu>, l: Lock) { forall c :: 0 <= c < |s| ==> l !in s[c].held }

  // A CPU spins on a lock that is not free.
  ghost predicate Blocked(s: seq<Cpu>, c: nat) {
    c < |s| && s[c].todo != [] && s[c].todo[0].Take? && !Free(s, s[c].todo[0].l)
  }

  ghost predicate Enabled(s: seq<Cpu>, a: Action) {
    match a
    case Begin(c, call) => c < |s| && s[c].todo == [] && Callable(s[c].held, call)
    case Step(c) => c < |s| && s[c].todo != [] && !Blocked(s, c)
  }

  ghost function Advance(x: Cpu, free: bool): Cpu
    requires x.todo != []
  {
    var rest := x.todo[1..];
    match x.todo[0]
    case Take(l) => x.(held := x.held + {l}, todo := rest)
    case Release(l) => x.(held := x.held - {l}, todo := rest, dropped := true)
    case Try(l, fallback) => if free then x.(held := x.held + {l}, todo := rest) else x.(todo := fallback + rest)
    case Return(v) => x.(value := v, todo := rest)
  }

  ghost function Next(s: seq<Cpu>, a: Action): seq<Cpu>
    requires Enabled(s, a)
  {
    match a
    case Begin(c, call) => s[c := Cpu(s[c].held, Body(call), false, 0, Promised(s[c].held, call))]
    case Step(c) => s[c := Advance(s[c], s[c].todo[0].Try? && Free(s, s[c].todo[0].l))]
  }

  ghost predicate Runs(s: seq<Cpu>, acts: seq<Action>, z: seq<Cpu>)
    decreases |acts|
  {
    if acts == [] then s == z else Enabled(s, acts[0]) && Runs(Next(s, acts[0]), acts[1..], z)
  }

  function Boot(n: nat): seq<Cpu> { seq(n, _ => Cpu({}, [], false, 0, Promise({}, false))) }

  // ---- The order ----

  // Every pi_lock comes before every runqueue lock, which are ordered as the runqueues are in memory.
  ghost predicate Below(a: Lock, b: Lock) {
    match (a, b)
    case (Pi(t), Pi(u)) => t < u
    case (Pi(_), Rq(_)) => true
    case (Rq(_), Pi(_)) => false
    case (Rq(i), Rq(j)) => i < j
  }

  ghost predicate AllBelow(held: set<Lock>, l: Lock) { forall x :: x in held ==> Below(x, l) }

  ghost function Weight(todo: seq<Instr>): nat {
    if todo == [] then 0
    else (if todo[0].Try? then 1 + Weight(todo[0].fallback) else 1) + Weight(todo[1..])
  }

  lemma {:induction false} WeightAppend(a: seq<Instr>, b: seq<Instr>)
    ensures Weight(a + b) == Weight(a) + Weight(b)
    decreases |a|
  {
    if a == [] {
      assert a + b == b;
    } else {
      assert (a + b)[1..] == a[1..] + b;
      WeightAppend(a[1..], b);
    }
  }

  // Whatever its trylocks find, the CPU waits only for locks above all it holds, releases only what
  // it holds, and ends with its promise kept.
  ghost predicate Safe(x: Cpu)
    decreases Weight(x.todo)
  {
    if x.todo == [] then x.held == x.promise.held && (x.promise.tells ==> (x.value == 1 <==> x.dropped))
    else
      && (x.todo[0].Take? ==> AllBelow(x.held, x.todo[0].l))
      && (x.todo[0].Release? ==> x.todo[0].l in x.held)
      && (x.todo[0].Try? ==> x.todo[0].l !in x.held)
      && (if x.todo[0].Try? then
            WeightAppend(x.todo[0].fallback, x.todo[1..]);
            Safe(Advance(x, true)) && Safe(Advance(x, false))
          else Safe(Advance(x, false)))
  }

  // No lock is held twice.
  ghost predicate Exclusive(s: seq<Cpu>) {
    forall c, d, l :: 0 <= c < d < |s| && l in s[c].held ==> l !in s[d].held
  }

  ghost predicate Inv(s: seq<Cpu>) { Exclusive(s) && forall c :: 0 <= c < |s| ==> Safe(s[c]) }

  // ---- Each function is safe for the callers it asks for ----

  // Two runqueue locks, lower one first, and then the value returned, if any.
  lemma TakeTwoSafe(x: Cpu, lo: nat, hi: nat, tail: seq<Instr>)
    requires lo < hi && NoRq(x.held) && x.todo == [Take(Rq(lo)), Take(Rq(hi))] + tail
    requires Safe(x.(held := x.held + {Rq(lo), Rq(hi)}, todo := tail))
    ensures Safe(x)
  {
    var y := x.(held := x.held + {Rq(lo)}, todo := [Take(Rq(hi))] + tail);
    assert y.held + {Rq(hi)} == x.held + {Rq(lo), Rq(hi)};
    assert y.todo[1..] == tail;
    assert Advance(y, false) == x.(held := x.held + {Rq(lo), Rq(hi)}, todo := tail);
    assert x.todo[1..] == y.todo;
    assert Advance(x, false) == y;
  }

  lemma DoubleRqLockSafe(x: Cpu, i: nat, j: nat, tail: seq<Instr>)
    requires NoRq(x.held) && x.todo == DoubleRqLockBody(i, j) + tail
    requires Safe(x.(held := x.held + {Rq(i), Rq(j)}, todo := tail))
    ensures Safe(x)
  {
    if i == j {
      assert x.todo[1..] == tail && x.held + {Rq(i)} == x.held + {Rq(i), Rq(j)};
      assert Advance(x, false) == x.(held := x.held + {Rq(i), Rq(j)}, todo := tail);
    } else if i < j {
      TakeTwoSafe(x, i, j, tail);
    } else {
      assert {Rq(i), Rq(j)} == {Rq(j), Rq(i)};
      TakeTwoSafe(x, j, i, tail);
    }
  }

  lemma FairBalanceSafe(x: Cpu, i: nat, busiest: nat)
    requires i != busiest && Rq(i) in x.held && NoRq(x.held - {Rq(i)})
    requires x.todo == Body(DoubleLockBalance(i, busiest, true)) && x.promise == Promise(x.held + {Rq(busiest)}, true)
    ensures Safe(x)
  {
    var y := x.(held := x.held - {Rq(i)}, todo := DoubleRqLockBody(i, busiest) + [Return(1)], dropped := true);
    assert x.todo[1..] == y.todo;
    assert Advance(x, false) == y;
    assert y.held + {Rq(i), Rq(busiest)} == x.held + {Rq(busiest)};
    DoubleRqLockSafe(y, i, busiest, [Return(1)]);
  }

  // The fallback of the unfair variant, which keeps the first lock when it is the lower one.
  lemma BalanceFallbackSafe(x: Cpu, i: nat, busiest: nat)
    requires i != busiest && Rq(i) in x.held && NoRq(x.held - {Rq(i)}) && !x.dropped && x.value == 0
    requires x.promise == Promise(x.held + {Rq(busiest)}, true)
    requires x.todo == if busiest < i then [Release(Rq(i)), Take(Rq(busiest)), Take(Rq(i)), Return(1)]
                       else [Take(Rq(busiest))]
    ensures Safe(x)
  {
    if busiest < i {
      var y := x.(held := x.held - {Rq(i)}, todo := [Take(Rq(busiest)), Take(Rq(i))] + [Return(1)], dropped := true);
      assert x.todo[1..] == y.todo;
      assert Advance(x, false) == y;
      assert y.held + {Rq(busiest), Rq(i)} == x.held + {Rq(busiest)};
      TakeTwoSafe(y, busiest, i, [Return(1)]);
    }
  }

  lemma UnfairBalanceSafe(x: Cpu, i: nat, busiest: nat)
    requires i != busiest && Rq(i) in x.held && NoRq(x.held - {Rq(i)}) && !x.dropped
    requires x.todo == Body(DoubleLockBalance(i, busiest, false)) && x.promise == Promise(x.held + {Rq(busiest)}, true)
    ensures Safe(x)
  {
    var y := Advance(x, false);
    var fallback := y.todo[0].fallback;
    assert y.todo == [Try(Rq(busiest), fallback)] && fallback + [] == fallback;
    BalanceFallbackSafe(Advance(y, false), i, busiest);
    assert Safe(Advance(y, true));
  }

  lemma WakeLocalSafe(x: Cpu, t: nat, i: nat)
    requires x.held == {Rq(i)} && x.todo == Body(TryToWakeUpLocal(t, i)) && x.promise == Promise(x.held, false)
    ensures Safe(x)
  {
    var y := Advance(x, true);
    assert y.held - {Pi(t)} == x.held;
    assert Safe(y);
    var a := Advance(x, false);
    assert a.todo == [Release(Rq(i)), Take(Pi(t)), Take(Rq(i)), Release(Pi(t))];
    var b := Advance(a, false);
    assert b.held == {} && b.todo == [Take(Pi(t)), Take(Rq(i)), Release(Pi(t))];
    var c := Advance(b, false);
    assert c.held == {Pi(t)} && c.todo == [Take(Rq(i)), Release(Pi(t))];
    var d := Advance(c, false);
    assert d.held == {Pi(t), Rq(i)} && d.todo == [Release(Pi(t))];
    assert d.held - {Pi(t)} == x.held;
    assert Safe(d) && Safe(c) && Safe(b) && Safe(a);
  }

  lemma CallSafe(held: set<Lock>, call: Call)
    requires Callable(held, call)
    ensures Safe(Cpu(held, Body(call), false, 0, Promised(held, call)))
  {
    var x := Cpu(held, Body(call), false, 0, Promised(held, call));
    match call
    case DoubleRqLock(i, j) =>
      assert x.todo == DoubleRqLockBody(i, j) + [];
      DoubleRqLockSafe(x, i, j, []);
    case DoubleRqUnlock(i, j) =>
      var y := Advance(x, false);
      assert i != j ==> y.held - {Rq(j)} == held - {Rq(i), Rq(j)};
      assert i == j ==> y.held == held - {Rq(i), Rq(j)};
      assert Safe(y);
    case DoubleLockBalance(i, busiest, fair) =>
      if fair { FairBalanceSafe(x, i, busiest); } else { UnfairBalanceSafe(x, i, busiest); }
    case TryToWakeUpLocal(t, i) => WakeLocalSafe(x, t, i);
    case _ =>
      assert x.todo[1..] == [];
      assert Safe(Advance(x, false));
  }

  // ---- Every run ----

  lemma NextInv(s: seq<Cpu>, a: Action)
    requires Inv(s) && Enabled(s, a)
    ensures Inv(Next(s, a))
  {
    if a.Begin? {
      CallSafe(s[a.c].held, a.call);
    } else {
      assert Safe(s[a.c]);
      var z := Next(s, a);
      assert forall l :: l in z[a.c].held ==> l in s[a.c].held || Free(s, l);
    }
  }

  lemma {:induction false} RunInv(s: seq<Cpu>, acts: seq<Action>, z: seq<Cpu>)
    requires Inv(s) && Runs(s, acts, z)
    ensures Inv(z) && |z| == |s|
    decreases |acts|
  {
    if acts != [] {
      NextInv(s, acts[0]);
      RunInv(Next(s, acts[0]), acts[1..], z);
    }
  }

  // No lock has two holders, and a call that has returned kept its promise.
  lemma CallsKeepPromises(n: nat, acts: seq<Action>, z: seq<Cpu>, c: nat)
    requires Runs(Boot(n), acts, z) && c < |z|
    ensures forall d, l :: 0 <= d < |z| && d != c && l in z[c].held ==> l !in z[d].held
    ensures z[c].todo == [] ==> z[c].held == z[c].promise.held
    ensures z[c].todo == [] && z[c].promise.tells ==> (z[c].value == 1 <==> z[c].dropped)
  {
    RunInv(Boot(n), acts, z);
    assert Safe(z[c]);
  }

  // ---- Waiting ----

  // c spins on a lock that d holds.
  ghost predicate WaitsFor(s: seq<Cpu>, c: nat, d: nat) {
    Blocked(s, c) && d < |s| && s[c].todo[0].l in s[d].held
  }

  // A waiting CPU whose holder waits too waits for a lower lock.
  lemma WaitRises(s: seq<Cpu>, c: nat, d: nat)
    requires Inv(s) && WaitsFor(s, c, d) && Blocked(s, d)
    ensures Below(s[c].todo[0].l, s[d].todo[0].l)
  {
    assert Safe(s[d]);
  }

  lemma {:induction false} ChainRises(s: seq<Cpu>, cs: seq<nat>, k: nat)
    requires Inv(s) && 0 < k < |cs| && forall i :: 0 <= i < |cs| ==> Blocked(s, cs[i])
    requires forall i :: 0 <= i < |cs| - 1 ==> WaitsFor(s, cs[i], cs[i + 1])
    ensures Blocked(s, cs[0]) && Blocked(s, cs[k]) && Below(s[cs[0]].todo[0].l, s[cs[k]].todo[0].l)
  {
    WaitRises(s, cs[k - 1], cs[k]);
    if k > 1 {
      ChainRises(s, cs, k - 1);
    }
  }

  // No circle of CPUs each waiting for the next.
  ghost predicate Circle(s: seq<Cpu>, cs: seq<nat>) {
    && cs != [] && (forall i :: 0 <= i < |cs| - 1 ==> WaitsFor(s, cs[i], cs[i + 1]))
    && WaitsFor(s, cs[|cs| - 1], cs[0])
  }

  lemma NoCircle(n: nat, acts: seq<Action>, z: seq<Cpu>, cs: seq<nat>)
    requires Runs(Boot(n), acts, z)
    ensures !Circle(z, cs)
  {
    RunInv(Boot(n), acts, z);
    if Circle(z, cs) {
      var k := |cs| - 1;
      forall i | 0 <= i < |cs| ensures Blocked(z, cs[i]) {
        assert i < k ==> WaitsFor(z, cs[i], cs[i + 1]);
      }
      WaitRises(z, cs[k], cs[0]);
      if k > 0 {
        ChainRises(z, cs, k);
      }
      assert false;
    }
  }

  // A CPU on a chain of waits never holds the lock at its end.
  lemma NotBack(s: seq<Cpu>, cs: seq<nat>, i: nat, d: nat)
    requires Inv(s) && i < |cs| && d < |s| && (forall k :: 0 <= k < |cs| ==> Blocked(s, cs[k]))
    requires forall k :: 0 <= k < |cs| - 1 ==> WaitsFor(s, cs[k], cs[k + 1])
    requires WaitsFor(s, cs[|cs| - 1], d)
    ensures cs[i] != d
  {
    var tail := cs[i..];
    if |tail| > 1 {
      ChainRises(s, tail, |tail| - 1);
    }
    assert Safe(s[cs[i]]);
  }

  ghost function Cpus(n: nat): (all: set<nat>)
    ensures forall c: nat :: c in all <==> c < n
  {
    if n == 0 then {} else Cpus(n - 1) + {n - 1}
  }

  // A chain of waits can be followed, through CPUs not on it yet, to one that is not waiting.
  lemma {:induction false} FollowWaits(s: seq<Cpu>, cs: seq<nat>, others: set<nat>) returns (path: seq<nat>)
    requires Inv(s) && cs != [] && cs[|cs| - 1] < |s|
    requires forall i :: 0 <= i < |cs| - 1 ==> WaitsFor(s, cs[i], cs[i + 1])
    requires forall c :: 0 <= c < |s| ==> c in cs || c in others
    ensures cs <= path && path[|path| - 1] < |s| && !Blocked(s, path[|path| - 1])
    ensures forall i :: 0 <= i < |path| - 1 ==> WaitsFor(s, path[i], path[i + 1])
    decreases others
  {
    var c := cs[|cs| - 1];
    if !Blocked(s, c) {
      path := cs;
    } else {
      var d :| 0 <= d < |s| && s[c].todo[0].l in s[d].held;
      forall i | 0 <= i < |cs| ensures Blocked(s, cs[i]) {
        assert i < |cs| - 1 ==> WaitsFor(s, cs[i], cs[i + 1]);
      }
      forall i | 0 <= i < |cs| ensures cs[i] != d {
        NotBack(s, cs, i, d);
      }
      path := FollowWaits(s, cs + [d], others - {d});
    }
  }

  // Every CPU that waits, waits in the end for one that can go on.
  lemma WaitsEnd(n: nat, acts: seq<Action>, z: seq<Cpu>, c: nat) returns (path: seq<nat>)
    requires Runs(Boot(n), acts, z) && c < |z|
    ensures path != [] && path[0] == c && path[|path| - 1] < |z| && !Blocked(z, path[|path| - 1])
    ensures forall i :: 0 <= i < |path| - 1 ==> WaitsFor(z, path[i], path[i + 1])
  {
    RunInv(Boot(n), acts, z);
    path := FollowWaits(z, [c], Cpus(|z|));
  }
}
