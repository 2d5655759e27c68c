/**
 Wake queues: tasks linked through a field of their own into the private lists of
 any number of contexts, which then wake them.  The links are compared with plain
 lists.
 */
module WakeQueue {
  import opened Sums

  // A task's wake_q.next: not queued, the end of a list, or the next task.
  datatype Link = Nil | Tail | To(t: nat)

  // What the context that owns a head is doing.
  datatype Phase =
    | Ready
    | Claimed(t: nat, safe: bool)
    | Draining(node: Link)
    | Popped(node: Link, t: nat)

  // A wake_q_head.  last is the task whose next field lastp points to, or -1 for the head itself.
  // added and woken record the calls made since the head was set up.
  datatype Head = Head(first: Link, last: int, phase: Phase, added: seq<nat>, woken: seq<nat>)

  // refs are the tasks' reference counts, of which others are held by nobody in a wake queue.
  datatype State = State(next: seq<Link>, refs: seq<int>, others: seq<int>, heads: seq<Head>)

  datatype Action =
    | Claim(h: nat, t: nat, safe: bool)
    | Append(h: nat)
    | Start(h: nat)
    | Pop(h: nat)
    | WakeAndPut(h: nat)
    | Reinit(h: nat)
    | GetElsewhere(t: nat)
    | PutElsewhere(t: nat)

  const EMPTY := Head(Tail, -1, Ready, [], [])

  // A caller of wake_q_add keeps a reference of its own until the call returns.
  function Pinned(s: State, t: nat): nat {
    if exists h :: 0 <= h < |s.heads| && s.heads[h].phase == Claimed(t, false) then 1 else 0
  }

  predicate Enabled(s: State, a: Action) {
    match a
    case Claim(h, t, safe) =>
      && h < |s.heads| && s.heads[h].phase.Ready? && t < |s.next| && t < |s.refs| && t < |s.others|
      && s.others[t] >= (if safe then 1 + Pinned(s, t) else 1)
    case Append(h) =>
      h < |s.heads| && s.heads[h].phase.Claimed? && s.heads[h].phase.t < |s.next| && s.heads[h].phase.t < |s.refs|
      && s.heads[h].last < |s.next|
    case Start(h) => h < |s.heads| && s.heads[h].phase.Ready?
    case Pop(h) =>
      h < |s.heads| && s.heads[h].phase.Draining? && s.heads[h].phase.node.To? && s.heads[h].phase.node.t < |s.next|
    case WakeAndPut(h) => h < |s.heads| && s.heads[h].phase.Popped? && s.heads[h].phase.t < |s.refs|
    case Reinit(h) => h < |s.heads| && s.heads[h].phase == Draining(Tail)
    case GetElsewhere(t) => t < |s.refs| && t < |s.others| && s.others[t] >= 1
    case PutElsewhere(t) => t < |s.refs| && t < |s.others| && s.others[t] >= 1 + Pinned(s, t)
  }

  function PutHead(s: State, h: nat, x: Head): State
    requires h < |s.heads|
  {
    s.(heads := s.heads[h := x])
  }

  // The compare-and-exchange of __wake_q_add; a failed wake_q_add_safe gives its reference back.
  function ClaimNext(s: State, h: nat, t: nat, safe: bool): State
    requires Enabled(s, Claim(h, t, safe))
  {
    if s.next[t].Nil? then
      PutHead(s, h, s.heads[h].(phase := Claimed(t, safe)))
        .(next := s.next[t := Tail], others := if safe then s.others[t := s.others[t] - 1] else s.others)
    else if safe then s.(refs := s.refs[t := s.refs[t] - 1], others := s.others[t := s.others[t] - 1])
    else s
  }

  // *head->lastp = node; head->lastp = &node->next; and the reference wake_q_add takes.
  function AppendNext(s: State, h: nat): State
    requires Enabled(s, Append(h))
  {
    var x := s.heads[h];
    var t := x.phase.t;
    var y := x.(first := if x.last < 0 then To(t) else x.first, last := t, phase := Ready, added := x.added + [t]);
    PutHead(s, h, y)
      .(next := if x.last < 0 then s.next else s.next[x.last := To(t)],
        refs := if x.phase.safe then s.refs else s.refs[t := s.refs[t] + 1])
  }

  function Next(s: State, a: Action): State
    requires Enabled(s, a)
  {
    match a
    case Claim(h, t, safe) => ClaimNext(s, h, t, safe)
    case Append(h) => AppendNext(s, h)
    case Start(h) => PutHead(s, h, s.heads[h].(phase := Draining(s.heads[h].first)))
    case Pop(h) =>
      var t := s.heads[h].phase.node.t;
      PutHead(s, h, s.heads[h].(phase := Popped(s.next[t], t))).(next := s.next[t := Nil])
    case WakeAndPut(h) =>
      var x := s.heads[h];
      PutHead(s, h, x.(phase := Draining(x.phase.node), woken := x.woken + [x.phase.t]))
        .(refs := s.refs[x.phase.t := s.refs[x.phase.t] - 1])
    case Reinit(h) => PutHead(s, h, EMPTY)
    case GetElsewhere(t) => s.(refs := s.refs[t := s.refs[t] + 1], others := s.others[t := s.others[t] + 1])
    case PutElsewhere(t) => s.(refs := s.refs[t := s.refs[t] - 1], others := s.others[t := s.others[t] - 1])
  }

  ghost predicate Runs(s: State, acts: seq<Action>, z: State)
    decreases |acts|
  {
    if acts == [] then s == z else Enabled(s, acts[0]) && Runs(Next(s, acts[0]), acts[1..], z)
  }

  // n tasks, each with one reference, and k empty heads.
  function Boot(n: nat, k: nat): State {
    State(seq(n, _ => Nil), seq(n, _ => 1), seq(n, _ => 1), seq(k, _ => EMPTY))
  }

  // ---- The lists the links stand for ----

  // The list of each head, and for each task the head that has it, or -1.
  datatype Lists = Lists(of: seq<seq<nat>>, owner: seq<int>)

  ghost function LinkAt(l: seq<nat>, i: nat): Link { if i < |l| then To(l[i]) else Tail }

  ghost predicate NoRepeats(l: seq<nat>) { forall i, j :: 0 <= i < j < |l| ==> l[i] != l[j] }

  ghost predicate Claims(x: Head, t: nat) { x.phase.Claimed? && x.phase.t == t }

  // How each list operation acts on the lists.
  ghost function ListsNext(s: State, a: Action, ls: Lists): Lists
    requires Enabled(s, a) && |ls.of| == |s.heads| && |ls.owner| == |s.next|
  {
    match a
    case Claim(h, t, _) => if s.next[t].Nil? then ls.(owner := ls.owner[t := h]) else ls
    case Append(h) => ls.(of := ls.of[h := ls.of[h] + [s.heads[h].phase.t]])
    case Pop(h) =>
      Lists(if ls.of[h] == [] then ls.of else ls.of[h := ls.of[h][1..]], ls.owner[s.heads[h].phase.node.t := -1])
    case _ => ls
  }

  // The i-th task of head h belongs to it and is linked to the next one.
  ghost predicate LinkOk(s: State, ls: Lists, h: nat, i: nat)
    requires h < |ls.of| && |ls.owner| == |s.next|
  {
    var l := ls.of[h];
    i < |l| ==> l[i] < |s.next| && ls.owner[l[i]] == h && s.next[l[i]] == LinkAt(l, i + 1)
  }

  ghost predicate LinksOk(s: State, ls: Lists, h: nat)
    requires h < |ls.of| && |ls.owner| == |s.next|
  {
    forall i :: 0 <= i < |ls.of[h]| ==> LinkOk(s, ls, h, i)
  }

  // What the head points to, and what was added and woken, for each thing its context may be doing.
  ghost predicate PhaseOk(s: State, ls: Lists, h: nat)
    requires h < |s.heads| == |ls.of| && |ls.owner| == |s.next|
  {
    var x, l := s.heads[h], ls.of[h];
    match x.phase
    case Ready =>
      && x.first == LinkAt(l, 0) && x.last == (if l == [] then -1 else l[|l| - 1])
      && x.woken == [] && x.added == l
    case Claimed(t, _) =>
      && x.first == LinkAt(l, 0) && x.last == (if l == [] then -1 else l[|l| - 1])
      && x.woken == [] && x.added == l
      && t < |s.next| && s.next[t].Tail? && ls.owner[t] == h && t !in l
    case Draining(node) => node == LinkAt(l, 0) && x.added == x.woken + l
    case Popped(node, t) => node == LinkAt(l, 0) && t < |s.next| && x.added == x.woken + [t] + l
  }

  // Head h is linked as its list: in order, without repetition, ending in the tail.
  ghost predicate HeadOk(s: State, ls: Lists, h: nat)
    requires h < |s.heads| == |ls.of| && |ls.owner| == |s.next|
  {
    LinksOk(s, ls, h) && NoRepeats(ls.of[h]) && NoRepeats(s.heads[h].added) && PhaseOk(s, ls, h)
  }

  // A task's link is set exactly while a head has it.
  ghost predicate TaskOk(s: State, ls: Lists, t: nat)
    requires t < |s.next| == |ls.owner| && |ls.of| == |s.heads|
  {
    && -1 <= ls.owner[t] < |s.heads|
    && (s.next[t].Nil? <==> ls.owner[t] == -1)
    && (ls.owner[t] >= 0 ==> t in ls.of[ls.owner[t]] || Claims(s.heads[ls.owner[t]], t))
  }

  ghost function PoppedBy(t: nat): Head -> int {
    (x: Head) => if x.phase.Popped? && x.phase.t == t then 1 else 0
  }

  // The references that wake queues hold: one while the task is on a list, one while it has been
  // taken off and not yet put, and none while a plain wake_q_add has only claimed it.
  ghost function QueueRefs(s: State, ls: Lists, t: nat): int
    requires t < |ls.owner|
  {
    (if 0 <= ls.owner[t] < |s.heads| && s.heads[ls.owner[t]].phase != Claimed(t, false) then 1 else 0)
    + Sum(s.heads, PoppedBy(t))
  }

  ghost predicate RefOk(s: State, ls: Lists, t: nat)
    requires t < |ls.owner| == |s.refs| == |s.others|
  {
    && s.refs[t] == s.others[t] + QueueRefs(s, ls, t) && s.others[t] >= 0
    && (0 <= ls.owner[t] < |s.heads| && s.heads[ls.owner[t]].phase == Claimed(t, false) ==> s.others[t] >= 1)
  }

  ghost predicate Shape(s: State, ls: Lists) {
    |ls.of| == |s.heads| && |ls.owner| == |s.next| == |s.refs| == |s.others|
  }

  ghost predicate Inv(s: State, ls: Lists) {
    && Shape(s, ls)
    && (forall h :: 0 <= h < |s.heads| ==> HeadOk(s, ls, h))
    && (forall t :: 0 <= t < |s.next| ==> TaskOk(s, ls, t))
    && (forall t :: 0 <= t < |s.next| ==> RefOk(s, ls, t))
  }

  lemma BootInv(n: nat, k: nat)
    ensures Inv(Boot(n, k), Lists(seq(k, _ => []), seq(n, _ => -1)))
  {
    var s, ls := Boot(n, k), Lists(seq(k, _ => []), seq(n, _ => -1));
    forall t | 0 <= t < n ensures RefOk(s, ls, t) {
      SumZero(s.heads, PoppedBy(t));
    }
  }

  // ---- Steps ----

  // A step of head h: the other heads keep their lists, and the links of their tasks stay.
  ghost predicate StepOf(s: State, ls: Lists, z: State, ls': Lists, h: nat) {
    && Shape(s, ls) && Shape(z, ls') && h < |s.heads| == |z.heads| && |z.next| == |s.next|
    && z.heads == s.heads[h := z.heads[h]] && ls'.of == ls.of[h := ls'.of[h]]
    && (forall t :: 0 <= t < |s.next| && 0 <= ls.owner[t] != h ==>
          z.next[t] == s.next[t] && ls'.owner[t] == ls.owner[t])
  }

  lemma OtherHead(s: State, ls: Lists, z: State, ls': Lists, h: nat, k: nat)
    requires StepOf(s, ls, z, ls', h) && k < |s.heads| && k != h && HeadOk(s, ls, k)
    ensures HeadOk(z, ls', k)
  {
    forall i | 0 <= i < |ls.of[k]| ensures LinkOk(z, ls', k, i) {
      assert LinkOk(s, ls, k, i);
    }
  }

  // The references of task t when only head h changes.
  lemma RefsStep(s: State, ls: Lists, z: State, ls': Lists, h: nat, t: nat)
    requires h < |s.heads| == |z.heads| && z.heads == s.heads[h := z.heads[h]] && t < |ls.owner| == |ls'.owner|
    ensures QueueRefs(z, ls', t) - QueueRefs(s, ls, t)
         == (if 0 <= ls'.owner[t] < |z.heads| && z.heads[ls'.owner[t]].phase != Claimed(t, false) then 1 else 0)
          - (if 0 <= ls.owner[t] < |s.heads| && s.heads[ls.owner[t]].phase != Claimed(t, false) then 1 else 0)
          + PoppedBy(t)(z.heads[h]) - PoppedBy(t)(s.heads[h])
  {
    SumUpdate(s.heads, h, z.heads[h], PoppedBy(t));
  }

  // What is left to show of a step of head h.
  lemma StepInv(s: State, ls: Lists, z: State, ls': Lists, h: nat)
    requires Inv(s, ls) && StepOf(s, ls, z, ls', h) && HeadOk(z, ls', h)
    requires forall t :: 0 <= t < |s.next| ==> TaskOk(z, ls', t)
    requires forall t :: 0 <= t < |s.next| ==> RefOk(z, ls', t)
    ensures Inv(z, ls')
  {
    forall k | 0 <= k < |z.heads| && k != h ensures HeadOk(z, ls', k) {
      OtherHead(s, ls, z, ls', h, k);
    }
  }

  // The tasks of a list belong to its head.
  lemma Owned(s: State, ls: Lists, h: nat)
    requires Inv(s, ls) && h < |s.heads|
    ensures forall t :: t in ls.of[h] ==> t < |s.next| && ls.owner[t] == h
  {
    assert HeadOk(s, ls, h);
    forall i | 0 <= i < |ls.of[h]| ensures ls.of[h][i] < |s.next| && ls.owner[ls.of[h][i]] == h {
      assert LinkOk(s, ls, h, i);
    }
  }

  lemma ClaimHead(s: State, ls: Lists, h: nat, t: nat, safe: bool)
    requires Inv(s, ls) && Enabled(s, Claim(h, t, safe)) && s.next[t].Nil?
    ensures HeadOk(ClaimNext(s, h, t, safe), ListsNext(s, Claim(h, t, safe), ls), h)
  {
    var z, ls' := ClaimNext(s, h, t, safe), ListsNext(s, Claim(h, t, safe), ls);
    Owned(s, ls, h);
    assert TaskOk(s, ls, t) && HeadOk(s, ls, h);
    forall i | 0 <= i < |ls.of[h]| ensures LinkOk(z, ls', h, i) {
      assert LinkOk(s, ls, h, i);
      assert ls.of[h][i] in ls.of[h];
    }
  }

  // The compare-and-exchange on a task that is free.
  lemma ClaimFreeInv(s: State, ls: Lists, h: nat, t: nat, safe: bool)
    requires Inv(s, ls) && Enabled(s, Claim(h, t, safe)) && s.next[t].Nil?
    ensures Inv(ClaimNext(s, h, t, safe), ListsNext(s, Claim(h, t, safe), ls))
  {
    var z, ls' := ClaimNext(s, h, t, safe), ListsNext(s, Claim(h, t, safe), ls);
    ClaimHead(s, ls, h, t, safe);
    assert TaskOk(s, ls, t);
    forall u | 0 <= u < |z.next| ensures TaskOk(z, ls', u) && RefOk(z, ls', u) {
      assert TaskOk(s, ls, u) && RefOk(s, ls, u);
      RefsStep(s, ls, z, ls', h, u);
    }
    StepInv(s, ls, z, ls', h);
  }

  // References held elsewhere come and go.
  lemma ElsewhereInv(s: State, ls: Lists, t: nat, d: int)
    requires Inv(s, ls) && t < |s.refs| && s.others[t] + d >= Pinned(s, t)
    ensures Inv(s.(refs := s.refs[t := s.refs[t] + d], others := s.others[t := s.others[t] + d]), ls)
  {
    var z := s.(refs := s.refs[t := s.refs[t] + d], others := s.others[t := s.others[t] + d]);
    forall k | 0 <= k < |z.heads| ensures HeadOk(z, ls, k) {
      assert HeadOk(s, ls, k);
      forall i | 0 <= i < |ls.of[k]| ensures LinkOk(z, ls, k, i) { assert LinkOk(s, ls, k, i); }
    }
    forall u | 0 <= u < |z.next| ensures TaskOk(z, ls, u) && RefOk(z, ls, u) {
      assert TaskOk(s, ls, u) && RefOk(s, ls, u);
    }
  }

  lemma ClaimInv(s: State, ls: Lists, h: nat, t: nat, safe: bool)
    requires Inv(s, ls) && Enabled(s, Claim(h, t, safe))
    ensures Inv(ClaimNext(s, h, t, safe), ListsNext(s, Claim(h, t, safe), ls))
  {
    if s.next[t].Nil? {
      ClaimFreeInv(s, ls, h, t, safe);
    } else if safe {
      ElsewhereInv(s, ls, t, -1);
    }
  }

  lemma AppendLinks(s: State, ls: Lists, h: nat)
    requires Inv(s, ls) && Enabled(s, Append(h))
    ensures LinksOk(AppendNext(s, h), ListsNext(s, Append(h), ls), h)
    ensures s.heads[h].last >= 0 ==> ls.owner[s.heads[h].last] == h
  {
    var z, l, ls' := AppendNext(s, h), ls.of[h], ListsNext(s, Append(h), ls);
    assert HeadOk(s, ls, h);
    if l != [] { assert LinkOk(s, ls, h, |l| - 1); }
    forall i | 0 <= i < |ls'.of[h]| ensures LinkOk(z, ls', h, i) {
      if i < |l| {
        assert LinkOk(s, ls, h, i);
      }
    }
  }

  lemma AppendHead(s: State, ls: Lists, h: nat)
    requires Inv(s, ls) && Enabled(s, Append(h))
    ensures HeadOk(AppendNext(s, h), ListsNext(s, Append(h), ls), h)
  {
    AppendLinks(s, ls, h);
    assert HeadOk(s, ls, h);
    NoRepeatsAppend(ls.of[h], s.heads[h].phase.t);
  }

  lemma NoRepeatsAppend(l: seq<nat>, t: nat)
    requires NoRepeats(l) && t !in l
    ensures NoRepeats(l + [t])
  {
  }

  lemma AppendInv(s: State, ls: Lists, h: nat)
    requires Inv(s, ls) && Enabled(s, Append(h))
    ensures Inv(AppendNext(s, h), ListsNext(s, Append(h), ls))
  {
    var z, ls', t := AppendNext(s, h), ListsNext(s, Append(h), ls), s.heads[h].phase.t;
    AppendLinks(s, ls, h);
    AppendHead(s, ls, h);
    assert HeadOk(s, ls, h);
    forall u | 0 <= u < |z.next| ensures TaskOk(z, ls', u) && RefOk(z, ls', u) {
      assert TaskOk(s, ls, u) && RefOk(s, ls, u);
      assert u in ls.of[h] + [t] <==> u in ls.of[h] || u == t;
      RefsStep(s, ls, z, ls', h, u);
    }
    StepInv(s, ls, z, ls', h);
  }

  // The task to be taken off is the first of the list.
  lemma FirstOfList(s: State, ls: Lists, h: nat)
    requires Inv(s, ls) && h < |s.heads| && s.heads[h].phase.Draining? && s.heads[h].phase.node != Tail
    ensures ls.of[h] != [] && s.heads[h].phase.node == To(ls.of[h][0]) && ls.of[h][0] < |s.next|
    ensures ls.owner[ls.of[h][0]] == h && s.next[ls.of[h][0]] == LinkAt(ls.of[h], 1)
    ensures ls.of[h] == [ls.of[h][0]] + ls.of[h][1..]
  {
    assert HeadOk(s, ls, h) && LinkOk(s, ls, h, 0);
  }

  lemma PopLinks(s: State, ls: Lists, h: nat)
    requires Inv(s, ls) && Enabled(s, Pop(h))
    ensures LinksOk(Next(s, Pop(h)), ListsNext(s, Pop(h), ls), h)
  {
    var z, l, ls' := Next(s, Pop(h)), ls.of[h], ListsNext(s, Pop(h), ls);
    FirstOfList(s, ls, h);
    assert HeadOk(s, ls, h);
    forall i | 0 <= i < |ls'.of[h]| ensures LinkOk(z, ls', h, i) {
      assert LinkOk(s, ls, h, i + 1);
      assert l[i + 1] != l[0];
    }
  }

  lemma PopHead(s: State, ls: Lists, h: nat)
    requires Inv(s, ls) && Enabled(s, Pop(h))
    ensures HeadOk(Next(s, Pop(h)), ListsNext(s, Pop(h), ls), h)
  {
    var l := ls.of[h];
    PopLinks(s, ls, h);
    FirstOfList(s, ls, h);
    assert HeadOk(s, ls, h);
    NoRepeatsRest(l);
    Regroup(s.heads[h].woken, l);
  }

  lemma NoRepeatsRest(l: seq<nat>)
    requires l != [] && NoRepeats(l)
    ensures NoRepeats(l[1..])
  {
  }

  lemma Regroup(woken: seq<nat>, l: seq<nat>)
    requires l != []
    ensures woken + l == woken + [l[0]] + l[1..]
  {
  }

  lemma PopInv(s: State, ls: Lists, h: nat)
    requires Inv(s, ls) && Enabled(s, Pop(h))
    ensures Inv(Next(s, Pop(h)), ListsNext(s, Pop(h), ls))
  {
    var z, ls', t := Next(s, Pop(h)), ListsNext(s, Pop(h), ls), s.heads[h].phase.node.t;
    FirstOfList(s, ls, h);
    PopHead(s, ls, h);
    forall u | 0 <= u < |z.next| ensures TaskOk(z, ls', u) && RefOk(z, ls', u) {
      assert TaskOk(s, ls, u) && RefOk(s, ls, u);
      assert u in ls.of[h] <==> u == t || u in ls.of[h][1..];
      RefsStep(s, ls, z, ls', h, u);
    }
    StepInv(s, ls, z, ls', h);
  }

  lemma QuietHead(s: State, ls: Lists, a: Action)
    requires Inv(s, ls) && Enabled(s, a) && (a.Start? || a.WakeAndPut? || a.Reinit?)
    ensures HeadOk(Next(s, a), ls, a.h)
  {
    assert HeadOk(s, ls, a.h);
    forall i | 0 <= i < |ls.of[a.h]| ensures LinkOk(Next(s, a), ls, a.h, i) { assert LinkOk(s, ls, a.h, i); }
  }

  lemma QuietInv(s: State, ls: Lists, a: Action)
    requires Inv(s, ls) && Enabled(s, a) && (a.Start? || a.WakeAndPut? || a.Reinit?)
    ensures Inv(Next(s, a), ListsNext(s, a, ls))
  {
    var z := Next(s, a);
    QuietHead(s, ls, a);
    forall u | 0 <= u < |z.next| ensures TaskOk(z, ls, u) && RefOk(z, ls, u) {
      assert TaskOk(s, ls, u) && RefOk(s, ls, u);
      RefsStep(s, ls, z, ls, a.h, u);
    }
    StepInv(s, ls, z, ls, a.h);
  }

  lemma NextInv(s: State, ls: Lists, a: Action)
    requires Inv(s, ls) && Enabled(s, a)
    ensures Inv(Next(s, a), ListsNext(s, a, ls))
  {
    match a
    case Claim(h, t, safe) => ClaimInv(s, ls, h, t, safe);
    case Append(h) => AppendInv(s, ls, h);
    case Pop(h) => PopInv(s, ls, h);
    case Start(_) => QuietInv(s, ls, a);
    case WakeAndPut(_) => QuietInv(s, ls, a);
    case Reinit(_) => QuietInv(s, ls, a);
    case GetElsewhere(t) => ElsewhereInv(s, ls, t, 1);
    case PutElsewhere(t) => ElsewhereInv(s, ls, t, -1);
  }

  // ---- Whole runs ----

  lemma {:induction false} RunInv(s: State, ls: Lists, acts: seq<Action>, z: State) returns (ls': Lists)
    requires Inv(s, ls) && Runs(s, acts, z)
    ensures Inv(z, ls')
    decreases |acts|
  {
    if acts == [] {
      ls' := ls;
    } else {
      NextInv(s, ls, acts[0]);
      ls' := RunInv(Next(s, acts[0]), ListsNext(s, acts[0], ls), acts[1..], z);
    }
  }

  // In every state of every run the links of all contexts are disjoint lists that end in the tail.
  lemma LinksAreLists(n: nat, k: nat, acts: seq<Action>, z: State) returns (ls: Lists)
    requires Runs(Boot(n, k), acts, z)
    ensures Inv(z, ls)
    ensures forall g, h :: 0 <= g < h < |ls.of| ==> forall t :: t in ls.of[g] ==> t !in ls.of[h]
  {
    BootInv(n, k);
    ls := RunInv(Boot(n, k), Lists(seq(k, _ => []), seq(n, _ => -1)), acts, z);
    forall g, h, t | 0 <= g < h < |ls.of| && t in ls.of[g] ensures t !in ls.of[h] {
      Owned(z, ls, g);
      Owned(z, ls, h);
    }
  }

  // The tasks a head has taken and not started to wake, or is taking now.
  ghost predicate WillWake(x: Head, t: nat) {
    || Claims(x, t)
    || (|x.woken| <= |x.added| && t in x.added[|x.woken|..] && !(x.phase.Popped? && x.phase.t == t))
  }

  // An add that finds the link set may give up: some context still has that task to wake.
  lemma FailedAddHasWaker(n: nat, k: nat, acts: seq<Action>, z: State, t: nat)
    requires Runs(Boot(n, k), acts, z) && t < |z.next|
    ensures z.next[t] != Nil <==> exists h :: 0 <= h < |z.heads| && WillWake(z.heads[h], t)
  {
    var ls := LinksAreLists(n, k, acts, z);
    assert TaskOk(z, ls, t);
    forall h | 0 <= h < |z.heads| ensures WillWake(z.heads[h], t) <==> ls.owner[t] == h {
      WillWakeIffOwned(z, ls, h, t);
    }
    if z.next[t] != Nil {
      var h := ls.owner[t];
      assert WillWake(z.heads[h], t);
    }
  }

  // What is added and not woken yet is the list, behind the task just taken off.
  lemma NotYetWoken(z: State, ls: Lists, h: nat)
    requires Inv(z, ls) && h < |z.heads|
    ensures var x := z.heads[h];
            && |x.woken| <= |x.added| && x.woken == x.added[..|x.woken|]
            && x.added[|x.woken|..] == (if x.phase.Popped? then [x.phase.t] + ls.of[h] else ls.of[h])
            && (x.phase.Popped? ==> x.phase.t !in ls.of[h])
  {
    var x, l := z.heads[h], ls.of[h];
    assert HeadOk(z, ls, h);
    if x.phase.Popped? {
      forall i | 0 <= i < |l| ensures l[i] != x.phase.t {
        assert l[i] == x.added[|x.woken| + 1 + i] && x.phase.t == x.added[|x.woken|];
      }
    }
  }

  lemma WillWakeIffOwned(z: State, ls: Lists, h: nat, t: nat)
    requires Inv(z, ls) && h < |z.heads| && t < |z.next|
    ensures WillWake(z.heads[h], t) <==> ls.owner[t] == h
  {
    NotYetWoken(z, ls, h);
    Owned(z, ls, h);
    assert HeadOk(z, ls, h) && TaskOk(z, ls, t);
  }

  // A task whose link is set is always referenced: by its list, or by the caller that is adding it.
  lemma LinkedReferenced(n: nat, k: nat, acts: seq<Action>, z: State, t: nat)
    requires Runs(Boot(n, k), acts, z) && t < |z.next|
    ensures t < |z.refs| && (z.next[t] != Nil ==> z.refs[t] >= 1)
  {
    var ls := LinksAreLists(n, k, acts, z);
    assert TaskOk(z, ls, t) && RefOk(z, ls, t);
    SumNonNegative(z.heads, PoppedBy(t));
  }

  // When wake_up_q runs out of nodes it has woken every task added to its head, once each and in
  // the order they were added; and the task it is about to touch is always still referenced.
  lemma WakesEachOnceInOrder(n: nat, k: nat, acts: seq<Action>, z: State, h: nat)
    requires Runs(Boot(n, k), acts, z) && h < |z.heads|
    ensures NoRepeats(z.heads[h].added) && z.heads[h].woken <= z.heads[h].added
    ensures z.heads[h].phase == Draining(Tail) ==> z.heads[h].woken == z.heads[h].added
    ensures z.heads[h].phase.Draining? && z.heads[h].phase.node.To? ==>
              var t := z.heads[h].phase.node.t; t < |z.refs| == |z.next| && z.refs[t] >= 1 && z.next[t] != Nil
    ensures z.heads[h].phase.Popped? ==> z.heads[h].phase.t < |z.refs| && z.refs[z.heads[h].phase.t] >= 1
    ensures !(z.heads[h].phase.Draining? && z.heads[h].phase.node.Nil?)
  {
    var ls := LinksAreLists(n, k, acts, z);
    NotYetWoken(z, ls, h);
    assert HeadOk(z, ls, h);
    if z.heads[h].phase.Draining? && z.heads[h].phase.node.To? {
      QueuedReferenced(z, ls, h);
    } else if z.heads[h].phase.Popped? {
      assert RefOk(z, ls, z.heads[h].phase.t);
      PoppedCounted(z.heads, h);
    }
  }

  // The next task to be taken off is queued and referenced.
  lemma QueuedReferenced(z: State, ls: Lists, h: nat)
    requires Inv(z, ls) && h < |z.heads| && z.heads[h].phase.Draining? && z.heads[h].phase.node != Tail
    ensures ls.of[h] != [] && ls.of[h][0] < |z.next| == |z.refs| && z.heads[h].phase.node == To(ls.of[h][0])
    ensures z.refs[ls.of[h][0]] >= 1 && z.next[ls.of[h][0]] != Nil
  {
    FirstOfList(z, ls, h);
    var t := ls.of[h][0];
    assert TaskOk(z, ls, t) && RefOk(z, ls, t);
    SumNonNegative(z.heads, PoppedBy(t));
  }

  lemma PoppedCounted(heads: seq<Head>, h: nat)
    requires h < |heads| && heads[h].phase.Popped?
    ensures Sum(heads, PoppedBy(heads[h].phase.t)) >= 1
  {
    var t := heads[h].phase.t;
    var rest := heads[h := EMPTY];
    SumUpdate(heads, h, EMPTY, PoppedBy(t));
    SumNonNegative(rest, PoppedBy(t));
  }

  // Once no context holds a task, the references taken for the queues have all been given back.
  lemma ReferencesReturned(n: nat, k: nat, acts: seq<Action>, z: State)
    requires Runs(Boot(n, k), acts, z)
    requires forall h :: 0 <= h < |z.heads| ==> z.heads[h].phase == Ready && z.heads[h].first == Tail
    ensures z.refs == z.others && forall t :: 0 <= t < |z.next| ==> z.next[t] == Nil
  {
    var ls := LinksAreLists(n, k, acts, z);
    forall h | 0 <= h < |z.heads| ensures ls.of[h] == [] {
      assert HeadOk(z, ls, h);
    }
    forall t | 0 <= t < |z.next| ensures z.refs[t] == z.others[t] && z.next[t] == Nil {
      assert TaskOk(z, ls, t) && RefOk(z, ls, t);
      SumZero(z.heads, PoppedBy(t));
    }
  }

  // ---- wake_up_q ----

  // ---- What was asked for ----

  // The tasks that head h took in since it was last set up, from those it took in before.
  ghost function Asked(s: State, acts: seq<Action>, h: nat, before: seq<nat>): seq<nat>
    decreases |acts|
  {
    if acts == [] || !Enabled(s, acts[0]) then before
    else
      var now :=
        if acts[0] == Reinit(h) then [] else if acts[0] == Append(h) then before + [s.heads[h].phase.t] else before;
      Asked(Next(s, acts[0]), acts[1..], h, now)
  }

  // The references given up by calls for t: each safe one gives up the caller's, put elsewhere or not.
  ghost function GivenUp(acts: seq<Action>, t: nat): int {
    if acts == [] then 0
    else
      (match acts[0]
       case Claim(_, u, safe) => if u == t && safe then 1 else 0
       case GetElsewhere(u) => if u == t then -1 else 0
       case PutElsewhere(u) => if u == t then 1 else 0
       case _ => 0) + GivenUp(acts[1..], t)
  }

  // Main result: in every run a head holds what was added to it since it was set up, and the callers'
  // references to a task are those they took less those they gave up, whether or not a safe add found the
  // task already queued.
  lemma {:induction false} AskedAndGivenUp(s: State, acts: seq<Action>, z: State, h: nat, t: nat)
    requires Runs(s, acts, z) && h < |s.heads| && t < |s.others|
    ensures h < |z.heads| && z.heads[h].added == Asked(s, acts, h, s.heads[h].added)
    ensures t < |z.others| && z.others[t] == s.others[t] - GivenUp(acts, t)
    decreases |acts|
  {
    if acts != [] {
      AskedAndGivenUp(Next(s, acts[0]), acts[1..], z, h, t);
    }
  }

  // z is s with some of the tasks of head h taken off: links cleared, woken, references dropped.
  ghost predicate Drained(s: State, z: State, h: nat) {
    && h < |s.heads| == |z.heads| && |s.next| == |s.refs| == |z.next| == |z.refs| && z.others == s.others
    && z.heads[h].phase.Draining? && z.heads[h].added == s.heads[h].added
    && (forall k :: 0 <= k < |s.heads| && k != h ==> z.heads[k] == s.heads[k])
    && (forall t :: 0 <= t < |s.next| ==> z.next[t] == if t in z.heads[h].woken then Nil else s.next[t])
    && (forall t :: 0 <= t < |s.refs| ==> z.refs[t] == s.refs[t] - if t in z.heads[h].woken then 1 else 0)
  }

  // The first task left has not been woken in this drain.
  lemma FirstLeft(s: State, ls: Lists, h: nat)
    requires Inv(s, ls) && h < |s.heads| && s.heads[h].phase.Draining? && s.heads[h].phase.node != Tail
    ensures ls.of[h] != [] && s.heads[h].phase.node == To(ls.of[h][0]) && ls.of[h][0] < |s.next|
    ensures ls.of[h][0] !in s.heads[h].woken
  {
    var x, l := s.heads[h], ls.of[h];
    FirstOfList(s, ls, h);
    assert HeadOk(s, ls, h);
    forall i | 0 <= i < |x.woken| ensures x.woken[i] != l[0] {
      assert x.woken[i] == x.added[i] && l[0] == x.added[|x.woken|];
    }
  }

  // One turn of the loop.
  function Turn(s: State, h: nat): State
    requires h < |s.heads| && s.heads[h].phase.Draining? && s.heads[h].phase.node.To?
    requires s.heads[h].phase.node.t < |s.next| == |s.refs|
  {
    Next(Next(s, Pop(h)), WakeAndPut(h))
  }

  lemma TurnDrains(s: State, z: State, h: nat)
    requires Drained(s, z, h) && z.heads[h].phase.node.To? && z.heads[h].phase.node.t < |z.next|
    requires z.heads[h].phase.node.t !in z.heads[h].woken
    requires Turn(z, h).heads[h].phase.Draining?
    ensures Drained(s, Turn(z, h), h)
  {
    var t, z' := z.heads[h].phase.node.t, Turn(z, h);
    assert z'.heads[h].woken == z.heads[h].woken + [t];
    assert z'.next == z.next[t := Nil] && z'.refs == z.refs[t := z.refs[t] - 1];
  }

  // ---- The loop among other contexts ----

  // An action of another context, or a reference taken or dropped elsewhere.
  predicate Foreign(a: Action, h: nat) { a.GetElsewhere? || a.PutElsewhere? || a.h != h }

  // What other contexts do, where it is possible.
  function Others(s: State, h: nat, acts: seq<Action>): State {
    if acts == [] then s
    else
      var before := Others(s, h, acts[..|acts| - 1]);
      var a := acts[|acts| - 1];
      if Foreign(a, h) && Enabled(before, a) then Next(before, a) else before
  }

  lemma ForeignKeeps(s: State, ls: Lists, a: Action, h: nat)
    requires Inv(s, ls) && Enabled(s, a) && Foreign(a, h) && h < |s.heads|
    ensures |Next(s, a).heads| == |s.heads| && Next(s, a).heads[h] == s.heads[h]
    ensures ListsNext(s, a, ls).of[h] == ls.of[h]
  {
  }

  lemma {:induction false} OthersKeep(s: State, ls: Lists, h: nat, acts: seq<Action>) returns (ls': Lists)
    requires Inv(s, ls) && h < |s.heads|
    ensures Inv(Others(s, h, acts), ls') && |Others(s, h, acts).heads| == |s.heads|
    ensures Others(s, h, acts).heads[h] == s.heads[h] && ls'.of[h] == ls.of[h]
    decreases |acts|
  {
    ls' := ls;
    if acts != [] {
      ls' := OthersKeep(s, ls, h, acts[..|acts| - 1]);
      var before, a := Others(s, h, acts[..|acts| - 1]), acts[|acts| - 1];
      if Foreign(a, h) && Enabled(before, a) {
        ForeignKeeps(before, ls', a, h);
        NextInv(before, ls', a);
        ls' := ListsNext(before, a, ls');
      }
    }
  }

  // One turn of the loop: the first task is taken off, and then woken and put.
  function BusyTurn(s: State, h: nat, first: seq<Action>, second: seq<Action>): State {
    var a := Others(s, h, first);
    if !Enabled(a, Pop(h)) then a
    else
      var b := Others(Next(a, Pop(h)), h, second);
      if !Enabled(b, WakeAndPut(h)) then b else Next(b, WakeAndPut(h))
  }

  // What the loop keeps: the lists are right, and head h has woken what it took off.
  ghost predicate Midway(s: State, z: State, ls: Lists, h: nat) {
    && h < |s.heads| == |z.heads| && Inv(z, ls)
    && z.heads[h].phase.Draining? && z.heads[h].added == s.heads[h].added
  }

  lemma StartDrain(s: State, ls: Lists, h: nat)
    requires Inv(s, ls) && h < |s.heads| && s.heads[h].phase == Ready
    ensures Midway(s, Next(s, Start(h)), ls, h) && Drained(s, Next(s, Start(h)), h)
  {
    assert HeadOk(s, ls, h);
    QuietInv(s, ls, Start(h));
  }

  lemma PopTurn(s: State, ls: Lists, h: nat)
    requires Inv(s, ls) && h < |s.heads| && s.heads[h].phase.Draining? && s.heads[h].phase.node != Tail
    ensures Enabled(s, Pop(h)) && Inv(Next(s, Pop(h)), ListsNext(s, Pop(h), ls))
    ensures ls.of[h] != [] && |ListsNext(s, Pop(h), ls).of[h]| < |ls.of[h]|
  {
    FirstLeft(s, ls, h);
    PopInv(s, ls, h);
  }

  lemma PutTurn(s: State, ls: Lists, h: nat)
    requires Inv(s, ls) && h < |s.heads| && s.heads[h].phase.Popped?
    ensures Enabled(s, WakeAndPut(h)) && Inv(Next(s, WakeAndPut(h)), ls)
  {
    assert HeadOk(s, ls, h);
    QuietInv(s, ls, WakeAndPut(h));
  }

  lemma DrainTurn(s: State, z: State, ls: Lists, h: nat, first: seq<Action>, second: seq<Action>) returns (ls': Lists)
    requires Midway(s, z, ls, h) && z.heads[h].phase != Draining(Tail)
    ensures Midway(s, BusyTurn(z, h, first, second), ls', h) && |ls'.of[h]| < |ls.of[h]|
  {
    ls' := OthersKeep(z, ls, h, first);
    var a := Others(z, h, first);
    PopTurn(a, ls', h);
    ls' := ListsNext(a, Pop(h), ls');
    var popped := Next(a, Pop(h));
    ls' := OthersKeep(popped, ls', h, second);
    PutTurn(Others(popped, h, second), ls', h);
  }

  // Without other contexts a turn also changes nothing else.
  lemma QuietTurn(s: State, z: State, ls: Lists, h: nat)
    requires Midway(s, z, ls, h) && Drained(s, z, h) && z.heads[h].phase != Draining(Tail)
    ensures Drained(s, BusyTurn(z, h, [], []), h)
  {
    FirstLeft(z, ls, h);
    TurnDrains(s, z, h);
    PopTurn(z, ls, h);
    assert BusyTurn(z, h, [], []) == Turn(z, h);
  }

  lemma EndDrain(s: State, z: State, ls: Lists, h: nat)
    requires Midway(s, z, ls, h) && z.heads[h].phase == Draining(Tail)
    ensures z.heads[h].woken == s.heads[h].added && ls.of[h] == []
  {
    assert HeadOk(z, ls, h);
  }

  // The loop of wake_up_q, with others(k) done by other contexts before its k-th step: it ends, has
  // woken the tasks added in order, and leaves lists and references right; and with no other context
  // at work it clears each link, drops one reference for each task and changes nothing else.
  method WakeUpQ(s: State, h: nat, others: nat -> seq<Action>, ghost ls: Lists) returns (z: State, ghost rest: Lists)
    requires Inv(s, ls) && h < |s.heads| && s.heads[h].phase == Ready
    ensures |z.heads| == |s.heads| && Inv(z, rest) && rest.of[h] == []
    ensures z.heads[h].phase == Draining(Tail) && z.heads[h].woken == z.heads[h].added == s.heads[h].added
    ensures (forall k :: others(k) == []) ==> Drained(s, z, h)
  {
    StartDrain(s, ls, h);
    z, rest := Next(s, Start(h)), ls;
    var k := 0;
    while z.heads[h].phase != Draining(Tail)
      invariant Midway(s, z, rest, h)
      invariant (forall j :: others(j) == []) ==> Drained(s, z, h)
      decreases |rest.of[h]|
    {
      if forall j :: others(j) == [] {
        QuietTurn(s, z, rest, h);
      }
      rest := DrainTurn(s, z, rest, h, others(k), others(k + 1));
      z := BusyTurn(z, h, others(k), others(k + 1));
      k := k + 2;
    }
    EndDrain(s, z, rest, h);
  }
}
