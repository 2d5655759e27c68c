/**
 A hierarchy of task groups with its tasks and runqueues: a clamp written to a
 group while other CPUs enqueue, dequeue and move tasks, and the refresh of the
 tasks that hold clamps on runqueues.
 */
module UclampHierarchy {
  import opened TaskGroups
  import opened UclampBuckets
  import opened UclampRq
  import opened UclampGroups

  // ---- Tasks ----

  // A task: its group, whether the group restricts it (neither root nor an autogroup does), and its
  // own request.
  datatype Member = Member(group: nat, restricted: bool, req: Pair)

  // The kernel's clamp(v, lo, hi).
  function ClampTo(v: nat, lo: nat, hi: nat): nat { Min(Max(v, lo), hi) }

  // uclamp_eff_get.
  function Effective(m: Member, eff: seq<Pair>, limit: Pair): Pair
    requires m.group < |eff|
  {
    var g := eff[m.group];
    if m.restricted then
      Pair(Min(ClampTo(m.req.min, g.min, g.max), limit.min), Min(ClampTo(m.req.max, g.min, g.max), limit.max))
    else Pair(Min(m.req.min, limit.min), Min(m.req.max, limit.max))
  }

  // v is the request moved into the bounds, as far as the system limit allows.
  ghost predicate Clamped(v: nat, want: nat, lo: nat, hi: nat, cap: nat) {
    && (want < lo ==> v == Min(lo, cap)) && (lo <= want <= hi ==> v == Min(want, cap))
    && (hi < want ==> v == Min(hi, cap))
    && v <= cap && v <= hi && Min(lo, cap) <= v && (lo <= want <= hi && want <= cap ==> v == want)
  }

  // The clamps that a task should have where its group is held to these bounds.
  ghost predicate RightFor(e: Pair, m: Member, g: Pair, limit: Pair) {
    if m.restricted then
      Clamped(e.min, m.req.min, g.min, g.max, limit.min) && Clamped(e.max, m.req.max, g.min, g.max, limit.max)
    else
      && e.min <= m.req.min && e.min <= limit.min && (e.min == m.req.min || e.min == limit.min)
      && e.max <= m.req.max && e.max <= limit.max && (e.max == m.req.max || e.max == limit.max)
  }

  lemma EffectiveRight(m: Member, eff: seq<Pair>, limit: Pair)
    requires m.group < |eff| && eff[m.group].min <= eff[m.group].max
    ensures RightFor(Effective(m, eff, limit), m, eff[m.group], limit)
  {
  }

  // The bounds of a group: the least requests at or above it.
  ghost predicate LeastAbove(tree: Tree, req: seq<Pair>, j: nat, g: Pair)
    requires Valid(tree) && |req| == Count(tree) && j < Count(tree)
  {
    && (forall i :: 0 <= i < Count(tree) && Within(tree, i, j) ==>
          g.max <= req[i].max && g.min <= req[i].min && g.min <= req[i].max)
    && (exists i :: 0 <= i < Count(tree) && Within(tree, i, j) && g.max == req[i].max)
    && (exists i :: 0 <= i < Count(tree) && Within(tree, i, j) && (g.min == req[i].min || g.min == req[i].max))
  }

  lemma FullIsLeast(tree: Tree, req: seq<Pair>, j: nat)
    requires Valid(tree) && |req| == Count(tree) && j < Count(tree)
    ensures LeastAbove(tree, req, j, Full(tree, req, j)) && Full(tree, req, j).min <= Full(tree, req, j).max
  {
    var hi, lo := TightestRequest(tree, req, j);
    assert ValidAt(tree, j);
    Restrictive(tree, req, j, j);
  }

  // ---- Runqueues and the tasks on them ----

  // The CPU of a task, and whether it is enqueued there.
  datatype Place = Place(cpu: nat, on: bool)

  datatype Queues = Queues(rqs: seq<Rq>, places: seq<Place>)

  // What other CPUs do meanwhile, each under the runqueue lock of the task.
  datatype Move = Enqueue(t: nat) | Dequeue(t: nat) | SetCpu(t: nat, c: nat)

  ghost predicate QueueOk(n: nat, q: Queues, c: nat)
    requires BucketCount(n) && c < |q.rqs|
  {
    RqInv(n, q.rqs[c])
  }

  ghost predicate Accounted(q: Queues, c: nat, t: nat)
    requires c < |q.rqs|
  {
    IsActive(q.rqs[c].min, t) <==> t < |q.places| && q.places[t] == Place(c, true)
  }

  // Every runqueue meets its invariant and accounts for exactly the tasks enqueued on it.
  ghost predicate Placed(n: nat, q: Queues)
    requires BucketCount(n)
  {
    && (forall c :: 0 <= c < |q.rqs| ==> QueueOk(n, q, c))
    && (forall t :: 0 <= t < |q.places| ==> q.places[t].cpu < |q.rqs|)
    && (forall c, t :: 0 <= c < |q.rqs| && 0 <= t ==> Accounted(q, c, t))
  }

  // The clamps stored for a task, if it is enqueued, are the given ones.
  ghost predicate FreshAt(q: Queues, t: nat, e: Pair) {
    t < |q.places| && q.places[t].cpu < |q.rqs| &&
    var r := q.rqs[q.places[t].cpu];
    q.places[t].on ==> t in r.min.se && t in r.max.se && r.min.se[t].value == e.min && r.max.se[t].value == e.max
  }

  // What a move does to the places of tasks: moves that do not apply do nothing.
  function PlaceMove(places: seq<Place>, cpus: nat, m: Move): seq<Place> {
    if m.t >= |places| then places
    else
      var p := places[m.t];
      match m
      case Enqueue(t) => if p.on then places else places[t := p.(on := true)]
      case Dequeue(t) => if p.on then places[t := p.(on := false)] else places
      case SetCpu(t, c) => if p.on || c >= cpus then places else places[t := p.(cpu := c)]
  }

  function PlaceMoves(places: seq<Place>, cpus: nat, moves: seq<Move>): seq<Place> {
    if moves == [] then places
    else PlaceMove(PlaceMoves(places, cpus, moves[..|moves| - 1]), cpus, moves[|moves| - 1])
  }

  // The places after what others(0), others(1), ... up to but not including others(k) say.
  function PlacesAfter(places: seq<Place>, cpus: nat, others: nat -> seq<Move>, k: nat): seq<Place> {
    if k == 0 then places else PlaceMoves(PlacesAfter(places, cpus, others, k - 1), cpus, others(k - 1))
  }

  // And to the queues: enqueue_task and dequeue_task account for the task, with its effective clamps.
  function MoveTask(n: nat, q: Queues, m: Move, e: Pair): Queues
    requires BucketCount(n) && Placed(n, q)
  {
    var places := PlaceMove(q.places, |q.rqs|, m);
    if m.t >= |q.places| then q
    else
      var c := q.places[m.t].cpu;
      assert QueueOk(n, q, c);
      match m
      case Enqueue(t) => if q.places[t].on then q else Queues(q.rqs[c := Inc(n, q.rqs[c], t, e)], places)
      case Dequeue(t) => if q.places[t].on then Queues(q.rqs[c := Dec(n, q.rqs[c], t)], places) else q
      case SetCpu(_, _) => q.(places := places)
  }

  // uclamp_update_active.
  function Refresh(n: nat, q: Queues, t: nat, e: Pair): Queues
    requires BucketCount(n) && Placed(n, q) && t < |q.places|
  {
    var c := q.places[t].cpu;
    assert QueueOk(n, q, c);
    q.(rqs := q.rqs[c := Reinc(n, q.rqs[c], t, e)])
  }

  // ---- Moves and refreshes keep the queues right ----

  // The queues after runqueue c and the place of task t change.
  lemma PlacedStep(n: nat, q: Queues, z: Queues, c: nat, t: nat)
    requires BucketCount(n) && Placed(n, q) && t < |q.places| && c < |q.rqs| && q.places[t].cpu == c
    requires |z.rqs| == |q.rqs| && z.rqs == q.rqs[c := z.rqs[c]]
    requires |z.places| == |q.places| && z.places == q.places[t := Place(c, z.places[t].on)]
    requires RqInv(n, z.rqs[c])
    requires Active(z.rqs[c].min) == if z.places[t].on then Active(q.rqs[c].min) + {t} else Active(q.rqs[c].min) - {t}
    ensures Placed(n, z)
  {
    forall d | 0 <= d < |z.rqs| ensures QueueOk(n, z, d) {
      assert QueueOk(n, q, d);
    }
    forall d, u | 0 <= d < |z.rqs| && 0 <= u ensures Accounted(z, d, u) {
      assert Accounted(q, d, u);
      if d == c {
        assert IsActive(z.rqs[c].min, u) <==> u in Active(z.rqs[c].min);
        assert IsActive(q.rqs[c].min, u) <==> u in Active(q.rqs[c].min);
      }
    }
  }

  lemma EnqueueKeeps(n: nat, q: Queues, t: nat, e: Pair, u: nat, f: Pair)
    requires BucketCount(n) && Placed(n, q) && t < |q.places| && !q.places[t].on
    ensures Placed(n, MoveTask(n, q, Enqueue(t), e)) && FreshAt(MoveTask(n, q, Enqueue(t), e), t, e)
    ensures u != t && FreshAt(q, u, f) ==> FreshAt(MoveTask(n, q, Enqueue(t), e), u, f)
  {
    var c, z := q.places[t].cpu, MoveTask(n, q, Enqueue(t), e);
    assert Accounted(q, c, t) && QueueOk(n, q, c);
    IncInv(n, q.rqs[c], t, e);
    PlacedStep(n, q, z, c, t);
  }

  lemma DequeueKeeps(n: nat, q: Queues, t: nat, e: Pair, u: nat, f: Pair)
    requires BucketCount(n) && Placed(n, q) && t < |q.places| && q.places[t].on
    ensures Placed(n, MoveTask(n, q, Dequeue(t), e))
    ensures FreshAt(q, u, f) ==> FreshAt(MoveTask(n, q, Dequeue(t), e), u, f)
  {
    var c, z := q.places[t].cpu, MoveTask(n, q, Dequeue(t), e);
    assert QueueOk(n, q, c);
    DecInv(n, q.rqs[c], t);
    PlacedStep(n, q, z, c, t);
  }

  // A task that is not enqueued may have any CPU.
  lemma ElsewhereKeeps(n: nat, q: Queues, z: Queues, t: nat, u: nat, f: Pair)
    requires BucketCount(n) && Placed(n, q) && t < |q.places| == |z.places| && !q.places[t].on
    requires z.rqs == q.rqs && z.places == q.places[t := z.places[t]] && !z.places[t].on && z.places[t].cpu < |z.rqs|
    ensures Placed(n, z) && (FreshAt(q, u, f) ==> FreshAt(z, u, f))
  {
    forall d | 0 <= d < |z.rqs| ensures QueueOk(n, z, d) {
      assert QueueOk(n, q, d);
    }
    forall d, v | 0 <= d < |z.rqs| && 0 <= v ensures Accounted(z, d, v) {
      assert Accounted(q, d, v);
    }
  }

  // Any move keeps the queues right and fresh tasks fresh, given the mover's own effective clamps.
  lemma MoveKeeps(n: nat, q: Queues, m: Move, e: Pair, u: nat, f: Pair)
    requires BucketCount(n) && Placed(n, q) && (u == m.t ==> e == f)
    ensures Placed(n, MoveTask(n, q, m, e))
    ensures FreshAt(q, u, f) ==> FreshAt(MoveTask(n, q, m, e), u, f)
  {
    match m
    case Enqueue(t) => if t < |q.places| && !q.places[t].on { EnqueueKeeps(n, q, t, e, u, f); }
    case Dequeue(t) => if t < |q.places| && q.places[t].on { DequeueKeeps(n, q, t, e, u, f); }
    case SetCpu(t, c) =>
      if t < |q.places| && !q.places[t].on && c < |q.rqs| { ElsewhereKeeps(n, q, MoveTask(n, q, m, e), t, u, f); }
  }

  lemma RefreshPlaced(n: nat, q: Queues, t: nat, e: Pair)
    requires BucketCount(n) && Placed(n, q) && t < |q.places|
    ensures Placed(n, Refresh(n, q, t, e))
  {
    var c, z := q.places[t].cpu, Refresh(n, q, t, e);
    assert QueueOk(n, q, c) && Accounted(q, c, t);
    ReincInv(n, q.rqs[c], t, e);
    assert IsActive(q.rqs[c].min, t) <==> t in Active(q.rqs[c].min);
    assert z.places == q.places[t := Place(c, z.places[t].on)];
    PlacedStep(n, q, z, c, t);
  }

  // A refresh makes the task fresh and leaves the others as they are.
  lemma RefreshFreshens(n: nat, q: Queues, t: nat, e: Pair, u: nat, f: Pair)
    requires BucketCount(n) && Placed(n, q) && t < |q.places|
    ensures FreshAt(Refresh(n, q, t, e), t, e)
    ensures u != t && FreshAt(q, u, f) ==> FreshAt(Refresh(n, q, t, e), u, f)
  {
    var c := q.places[t].cpu;
    assert QueueOk(n, q, c) && Accounted(q, c, t);
    ReincStores(n, q.rqs[c], t, e);
    assert IsActive(q.rqs[c].max, t) <==> t in Active(q.rqs[c].max);
    assert IsActive(q.rqs[c].min, t) <==> t in Active(q.rqs[c].min);
  }

  // ---- The hierarchy ----

  class Hierarchy {
    const tree: Tree
    const n: nat
    const limit: Pair
    const members: seq<Member>
    var req: seq<Pair>
    var eff: seq<Pair>
    var queues: Queues

    ghost predicate Sound()
      reads this
    {
      && Valid(tree) && BucketCount(n) && |req| == |eff| == Count(tree)
      && (forall t :: 0 <= t < |members| ==> members[t].group < Count(tree))
      && |queues.places| == |members| && Placed(n, queues)
    }

    // Task t, if it is enqueued, stores its current effective clamps.
    ghost predicate Fresh(t: nat)
      requires Sound() && t < |members|
      reads this
    {
      FreshAt(queues, t, Effective(members[t], eff, limit))
    }

    ghost predicate AllFresh()
      requires Sound()
      reads this
    {
      forall t :: 0 <= t < |members| ==> Fresh(t)
    }

    method MoveOne(m: Move)
      requires Sound()
      modifies `queues
      ensures Sound() && |queues.rqs| == |old(queues).rqs|
      ensures queues.places == PlaceMove(old(queues).places, |queues.rqs|, m)
      ensures forall t :: 0 <= t < |members| && old(Fresh(t)) ==> Fresh(t)
    {
      var e := if m.t < |members| then Effective(members[m.t], eff, limit) else limit;
      MoveKeeps(n, queues, m, e, m.t, e);
      queues := MoveTask(n, queues, m, e);
      forall t | 0 <= t < |members| && old(Fresh(t)) ensures Fresh(t) {
        MoveKeeps(n, old(queues), m, e, t, Effective(members[t], eff, limit));
      }
    }

    // What the hierarchy is for: each group is held to the least requests at or above it, and every enqueued
    // task has on its runqueue the clamps that its own requests, its group and the system limit give it.
    ghost predicate ClampsReachTasks()
      requires Sound()
      reads this
    {
      && (forall j :: 0 <= j < Count(tree) ==> LeastAbove(tree, req, j, eff[j]))
      && (forall t :: 0 <= t < |members| && queues.places[t].on ==> StoredRight(t))
    }

    ghost predicate StoredRight(t: nat)
      requires Sound() && t < |members|
      reads this
    {
      var r := queues.rqs[queues.places[t].cpu];
      && t in r.min.se && t in r.max.se
      && RightFor(Pair(r.min.se[t].value, r.max.se[t].value), members[t], eff[members[t].group], limit)
    }

    lemma FreshReaches()
      requires Sound() && AllFresh() && Consistent(tree, req, eff)
      ensures ClampsReachTasks()
    {
      forall j | 0 <= j < Count(tree) ensures LeastAbove(tree, req, j, eff[j]) && eff[j].min <= eff[j].max {
        ConsistentIsFull(tree, req, eff, j);
        FullIsLeast(tree, req, j);
      }
      forall t | 0 <= t < |members| && queues.places[t].on ensures StoredRight(t) {
        assert Fresh(t);
        EffectiveRight(members[t], eff, limit);
      }
    }

    // What other CPUs do between two steps of a write.
    method Interfere(moves: seq<Move>)
      requires Sound()
      modifies `queues
      ensures Sound() && |queues.rqs| == |old(queues).rqs|
      ensures queues.places == PlaceMoves(old(queues).places, |queues.rqs|, moves)
      ensures forall t :: 0 <= t < |members| && old(Fresh(t)) ==> Fresh(t)
    {
      for k := 0 to |moves|
        invariant Sound() && |queues.rqs| == |old(queues).rqs|
        invariant queues.places == PlaceMoves(old(queues).places, |queues.rqs|, moves[..k])
        invariant forall t :: 0 <= t < |members| && old(Fresh(t)) ==> Fresh(t)
      {
        assert moves[..k + 1][..k] == moves[..k];
        MoveOne(moves[k]);
      }
      assert moves[..|moves|] == moves;
    }

    // uclamp_update_active.
    method UpdateActive(t: nat)
      requires Sound() && t < |members|
      modifies `queues
      ensures Sound() && Fresh(t) && |queues.rqs| == |old(queues).rqs| && queues.places == old(queues).places
      ensures forall u :: 0 <= u < |members| && old(Fresh(u)) ==> Fresh(u)
    {
      var e := Effective(members[t], eff, limit);
      RefreshPlaced(n, queues, t, e);
      RefreshFreshens(n, queues, t, e, t, e);
      queues := Refresh(n, queues, t, e);
      forall u | 0 <= u < |members| && u != t && old(Fresh(u)) ensures Fresh(u) {
        RefreshFreshens(n, old(queues), t, e, u, Effective(members[u], eff, limit));
      }
    }

    method UpdateAfter(t: nat, moves: seq<Move>)
      requires Sound() && t < |members|
      modifies `queues
      ensures Sound() && Fresh(t) && |queues.rqs| == |old(queues).rqs|
      ensures queues.places == PlaceMoves(old(queues).places, |queues.rqs|, moves)
      ensures forall u :: 0 <= u < |members| && old(Fresh(u)) ==> Fresh(u)
    {
      Interfere(moves);
      UpdateActive(t);
    }

    // uclamp_update_active_tasks: every task of group g, one by one; others(k) is what other CPUs do
    // before the k-th step of the write, and k counts on.
    method UpdateActiveTasks(g: nat, others: nat -> seq<Move>, k: nat, ghost start: seq<Place>) returns (k': nat)
      requires Sound() && g < Count(tree)
      requires forall t :: 0 <= t < |members| && members[t].group != g ==> Fresh(t)
      requires queues.places == PlacesAfter(start, |queues.rqs|, others, k)
      modifies `queues
      ensures Sound() && AllFresh() && |queues.rqs| == |old(queues).rqs|
      ensures k <= k' && queues.places == PlacesAfter(start, |queues.rqs|, others, k')
    {
      k' := k;
      for t := 0 to |members|
        invariant Sound() && |queues.rqs| == |old(queues).rqs|
        invariant forall u :: 0 <= u < |members| && (u < t || members[u].group != g) ==> Fresh(u)
        invariant k <= k' && queues.places == PlacesAfter(start, |queues.rqs|, others, k')
      {
        if members[t].group == g {
          UpdateAfter(t, others(k'));
          k' := k' + 1;
        }
      }
    }

    // Effective clamps of a group written, which may leave only its own tasks behind.
    method StoreEff(i: nat, e: Pair)
      requires Sound() && i < Count(tree)
      requires forall t :: 0 <= t < |members| && members[t].group != i ==> Fresh(t)
      modifies `eff
      ensures Sound() && eff == old(eff)[i := e]
      ensures forall t :: 0 <= t < |members| && members[t].group != i ==> Fresh(t)
    {
      eff := eff[i := e];
      forall t | 0 <= t < |members| && members[t].group != i ensures Fresh(t) {
        assert old(Fresh(t));
      }
    }

    // The two effective clamps are stored one after the other.
    method StoreBoth(i: nat, e: Pair, first: seq<Move>, second: seq<Move>)
      requires Sound() && i < Count(tree) && AllFresh()
      modifies `eff, `queues
      ensures Sound() && eff == old(eff)[i := e] && |queues.rqs| == |old(queues).rqs|
      ensures queues.places == PlaceMoves(PlaceMoves(old(queues).places, |queues.rqs|, first), |queues.rqs|, second)
      ensures forall t :: 0 <= t < |members| && members[t].group != i ==> Fresh(t)
    {
      Interfere(first);
      StoreEff(i, Pair(e.min, eff[i].max));
      Interfere(second);
      StoreEff(i, e);
    }

    // One group of cpu_util_update_eff: its effective clamps are computed and, if they changed, stored
    // and the tasks of the group refreshed.
    method UpdateOne(i: nat, others: nat -> seq<Move>, k: nat, ghost start: seq<Place>)
      returns (changed: bool, k': nat)
      requires Sound() && i < Count(tree) && AllFresh()
      requires queues.places == PlacesAfter(start, |queues.rqs|, others, k)
      modifies `eff, `queues
      ensures Sound() && AllFresh() && |queues.rqs| == |old(queues).rqs|
      ensures eff == old(eff)[i := Local(tree, req, old(eff), i)] && (changed <==> eff != old(eff))
      ensures k <= k' && queues.places == PlacesAfter(start, |queues.rqs|, others, k')
    {
      var e := Local(tree, req, eff, i);
      changed, k' := e != eff[i], k;
      if changed {
        StoreBoth(i, e, others(k), others(k + 1));
        k' := UpdateActiveTasks(i, others, k + 2, start);
      }
    }

    // cpu_util_update_eff: walk the subtree of top in pre-order; where the effective clamps of a
    // group do not change, skip all its descendants.
    method UpdateEff(top: nat, others: nat -> seq<Move>, k: nat, ghost start: seq<Place>) returns (k': nat)
      requires Sound() && top < Count(tree) && AllFresh()
      requires forall i :: 0 <= i < Count(tree) && i != top ==> ConsistentAt(tree, req, eff, i)
      requires queues.places == PlacesAfter(start, |queues.rqs|, others, k)
      modifies `eff, `queues
      ensures Sound() && AllFresh() && |queues.rqs| == |old(queues).rqs|
      ensures Consistent(tree, req, eff)
      ensures k <= k' && queues.places == PlacesAfter(start, |queues.rqs|, others, k')
    {
      assert ValidAt(tree, top);
      var i := top;
      k' := k;
      while i < End(tree, top)
        invariant top <= i <= End(tree, top)
        invariant Sound() && AllFresh() && |queues.rqs| == |old(queues).rqs|
        invariant ConsistentBut(tree, req, eff, i, End(tree, top))
        invariant forall j :: 0 <= j < Count(tree) && !(top <= j < i) ==> eff[j] == old(eff)[j]
        invariant k <= k' && queues.places == PlacesAfter(start, |queues.rqs|, others, k')
        decreases End(tree, top) - i
      {
        assert ValidAt(tree, i);
        Laminar(tree, top, i);
        ghost var before := eff;
        var changed;
        changed, k' := UpdateOne(i, others, k', start);
        if changed {
          WrittenConsistent(tree, req, before, eff[i], top, i);
          i := i + 1;
        } else {
          PrunedConsistent(tree, req, old(eff), eff, top, i);
          i := End(tree, i);
        }
      }
    }

    // cpu_uclamp_write: a new request for one clamp of group g, while other CPUs go on.
    method WriteClamp(g: nat, id: ClampId, util: nat, others: nat -> seq<Move>) returns (k: nat)
      requires Sound() && g < Count(tree) && AllFresh() && Consistent(tree, req, eff)
      modifies `req, `eff, `queues
      ensures Sound() && AllFresh() && Consistent(tree, req, eff)
      ensures req == old(req)[g := if id.UclampMin? then Pair(util, old(req)[g].max) else Pair(old(req)[g].min, util)]
      ensures forall i :: 0 <= i < Count(tree) ==> eff[i] == Full(tree, req, i)
      ensures ClampsReachTasks() && |queues.rqs| == |old(queues).rqs|
      ensures queues.places == PlacesAfter(old(queues).places, |queues.rqs|, others, k)
    {
      req := req[g := if id.UclampMin? then Pair(util, req[g].max) else Pair(req[g].min, util)];
      RequestedConsistent(tree, old(req), req, eff, g);
      forall t | 0 <= t < |members| ensures Fresh(t) {
        assert old(Fresh(t));
      }
      k := UpdateEff(g, others, 0, queues.places);
      FreshReaches();
      forall i | 0 <= i < Count(tree) ensures eff[i] == Full(tree, req, i) {
        ConsistentIsFull(tree, req, eff, i);
      }
    }

    // A group comes online: it starts with its parent's effective clamps and is then updated.  It has
    // no children yet, so that the walk ends with it, and no tasks.
    method Online(i: nat)
      requires Sound() && 0 < i < Count(tree) && AllFresh() && NoneOn(queues.places)
      requires forall j :: 0 <= j < i ==> ConsistentAt(tree, req, eff, j)
      modifies `eff, `queues
      ensures Sound() && AllFresh() && NoneOn(queues.places) && |queues.rqs| == |old(queues).rqs|
      ensures forall j :: 0 <= j <= i ==> ConsistentAt(tree, req, eff, j)
    {
      assert ValidAt(tree, i);
      eff := eff[i := eff[tree.parent[i]]];
      ghost var start := queues.places;
      ghost var before := eff;
      var changed, k := UpdateOne(i, _ => [], 0, start);
      NobodyMoves(start, |queues.rqs|, _ => [], k);
      forall j | 0 <= j <= i ensures ConsistentAt(tree, req, eff, j) {
        assert ValidAt(tree, j);
        if j < i { assert ConsistentAt(tree, req, old(eff), j); }
      }
    }

    // At boot there is the root, whose requests are unrestricted; the other groups come online after
    // it, a parent before its children, with default requests, and no task is enqueued.
    constructor (tree: Tree, n: nat, limit: Pair, members: seq<Member>, cpus: nat, homes: seq<nat>)
      requires Valid(tree) && BucketCount(n) && |homes| == |members|
      requires forall t :: 0 <= t < |members| ==> members[t].group < Count(tree) && homes[t] < cpus
      ensures this.tree == tree && this.n == n && this.limit == limit && this.members == members
      ensures Sound() && AllFresh() && Consistent(this.tree, req, eff)
      ensures |queues.rqs| == cpus && NoneOn(queues.places)
    {
      this.tree, this.n, this.limit, this.members := tree, n, limit, members;
      this.req := seq(Count(tree), i => if i == 0 then Pair(SCALE, SCALE) else Pair(0, SCALE));
      this.eff := seq(Count(tree), _ => Pair(SCALE, SCALE));
      this.queues := Queues(seq(cpus, _ => InitRq(n)),
                            seq(|homes|, t requires 0 <= t < |homes| => Place(homes[t], false)));
      new;
      InitPlaced(n, queues);
      for i := 1 to Count(tree)
        invariant Sound() && AllFresh() && NoneOn(queues.places) && |queues.rqs| == cpus
        invariant forall j :: 0 <= j < i ==> ConsistentAt(tree, req, eff, j)
      {
        Online(i);
      }
    }

    // Any sequence of writes and moves, with moves going on during the writes.
    method ApplyAll(events: seq<Event>)
      requires Sound() && AllFresh() && Consistent(tree, req, eff)
      modifies `req, `eff, `queues
      ensures Sound() && AllFresh() && ClampsReachTasks()
      ensures forall i :: 0 <= i < Count(tree) ==> eff[i] == Full(tree, req, i)
      ensures req == Requested(old(req), events)
    {
      for k := 0 to |events|
        invariant Sound() && AllFresh() && Consistent(tree, req, eff)
        invariant req == Requested(old(req), events[..k])
      {
        assert events[..k + 1][..k] == events[..k];
        var event := events[k];
        if event.Moves? {
          Interfere(event.moves);
        } else if event.g < Count(tree) {
          var steps := WriteClamp(event.g, event.id, event.util, event.others);
        }
      }
      assert events[..|events|] == events;
      FreshReaches();
      forall i | 0 <= i < Count(tree) ensures eff[i] == Full(tree, req, i) {
        ConsistentIsFull(tree, req, eff, i);
      }
    }
  }

  // What happens to a hierarchy: tasks move, or a clamp is written while others(k) happens before the
  // k-th step of the write.
  datatype Event = Moves(moves: seq<Move>) | Write(g: nat, id: ClampId, util: nat, others: nat -> seq<Move>)

  // The requests after some events: those written last.
  function Requested(req: seq<Pair>, events: seq<Event>): seq<Pair> {
    if events == [] then req
    else
      var before, event := Requested(req, events[..|events| - 1]), events[|events| - 1];
      if event.Moves? || event.g >= |before| then before
      else
        before[event.g := if event.id.UclampMin? then Pair(event.util, before[event.g].max)
                          else Pair(before[event.g].min, event.util)]
  }

  ghost predicate NoneOn(places: seq<Place>) { forall t :: 0 <= t < |places| ==> !places[t].on }

  lemma {:induction false} NobodyMoves(places: seq<Place>, cpus: nat, others: nat -> seq<Move>, k: nat)
    requires forall j :: others(j) == []
    ensures PlacesAfter(places, cpus, others, k) == places
  {
    if k > 0 { NobodyMoves(places, cpus, others, k - 1); }
  }

  lemma InitPlaced(n: nat, q: Queues)
    requires BucketCount(n) && (forall c :: 0 <= c < |q.rqs| ==> q.rqs[c] == InitRq(n))
    requires NoneOn(q.places) && forall t :: 0 <= t < |q.places| ==> q.places[t].cpu < |q.rqs|
    ensures Placed(n, q)
  {
    InitRqInv(n);
  }
}
