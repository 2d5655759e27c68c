/**
 Utilization clamps of a runqueue as the kernel runs them: both clamp indexes, the
 idle flag, and the enqueue, dequeue and refresh operations on objects with
 fixed bucket arrays.
 */
module UclampRq {
  import opened UclampBuckets

  // Both clamp indexes of a runqueue and its UCLAMP_FLAG_IDLE.
  datatype Rq = Rq(min: Clamp, max: Clamp, idle: bool)

  // The effective clamps of a task.
  datatype Pair = Pair(min: nat, max: nat)

  // ---- What the operations compute ----

  function InitRq(n: nat): Rq { Rq(Init(n, UclampMin), Init(n, UclampMax), true) }

  ghost predicate Shaped(n: nat, r: Rq) {
    && |r.min.bucket| == n && |r.max.bucket| == n
    && (forall t :: t in r.min.se ==> r.min.se[t].bucket < n)
    && (forall t :: t in r.max.se ==> r.max.se[t].bucket < n)
  }

  // uclamp_rq_inc.
  function Inc(n: nat, r: Rq, t: nat, eff: Pair): Rq
    requires BucketCount(n) && Shaped(n, r)
  {
    Rq(IncId(n, r.min, t, eff.min, r.idle), IncId(n, r.max, t, eff.max, r.idle), false)
  }

  // uclamp_rq_dec.
  function Dec(n: nat, r: Rq, t: nat): Rq
    requires Shaped(n, r)
  {
    Rq(DecId(UclampMin, r.min, t), DecId(UclampMax, r.max, t), r.idle || GoesIdle(UclampMax, r.max, t))
  }

  // uclamp_rq_reinc_id for the minimum, then for the maximum.
  function ReincMin(n: nat, r: Rq, t: nat, eff: nat): Rq
    requires BucketCount(n) && Shaped(n, r)
  {
    if !IsActive(r.min, t) then r
    else r.(min := IncId(n, DecId(UclampMin, r.min, t), t, eff, r.idle))
  }

  function ReincMax(n: nat, r: Rq, t: nat, eff: nat): Rq
    requires BucketCount(n) && Shaped(n, r)
  {
    if !IsActive(r.max, t) then r
    else
      r.(max := IncId(n, DecId(UclampMax, r.max, t), t, eff, r.idle || GoesIdle(UclampMax, r.max, t)),
         idle := false)
  }

  function Reinc(n: nat, r: Rq, t: nat, eff: Pair): Rq
    requires BucketCount(n) && Shaped(n, r)
  {
    ReincMax(n, ReincMin(n, r, t, eff.min), t, eff.max)
  }

  // ---- The invariant of a runqueue ----

  ghost predicate RqInv(n: nat, r: Rq)
    requires BucketCount(n)
  {
    && ClampInv(n, UclampMin, r.min) && ClampInv(n, UclampMax, r.max)
    && Active(r.min) == Active(r.max)
    && (r.idle <==> Active(r.max) == {})
  }

  lemma InitRqInv(n: nat)
    requires BucketCount(n)
    ensures RqInv(n, InitRq(n))
  {
    InitInv(n, UclampMin);
    InitInv(n, UclampMax);
  }

  lemma IncInv(n: nat, r: Rq, t: nat, eff: Pair)
    requires BucketCount(n) && RqInv(n, r) && !IsActive(r.min, t)
    ensures RqInv(n, Inc(n, r, t, eff))
    ensures Active(Inc(n, r, t, eff).min) == Active(r.min) + {t}
  {
    assert t !in Active(r.min);
    IncIdInv(n, UclampMin, r.min, t, eff.min, r.idle);
    IncIdInv(n, UclampMax, r.max, t, eff.max, r.idle);
    assert t in Active(Inc(n, r, t, eff).max);
  }

  lemma DecInv(n: nat, r: Rq, t: nat)
    requires BucketCount(n) && RqInv(n, r)
    ensures RqInv(n, Dec(n, r, t))
    ensures Active(Dec(n, r, t).min) == Active(r.min) - {t}
  {
    DecIdInv(n, UclampMin, r.min, t);
    DecIdInv(n, UclampMax, r.max, t);
    assert IsActive(r.max, t) <==> t in Active(r.max);
    assert Active(r.max) - {t} == {} <==> Active(r.max) == {} || Active(r.max) == {t};
  }

  // A refresh: the invariant holds before, between and after the two indexes.
  lemma ReincInv(n: nat, r: Rq, t: nat, eff: Pair)
    requires BucketCount(n) && RqInv(n, r)
    ensures RqInv(n, ReincMin(n, r, t, eff.min))
    ensures RqInv(n, Reinc(n, r, t, eff))
    ensures Active(Reinc(n, r, t, eff).min) == Active(r.min)
  {
    ReincMinInv(n, r, t, eff.min);
    ReincMaxInv(n, ReincMin(n, r, t, eff.min), t, eff.max);
  }

  lemma ReincMinInv(n: nat, r: Rq, t: nat, eff: nat)
    requires BucketCount(n) && RqInv(n, r)
    ensures RqInv(n, ReincMin(n, r, t, eff))
    ensures Active(ReincMin(n, r, t, eff).min) == Active(r.min)
  {
    if IsActive(r.min, t) {
      assert t in Active(r.min);
      DecIdInv(n, UclampMin, r.min, t);
      var c := DecId(UclampMin, r.min, t);
      assert !IsActive(c, t);
      IncIdInv(n, UclampMin, c, t, eff, r.idle);
      assert Active(r.min) - {t} + {t} == Active(r.min);
    }
  }

  lemma ReincMaxInv(n: nat, r: Rq, t: nat, eff: nat)
    requires BucketCount(n) && RqInv(n, r)
    ensures RqInv(n, ReincMax(n, r, t, eff))
    ensures Active(ReincMax(n, r, t, eff).min) == Active(r.min)
  {
    if IsActive(r.max, t) {
      assert t in Active(r.max);
      DecIdInv(n, UclampMax, r.max, t);
      var c := DecId(UclampMax, r.max, t);
      assert !IsActive(c, t);
      assert Active(c) == {} ==> Active(r.max) == {t};
      IncIdInv(n, UclampMax, c, t, eff, r.idle || GoesIdle(UclampMax, r.max, t));
      assert Active(r.max) - {t} + {t} == Active(r.max);
    }
  }

  // A refresh stores the new effective clamps of an active task and touches no other entry.
  ghost predicate Stores(n: nat, c: Clamp, z: Clamp, t: nat, eff: nat)
    requires BucketCount(n)
  {
    z.se == if IsActive(c, t) then c.se[t := Se(eff, BucketId(n, eff), true)] else c.se
  }

  lemma ReincStores(n: nat, r: Rq, t: nat, eff: Pair)
    requires BucketCount(n) && RqInv(n, r)
    ensures Stores(n, r.min, Reinc(n, r, t, eff).min, t, eff.min)
    ensures Stores(n, r.max, Reinc(n, r, t, eff).max, t, eff.max)
  {
    ReincMinInv(n, r, t, eff.min);
    ReincMaxInv(n, ReincMin(n, r, t, eff.min), t, eff.max);
  }

  // ---- The operations on objects ----

  class UclampArray {
    const id: ClampId
    const bucket: array<Bucket>
    var value: nat
    var se: map<nat, Se>

    ghost function Model(): Clamp
      reads this, bucket
    {
      Clamp(value, bucket[..], se)
    }

    constructor (n: nat, id: ClampId)
      ensures fresh(bucket) && this.id == id && bucket.Length == n
      ensures Model() == Init(n, id)
    {
      this.id := id;
      this.bucket := new Bucket[n](_ => Bucket(0, 0));
      this.value := None(id);
      this.se := map[];
    }

    // uclamp_rq_max_value: the scan from the top bucket down.
    method MaxValue(fallback: nat) returns (v: nat, empty: bool)
      ensures empty <==> Top(bucket[..]) < 0
      ensures v == if Top(bucket[..]) >= 0 then bucket[Top(bucket[..])].value
                   else if id.UclampMax? then fallback else None(UclampMin)
    {
      var b := bucket.Length - 1;
      while b >= 0
        invariant -1 <= b < bucket.Length
        invariant forall i :: b < i < bucket.Length ==> bucket[i].tasks == 0
      {
        if bucket[b].tasks > 0 {
          assert bucket[..][b].tasks > 0 && forall i :: b < i < bucket.Length ==> bucket[..][i].tasks == 0;
          return bucket[b].value, false;
        }
        b := b - 1;
      }
      assert forall i :: 0 <= i < bucket.Length ==> bucket[..][i].tasks == 0;
      empty := true;
      v := if id.UclampMax? then fallback else None(UclampMin);
    }

    // uclamp_rq_inc_id.
    method IncTask(t: nat, eff: nat, idle: bool)
      requires BucketCount(bucket.Length)
      modifies this, bucket
      ensures Model() == IncId(bucket.Length, old(Model()), t, eff, idle)
    {
      var b := BucketId(bucket.Length, eff);
      se := se[t := Se(eff, b, true)];
      bucket[b] := Bucket(bucket[b].tasks + 1, bucket[b].value);
      if idle {
        value := eff;
      }
      if bucket[b].tasks == 1 || eff > bucket[b].value {
        bucket[b] := Bucket(bucket[b].tasks, eff);
      }
      if eff > value {
        value := eff;
      }
      assert bucket[..] == IncId(bucket.Length, old(Model()), t, eff, idle).bucket;
    }

    // uclamp_rq_dec_id, with the two conditions it warns about.
    method DecTask(t: nat) returns (wentIdle: bool, warned: bool)
      requires t in se ==> se[t].bucket < bucket.Length
      modifies this, bucket
      ensures Model() == DecId(id, old(Model()), t)
      ensures wentIdle == GoesIdle(id, old(Model()), t)
      ensures warned == (WarnsNoTasks(old(Model()), t) || WarnsValue(old(Model()), t))
    {
      wentIdle, warned := false, false;
      if t !in se || !se[t].active {
        return;
      }
      var b := se[t].bucket;
      ghost var was := Model();
      warned := bucket[b].tasks == 0;
      if bucket[b].tasks > 0 {
        bucket[b] := Bucket(bucket[b].tasks - 1, bucket[b].value);
      }
      assert bucket[..] == Released(was, t);
      se := se[t := se[t].(active := false)];
      if bucket[b].tasks > 0 {
        return;
      }
      warned := warned || bucket[b].value > value;
      if bucket[b].value >= value {
        var v, empty := MaxValue(se[t].value);
        value := v;
        wentIdle := empty && id.UclampMax?;
      }
    }
  }

  class RunQueue {
    const min: UclampArray
    const max: UclampArray
    var idle: bool

    ghost function Repr(): set<object> { {this, min, min.bucket, max, max.bucket} }

    ghost function Model(): Rq
      reads Repr()
    {
      Rq(min.Model(), max.Model(), idle)
    }

    // The state every operation keeps.
    ghost predicate Valid()
      reads Repr()
    {
      && min != max && min.bucket != max.bucket && min.id.UclampMin? && max.id.UclampMax?
      && min.bucket.Length == max.bucket.Length && BucketCount(min.bucket.Length)
      && RqInv(min.bucket.Length, Model())
    }

    constructor (n: nat)
      requires BucketCount(n)
      ensures Valid() && fresh(Repr())
      ensures min.bucket.Length == n && Model() == InitRq(n)
    {
      min := new UclampArray(n, UclampMin);
      max := new UclampArray(n, UclampMax);
      idle := true;
      InitRqInv(n);
    }

    // uclamp_rq_inc: enqueue a task that is not accounted yet.
    method Enqueue(t: nat, eff: Pair)
      requires Valid() && !IsActive(Model().min, t)
      modifies Repr()
      ensures Valid() && Model() == Inc(min.bucket.Length, old(Model()), t, eff)
    {
      IncInv(min.bucket.Length, Model(), t, eff);
      min.IncTask(t, eff.min, idle);
      max.IncTask(t, eff.max, idle);
      if idle {
        idle := false;
      }
    }

    // uclamp_rq_dec: dequeue; a task that is not accounted is left alone.
    method Dequeue(t: nat) returns (warned: bool)
      requires Valid()
      modifies Repr()
      ensures Valid() && Model() == Dec(min.bucket.Length, old(Model()), t)
      ensures !warned
    {
      DecInv(min.bucket.Length, Model(), t);
      DecIdInv(min.bucket.Length, UclampMin, min.Model(), t);
      DecIdInv(max.bucket.Length, UclampMax, max.Model(), t);
      var _, warnedMin := min.DecTask(t);
      var wentIdle, warnedMax := max.DecTask(t);
      if wentIdle {
        idle := true;
      }
      warned := warnedMin || warnedMax;
    }

    // uclamp_rq_reinc_id for the minimum: release and take again the reference of an active task.
    method RefreshMin(t: nat, eff: nat) returns (warned: bool)
      requires Valid()
      modifies Repr()
      ensures Valid() && Model() == ReincMin(min.bucket.Length, old(Model()), t, eff)
      ensures !warned
    {
      ReincMinInv(min.bucket.Length, Model(), t, eff);
      warned := false;
      if t in min.se && min.se[t].active {
        DecIdInv(min.bucket.Length, UclampMin, min.Model(), t);
        var _, w := min.DecTask(t);
        warned := w;
        min.IncTask(t, eff, idle);
      }
    }

    // uclamp_rq_reinc_id for the maximum, which may pass through the idle state.
    method RefreshMax(t: nat, eff: nat) returns (warned: bool)
      requires Valid()
      modifies Repr()
      ensures Valid() && Model() == ReincMax(min.bucket.Length, old(Model()), t, eff)
      ensures !warned
    {
      ReincMaxInv(min.bucket.Length, Model(), t, eff);
      warned := false;
      if t in max.se && max.se[t].active {
        DecIdInv(max.bucket.Length, UclampMax, max.Model(), t);
        var wentIdle, w := max.DecTask(t);
        warned := w;
        if wentIdle {
          idle := true;
        }
        max.IncTask(t, eff, idle);
        if idle {
          idle := false;
        }
      }
    }

    // uclamp_update_active.
    method Refresh(t: nat, eff: Pair) returns (warned: bool)
      requires Valid()
      modifies Repr()
      ensures Valid() && Model() == Reinc(min.bucket.Length, old(Model()), t, eff)
      ensures !warned
    {
      var w := RefreshMin(t, eff.min);
      var w' := RefreshMax(t, eff.max);
      warned := w || w';
    }
  }

  // ---- Every sequence of operations ----

  datatype Op = OpEnqueue(t: nat, eff: Pair) | OpDequeue(t: nat) | OpRefresh(t: nat, eff: Pair)

  // A runqueue is enqueued only tasks that it does not account for yet.
  ghost predicate Allowed(r: Rq, op: Op) { op.OpEnqueue? ==> !IsActive(r.min, op.t) }

  ghost function Apply(n: nat, r: Rq, op: Op): Rq
    requires BucketCount(n) && Shaped(n, r)
  {
    match op
    case OpEnqueue(t, eff) => Inc(n, r, t, eff)
    case OpDequeue(t) => Dec(n, r, t)
    case OpRefresh(t, eff) => Reinc(n, r, t, eff)
  }

  ghost predicate OpsLead(n: nat, r: Rq, ops: seq<Op>, z: Rq)
    requires BucketCount(n)
    decreases |ops|
  {
    if ops == [] then r == z
    else Shaped(n, r) && Allowed(r, ops[0]) && OpsLead(n, Apply(n, r, ops[0]), ops[1..], z)
  }

  lemma {:induction false} OpsInv(n: nat, r: Rq, ops: seq<Op>, z: Rq)
    requires BucketCount(n) && RqInv(n, r) && OpsLead(n, r, ops, z)
    ensures RqInv(n, z)
    decreases |ops|
  {
    if ops != [] {
      match ops[0] {
        case OpEnqueue(t, eff) => IncInv(n, r, t, eff);
        case OpDequeue(t) => DecInv(n, r, t);
        case OpRefresh(t, eff) => ReincInv(n, r, t, eff);
      }
      OpsInv(n, Apply(n, r, ops[0]), ops[1..], z);
    }
  }

  // ---- What the operations amount to ----

  // The tasks accounted for, with the clamps each was last given.
  function BookNext(book: map<nat, Pair>, op: Op): map<nat, Pair> {
    match op
    case OpEnqueue(t, eff) => book[t := eff]
    case OpDequeue(t) => book - {t}
    case OpRefresh(t, eff) => if t in book then book[t := eff] else book
  }

  function Book(ops: seq<Op>): map<nat, Pair> {
    if ops == [] then map[] else BookNext(Book(ops[..|ops| - 1]), ops[|ops| - 1])
  }

  ghost predicate EntryIs(c: Clamp, t: nat, v: nat) { IsActive(c, t) && c.se[t].value == v }

  // Both indexes account for exactly the tasks of the book, with their clamps.
  ghost predicate Agrees(r: Rq, book: map<nat, Pair>) {
    && (forall t :: IsActive(r.min, t) || IsActive(r.max, t) ==> t in book)
    && (forall t :: t in book ==> EntryIs(r.min, t, book[t].min) && EntryIs(r.max, t, book[t].max))
  }

  lemma AgreesRefresh(n: nat, r: Rq, book: map<nat, Pair>, t: nat, eff: Pair)
    requires BucketCount(n) && RqInv(n, r) && Agrees(r, book)
    ensures Agrees(Reinc(n, r, t, eff), BookNext(book, OpRefresh(t, eff)))
  {
    ReincStores(n, r, t, eff);
    assert t in book ==> EntryIs(r.min, t, book[t].min) && EntryIs(r.max, t, book[t].max);
  }

  lemma AgreesDequeue(n: nat, r: Rq, book: map<nat, Pair>, t: nat)
    requires BucketCount(n) && Shaped(n, r) && Agrees(r, book)
    ensures Agrees(Dec(n, r, t), BookNext(book, OpDequeue(t)))
  {
  }

  lemma AgreesNext(n: nat, r: Rq, book: map<nat, Pair>, op: Op)
    requires BucketCount(n) && RqInv(n, r) && Shaped(n, r) && Allowed(r, op) && Agrees(r, book)
    ensures Agrees(Apply(n, r, op), BookNext(book, op))
  {
    match op
    case OpEnqueue(t, eff) =>
    case OpDequeue(t) => AgreesDequeue(n, r, book, t);
    case OpRefresh(t, eff) => AgreesRefresh(n, r, book, t, eff);
  }

  lemma {:induction false} OpsAgree(n: nat, ops: seq<Op>, z: Rq)
    requires BucketCount(n) && OpsLead(n, InitRq(n), ops, z)
    ensures RqInv(n, z) && Agrees(z, Book(ops))
    decreases |ops|
  {
    InitRqInv(n);
    OpsInv(n, InitRq(n), ops, z);
    if ops != [] {
      var before, last := ops[..|ops| - 1], ops[|ops| - 1];
      assert ops == before + [last];
      var y := OpsSplit(n, InitRq(n), before, last, z);
      OpsAgree(n, before, y);
      AgreesNext(n, y, Book(before), last);
    }
  }

  // A sequence of operations is its last one after the others.
  lemma {:induction false} OpsSplit(n: nat, r: Rq, before: seq<Op>, last: Op, z: Rq) returns (y: Rq)
    requires BucketCount(n) && OpsLead(n, r, before + [last], z)
    ensures OpsLead(n, r, before, y) && Shaped(n, y) && Allowed(y, last) && z == Apply(n, y, last)
    decreases |before|
  {
    var ops := before + [last];
    if before == [] {
      y := r;
      assert ops[1..] == [];
    } else {
      assert ops[1..] == before[1..] + [last];
      y := OpsSplit(n, Apply(n, r, before[0]), before[1..], last, z);
    }
  }

  // The cached clamp lies in the bucket of the true maximum, not below it and not a bucket's width above it,
  // and no release warns.
  ghost predicate Exact(n: nat, c: Clamp)
    requires BucketCount(n)
  {
    && (forall m: nat :: IsTrueMax(c, m) ==> CloseAbove(n, c.value, m) && BucketId(n, c.value) == BucketId(n, m))
    && (forall t :: t in c.se ==> c.se[t].bucket < |c.bucket| && !WarnsNoTasks(c, t) && !WarnsValue(c, t))
  }

  lemma ClampExact(n: nat, id: ClampId, c: Clamp)
    requires BucketCount(n) && ClampInv(n, id, c)
    ensures Exact(n, c)
  {
    forall m: nat | IsTrueMax(c, m) ensures CloseAbove(n, c.value, m) && BucketId(n, c.value) == BucketId(n, m) {
      CachedMax(n, id, c, m);
    }
    forall t | t in c.se ensures !WarnsNoTasks(c, t) && !WarnsValue(c, t) {
      DecIdInv(n, id, c, t);
    }
  }

  // Main result: after any operations on a new runqueue the counts and values of all buckets and the
  // cached values are right, both clamps are exact in the sense above, both account for the same
  // tasks, and the idle flag holds exactly when there are none.
  lemma ClampsExact(n: nat, ops: seq<Op>, z: Rq)
    requires BucketCount(n) && OpsLead(n, InitRq(n), ops, z)
    ensures RqInv(n, z) && Agrees(z, Book(ops))
    ensures Exact(n, z.min) && Exact(n, z.max)
    ensures Active(z.min) == Active(z.max)
    ensures z.idle <==> Active(z.min) == {}
  {
    OpsAgree(n, ops, z);
    ClampExact(n, UclampMin, z.min);
    ClampExact(n, UclampMax, z.max);
  }
}
