/**
 Utilization clamps of one runqueue: for each clamp index a cached value and a row
 of reference-counted buckets, kept while tasks come and go.
 */
module UclampBuckets {

  const SCALE: nat := 1024

  datatype ClampId = UclampMin | UclampMax

  datatype Bucket = Bucket(tasks: nat, value: nat)

  // The uclamp entry of a task for one clamp index.
  datatype Se = Se(value: nat, bucket: nat, active: bool)

  // One clamp index of one runqueue, with the entries of the tasks last queued there.
  datatype Clamp = Clamp(value: nat, bucket: seq<Bucket>, se: map<nat, Se>)

  // The bucket counts for which buckets are not empty ranges.
  predicate BucketCount(n: nat) { 0 < n <= 2 * SCALE }

  // UCLAMP_BUCKET_DELTA: SCALE / n, rounded to the nearest.
  function Delta(n: nat): (d: nat)
    requires BucketCount(n)
    ensures d >= 1
  {
    (SCALE + n / 2) / n
  }

  function BucketId(n: nat, v: nat): (b: nat)
    requires BucketCount(n)
    ensures b < n
  {
    if v / Delta(n) < n - 1 then v / Delta(n) else n - 1
  }

  lemma DivMono(a: nat, b: nat, d: nat)
    requires a <= b && d >= 1
    ensures a / d <= b / d
  {
    assert a == d * (a / d) + a % d && b == d * (b / d) + b % d;
    MulCancel(d, a / d, b / d + 1);
  }

  lemma MulCancel(d: nat, x: nat, y: nat)
    requires d * x < d * y
    ensures x < y
  {
  }

  lemma BucketIdMono(n: nat, v: nat, w: nat)
    requires BucketCount(n) && v <= w
    ensures BucketId(n, v) <= BucketId(n, w)
  {
    DivMono(v, w, Delta(n));
  }

  // w is a nearest integer to SCALE / n.
  ghost predicate IsWidth(n: nat, w: nat) { 2 * (n * w) <= 2 * SCALE + n && 2 * SCALE <= 2 * (n * w) + n }

  lemma DeltaNearest(n: nat)
    requires BucketCount(n)
    ensures IsWidth(n, Delta(n))
  {
    var d, r := Delta(n), (SCALE + n / 2) % n;
    assert n * d + r == SCALE + n / 2 && 0 <= r < n;
  }

  // A bucket is a range of that width, and the last one has no upper end.
  lemma BucketRange(n: nat, v: nat)
    requires BucketCount(n)
    ensures var b, w := BucketId(n, v), Delta(n);
            IsWidth(n, w) && b < n && b * w <= v && (b < n - 1 ==> v < (b + 1) * w)
  {
    var b, w, q := BucketId(n, v), Delta(n), v / Delta(n);
    DeltaNearest(n);
    assert v == w * q + v % w && 0 <= v % w < w;
    MulMono(w, b, q);
    assert w * b == b * w && w * q + w == (q + 1) * w;
  }

  lemma MulMono(w: nat, a: nat, b: nat)
    requires a <= b
    ensures w * a <= w * b
  {
  }

  // Two values in the same bucket differ by less than the width, unless it is the last bucket.
  lemma SameBucketNear(n: nat, u: nat, v: nat)
    requires BucketCount(n) && BucketId(n, u) == BucketId(n, v) && u < (n - 1) * Delta(n)
    ensures v - u < Delta(n)
  {
    var b, w := BucketId(n, u), Delta(n);
    BucketRange(n, u);
    BucketRange(n, v);
    assert w * b < w * (n - 1);
    MulCancel(w, b, n - 1);
    assert (b + 1) * w == b * w + w;
  }

  function None(id: ClampId): nat { if id.UclampMin? then 0 else SCALE }

  predicate IsActive(c: Clamp, t: nat) { t in c.se && c.se[t].active }

  // The active tasks, and those refcounted in bucket b.
  function Active(c: Clamp): set<nat> { set t | t in c.se && c.se[t].active }
  function Members(c: Clamp, b: nat): set<nat> { set t | t in c.se && c.se[t].active && c.se[t].bucket == b }

  // The topmost bucket with tasks, or -1.
  function Top(bs: seq<Bucket>): (k: int)
    ensures -1 <= k < |bs|
    ensures k >= 0 ==> bs[k].tasks > 0
    ensures forall b :: k < b < |bs| ==> bs[b].tasks == 0
  {
    if bs == [] then -1
    else if bs[|bs| - 1].tasks > 0 then |bs| - 1
    else Top(bs[..|bs| - 1])
  }

  // ---- The operations on one clamp index ----

  function Init(n: nat, id: ClampId): Clamp { Clamp(None(id), seq(n, _ => Bucket(0, 0)), map[]) }

  // uclamp_rq_inc_id of a task whose effective clamp is eff.
  function IncId(n: nat, c: Clamp, t: nat, eff: nat, idle: bool): Clamp
    requires BucketCount(n) && |c.bucket| == n
  {
    var b := BucketId(n, eff);
    var was := c.bucket[b];
    var kept := if idle then eff else c.value;
    Clamp(if eff > kept then eff else kept,
          c.bucket[b := Bucket(was.tasks + 1, if was.tasks == 0 || eff > was.value then eff else was.value)],
          c.se[t := Se(eff, b, true)])
  }

  // The buckets after the task's reference is released.
  function Released(c: Clamp, t: nat): seq<Bucket>
    requires t in c.se && c.se[t].bucket < |c.bucket|
  {
    var b := c.se[t].bucket;
    c.bucket[b := c.bucket[b].(tasks := if c.bucket[b].tasks > 0 then c.bucket[b].tasks - 1 else 0)]
  }

  // Whether the release makes the cached value be computed again.
  predicate Recomputes(c: Clamp, t: nat)
    requires t in c.se && c.se[t].bucket < |c.bucket|
  {
    var b := c.se[t].bucket;
    Released(c, t)[b].tasks == 0 && c.bucket[b].value >= c.value
  }

  // uclamp_rq_dec_id.
  function DecId(id: ClampId, c: Clamp, t: nat): Clamp
    requires t in c.se ==> c.se[t].bucket < |c.bucket|
  {
    if !IsActive(c, t) then c
    else
      var bs := Released(c, t);
      Clamp(if !Recomputes(c, t) then c.value
            else if Top(bs) >= 0 then bs[Top(bs)].value
            else if id.UclampMax? then c.se[t].value else None(UclampMin),
            bs, c.se[t := c.se[t].(active := false)])
  }

  // Whether that marks the runqueue idle.
  predicate GoesIdle(id: ClampId, c: Clamp, t: nat)
    requires t in c.se ==> c.se[t].bucket < |c.bucket|
  {
    id.UclampMax? && IsActive(c, t) && Recomputes(c, t) && Top(Released(c, t)) < 0
  }

  // The two conditions uclamp_rq_dec_id warns about.
  predicate WarnsNoTasks(c: Clamp, t: nat)
    requires t in c.se ==> c.se[t].bucket < |c.bucket|
  {
    IsActive(c, t) && c.bucket[c.se[t].bucket].tasks == 0
  }

  predicate WarnsValue(c: Clamp, t: nat)
    requires t in c.se ==> c.se[t].bucket < |c.bucket|
  {
    IsActive(c, t) && Released(c, t)[c.se[t].bucket].tasks == 0 && c.bucket[c.se[t].bucket].value > c.value
  }

  // ---- The invariant of one clamp index ----

  ghost predicate Entries(n: nat, c: Clamp)
    requires BucketCount(n)
  {
    |c.bucket| == n && forall t :: t in c.se ==> c.se[t].bucket == BucketId(n, c.se[t].value)
  }

  // A bucket counts its active tasks, bounds their values, and holds a value of its range.
  ghost predicate BucketInv(n: nat, c: Clamp, b: nat)
    requires BucketCount(n) && b < |c.bucket|
  {
    && c.bucket[b].tasks == |Members(c, b)|
    && (forall t :: t in Members(c, b) ==> c.se[t].value <= c.bucket[b].value)
    && (c.bucket[b].tasks > 0 ==> BucketId(n, c.bucket[b].value) == b)
  }

  ghost predicate ClampInv(n: nat, id: ClampId, c: Clamp)
    requires BucketCount(n)
  {
    && Entries(n, c)
    && (forall b :: 0 <= b < n ==> BucketInv(n, c, b))
    && (Top(c.bucket) >= 0 ==> c.value == c.bucket[Top(c.bucket)].value)
    && (Top(c.bucket) < 0 && id.UclampMin? ==> c.value == 0)
  }

  lemma InitInv(n: nat, id: ClampId)
    requires BucketCount(n)
    ensures ClampInv(n, id, Init(n, id))
    ensures Active(Init(n, id)) == {}
  {
    var c := Init(n, id);
    forall b | 0 <= b < n ensures BucketInv(n, c, b) {
      assert Members(c, b) == {};
    }
  }

  lemma ActiveBelowTop(n: nat, c: Clamp, t: nat)
    requires BucketCount(n) && Entries(n, c) && (forall b :: 0 <= b < n ==> BucketInv(n, c, b)) && IsActive(c, t)
    ensures c.se[t].bucket <= Top(c.bucket)
  {
    assert BucketInv(n, c, c.se[t].bucket) && t in Members(c, c.se[t].bucket);
  }

  // No bucket has tasks exactly when no task is active.
  lemma TopActive(n: nat, c: Clamp)
    requires BucketCount(n) && Entries(n, c) && forall b :: 0 <= b < n ==> BucketInv(n, c, b)
    ensures Top(c.bucket) < 0 <==> Active(c) == {}
  {
    if Top(c.bucket) >= 0 {
      assert BucketInv(n, c, Top(c.bucket));
      assert Members(c, Top(c.bucket)) != {};
      var t :| t in Members(c, Top(c.bucket));
      assert t in Active(c);
    }
    if Active(c) != {} {
      var t :| t in Active(c);
      ActiveBelowTop(n, c, t);
    }
  }

  lemma IncMembers(n: nat, id: ClampId, c: Clamp, t: nat, eff: nat, idle: bool, b: nat)
    requires BucketCount(n) && ClampInv(n, id, c) && !IsActive(c, t) && b < n
    ensures BucketInv(n, IncId(n, c, t, eff, idle), b)
  {
    var z := IncId(n, c, t, eff, idle);
    assert BucketInv(n, c, b);
    assert t !in Members(c, b);
    if b == BucketId(n, eff) {
      assert Members(z, b) == Members(c, b) + {t};
    } else {
      assert Members(z, b) == Members(c, b);
    }
  }

  // The top bucket after one more reference in bucket b.
  lemma TopAfterInc(bs: seq<Bucket>, b: nat, x: Bucket)
    requires b < |bs| && x.tasks > 0
    ensures Top(bs[b := x]) == if b > Top(bs) then b else Top(bs)
  {
    var k := Top(bs[b := x]);
    assert bs[b := x][b].tasks > 0;
    assert forall i :: 0 <= i < |bs| && i != b ==> bs[b := x][i] == bs[i];
    assert k >= b;
    if Top(bs) >= 0 {
      assert bs[b := x][Top(bs)].tasks > 0;
    }
  }

  // The runqueue's idle mark must hold when this index has no active task and this task is the first.
  lemma IncIdInv(n: nat, id: ClampId, c: Clamp, t: nat, eff: nat, idle: bool)
    requires BucketCount(n) && ClampInv(n, id, c) && !IsActive(c, t)
    requires idle ==> Active(c) == {}
    requires Active(c) == {} ==> idle || id.UclampMin?
    ensures ClampInv(n, id, IncId(n, c, t, eff, idle))
    ensures Active(IncId(n, c, t, eff, idle)) == Active(c) + {t}
  {
    var z := IncId(n, c, t, eff, idle);
    var b := BucketId(n, eff);
    forall k | 0 <= k < n ensures BucketInv(n, z, k) {
      IncMembers(n, id, c, t, eff, idle, k);
    }
    TopActive(n, c);
    TopAfterInc(c.bucket, b, z.bucket[b]);
    var k := Top(c.bucket);
    if k >= 0 {
      assert BucketInv(n, c, k);
      if c.value < eff { BucketIdMono(n, c.value, eff); } else { BucketIdMono(n, eff, c.value); }
    }
  }

  lemma DecMembers(n: nat, id: ClampId, c: Clamp, t: nat, b: nat)
    requires BucketCount(n) && ClampInv(n, id, c) && IsActive(c, t) && b < n
    ensures BucketInv(n, DecId(id, c, t), b)
  {
    var z := DecId(id, c, t);
    assert BucketInv(n, c, b);
    if b == c.se[t].bucket {
      assert t in Members(c, b);
      assert Members(z, b) == Members(c, b) - {t};
    } else {
      assert Members(z, b) == Members(c, b);
    }
  }

  // Releasing a reference keeps the invariant; neither warning fires; and the cached value is
  // computed again exactly when the top bucket empties.
  lemma DecIdInv(n: nat, id: ClampId, c: Clamp, t: nat)
    requires BucketCount(n) && ClampInv(n, id, c)
    ensures ClampInv(n, id, DecId(id, c, t))
    ensures Active(DecId(id, c, t)) == Active(c) - {t}
    ensures !WarnsNoTasks(c, t) && !WarnsValue(c, t)
    ensures GoesIdle(id, c, t) <==> id.UclampMax? && IsActive(c, t) && Active(c) == {t}
  {
    if IsActive(c, t) {
      var z, b, k := DecId(id, c, t), c.se[t].bucket, Top(c.bucket);
      forall i | 0 <= i < n ensures BucketInv(n, z, i) {
        DecMembers(n, id, c, t, i);
      }
      assert BucketInv(n, c, b) && t in Members(c, b);
      assert k >= b && BucketInv(n, c, k);
      if c.value < c.bucket[b].value { BucketIdMono(n, c.value, c.bucket[b].value); }
      if c.bucket[b].value < c.value { BucketIdMono(n, c.bucket[b].value, c.value); }
      assert forall i :: 0 <= i < n && i != b ==> z.bucket[i] == c.bucket[i];
      if z.bucket[b].tasks > 0 || b < k {
        SameTop(c.bucket, z.bucket);
      }
      TopActive(n, c);
      DecActive(n, id, c, t);
    }
  }

  lemma SameTop(bs: seq<Bucket>, cs: seq<Bucket>)
    requires |bs| == |cs| && Top(bs) >= 0 && cs[Top(bs)].tasks > 0
    requires forall i :: Top(bs) < i < |bs| ==> cs[i].tasks == 0
    ensures Top(cs) == Top(bs)
  {
  }

  lemma DecActive(n: nat, id: ClampId, c: Clamp, t: nat)
    requires BucketCount(n) && ClampInv(n, id, c) && IsActive(c, t)
    requires forall b :: 0 <= b < n ==> BucketInv(n, DecId(id, c, t), b)
    ensures Active(DecId(id, c, t)) == Active(c) - {t}
    ensures Top(DecId(id, c, t).bucket) < 0 <==> Active(c) == {t}
  {
    var z := DecId(id, c, t);
    assert Active(z) == Active(c) - {t};
    TopActive(n, z);
    assert Active(c) == {t} ==> Active(z) == {};
    assert Active(z) == {} ==> Active(c) == {t};
  }

  // ---- What the cached value means ----

  // The value of a bucket is the greatest clamp that came into it since it was last empty: a first task sets
  // it, a further one can only raise it, and a task that leaves does not change it.
  lemma BucketValues(n: nat, id: ClampId, c: Clamp, t: nat, eff: nat, idle: bool, b: nat)
    requires BucketCount(n) && ClampInv(n, id, c) && b < n
    ensures IncId(n, c, t, eff, idle).bucket[b].value
         == if b != BucketId(n, eff) then c.bucket[b].value
            else if Members(c, b) == {} || eff > c.bucket[b].value then eff else c.bucket[b].value
    ensures DecId(id, c, t).bucket[b].value == c.bucket[b].value
  {
    assert BucketInv(n, c, b);
  }

  // When the last task leaves, the minimum clamp goes and the maximum clamp is kept as that task had it.
  lemma IdleValue(n: nat, id: ClampId, c: Clamp, t: nat)
    requires BucketCount(n) && ClampInv(n, id, c) && IsActive(c, t) && Active(c) == {t}
    ensures DecId(id, c, t).value == if id.UclampMin? then 0 else c.se[t].value
  {
    DecIdInv(n, UclampMax, c, t);
  }

  // m is the greatest clamp any active task asks for.
  ghost predicate IsTrueMax(c: Clamp, m: nat) {
    (exists t :: IsActive(c, t) && c.se[t].value == m) && (forall t :: IsActive(c, t) ==> c.se[t].value <= m)
  }

  // The cached value is not below m, and above it by less than the width of a bucket where buckets have one.
  ghost predicate CloseAbove(n: nat, value: nat, m: nat) {
    m <= value && exists w: nat :: IsWidth(n, w) && (m < (n - 1) * w ==> value - m < w)
  }

  // Main result: the cached value is never below the true maximum, never in a higher bucket, and so never
  // higher by the width of a bucket, except above the base of the last one.
  lemma CachedMax(n: nat, id: ClampId, c: Clamp, m: nat)
    requires BucketCount(n) && ClampInv(n, id, c) && IsTrueMax(c, m)
    ensures BucketId(n, c.value) == BucketId(n, m)
    ensures CloseAbove(n, c.value, m)
  {
    CachedBucket(n, id, c, m);
    DeltaNearest(n);
    if m < (n - 1) * Delta(n) {
      SameBucketNear(n, m, c.value);
    }
  }

  lemma CachedBucket(n: nat, id: ClampId, c: Clamp, m: nat)
    requires BucketCount(n) && ClampInv(n, id, c) && IsTrueMax(c, m)
    ensures m <= c.value && BucketId(n, c.value) == BucketId(n, m)
  {
    var k := Top(c.bucket);
    var t :| IsActive(c, t) && c.se[t].value == m;
    var b := c.se[t].bucket;
    ActiveBelowTop(n, c, t);
    assert BucketInv(n, c, b) && BucketInv(n, c, k);
    var u :| u in Members(c, k);
    assert c.se[u].value <= m;
    BucketIdMono(n, c.se[u].value, m);
  }
}
