/**
 CFS bandwidth: which quotas a hierarchy accepts, and the effective quota that the
 walk leaves at each group.
 */
module CfsQuota {
  import opened TaskGroups
  import opened TreeWalk
  import opened Ratios

  const EINVAL: int := -22
  const NSEC_PER_USEC: nat := 1000
  const MIN_PERIOD: nat := 1_000_000
  const MAX_PERIOD: nat := 1_000_000_000

  // RUNTIME_INF, as the signed quotas of the walk hold it.
  const NO_LIMIT: int := -1

  // cfs_bandwidth in nanoseconds; a quota of NO_LIMIT is none.
  datatype Bandwidth = Bandwidth(period: nat, quota: int)

  // normalize_cfs_quota: the share of a CPU in units of 2^-20, computed in microseconds.
  function Ratio(b: Bandwidth): (r: int)
    requires b.period >= NSEC_PER_USEC && b.quota >= NO_LIMIT
    ensures r == NO_LIMIT <==> b.quota == NO_LIMIT
    ensures r >= NO_LIMIT
  {
    if b.quota == NO_LIMIT then NO_LIMIT
    else
      assert b.quota / NSEC_PER_USEC >= 0 && b.period / NSEC_PER_USEC >= 1;
      ((b.quota / NSEC_PER_USEC) * 0x10_0000) / (b.period / NSEC_PER_USEC)
  }

  ghost predicate ValidBandwidths(t: Tree, bw: seq<Bandwidth>) {
    && Valid(t) && |bw| == Count(t)
    && (forall i :: 0 <= i < |bw| ==> bw[i].period >= NSEC_PER_USEC && bw[i].quota >= NO_LIMIT)
  }

  // The limit of a group on its own; the root has none.
  function Own(bw: seq<Bandwidth>, i: nat): (r: int)
    requires i < |bw| && bw[i].period >= NSEC_PER_USEC && bw[i].quota >= NO_LIMIT
    ensures r >= NO_LIMIT
  {
    if i == 0 then NO_LIMIT else Ratio(bw[i])
  }

  // tg_cfs_schedulable_down: read the parent's effective quota, check, store one's own.
  function SchedulableDown(t: Tree, bw: seq<Bandwidth>, i: nat, hq: seq<int>): Outcome<seq<int>>
    requires ValidBandwidths(t, bw)
  {
    if i >= Count(t) || |hq| != Count(t) then Outcome(0, hq)
    else if i == 0 then Outcome(0, hq[0 := NO_LIMIT])
    else
      assert ValidAt(t, i);
      var quota, parentQuota := Ratio(bw[i]), hq[t.parent[i]];
      if quota == NO_LIMIT then Outcome(0, hq[i := parentQuota])
      else if parentQuota != NO_LIMIT && quota > parentQuota then Outcome(EINVAL, hq)
      else Outcome(0, hq[i := quota])
  }

  // ---- What the walk decides ----

  // The limit of the nearest limited group at or above i, if any.
  function Nearest(t: Tree, bw: seq<Bandwidth>, i: nat): (r: int)
    requires ValidBandwidths(t, bw) && i < Count(t)
    ensures r >= NO_LIMIT
    decreases i
  {
    assert ValidAt(t, i);
    if Own(bw, i) != NO_LIMIT then Own(bw, i)
    else if i == 0 then NO_LIMIT
    else Nearest(t, bw, t.parent[i])
  }

  // It is the limit of group k on the path from the root to i, below which no group on the path is
  // limited; if k is not limited itself, it is the root.
  lemma {:induction false} NearestAncestor(t: Tree, bw: seq<Bandwidth>, i: nat) returns (k: nat)
    requires ValidBandwidths(t, bw) && i < Count(t)
    ensures k < Count(t) && Within(t, k, i) && Nearest(t, bw, i) == Own(bw, k)
    ensures forall j :: k < j < Count(t) && Within(t, j, i) ==> Own(bw, j) == NO_LIMIT
    ensures Nearest(t, bw, i) == NO_LIMIT ==> k == 0
    decreases i
  {
    assert ValidAt(t, i);
    k := i;
    if Own(bw, i) == NO_LIMIT && i > 0 {
      OnPath(t, i);
      k := NearestAncestor(t, bw, t.parent[i]);
    }
  }

  // A limited group has no more than its nearest limited ancestor.
  ghost predicate Fits(t: Tree, bw: seq<Bandwidth>, i: nat)
    requires ValidBandwidths(t, bw) && i < Count(t)
  {
    assert ValidAt(t, i);
    i == 0 || Own(bw, i) == NO_LIMIT || Nearest(t, bw, t.parent[i]) == NO_LIMIT
    || Own(bw, i) <= Nearest(t, bw, t.parent[i])
  }

  // All groups from a up to b fit, and hq holds their nearest limits.
  ghost predicate FitsIn(t: Tree, bw: seq<Bandwidth>, a: nat, b: nat)
    requires ValidBandwidths(t, bw) && b <= Count(t)
  {
    forall j :: a <= j < b ==> Fits(t, bw, j)
  }

  ghost predicate StoredIn(t: Tree, bw: seq<Bandwidth>, hq: seq<int>, z: seq<int>, a: nat, b: nat)
    requires ValidBandwidths(t, bw) && b <= Count(t)
  {
    && |hq| == |z| == Count(t)
    && (forall j :: a <= j < b ==> z[j] == Nearest(t, bw, j))
    && (forall j :: 0 <= j < |z| && !(a <= j < b) ==> z[j] == hq[j])
  }

  function Down(t: Tree, bw: seq<Bandwidth>): Visitor<seq<int>>
    requires ValidBandwidths(t, bw)
  {
    (i: nat, hq: seq<int>) => SchedulableDown(t, bw, i, hq)
  }

  function Up(): Visitor<seq<int>> { (i: nat, hq: seq<int>) => Outcome(0, hq) }

  // The subtree of i is accepted exactly when all its groups fit, and then holds their nearest limits.
  lemma {:induction false} VisitDecides(t: Tree, bw: seq<Bandwidth>, i: nat, hq: seq<int>)
    requires ValidBandwidths(t, bw) && i < Count(t) && End(t, i) <= Count(t) && |hq| == Count(t)
    requires i > 0 ==> 0 <= t.parent[i] < i && hq[t.parent[i]] == Nearest(t, bw, t.parent[i])
    ensures var o := Visit(t, Down(t, bw), Up(), i, hq);
            && (o.ret == 0 <==> FitsIn(t, bw, i, End(t, i)))
            && (o.ret == 0 ==> StoredIn(t, bw, hq, o.data, i, End(t, i)))
            && (o.ret == 0 || o.ret == EINVAL)
    decreases End(t, i) - i, 0
  {
    FirstChild(t, i);
    var d := SchedulableDown(t, bw, i, hq);
    assert ValidAt(t, i);
    assert d.ret == 0 <==> Fits(t, bw, i);
    if d.ret == 0 {
      assert StoredIn(t, bw, hq, d.data, i, i + 1);
      KidsDecide(t, bw, i, i + 1, d.data);
      var o := Kids(t, Down(t, bw), Up(), i, i + 1, d.data);
      assert FitsIn(t, bw, i, End(t, i)) <==> Fits(t, bw, i) && FitsIn(t, bw, i + 1, End(t, i));
    } else {
      assert !Fits(t, bw, i);
    }
  }

  lemma {:induction false} KidsDecide(t: Tree, bw: seq<Bandwidth>, p: nat, c: nat, hq: seq<int>)
    requires ValidBandwidths(t, bw) && Cursor(t, p, c) && |hq| == Count(t)
    requires hq[p] == Nearest(t, bw, p)
    ensures var o := Kids(t, Down(t, bw), Up(), p, c, hq);
            && (o.ret == 0 <==> FitsIn(t, bw, c, End(t, p)))
            && (o.ret == 0 ==> StoredIn(t, bw, hq, o.data, c, End(t, p)))
            && (o.ret == 0 || o.ret == EINVAL)
    decreases End(t, p) - c, 1
  {
    if c < End(t, p) {
      NextSibling(t, p, c);
      VisitDecides(t, bw, c, hq);
      var v := Visit(t, Down(t, bw), Up(), c, hq);
      assert FitsIn(t, bw, c, End(t, p)) <==> FitsIn(t, bw, c, End(t, c)) && FitsIn(t, bw, End(t, c), End(t, p));
      if v.ret == 0 {
        KidsDecide(t, bw, p, End(t, c), v.data);
      }
    }
  }

  // A rejected walk may have stored some quotas; it stores nothing else.
  lemma {:induction false} WalkKeepsLength(t: Tree, bw: seq<Bandwidth>, i: nat, hq: seq<int>)
    requires ValidBandwidths(t, bw) && i < Count(t) && |hq| == Count(t)
    ensures |Visit(t, Down(t, bw), Up(), i, hq).data| == Count(t)
    decreases End(t, i) - i, 0
  {
    FirstChild(t, i);
    if SchedulableDown(t, bw, i, hq).ret == 0 {
      KidsKeepLength(t, bw, i, i + 1, SchedulableDown(t, bw, i, hq).data);
    }
  }

  lemma {:induction false} KidsKeepLength(t: Tree, bw: seq<Bandwidth>, p: nat, c: nat, hq: seq<int>)
    requires ValidBandwidths(t, bw) && Cursor(t, p, c) && |hq| == Count(t)
    ensures |Kids(t, Down(t, bw), Up(), p, c, hq).data| == Count(t)
    decreases End(t, p) - c, 1
  {
    if c < End(t, p) {
      NextSibling(t, p, c);
      WalkKeepsLength(t, bw, c, hq);
      if Visit(t, Down(t, bw), Up(), c, hq).ret == 0 {
        KidsKeepLength(t, bw, p, End(t, c), Visit(t, Down(t, bw), Up(), c, hq).data);
      }
    }
  }

  // ---- In shares of a CPU ----

  // The share of a CPU that a limited group has, in whole microseconds.
  ghost function Share(b: Bandwidth): real
    requires b.period >= NSEC_PER_USEC && b.quota >= 0
  {
    assert b.period / NSEC_PER_USEC >= 1;
    (b.quota / NSEC_PER_USEC) as real / (b.period / NSEC_PER_USEC) as real
  }

  // A ratio is the share in units of 2^-20, rounded down.
  lemma RatioIsShare(b: Bandwidth)
    requires b.period >= NSEC_PER_USEC && b.quota >= 0
    ensures Ratio(b) as real / 1048576.0 <= Share(b) < (Ratio(b) + 1) as real / 1048576.0
  {
    var q, p := b.quota / NSEC_PER_USEC, b.period / NSEC_PER_USEC;
    assert q >= 0 && p >= 1;
    QuotientBounds(q * 0x10_0000, p);
    ShareBounds(q, p, Ratio(b), Share(b));
  }

  // Main result: an admitted group that is limited below a limited one has less than that one's share and
  // 1 / 2^20 more; and a group whose share is no more is never what makes a change be refused.
  lemma FitsByShare(t: Tree, bw: seq<Bandwidth>, i: nat) returns (k: nat)
    requires ValidBandwidths(t, bw) && 0 < i < Count(t) && bw[i].quota >= 0
    ensures k < i && Within(t, k, i) && forall j :: k < j < i && Within(t, j, i) ==> bw[j].quota == NO_LIMIT
    ensures k == 0 || bw[k].quota >= 0
    ensures k == 0 ==> Fits(t, bw, i)
    ensures k > 0 && Fits(t, bw, i) ==> Share(bw[i]) < Share(bw[k]) + 1.0 / 1048576.0
    ensures k > 0 && Share(bw[i]) <= Share(bw[k]) ==> Fits(t, bw, i)
  {
    assert ValidAt(t, i);
    OnPath(t, i);
    k := NearestAncestor(t, bw, t.parent[i]);
    RatioIsShare(bw[i]);
    if k > 0 {
      RatioIsShare(bw[k]);
      RatioMono(Ratio(bw[i]), Ratio(bw[k]), Share(bw[i]), Share(bw[k]));
    }
  }

  // ---- Setting a group's bandwidth ----

  class CfsGroups {
    const tree: Tree
    var bw: seq<Bandwidth>
    var hierarchal: seq<int>

    ghost predicate Shaped()
      reads this
    {
      ValidBandwidths(tree, bw) && |hierarchal| == Count(tree)
    }

    // Every limited group has at most what its nearest limited ancestor has.
    ghost predicate Admitted()
      requires Shaped()
      reads this
    {
      FitsIn(tree, bw, 0, Count(tree))
    }

    constructor (tree: Tree)
      requires Valid(tree)
      ensures Shaped() && Admitted() && this.tree == tree
    {
      this.tree := tree;
      bw := seq(Count(tree), _ => Bandwidth(100_000_000, NO_LIMIT));
      hierarchal := seq(Count(tree), _ => NO_LIMIT);
    }

    // tg_set_cfs_bandwidth: a change is made exactly when it is in range and the hierarchy still fits.
    method SetBandwidth(g: nat, period: nat, quota: int) returns (ret: int)
      requires Shaped() && Admitted() && g < Count(tree) && quota >= NO_LIMIT
      modifies this
      ensures Shaped() && Admitted()
      ensures ret == 0 <==>
                && g != 0 && MIN_PERIOD <= period <= MAX_PERIOD && (quota == NO_LIMIT || quota >= MIN_PERIOD)
                && FitsIn(tree, old(bw)[g := Bandwidth(period, quota)], 0, Count(tree))
      ensures bw == if ret == 0 then old(bw)[g := Bandwidth(period, quota)] else old(bw)
      ensures ret == 0 ==> forall i :: 0 <= i < Count(tree) ==> hierarchal[i] == Nearest(tree, bw, i)
    {
      if g == 0 {
        return EINVAL;
      }
      if (quota != NO_LIMIT && quota < MIN_PERIOD) || period < MIN_PERIOD {
        return EINVAL;
      }
      if period > MAX_PERIOD {
        return EINVAL;
      }
      var wanted := bw[g := Bandwidth(period, quota)];
      assert ValidAt(tree, 0);
      VisitDecides(tree, wanted, 0, hierarchal);
      var o := Walk(tree, 0, Down(tree, wanted), Up(), hierarchal);
      WalkKeepsLength(tree, wanted, 0, hierarchal);
      hierarchal := o.data;
      ret := o.ret;
      if ret == 0 {
        bw := wanted;
      }
    }
  }
}
