/**
 Real-time group bandwidth: a check that looks at one group and its children, made
 at every group before a change, bounds the total of any groups that are not
 nested in one another.
 */
module RtBandwidth {
  import opened TaskGroups
  import opened TreeWalk
  import opened Ratios

  const EINVAL: int := -22
  const EBUSY: int := -16
  const NSEC_PER_USEC: nat := 1000
  const RUNTIME_INF: nat := 0xffff_ffff_ffff_ffff
  const UNIT: nat := 0x10_0000

  // rt_bandwidth of a group, in nanoseconds.
  datatype Bandwidth = Bandwidth(period: nat, runtime: nat)

  // sysctl_sched_rt_period and sysctl_sched_rt_runtime, in microseconds; a negative runtime is no limit.
  datatype Global = Global(period: int, runtime: int)

  // to_ratio: the share of a CPU in units of 2^-20.
  function ToRatio(b: Bandwidth): nat
    requires b.period > 0
  {
    if b.runtime == RUNTIME_INF then UNIT else (b.runtime * UNIT) / b.period
  }

  function GlobalBandwidth(g: Global): Bandwidth
    requires g.period > 0
  {
    Bandwidth(g.period * NSEC_PER_USEC, if g.runtime < 0 then RUNTIME_INF else g.runtime * NSEC_PER_USEC)
  }

  ghost predicate Shaped(t: Tree, bw: seq<Bandwidth>) {
    Valid(t) && |bw| == Count(t) && forall i :: 0 <= i < |bw| ==> bw[i].period > 0
  }

  // The ratios of the children of p from c on, added up.
  function KidRatios(t: Tree, bw: seq<Bandwidth>, p: nat, c: nat): nat
    requires Shaped(t, bw) && Cursor(t, p, c)
    decreases End(t, p) - c
  {
    if c == End(t, p) then 0
    else
      NextSibling(t, p, c);
      ToRatio(bw[c]) + KidRatios(t, bw, p, End(t, c))
  }

  // tg_rt_schedulable at group i; hasTasks says whether the group has real-time tasks.
  function Schedulable(t: Tree, bw: seq<Bandwidth>, g: Global, hasTasks: nat -> bool, i: nat): int
    requires Shaped(t, bw) && g.period > 0 && i < Count(t)
  {
    FirstChild(t, i);
    if bw[i].runtime > bw[i].period && bw[i].runtime != RUNTIME_INF then EINVAL
    else if g.runtime >= 0 && bw[i].runtime == 0 && hasTasks(i) then EBUSY
    else if ToRatio(bw[i]) > ToRatio(GlobalBandwidth(g)) then EINVAL
    else if KidRatios(t, bw, i, i + 1) > ToRatio(bw[i]) then EINVAL
    else 0
  }

  // The loop of tg_rt_schedulable, with the change proposed for one group overlaid on the stored values.
  method TgRtSchedulable(t: Tree, bw: seq<Bandwidth>, change: int, wanted: Bandwidth, g: Global,
                         hasTasks: nat -> bool, i: nat)
    returns (ret: int)
    requires Shaped(t, bw) && g.period > 0 && i < Count(t)
    requires -1 <= change < Count(t) && (change >= 0 ==> wanted.period > 0)
    ensures ret == Schedulable(t, Overlay(bw, change, wanted), g, hasTasks, i)
  {
    var mine := if i == change then wanted else bw[i];
    if mine.runtime > mine.period && mine.runtime != RUNTIME_INF {
      return EINVAL;
    }
    if g.runtime >= 0 && mine.runtime == 0 && hasTasks(i) {
      return EBUSY;
    }
    var total := ToRatio(mine);
    if total > ToRatio(GlobalBandwidth(g)) {
      return EINVAL;
    }
    FirstChild(t, i);
    var sum, c := 0, i + 1;
    while c < End(t, i)
      invariant Cursor(t, i, c)
      invariant sum + KidRatios(t, Overlay(bw, change, wanted), i, c)
             == KidRatios(t, Overlay(bw, change, wanted), i, i + 1)
      decreases End(t, i) - c
    {
      NextSibling(t, i, c);
      var child := if c == change then wanted else bw[c];
      sum := sum + ToRatio(child);
      c := End(t, c);
    }
    ret := if sum > total then EINVAL else 0;
  }

  function Overlay(bw: seq<Bandwidth>, change: int, wanted: Bandwidth): seq<Bandwidth> {
    if 0 <= change < |bw| then bw[change := wanted] else bw
  }

  // ---- What the checks promise ----

  // The part of the check that does not depend on which groups have tasks.
  ghost predicate FitsAt(t: Tree, bw: seq<Bandwidth>, g: Global, i: nat)
    requires Shaped(t, bw) && g.period > 0 && i < Count(t)
  {
    FirstChild(t, i);
    && (bw[i].runtime <= bw[i].period || bw[i].runtime == RUNTIME_INF)
    && ToRatio(bw[i]) <= ToRatio(GlobalBandwidth(g))
    && KidRatios(t, bw, i, i + 1) <= ToRatio(bw[i])
  }

  // No group with real-time tasks is without runtime while runtimes are enforced.
  ghost predicate NoneStarves(bw: seq<Bandwidth>, g: Global, hasTasks: nat -> bool) {
    g.runtime < 0 || forall i :: 0 <= i < |bw| && hasTasks(i) ==> bw[i].runtime > 0
  }

  ghost predicate FitsAll(t: Tree, bw: seq<Bandwidth>, g: Global) {
    Shaped(t, bw) && g.period > 0 && forall i :: 0 <= i < Count(t) ==> FitsAt(t, bw, g, i)
  }

  // No group of the set is below another.
  ghost predicate Antichain(t: Tree, a: set<nat>)
    requires Valid(t)
  {
    forall i, j :: i in a && j in a && i < Count(t) && i != j ==> !Within(t, i, j)
  }

  // The ratios of the groups of the set that lie between lo and hi, added up.
  ghost function SetRatios(bw: seq<Bandwidth>, a: set<nat>, lo: nat, hi: nat): nat
    requires lo <= hi <= |bw| && forall i :: 0 <= i < |bw| ==> bw[i].period > 0
    decreases hi - lo
  {
    if lo == hi then 0 else (if lo in a then ToRatio(bw[lo]) else 0) + SetRatios(bw, a, lo + 1, hi)
  }

  lemma {:induction false} SplitRatios(bw: seq<Bandwidth>, a: set<nat>, lo: nat, mid: nat, hi: nat)
    requires lo <= mid <= hi <= |bw| && forall i :: 0 <= i < |bw| ==> bw[i].period > 0
    ensures SetRatios(bw, a, lo, hi) == SetRatios(bw, a, lo, mid) + SetRatios(bw, a, mid, hi)
    decreases mid - lo
  {
    if lo < mid {
      SplitRatios(bw, a, lo + 1, mid, hi);
    }
  }

  lemma {:induction false} NoRatios(bw: seq<Bandwidth>, a: set<nat>, lo: nat, hi: nat)
    requires lo <= hi <= |bw| && forall i :: 0 <= i < |bw| ==> bw[i].period > 0
    requires forall i :: lo <= i < hi ==> i !in a
    ensures SetRatios(bw, a, lo, hi) == 0
    decreases hi - lo
  {
    if lo < hi {
      NoRatios(bw, a, lo + 1, hi);
    }
  }

  // Main result: groups within i that are not nested in one another have together no more than i.
  lemma {:induction false} AntichainBound(t: Tree, bw: seq<Bandwidth>, g: Global, a: set<nat>, i: nat)
    requires FitsAll(t, bw, g) && Antichain(t, a) && i < Count(t) && End(t, i) <= Count(t)
    ensures SetRatios(bw, a, i, End(t, i)) <= ToRatio(bw[i])
    decreases End(t, i) - i, 0
  {
    assert ValidAt(t, i) && FitsAt(t, bw, g, i);
    FirstChild(t, i);
    if i in a {
      NoRatios(bw, a, i + 1, End(t, i));
    } else {
      AntichainKids(t, bw, g, a, i, i + 1);
    }
  }

  lemma {:induction false} AntichainKids(t: Tree, bw: seq<Bandwidth>, g: Global, a: set<nat>, p: nat, c: nat)
    requires FitsAll(t, bw, g) && Antichain(t, a) && Cursor(t, p, c)
    ensures SetRatios(bw, a, c, End(t, p)) <= KidRatios(t, bw, p, c)
    decreases End(t, p) - c, 1
  {
    if c < End(t, p) {
      NextSibling(t, p, c);
      AntichainBound(t, bw, g, a, c);
      SplitRatios(bw, a, c, End(t, c), End(t, p));
      AntichainKids(t, bw, g, a, p, End(t, c));
    }
  }

  // Over the whole hierarchy: within the root's ratio, and that within the global ratio.
  lemma AntichainTotal(t: Tree, bw: seq<Bandwidth>, g: Global, a: set<nat>)
    requires FitsAll(t, bw, g) && Antichain(t, a)
    ensures SetRatios(bw, a, 0, Count(t)) <= ToRatio(bw[0]) <= ToRatio(GlobalBandwidth(g))
  {
    AntichainBound(t, bw, g, a, 0);
    assert FitsAt(t, bw, g, 0);
  }

  // ---- In shares of a CPU ----

  // The share of a CPU that a bandwidth stands for; without a limit it is one.
  ghost function Share(b: Bandwidth): real
    requires b.period > 0
  {
    if b.runtime == RUNTIME_INF then 1.0 else b.runtime as real / b.period as real
  }

  // The share that the global limits stand for.
  ghost function GlobalShare(g: Global): real
    requires g.period > 0
  {
    if g.runtime < 0 then 1.0 else g.runtime as real / g.period as real
  }

  lemma GlobalIsShare(g: Global)
    requires g.period > 0
    ensures Share(GlobalBandwidth(g)) == GlobalShare(g)
  {
    if g.runtime >= 0 {
      var r, p := g.runtime as real, g.period as real;
      assert GlobalBandwidth(g).runtime == 1000 * g.runtime != RUNTIME_INF;
      ScaledShare(r, p, r / p);
    }
  }

  lemma ScaledShare(r: real, p: real, q: real)
    requires p > 0.0 && q == r / p
    ensures (r * 1000.0) / (p * 1000.0) == q
  {
    assert r * 1000.0 == q * (p * 1000.0);
  }

  // A ratio is the share in units of 2^-20, rounded down.
  lemma RatioIsShare(b: Bandwidth)
    requires b.period > 0
    ensures b.runtime != RUNTIME_INF ==>
              ToRatio(b) * b.period <= b.runtime * 0x10_0000 < (ToRatio(b) + 1) * b.period
    ensures ToRatio(b) as real / 1048576.0 <= Share(b) < (ToRatio(b) + 1) as real / 1048576.0
  {
    if b.runtime != RUNTIME_INF {
      var x, p, r := b.runtime * 0x10_0000, b.period, ToRatio(b);
      QuotientBounds(x, p);
      ShareBounds(b.runtime, p, r, Share(b));
    }
  }

  // The shares of the groups of the set that lie between lo and hi, added up, and how many they are.
  ghost function SetShares(bw: seq<Bandwidth>, a: set<nat>, lo: nat, hi: nat): real
    requires lo <= hi <= |bw| && forall i :: 0 <= i < |bw| ==> bw[i].period > 0
    decreases hi - lo
  {
    if lo == hi then 0.0 else (if lo in a then Share(bw[lo]) else 0.0) + SetShares(bw, a, lo + 1, hi)
  }

  ghost function SetSize(a: set<nat>, lo: nat, hi: nat): nat
    requires lo <= hi
    decreases hi - lo
  {
    if lo == hi then 0 else (if lo in a then 1 else 0) + SetSize(a, lo + 1, hi)
  }

  lemma {:induction false} SharesNearRatios(bw: seq<Bandwidth>, a: set<nat>, lo: nat, hi: nat)
    requires lo <= hi <= |bw| && forall i :: 0 <= i < |bw| ==> bw[i].period > 0
    ensures SetShares(bw, a, lo, hi) <= (SetRatios(bw, a, lo, hi) + SetSize(a, lo, hi)) as real / 1048576.0
    ensures SetSize(a, lo, hi) > 0 ==>
              SetShares(bw, a, lo, hi) < (SetRatios(bw, a, lo, hi) + SetSize(a, lo, hi)) as real / 1048576.0
    decreases hi - lo
  {
    if lo < hi {
      SharesNearRatios(bw, a, lo + 1, hi);
      RatioIsShare(bw[lo]);
    }
  }

  // Main result: k groups not nested in one another have together less than the root's share of a CPU and
  // k / 2^20 more, and the root has less than the global share and 1 / 2^20 more.
  lemma AntichainShares(t: Tree, bw: seq<Bandwidth>, g: Global, a: set<nat>)
    requires FitsAll(t, bw, g) && Antichain(t, a)
    ensures var k := SetSize(a, 0, Count(t));
            && SetShares(bw, a, 0, Count(t)) <= Share(bw[0]) + k as real / 1048576.0
            && (k > 0 ==> SetShares(bw, a, 0, Count(t)) < Share(bw[0]) + k as real / 1048576.0)
    ensures Share(bw[0]) < GlobalShare(g) + 1.0 / 1048576.0
  {
    GlobalIsShare(g);
    AntichainTotal(t, bw, g, a);
    SharesNearRatios(bw, a, 0, Count(t));
    RatioIsShare(bw[0]);
    RatioIsShare(GlobalBandwidth(g));
  }

  // ---- The walk ----

  function Down(t: Tree, bw: seq<Bandwidth>, g: Global, hasTasks: nat -> bool): Visitor<()>
    requires Shaped(t, bw) && g.period > 0
  {
    (i: nat, s: ()) => Outcome(if i < Count(t) then Schedulable(t, bw, g, hasTasks, i) else 0, s)
  }

  function Up(): Visitor<()> { (i: nat, s: ()) => Outcome(0, s) }

  ghost predicate PassesIn(t: Tree, bw: seq<Bandwidth>, g: Global, hasTasks: nat -> bool, lo: nat, hi: nat)
    requires Shaped(t, bw) && g.period > 0 && hi <= Count(t)
  {
    forall i :: lo <= i < hi ==> Schedulable(t, bw, g, hasTasks, i) == 0
  }

  lemma {:induction false} VisitDecides(t: Tree, bw: seq<Bandwidth>, g: Global, hasTasks: nat -> bool, i: nat)
    requires Shaped(t, bw) && g.period > 0 && i < Count(t) && End(t, i) <= Count(t)
    ensures Visit(t, Down(t, bw, g, hasTasks), Up(), i, ()).ret == 0 <==> PassesIn(t, bw, g, hasTasks, i, End(t, i))
    decreases End(t, i) - i, 0
  {
    FirstChild(t, i);
    KidsDecide(t, bw, g, hasTasks, i, i + 1);
    assert PassesIn(t, bw, g, hasTasks, i, End(t, i)) <==>
           Schedulable(t, bw, g, hasTasks, i) == 0 && PassesIn(t, bw, g, hasTasks, i + 1, End(t, i));
  }

  lemma {:induction false} KidsDecide(t: Tree, bw: seq<Bandwidth>, g: Global, hasTasks: nat -> bool, p: nat, c: nat)
    requires Shaped(t, bw) && g.period > 0 && Cursor(t, p, c)
    ensures Kids(t, Down(t, bw, g, hasTasks), Up(), p, c, ()).ret == 0 <==> PassesIn(t, bw, g, hasTasks, c, End(t, p))
    decreases End(t, p) - c, 1
  {
    if c < End(t, p) {
      NextSibling(t, p, c);
      VisitDecides(t, bw, g, hasTasks, c);
      assert Visit(t, Down(t, bw, g, hasTasks), Up(), c, ()).data == ();
      KidsDecide(t, bw, g, hasTasks, p, End(t, c));
      assert PassesIn(t, bw, g, hasTasks, c, End(t, p)) <==>
             PassesIn(t, bw, g, hasTasks, c, End(t, c)) && PassesIn(t, bw, g, hasTasks, End(t, c), End(t, p));
    }
  }

  // ---- Changes ----

  // A number of microseconds in unsigned 64-bit nanoseconds, where a negative one wraps around.
  function Nanoseconds(us: int): nat { (us * NSEC_PER_USEC) % 0x1_0000_0000_0000_0000 }

  lemma NanosecondsExact(us: int)
    ensures 0 <= us * 1000 < 0x1_0000_0000_0000_0000 ==> Nanoseconds(us) == us * 1000
    ensures -0x1_0000_0000_0000_0000 <= us * 1000 < 0 ==> Nanoseconds(us) == 0x1_0000_0000_0000_0000 + us * 1000
  {
  }

  class RtGroups {
    const tree: Tree
    var bw: seq<Bandwidth>
    var sysctl: Global

    // Kept by every accepted and every rejected change.
    ghost predicate Admitted()
      reads this
    {
      FitsAll(tree, bw, sysctl)
    }

    // What a change is held against.
    ghost predicate Admits(bw: seq<Bandwidth>, g: Global, hasTasks: nat -> bool) {
      FitsAll(tree, bw, g) && NoneStarves(bw, g, hasTasks)
    }

    // At boot the root has the global bandwidth and every other group none.
    constructor (tree: Tree, period: nat)
      requires Valid(tree) && period > 0
      ensures Admitted() && this.tree == tree
    {
      this.tree := tree;
      var g := Global(1_000_000, 950_000);
      this.sysctl := g;
      this.bw := seq(Count(tree), i => if i == 0 then GlobalBandwidth(g) else Bandwidth(period, 0));
      new;
      forall i | 0 <= i < Count(tree) ensures FitsAt(tree, bw, sysctl, i) {
        FirstChild(tree, i);
        NoKidRatios(tree, bw, i, i + 1);
      }
    }

    // tg_set_rt_bandwidth.
    method SetBandwidth(i: nat, wanted: Bandwidth, hasTasks: nat -> bool) returns (ret: int)
      requires Admitted() && i < Count(tree) && wanted.period > 0
      modifies `bw
      ensures Admitted()
      ensures ret == 0 <==> Admits(old(bw)[i := wanted], sysctl, hasTasks)
      ensures bw == if ret == 0 then old(bw)[i := wanted] else old(bw)
    {
      var next := bw[i := wanted];
      VisitDecides(tree, next, sysctl, hasTasks, 0);
      var o := Walk(tree, 0, Down(tree, next, sysctl, hasTasks), Up(), ());
      PassesFit(tree, next, sysctl, hasTasks);
      ret := o.ret;
      if ret == 0 {
        bw := next;
      }
    }

    // sched_group_set_rt_runtime.
    method SetRuntime(i: nat, us: int, hasTasks: nat -> bool) returns (ret: int)
      requires Admitted() && i < Count(tree)
      modifies `bw
      ensures Admitted()
      ensures var wanted := old(bw)[i := Bandwidth(old(bw)[i].period, if us < 0 then RUNTIME_INF else Nanoseconds(us))];
              && (ret == 0 <==> Admits(wanted, sysctl, hasTasks))
              && bw == if ret == 0 then wanted else old(bw)
    {
      ret := SetBandwidth(i, Bandwidth(bw[i].period, if us < 0 then RUNTIME_INF else Nanoseconds(us)), hasTasks);
    }

    // sched_group_set_rt_period.
    method SetPeriod(i: nat, us: int, hasTasks: nat -> bool) returns (ret: int)
      requires Admitted() && i < Count(tree)
      modifies `bw
      ensures Admitted()
      ensures Nanoseconds(us) == 0 ==> ret == EINVAL && bw == old(bw)
      ensures Nanoseconds(us) > 0 ==>
                var wanted := old(bw)[i := Bandwidth(Nanoseconds(us), old(bw)[i].runtime)];
                && (ret == 0 <==> Admits(wanted, sysctl, hasTasks))
                && bw == if ret == 0 then wanted else old(bw)
    {
      if Nanoseconds(us) == 0 {
        return EINVAL;
      }
      ret := SetBandwidth(i, Bandwidth(Nanoseconds(us), bw[i].runtime), hasTasks);
    }

    // sched_rt_handler and sched_rt_global_constraints: the new values are in place while they are
    // checked, and taken back when a check fails.
    method SetGlobal(wanted: Global, hasTasks: nat -> bool) returns (ret: int)
      requires Admitted()
      modifies `sysctl
      ensures Admitted()
      ensures ret == 0 <==>
                && wanted.period > 0
                && (GlobalBandwidth(wanted).runtime <= GlobalBandwidth(wanted).period
                    || GlobalBandwidth(wanted).runtime == RUNTIME_INF)
                && Admits(bw, wanted, hasTasks)
      ensures sysctl == if ret == 0 then wanted else old(sysctl)
    {
      var was := sysctl;
      sysctl := wanted;
      if sysctl.period <= 0 {
        ret := EINVAL;
      } else if GlobalBandwidth(sysctl).runtime > GlobalBandwidth(sysctl).period
                && GlobalBandwidth(sysctl).runtime != RUNTIME_INF {
        ret := EINVAL;
      } else {
        VisitDecides(tree, bw, sysctl, hasTasks, 0);
        var o := Walk(tree, 0, Down(tree, bw, sysctl, hasTasks), Up(), ());
        PassesFit(tree, bw, sysctl, hasTasks);
        ret := o.ret;
      }
      if ret != 0 {
        sysctl := was;
      }
    }

    // Any sequence of writes, each accepted or rejected: groups not nested in one another stay
    // together within the root's ratio, and the root within the global one.
    method ApplyAll(changes: seq<Change>)
      requires Admitted()
      modifies `bw, `sysctl
      ensures Admitted()
      ensures forall a: set<nat> :: Antichain(tree, a) ==>
                SetRatios(bw, a, 0, Count(tree)) <= ToRatio(bw[0]) <= ToRatio(GlobalBandwidth(sysctl))
      ensures forall a: set<nat> :: Antichain(tree, a) ==>
                && SetShares(bw, a, 0, Count(tree)) <= Share(bw[0]) + SetSize(a, 0, Count(tree)) as real / 1048576.0
                && Share(bw[0]) < GlobalShare(sysctl) + 1.0 / 1048576.0
    {
      for k := 0 to |changes|
        invariant Admitted()
      {
        var change, ret := changes[k], 0;
        if change.Limits? {
          ret := SetGlobal(change.wanted, change.hasTasks);
        } else if change.i < Count(tree) {
          if change.Runtime? {
            ret := SetRuntime(change.i, change.us, change.hasTasks);
          } else {
            ret := SetPeriod(change.i, change.period, change.hasTasks);
          }
        }
      }
      forall a: set<nat> | Antichain(tree, a)
        ensures SetRatios(bw, a, 0, Count(tree)) <= ToRatio(bw[0]) <= ToRatio(GlobalBandwidth(sysctl))
      {
        AntichainTotal(tree, bw, sysctl, a);
      }
      forall a: set<nat> | Antichain(tree, a)
        ensures SetShares(bw, a, 0, Count(tree)) <= Share(bw[0]) + SetSize(a, 0, Count(tree)) as real / 1048576.0
        ensures Share(bw[0]) < GlobalShare(sysctl) + 1.0 / 1048576.0
      {
        AntichainShares(tree, bw, sysctl, a);
      }
    }
  }

  // A write to a group's files or to the global ones, and which groups have real-time tasks then.
  datatype Change =
    | Runtime(i: nat, us: int, hasTasks: nat -> bool)
    | Period(i: nat, period: int, hasTasks: nat -> bool)
    | Limits(wanted: Global, hasTasks: nat -> bool)

  // The check passes everywhere exactly when every group fits and none starves.
  lemma PassesFit(t: Tree, bw: seq<Bandwidth>, g: Global, hasTasks: nat -> bool)
    requires Shaped(t, bw) && g.period > 0
    ensures PassesIn(t, bw, g, hasTasks, 0, Count(t)) <==> FitsAll(t, bw, g) && NoneStarves(bw, g, hasTasks)
  {
    forall i | 0 <= i < Count(t)
      ensures Schedulable(t, bw, g, hasTasks, i) == 0 <==>
              FitsAt(t, bw, g, i) && (g.runtime < 0 || !hasTasks(i) || bw[i].runtime > 0)
    {
    }
  }

  lemma {:induction false} NoKidRatios(t: Tree, bw: seq<Bandwidth>, p: nat, c: nat)
    requires Shaped(t, bw) && Cursor(t, p, c) && forall i :: 0 < i < |bw| ==> bw[i].runtime == 0
    ensures KidRatios(t, bw, p, c) == 0
    decreases End(t, p) - c
  {
    if c < End(t, p) {
      NextSibling(t, p, c);
      NoKidRatios(t, bw, p, End(t, c));
    }
  }
}
