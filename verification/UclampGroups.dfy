/**
 Effective utilization clamps of a task-group hierarchy: the pruned pre-order
 update after a group's request is written, and the refresh of the tasks that
 hold clamps on runqueues.
 */
module UclampGroups {
  import opened TaskGroups
  import opened UclampBuckets
  import opened UclampRq

  function Min(a: nat, b: nat): nat { if a < b then a else b }
  function Max(a: nat, b: nat): nat { if a > b then a else b }

  // Effective clamps of a group: its request capped by the parent's, and the minimum by the maximum.
  function Capped(req: Pair, cap: Pair): Pair {
    var hi := Min(req.max, cap.max);
    Pair(Min(Min(req.min, cap.min), hi), hi)
  }

  function Uncapped(req: Pair): Pair { Pair(Min(req.min, req.max), req.max) }

  // What cpu_util_update_eff computes at group i from the values stored at its parent.
  function Local(tree: Tree, req: seq<Pair>, eff: seq<Pair>, i: nat): Pair
    requires Valid(tree) && |req| == |eff| == Count(tree) && i < Count(tree)
  {
    assert ValidAt(tree, i);
    if i == 0 then Uncapped(req[0]) else Capped(req[i], eff[tree.parent[i]])
  }

  // The recomputation of the whole hierarchy from the requests alone.
  function Full(tree: Tree, req: seq<Pair>, i: nat): Pair
    requires Valid(tree) && |req| == Count(tree) && i < Count(tree)
    decreases i
  {
    assert ValidAt(tree, i);
    if i == 0 then Uncapped(req[0]) else Capped(req[i], Full(tree, req, tree.parent[i]))
  }

  ghost predicate ConsistentAt(tree: Tree, req: seq<Pair>, eff: seq<Pair>, i: nat)
    requires Valid(tree) && |req| == |eff| == Count(tree) && i < Count(tree)
  {
    eff[i] == Local(tree, req, eff, i)
  }

  ghost predicate Consistent(tree: Tree, req: seq<Pair>, eff: seq<Pair>)
    requires Valid(tree) && |req| == |eff| == Count(tree)
  {
    forall i :: 0 <= i < Count(tree) ==> ConsistentAt(tree, req, eff, i)
  }

  // Stored values that agree with their parents' everywhere are the full recomputation.
  lemma {:induction false} ConsistentIsFull(tree: Tree, req: seq<Pair>, eff: seq<Pair>, i: nat)
    requires Valid(tree) && |req| == |eff| == Count(tree) && i < Count(tree) && Consistent(tree, req, eff)
    ensures eff[i] == Full(tree, req, i)
    decreases i
  {
    assert ConsistentAt(tree, req, eff, i) && ValidAt(tree, i);
    if i > 0 {
      ConsistentIsFull(tree, req, eff, tree.parent[i]);
    }
  }

  // Everything is consistent but what the walk below top has not reached.
  ghost predicate ConsistentBut(tree: Tree, req: seq<Pair>, eff: seq<Pair>, lo: nat, hi: nat)
    requires Valid(tree) && |req| == |eff| == Count(tree)
  {
    forall j :: 0 <= j < Count(tree) && !(lo <= j < hi) ==> ConsistentAt(tree, req, eff, j)
  }

  // Skipping: a group whose effective clamps stay has only descendants whose effective clamps stay.
  lemma PrunedConsistent(tree: Tree, req: seq<Pair>, was: seq<Pair>, eff: seq<Pair>, top: nat, i: nat)
    requires Valid(tree) && |req| == |was| == |eff| == Count(tree) && top < Count(tree)
    requires top <= i < End(tree, top) <= Count(tree) && End(tree, i) <= End(tree, top)
    requires forall j :: 0 <= j < Count(tree) && j != top ==> ConsistentAt(tree, req, was, j)
    requires ConsistentBut(tree, req, eff, i, End(tree, top))
    requires forall j :: 0 <= j < Count(tree) && !(top <= j < i) ==> eff[j] == was[j]
    requires eff[i] == Local(tree, req, eff, i)
    ensures ConsistentBut(tree, req, eff, End(tree, i), End(tree, top))
  {
    assert ValidAt(tree, i);
    forall j | 0 <= j < Count(tree) && !(End(tree, i) <= j < End(tree, top)) ensures ConsistentAt(tree, req, eff, j) {
      assert ValidAt(tree, j);
      if i < j < End(tree, i) { assert ConsistentAt(tree, req, was, j); }
    }
  }

  // Writing: only the children of the group just written can become inconsistent.
  lemma WrittenConsistent(tree: Tree, req: seq<Pair>, eff: seq<Pair>, e: Pair, top: nat, i: nat)
    requires Valid(tree) && |req| == |eff| == Count(tree) && top < Count(tree)
    requires top <= i < End(tree, top) <= Count(tree) && End(tree, i) <= End(tree, top)
    requires ConsistentBut(tree, req, eff, i, End(tree, top)) && e == Local(tree, req, eff, i)
    ensures ConsistentBut(tree, req, eff[i := e], i + 1, End(tree, top))
  {
    var eff' := eff[i := e];
    forall j | 0 <= j < Count(tree) && !(i + 1 <= j < End(tree, top)) ensures ConsistentAt(tree, req, eff', j) {
      assert ValidAt(tree, j);
      if j != i {
        assert ConsistentAt(tree, req, eff, j);
        if j > 0 && tree.parent[j] == i { Below(tree, i, j); }
      }
    }
  }

  // A child lies within its parent.
  lemma Below(tree: Tree, i: nat, j: nat)
    requires Valid(tree) && i < j < Count(tree) && tree.parent[j] == i
    ensures j < End(tree, i)
  {
    assert ValidAt(tree, j);
  }

  lemma RequestedConsistent(tree: Tree, req: seq<Pair>, req': seq<Pair>, eff: seq<Pair>, g: nat)
    requires Valid(tree) && |req| == |req'| == |eff| == Count(tree) && g < Count(tree)
    requires Consistent(tree, req, eff) && forall i :: 0 <= i < Count(tree) && i != g ==> req'[i] == req[i]
    ensures forall i :: 0 <= i < Count(tree) && i != g ==> ConsistentAt(tree, req', eff, i)
  {
    forall i | 0 <= i < Count(tree) && i != g ensures ConsistentAt(tree, req', eff, i) {
      assert ConsistentAt(tree, req, eff, i);
    }
  }

  // Main result: along every path down the hierarchy neither effective clamp grows, and the
  // protection never exceeds the limit.
  lemma {:induction false} Restrictive(tree: Tree, req: seq<Pair>, i: nat, j: nat)
    requires Valid(tree) && |req| == Count(tree) && i < Count(tree) && Within(tree, i, j) && j < Count(tree)
    ensures Full(tree, req, j).min <= Full(tree, req, i).min
    ensures Full(tree, req, j).max <= Full(tree, req, i).max
    ensures Full(tree, req, j).min <= Full(tree, req, j).max
    decreases j
  {
    assert ValidAt(tree, i) && ValidAt(tree, j);
    if i < j {
      assert tree.parent[j] >= i;
      Restrictive(tree, req, i, tree.parent[j]);
    }
  }

  // The effective maximum of a group is the least maximum requested at or above it, and its minimum
  // the least of all requests at or above it: a bound for each of them, and one of them.
  lemma {:induction false} TightestRequest(tree: Tree, req: seq<Pair>, j: nat) returns (hi: nat, lo: nat)
    requires Valid(tree) && |req| == Count(tree) && j < Count(tree)
    ensures forall i :: 0 <= i < Count(tree) && Within(tree, i, j) ==>
              Full(tree, req, j).max <= req[i].max && Full(tree, req, j).min <= Min(req[i].min, req[i].max)
    ensures hi < Count(tree) && Within(tree, hi, j) && Full(tree, req, j).max == req[hi].max
    ensures lo < Count(tree) && Within(tree, lo, j) && Full(tree, req, j).min == Min(req[lo].min, req[lo].max)
    decreases j
  {
    assert ValidAt(tree, j);
    hi, lo := j, j;
    if j > 0 {
      var up := tree.parent[j];
      var above, below := TightestRequest(tree, req, up);
      OnPath(tree, j);
      if Full(tree, req, up).max < req[j].max { hi := above; }
      if Full(tree, req, up).min < Min(req[j].min, req[j].max) { lo := below; }
      Restrictive(tree, req, 0, up);
    }
  }
}
