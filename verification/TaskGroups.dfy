/**
 A task-group hierarchy, numbered in pre-order: group 0 is the root, the
 descendants of group i are the groups after i and before i + size[i], its first
 child is i + 1, and the next sibling of child c is c + size[c].
 */
module TaskGroups {

  datatype Tree = Tree(parent: seq<int>, size: seq<nat>)

  function Count(t: Tree): nat { |t.size| }

  function End(t: Tree, i: nat): nat
    requires i < |t.size|
  {
    i + t.size[i]
  }

  ghost predicate ValidAt(t: Tree, i: nat)
    requires i < |t.size| == |t.parent|
  {
    && t.size[i] >= 1 && End(t, i) <= |t.size|
    && (i == 0 ==> t.parent[i] == -1)
    && (i > 0 ==> 0 <= t.parent[i] < i && End(t, i) <= End(t, t.parent[i]))
    // first child and next sibling
    && (t.size[i] > 1 ==> t.parent[i + 1] == i)
    && (i > 0 && End(t, i) < End(t, t.parent[i]) ==>
          End(t, i) < |t.parent| && t.parent[End(t, i)] == t.parent[i])
    // the parent of a proper descendant is a descendant
    && (forall j :: i < j < End(t, i) ==> t.parent[j] >= i)
  }

  ghost predicate Valid(t: Tree) {
    && |t.parent| == |t.size| > 0
    && t.size[0] == |t.size|
    && (forall i :: 0 <= i < |t.size| ==> ValidAt(t, i))
  }

  // j is i or below it.
  ghost predicate Within(t: Tree, i: nat, j: nat)
    requires i < |t.size|
  {
    i <= j < End(t, i)
  }

  // Two groups are nested or apart.
  lemma {:induction false} Laminar(t: Tree, i: nat, j: nat)
    requires Valid(t) && i < |t.size| && j < |t.size| && i <= j < End(t, i)
    ensures End(t, j) <= End(t, i)
    decreases j
  {
    assert ValidAt(t, i) && ValidAt(t, j);
    if j != i {
      assert t.parent[j] >= i;
      Laminar(t, i, t.parent[j]);
    }
  }

  // The groups at or above j are j and those at or above its parent.
  lemma OnPath(t: Tree, j: nat)
    requires Valid(t) && 0 < j < Count(t)
    ensures 0 <= t.parent[j] < j
    ensures forall i :: 0 <= i < Count(t) ==> (Within(t, i, j) <==> i == j || Within(t, i, t.parent[j]))
  {
    assert ValidAt(t, j);
    forall i | 0 <= i < Count(t) ensures Within(t, i, j) <==> i == j || Within(t, i, t.parent[j]) {
      assert ValidAt(t, i);
      if Within(t, i, t.parent[j]) { Laminar(t, i, t.parent[j]); }
    }
  }
}
