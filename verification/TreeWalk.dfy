/**
 walk_tg_tree_from: the goto-based iteration over a task-group tree, against the
 recursive pre-order and post-order traversal.
 */
module TreeWalk {
  import opened TaskGroups

  // What a visitor returns: an error code and the data it leaves.
  datatype Outcome<S> = Outcome(ret: int, data: S)

  type Visitor<!S> = (nat, S) -> Outcome<S>

  // Group p and a cursor in its list of children; End(p) is the end of the list.
  ghost predicate Cursor(t: Tree, p: nat, c: nat) {
    Valid(t) && p < c && p < Count(t) && c <= End(t, p) <= Count(t) && (c < End(t, p) ==> t.parent[c] == p)
  }

  lemma FirstChild(t: Tree, p: nat)
    requires Valid(t) && p < Count(t)
    ensures Cursor(t, p, p + 1)
  {
    assert ValidAt(t, p);
  }

  lemma NextSibling(t: Tree, p: nat, c: nat)
    requires Cursor(t, p, c) && c < End(t, p)
    ensures Cursor(t, p, End(t, c)) && c < End(t, c)
  {
    assert ValidAt(t, c) && ValidAt(t, p);
  }

  // ---- The recursive traversal ----

  function Visit<S>(t: Tree, down: Visitor<S>, up: Visitor<S>, i: nat, s: S): Outcome<S>
    requires Valid(t) && i < Count(t)
    decreases End(t, i) - i, 0
  {
    FirstChild(t, i);
    var d := down(i, s);
    if d.ret != 0 then d else Leave(up, i, Kids(t, down, up, i, i + 1, d.data))
  }

  // Leaving group i after its children, unless one of them failed.
  function Leave<S>(up: Visitor<S>, i: nat, k: Outcome<S>): Outcome<S> {
    if k.ret != 0 then k else up(i, k.data)
  }

  // The children of p from c on.
  function Kids<S>(t: Tree, down: Visitor<S>, up: Visitor<S>, p: nat, c: nat, s: S): Outcome<S>
    requires Cursor(t, p, c)
    decreases End(t, p) - c, 1
  {
    if c == End(t, p) then Outcome(0, s)
    else
      NextSibling(t, p, c);
      var v := Visit(t, down, up, c, s);
      if v.ret != 0 then v else Kids(t, down, up, p, End(t, c), v.data)
  }

  // What remains of the traversal from `from` once group i has come out as o.
  function Finish<S>(t: Tree, down: Visitor<S>, up: Visitor<S>, from: nat, i: nat, o: Outcome<S>): Outcome<S>
    requires Valid(t) && from < Count(t) && Within(t, from, i) && i < Count(t)
    decreases i
  {
    if o.ret != 0 || i == from then o
    else
      Ascend(t, from, i);
      Finish(t, down, up, from, t.parent[i], Leave(up, t.parent[i], Kids(t, down, up, t.parent[i], End(t, i), o.data)))
  }

  lemma Ascend(t: Tree, from: nat, i: nat)
    requires Valid(t) && from < i < Count(t) && Within(t, from, i)
    ensures 0 <= t.parent[i] < i && Within(t, from, t.parent[i]) && Cursor(t, t.parent[i], End(t, i))
  {
    assert ValidAt(t, from) && ValidAt(t, i);
    assert ValidAt(t, t.parent[i]);
  }

  lemma Descend(t: Tree, from: nat, p: nat, c: nat)
    requires Valid(t) && from < Count(t) && Within(t, from, p) && p < Count(t) && Cursor(t, p, c) && c < End(t, p)
    ensures Within(t, from, c) && c < Count(t)
  {
    Laminar(t, from, p);
  }

  // ---- The iteration ----

  // Main result: the iteration with its jumps makes the calls of the recursive traversal.
  method Walk<S>(t: Tree, from: nat, down: Visitor<S>, up: Visitor<S>, data: S) returns (o: Outcome<S>)
    requires Valid(t) && from < Count(t)
    ensures o == Visit(t, down, up, from, data)
  {
    assert ValidAt(t, from);
    var parent, next, entering := from, from + 1, true;
    o := Outcome(0, data);
    while true
      invariant from <= parent < Count(t) && Within(t, from, parent) && o.ret == 0
      invariant !entering ==> Cursor(t, parent, next)
      invariant Visit(t, down, up, from, data)
             == Finish(t, down, up, from, parent,
                       if entering then Visit(t, down, up, parent, o.data)
                       else Leave(up, parent, Kids(t, down, up, parent, next, o.data)))
      decreases Count(t) - (if entering then parent else next), !entering, parent
    {
      if entering {
        // label down
        o := down(parent, o.data);
        if o.ret != 0 {
          return;
        }
        FirstChild(t, parent);
        next := parent + 1;
        entering := false;
      } else if next < End(t, parent) {
        // the list has another child: go down into it
        Descend(t, from, parent, next);
        NextSibling(t, parent, next);
        parent := next;
        entering := true;
        FinishOfChild(t, down, up, from, parent, o.data);
      } else {
        o := up(parent, o.data);
        if o.ret != 0 || parent == from {
          return;
        }
        // label up: continue after this child in its parent's list
        Ascend(t, from, parent);
        next := End(t, parent);
        parent := t.parent[parent];
      }
    }
  }

  // Entering a child is the first step of working through its parent's list.
  lemma FinishOfChild<S>(t: Tree, down: Visitor<S>, up: Visitor<S>, from: nat, c: nat, s: S)
    requires Valid(t) && from < c < Count(t) && Within(t, from, c)
    requires 0 <= t.parent[c] < c && Within(t, from, t.parent[c])
    requires Cursor(t, t.parent[c], c) && c < End(t, t.parent[c])
    ensures Finish(t, down, up, from, t.parent[c], Leave(up, t.parent[c], Kids(t, down, up, t.parent[c], c, s)))
         == Finish(t, down, up, from, c, Visit(t, down, up, c, s))
  {
    NextSibling(t, t.parent[c], c);
  }

  // ---- Which calls are made ----

  datatype Event = Enter(group: nat) | Exit(group: nat)

  // Every call of a traversal that no visitor cuts short: groups in pre-order on the way
  // in, in post-order on the way out.
  function Events(t: Tree, i: nat): seq<Event>
    requires Valid(t) && i < Count(t)
    decreases End(t, i) - i, 0
  {
    FirstChild(t, i);
    [Enter(i)] + KidEvents(t, i, i + 1) + [Exit(i)]
  }

  function KidEvents(t: Tree, p: nat, c: nat): seq<Event>
    requires Cursor(t, p, c)
    decreases End(t, p) - c, 1
  {
    if c == End(t, p) then []
    else
      NextSibling(t, p, c);
      Events(t, c) + KidEvents(t, p, End(t, c))
  }

  // The first non-zero code, and the events up to it.
  function FirstError(es: seq<Event>, code: Event -> int): int {
    if es == [] then 0 else if code(es[0]) != 0 then code(es[0]) else FirstError(es[1..], code)
  }

  function UpToError(es: seq<Event>, code: Event -> int): seq<Event> {
    if es == [] then [] else if code(es[0]) != 0 then [es[0]] else [es[0]] + UpToError(es[1..], code)
  }

  lemma {:induction false} ErrorInConcat(xs: seq<Event>, ys: seq<Event>, code: Event -> int)
    ensures FirstError(xs + ys, code)
         == if FirstError(xs, code) != 0 then FirstError(xs, code) else FirstError(ys, code)
    ensures UpToError(xs + ys, code)
         == if FirstError(xs, code) != 0 then UpToError(xs, code) else xs + UpToError(ys, code)
  {
    if xs == [] {
      assert xs + ys == ys;
    } else {
      assert (xs + ys)[1..] == xs[1..] + ys;
      ErrorInConcat(xs[1..], ys, code);
    }
  }

  // Visitors that answer with a code and record the call.
  function Entering(code: Event -> int): Visitor<seq<Event>> {
    (i: nat, log: seq<Event>) => Outcome(code(Enter(i)), log + [Enter(i)])
  }

  function Exiting(code: Event -> int): Visitor<seq<Event>> {
    (i: nat, log: seq<Event>) => Outcome(code(Exit(i)), log + [Exit(i)])
  }

  lemma BracketError(a: Event, kids: seq<Event>, b: Event, code: Event -> int)
    ensures FirstError([a] + kids + [b], code)
         == if code(a) != 0 then code(a) else if FirstError(kids, code) != 0 then FirstError(kids, code) else code(b)
    ensures UpToError([a] + kids + [b], code)
         == if code(a) != 0 then [a]
            else if FirstError(kids, code) != 0 then [a] + UpToError(kids, code)
            else [a] + kids + [b]
  {
    ErrorInConcat([a] + kids, [b], code);
    ErrorInConcat([a], kids, code);
    SingleError(a, code);
    SingleError(b, code);
  }

  // Main result: the calls are the traversal's events in order, up to and including the first that
  // returns non-zero, and that code is returned.
  lemma {:induction false} VisitCalls(t: Tree, code: Event -> int, i: nat, log: seq<Event>)
    requires Valid(t) && i < Count(t)
    ensures Visit(t, Entering(code), Exiting(code), i, log)
         == Outcome(FirstError(Events(t, i), code), log + UpToError(Events(t, i), code))
    decreases End(t, i) - i, 0
  {
    FirstChild(t, i);
    var kids := KidEvents(t, i, i + 1);
    BracketError(Enter(i), kids, Exit(i), code);
    if code(Enter(i)) == 0 {
      KidCalls(t, code, i, i + 1, log + [Enter(i)]);
      if FirstError(kids, code) == 0 {
        NoError(kids, code);
        assert log + [Enter(i)] + kids + [Exit(i)] == log + ([Enter(i)] + kids + [Exit(i)]);
      } else {
        assert log + [Enter(i)] + UpToError(kids, code) == log + ([Enter(i)] + UpToError(kids, code));
      }
    }
  }

  lemma SingleError(e: Event, code: Event -> int)
    ensures FirstError([e], code) == code(e) && UpToError([e], code) == [e]
  {
    assert [e][1..] == [];
  }

  lemma {:induction false} KidCalls(t: Tree, code: Event -> int, p: nat, c: nat, log: seq<Event>)
    requires Cursor(t, p, c)
    ensures Kids(t, Entering(code), Exiting(code), p, c, log)
         == Outcome(FirstError(KidEvents(t, p, c), code), log + UpToError(KidEvents(t, p, c), code))
    decreases End(t, p) - c, 1
  {
    if c < End(t, p) {
      NextSibling(t, p, c);
      VisitCalls(t, code, c, log);
      JoinCalls(Events(t, c), KidEvents(t, p, End(t, c)), code, log);
      if FirstError(Events(t, c), code) == 0 {
        KidCalls(t, code, p, End(t, c), log + Events(t, c));
      }
    } else {
      assert log + [] == log;
    }
  }

  // The calls of one child and then of the next ones.
  lemma JoinCalls(xs: seq<Event>, ys: seq<Event>, code: Event -> int, log: seq<Event>)
    ensures FirstError(xs + ys, code)
         == if FirstError(xs, code) != 0 then FirstError(xs, code) else FirstError(ys, code)
    ensures FirstError(xs, code) != 0 ==> log + UpToError(xs + ys, code) == log + UpToError(xs, code)
    ensures FirstError(xs, code) == 0 ==>
              UpToError(xs, code) == xs && log + UpToError(xs + ys, code) == log + xs + UpToError(ys, code)
  {
    ErrorInConcat(xs, ys, code);
    if FirstError(xs, code) == 0 {
      NoError(xs, code);
      assert log + xs + UpToError(ys, code) == log + (xs + UpToError(ys, code));
    }
  }

  lemma {:induction false} NoError(es: seq<Event>, code: Event -> int)
    requires FirstError(es, code) == 0
    ensures UpToError(es, code) == es
  {
    if es != [] {
      NoError(es[1..], code);
    }
  }
}
