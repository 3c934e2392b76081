/**
 Depth-first traversal of a directed acyclic graph in post order.

 The traversal keeps an explicit stack of half-consumed child lists and marks a node as visited
 when it is pushed. All roots are pushed, and so marked, before the first node is emitted.
 */
module Postorder {
  import opened Outcomes

  // ----- graphs

  ghost predicate IsPath<T>(children: T -> seq<T>, p: seq<T>) {
    p != [] && forall i :: 0 <= i < |p| - 1 ==> p[i + 1] in children(p[i])
  }

  ghost predicate Reaches<T(!new)>(children: T -> seq<T>, a: T, b: T) {
    exists p :: IsPath(children, p) && p[0] == a && p[|p| - 1] == b
  }

  /** `nodes` holds everything the graph is about. */
  ghost predicate Closed<T>(children: T -> seq<T>, nodes: set<T>) {
    forall v, c :: v in nodes && c in children(v) ==> c in nodes
  }

  ghost predicate Acyclic<T(!new)>(children: T -> seq<T>, nodes: set<T>) {
    forall v, c :: v in nodes && c in children(v) ==> !Reaches(children, c, v)
  }

  lemma ReachesSelf<T(!new)>(children: T -> seq<T>, a: T)
    ensures Reaches(children, a, a)
  {
    assert IsPath(children, [a]);
  }

  lemma ReachesStep<T(!new)>(children: T -> seq<T>, a: T, b: T, c: T)
    requires Reaches(children, a, b) && c in children(b)
    ensures Reaches(children, a, c)
  {
    var p :| IsPath(children, p) && p[0] == a && p[|p| - 1] == b;
    var q := p + [c];
    assert forall i :: 0 <= i < |q| - 1 ==> q[i + 1] in children(q[i]);
    assert IsPath(children, q);
  }

  // ----- what a post order is

  predicate NoDuplicates<T(==)>(s: seq<T>) {
    forall i, j :: 0 <= i < j < |s| ==> s[i] != s[j]
  }

  /** Every node comes after all of its children. */
  ghost predicate ChildrenFirst<T>(children: T -> seq<T>, out: seq<T>) {
    forall i, c :: 0 <= i < |out| && c in children(out[i]) ==> c in out[..i]
  }

  ghost predicate ReachedFrom<T(!new)>(children: T -> seq<T>, roots: seq<T>, x: T) {
    exists r :: r in roots && Reaches(children, r, x)
  }

  /** Exactly the reachable nodes, each once, children first. */
  ghost predicate IsPostorder<T(!new)>(children: T -> seq<T>, roots: seq<T>, out: seq<T>) {
    && NoDuplicates(out)
    && ChildrenFirst(children, out)
    && forall x :: x in out <==> ReachedFrom(children, roots, x)
  }

  /** No root is reachable from an earlier one; in particular the roots are distinct. */
  ghost predicate RootsApart<T(!new)>(children: T -> seq<T>, roots: seq<T>) {
    forall i, j :: 0 <= i < j < |roots| ==> !Reaches(children, roots[i], roots[j])
  }

  // ----- the stack

  /** Children still to be looked at, and the node they belong to. */
  type Entry<T> = (seq<T>, T)

  /**
   The shape of the stack: pending roots at the bottom, last root deepest, above them the nodes
   being worked on. `marks` are the positions where the finished roots were emitted.
   */
  ghost predicate Shape<T>(children: T -> seq<T>, roots: seq<T>, stack: seq<Entry<T>>, base: nat, emitted: seq<T>,
                           marks: seq<nat>) {
    && base <= |stack|
    && |marks| + base + (if |stack| > base then 1 else 0) == |roots|
    && (forall i :: 0 <= i < base ==> stack[i] == (children(roots[|roots| - 1 - i]), roots[|roots| - 1 - i]))
    && (|stack| > base ==> stack[base].1 == roots[|marks|])
    && (forall k :: 0 <= k < |marks| ==> marks[k] < |emitted| && emitted[marks[k]] == roots[k])
    && (forall k, l :: 0 <= k < l < |marks| ==> marks[k] < marks[l])
  }

  ghost predicate OnStack<T>(stack: seq<Entry<T>>, x: T) {
    exists i :: 0 <= i < |stack| && stack[i].1 == x
  }

  /** A child of a stacked node is still to be looked at, emitted, or the node right above it. */
  ghost predicate Accounted<T>(children: T -> seq<T>, stack: seq<Entry<T>>, emitted: seq<T>, i: nat, c: T)
    requires i < |stack|
  {
    c in children(stack[i].1) ==> c in stack[i].0 || c in emitted || (i + 1 < |stack| && c == stack[i + 1].1)
  }

  /** The nodes being worked on form a path, and what is left of their children is still to come. */
  ghost predicate Working<T(!new)>(children: T -> seq<T>, stack: seq<Entry<T>>, base: nat, emitted: seq<T>) {
    && (forall i :: base <= i < |stack| - 1 ==> stack[i + 1].1 in children(stack[i].1))
    && (forall i, c :: base <= i < |stack| && c in stack[i].0 ==> c in children(stack[i].1))
    && (forall i: nat, c :: base <= i < |stack| ==> Accounted(children, stack, emitted, i, c))
  }

  /** Visited means emitted or on the stack, never both, and nothing twice. */
  ghost predicate Marked<T(!new)>(stack: seq<Entry<T>>, visited: set<T>, emitted: seq<T>) {
    && (forall x :: x in visited <==> x in emitted || OnStack(stack, x))
    && (forall i :: 0 <= i < |stack| ==> stack[i].1 !in emitted)
    && (forall i, j :: 0 <= i < j < |stack| ==> stack[i].1 != stack[j].1)
    && NoDuplicates(emitted)
  }

  ghost predicate Progress<T(!new)>(children: T -> seq<T>, roots: seq<T>, stack: seq<Entry<T>>, base: nat,
                                    visited: set<T>, emitted: seq<T>) {
    && Working(children, stack, base, emitted)
    && Marked(stack, visited, emitted)
    && ChildrenFirst(children, emitted)
    && forall x :: x in emitted ==> ReachedFrom(children, roots, x)
  }

  /** Along the working part of the stack, lower nodes reach higher ones. */
  lemma {:induction false} StackReaches<T(!new)>(children: T -> seq<T>, stack: seq<Entry<T>>, base: nat,
                                                 emitted: seq<T>, i: nat, j: nat)
    requires Working(children, stack, base, emitted) && base <= i <= j < |stack|
    ensures Reaches(children, stack[i].1, stack[j].1)
    decreases j
  {
    if i == j {
      ReachesSelf(children, stack[i].1);
    } else {
      StackReaches(children, stack, base, emitted, i, j - 1);
      ReachesStep(children, stack[i].1, stack[j - 1].1, stack[j].1);
    }
  }

  /** With roots apart, a visited child of the top node has already been emitted. */
  lemma VisitedChildIsEmitted<T(!new)>(children: T -> seq<T>, nodes: set<T>, roots: seq<T>, stack: seq<Entry<T>>,
                                       base: nat, visited: set<T>, emitted: seq<T>, marks: seq<nat>, c: T)
    requires Acyclic(children, nodes) && RootsApart(children, roots)
    requires Shape(children, roots, stack, base, emitted, marks)
    requires Progress(children, roots, stack, base, visited, emitted)
    requires |stack| > base && stack[|stack| - 1].1 in nodes
    requires c in children(stack[|stack| - 1].1) && c in visited
    ensures c in emitted
  {
    var top := |stack| - 1;
    if c !in emitted {
      var i :| 0 <= i < |stack| && stack[i].1 == c;
      if i >= base {
        StackReaches(children, stack, base, emitted, i, top);
      } else {
        assert c == roots[|roots| - 1 - i] && |marks| < |roots| - 1 - i;
        StackReaches(children, stack, base, emitted, base, top);
        ReachesStep(children, stack[base].1, stack[top].1, c);
      }
      assert false;
    }
  }

  // ----- the steps of the traversal

  /** Turning the topmost pending root into the node being worked on. */
  lemma StartKeeps<T(!new)>(children: T -> seq<T>, roots: seq<T>, stack: seq<Entry<T>>, visited: set<T>,
                            emitted: seq<T>, marks: seq<nat>)
    requires stack != [] && Shape(children, roots, stack, |stack|, emitted, marks)
    ensures Shape(children, roots, stack, |stack| - 1, emitted, marks)
    ensures Progress(children, roots, stack, |stack|, visited, emitted) ==>
              Progress(children, roots, stack, |stack| - 1, visited, emitted)
  {}

  /** Marking depends on the nodes of the stack only, not on what is left of their children. */
  lemma SameNodesMarked<T(!new)>(s: seq<Entry<T>>, s': seq<Entry<T>>, visited: set<T>, emitted: seq<T>)
    requires |s| == |s'| && (forall i :: 0 <= i < |s| ==> s[i].1 == s'[i].1) && Marked(s, visited, emitted)
    ensures Marked(s', visited, emitted)
  {
    assert forall x :: OnStack(s, x) <==> OnStack(s', x);
  }

  lemma SkipWorking<T(!new)>(children: T -> seq<T>, below: seq<Entry<T>>, rem: seq<T>, top: T, base: nat,
                             emitted: seq<T>)
    requires rem != [] && rem[0] in emitted && base <= |below|
    requires Working(children, below + [(rem, top)], base, emitted)
    ensures Working(children, below + [(rem[1..], top)], base, emitted)
  {
    var s, s' := below + [(rem, top)], below + [(rem[1..], top)];
    assert forall i :: 0 <= i < |below| ==> s[i] == s'[i];
    assert s[|below|] == (rem, top) && s'[|below|] == (rem[1..], top);
    assert rem == [rem[0]] + rem[1..];
    forall i: nat, c | base <= i < |s'| ensures Accounted(children, s', emitted, i, c) {
      assert Accounted(children, s, emitted, i, c);
    }
  }

  /** Passing over a child that has been emitted. */
  lemma SkipKeeps<T(!new)>(children: T -> seq<T>, roots: seq<T>, below: seq<Entry<T>>, rem: seq<T>, top: T, base: nat,
                           visited: set<T>, emitted: seq<T>)
    requires rem != [] && rem[0] in emitted && base <= |below|
    requires Progress(children, roots, below + [(rem, top)], base, visited, emitted)
    ensures Progress(children, roots, below + [(rem[1..], top)], base, visited, emitted)
  {
    SkipWorking(children, below, rem, top, base, emitted);
    SameNodesMarked(below + [(rem, top)], below + [(rem[1..], top)], visited, emitted);
  }

  lemma PushWorking<T(!new)>(children: T -> seq<T>, below: seq<Entry<T>>, rem: seq<T>, top: T, base: nat,
                             emitted: seq<T>)
    requires rem != [] && base <= |below| && Working(children, below + [(rem, top)], base, emitted)
    ensures Working(children, below + [(rem[1..], top)] + [(children(rem[0]), rem[0])], base, emitted)
  {
    var c := rem[0];
    var s, s' := below + [(rem, top)], below + [(rem[1..], top)] + [(children(c), c)];
    assert forall i :: 0 <= i < |below| ==> s[i] == s'[i];
    assert s[|below|] == (rem, top) && s'[|below|] == (rem[1..], top) && s'[|s|] == (children(c), c);
    assert rem == [c] + rem[1..];
    forall i: nat, x | base <= i < |s'| ensures Accounted(children, s', emitted, i, x) {
      if i < |s| {
        assert Accounted(children, s, emitted, i, x);
      }
    }
  }

  lemma PushMarked<T(!new)>(s: seq<Entry<T>>, e: Entry<T>, visited: set<T>, emitted: seq<T>)
    requires Marked(s, visited, emitted) && e.1 !in visited
    ensures Marked(s + [e], visited + {e.1}, emitted)
  {
    var s' := s + [e];
    forall x ensures OnStack(s', x) <==> OnStack(s, x) || x == e.1 {
      if OnStack(s, x) {
        var i :| 0 <= i < |s| && s[i].1 == x;
        assert s'[i].1 == x;
      }
      assert s'[|s|].1 == e.1;
    }
    forall i | 0 <= i < |s| ensures s[i].1 != e.1 {
      assert OnStack(s, s[i].1);
    }
  }

  /** Going down to a child seen for the first time. */
  lemma PushKeeps<T(!new)>(children: T -> seq<T>, roots: seq<T>, below: seq<Entry<T>>, rem: seq<T>, top: T, base: nat,
                           visited: set<T>, emitted: seq<T>)
    requires rem != [] && rem[0] !in visited && base <= |below|
    requires Progress(children, roots, below + [(rem, top)], base, visited, emitted)
    ensures Progress(children, roots, below + [(rem[1..], top)] + [(children(rem[0]), rem[0])], base,
                     visited + {rem[0]}, emitted)
  {
    PushWorking(children, below, rem, top, base, emitted);
    SameNodesMarked(below + [(rem, top)], below + [(rem[1..], top)], visited, emitted);
    PushMarked(below + [(rem[1..], top)], (children(rem[0]), rem[0]), visited, emitted);
  }

  lemma EmitWorking<T(!new)>(children: T -> seq<T>, below: seq<Entry<T>>, top: T, base: nat, emitted: seq<T>)
    requires base <= |below| && Working(children, below + [([], top)], base, emitted)
    ensures Working(children, below, base, emitted + [top])
    ensures forall c :: c in children(top) ==> c in emitted
  {
    var s := below + [([], top)];
    assert forall i :: 0 <= i < |below| ==> s[i] == below[i];
    assert s[|below|] == ([], top);
    forall i: nat, c | base <= i < |below| ensures Accounted(children, below, emitted + [top], i, c) {
      assert Accounted(children, s, emitted, i, c);
    }
    forall c | c in children(top) ensures c in emitted {
      assert Accounted(children, s, emitted, |below|, c);
    }
  }

  lemma EmitMarked<T(!new)>(below: seq<Entry<T>>, e: Entry<T>, visited: set<T>, emitted: seq<T>)
    requires Marked(below + [e], visited, emitted)
    ensures Marked(below, visited, emitted + [e.1])
  {
    var s := below + [e];
    assert forall i :: 0 <= i < |below| ==> s[i] == below[i];
    assert s[|below|] == e;
    forall x ensures OnStack(s, x) <==> OnStack(below, x) || x == e.1 {
      if OnStack(below, x) {
        var i :| 0 <= i < |below| && below[i].1 == x;
        assert s[i].1 == x;
      }
    }
  }

  lemma EmitFirst<T(!new)>(children: T -> seq<T>, emitted: seq<T>, top: T)
    requires ChildrenFirst(children, emitted) && forall c :: c in children(top) ==> c in emitted
    ensures ChildrenFirst(children, emitted + [top])
  {
    var out := emitted + [top];
    forall i, c | 0 <= i < |out| && c in children(out[i]) ensures c in out[..i] {
      if i < |emitted| {
        assert out[..i] == emitted[..i];
      } else {
        assert out[..i] == emitted;
      }
    }
  }

  /** Emitting a node whose children are all done. */
  lemma EmitKeeps<T(!new)>(children: T -> seq<T>, roots: seq<T>, below: seq<Entry<T>>, top: T, base: nat,
                           visited: set<T>, emitted: seq<T>, marks: seq<nat>)
    requires base <= |below| && Shape(children, roots, below + [([], top)], base, emitted, marks)
    requires Progress(children, roots, below + [([], top)], base, visited, emitted)
    ensures Progress(children, roots, below, base, visited, emitted + [top])
  {
    var s := below + [([], top)];
    StackReaches(children, s, base, emitted, base, |below|);
    assert s[base].1 in roots && s[|below|].1 == top;
    assert ReachedFrom(children, roots, top);
    EmitWorking(children, below, top, base, emitted);
    EmitMarked(below, ([], top), visited, emitted);
    EmitFirst(children, emitted, top);
  }

  /** Emission closes a root when nothing is left above the pending ones. */
  lemma EmitShape<T(!new)>(children: T -> seq<T>, roots: seq<T>, below: seq<Entry<T>>, rem: seq<T>, top: T, base: nat,
                           emitted: seq<T>, marks: seq<nat>)
    requires base <= |below| && Shape(children, roots, below + [(rem, top)], base, emitted, marks)
    ensures Shape(children, roots, below, base, emitted + [top], if |below| == base then marks + [|emitted|] else marks)
  {
    var s := below + [(rem, top)];
    assert forall i :: 0 <= i < |below| ==> s[i] == below[i];
    assert s[|below|].1 == top;
  }

  // ----- the traversal

  /** Everything the traversal keeps, for the stack as it stands. */
  ghost predicate Invariant<T(!new)>(children: T -> seq<T>, nodes: set<T>, roots: seq<T>, stack: seq<Entry<T>>,
                                     base: nat, visited: set<T>, emitted: seq<T>, marks: seq<nat>)
  {
    && Closed(children, nodes) && Acyclic(children, nodes)
    && visited <= nodes && (forall i :: 0 <= i < |stack| ==> stack[i].1 in nodes)
    && (forall i, c :: 0 <= i < |stack| && c in stack[i].0 ==> c in children(stack[i].1))
    && Shape(children, roots, stack, base, emitted, marks)
    && (RootsApart(children, roots) ==> Progress(children, roots, stack, base, visited, emitted))
  }

  function RootEntries<T>(children: T -> seq<T>, roots: seq<T>): seq<Entry<T>> {
    seq(|roots|, i requires 0 <= i < |roots| => (children(roots[|roots| - 1 - i]), roots[|roots| - 1 - i]))
  }

  lemma StartInvariant<T(!new)>(children: T -> seq<T>, nodes: set<T>, roots: seq<T>)
    requires Closed(children, nodes) && Acyclic(children, nodes) && forall r :: r in roots ==> r in nodes
    ensures Invariant(children, nodes, roots, RootEntries(children, roots), |roots|, set r | r in roots, [], [])
  {
    var stack := RootEntries(children, roots);
    if RootsApart(children, roots) {
      DistinctRoots(children, roots);
      forall x ensures x in roots <==> OnStack(stack, x) {
        if x in roots {
          var i :| 0 <= i < |roots| && roots[i] == x;
          assert stack[|roots| - 1 - i].1 == x;
        }
      }
    }
  }

  /** Taking the last pending root off leaves one fewer pending. */
  ghost function Lowered(base: nat, n: nat): nat {
    if base == n && n > 0 then n - 1 else base
  }

  lemma TakeInvariant<T(!new)>(children: T -> seq<T>, nodes: set<T>, roots: seq<T>, stack: seq<Entry<T>>, base: nat,
                               visited: set<T>, emitted: seq<T>, marks: seq<nat>)
    requires stack != [] && Invariant(children, nodes, roots, stack, base, visited, emitted, marks)
    ensures Lowered(base, |stack|) <= |stack| - 1
    ensures Invariant(children, nodes, roots, stack, Lowered(base, |stack|), visited, emitted, marks)
  {
    if base == |stack| {
      StartKeeps(children, roots, stack, visited, emitted, marks);
    }
  }

  lemma SkipInvariant<T(!new)>(children: T -> seq<T>, nodes: set<T>, roots: seq<T>, below: seq<Entry<T>>,
                               rem: seq<T>, top: T, base: nat, visited: set<T>, emitted: seq<T>, marks: seq<nat>)
    requires base <= |below| && rem != [] && rem[0] in visited
    requires Invariant(children, nodes, roots, below + [(rem, top)], base, visited, emitted, marks)
    ensures Invariant(children, nodes, roots, below + [(rem[1..], top)], base, visited, emitted, marks)
  {
    var s, s' := below + [(rem, top)], below + [(rem[1..], top)];
    assert forall i :: 0 <= i < |s| ==> s[i].1 == s'[i].1 && (i < |below| ==> s[i] == s'[i]);
    assert s[|below|] == (rem, top);
    if RootsApart(children, roots) {
      VisitedChildIsEmitted(children, nodes, roots, s, base, visited, emitted, marks, rem[0]);
      SkipKeeps(children, roots, below, rem, top, base, visited, emitted);
    }
  }

  lemma PushInvariant<T(!new)>(children: T -> seq<T>, nodes: set<T>, roots: seq<T>, below: seq<Entry<T>>,
                               rem: seq<T>, top: T, base: nat, visited: set<T>, emitted: seq<T>, marks: seq<nat>)
    requires base <= |below| && rem != [] && rem[0] !in visited
    requires Invariant(children, nodes, roots, below + [(rem, top)], base, visited, emitted, marks)
    ensures rem[0] in nodes
    ensures Invariant(children, nodes, roots, below + [(rem[1..], top)] + [(children(rem[0]), rem[0])], base,
                      visited + {rem[0]}, emitted, marks)
  {
    var s, s' := below + [(rem, top)], below + [(rem[1..], top)] + [(children(rem[0]), rem[0])];
    assert forall i :: 0 <= i < |s| ==> s[i].1 == s'[i].1 && (i < |below| ==> s[i] == s'[i]);
    assert s[|below|] == (rem, top);
    if RootsApart(children, roots) {
      PushKeeps(children, roots, below, rem, top, base, visited, emitted);
    }
  }

  lemma EmitInvariant<T(!new)>(children: T -> seq<T>, nodes: set<T>, roots: seq<T>, below: seq<Entry<T>>, top: T,
                               base: nat, visited: set<T>, emitted: seq<T>, marks: seq<nat>)
    requires base <= |below|
    requires Invariant(children, nodes, roots, below + [([], top)], base, visited, emitted, marks)
    ensures Invariant(children, nodes, roots, below, base, visited, emitted + [top],
                      if |below| == base then marks + [|emitted|] else marks)
  {
    var s := below + [([], top)];
    assert forall i :: 0 <= i < |below| ==> s[i] == below[i];
    EmitShape(children, roots, below, [], top, base, emitted, marks);
    if RootsApart(children, roots) {
      EmitKeeps(children, roots, below, top, base, visited, emitted, marks);
    }
  }

  // ----- depth-first search by recursion

  ghost predicate Within<T>(nodes: set<T>, xs: seq<T>) {
    forall x :: x in xs ==> x in nodes
  }

  /** Visits the nodes listed, in order: the nodes that come out, and all that have been seen then. */
  ghost function Visit<T(!new)>(children: T -> seq<T>, nodes: set<T>, list: seq<T>, seen: set<T>): (r: (seq<T>, set<T>))
    requires Closed(children, nodes) && seen <= nodes && Within(nodes, list)
    ensures seen <= r.1 <= nodes
    decreases nodes - seen, |list|
  {
    if list == [] then ([], seen)
    else if list[0] in seen then Visit(children, nodes, list[1..], seen)
    else
      var (below, seen1) := Visit(children, nodes, children(list[0]), seen + {list[0]});
      var (after, seen2) := Visit(children, nodes, list[1..], seen1);
      (below + [list[0]] + after, seen2)
  }

  /** A list is visited from left to right. */
  lemma {:induction false} VisitAppend<T(!new)>(children: T -> seq<T>, nodes: set<T>, a: seq<T>, b: seq<T>,
                                                seen: set<T>)
    requires Closed(children, nodes) && seen <= nodes && Within(nodes, a) && Within(nodes, b) && Within(nodes, a + b)
    ensures var (first, seen1) := Visit(children, nodes, a, seen);
            var (second, seen2) := Visit(children, nodes, b, seen1);
            Visit(children, nodes, a + b, seen) == (first + second, seen2)
    decreases nodes - seen, |a|
  {
    if a == [] {
      var second := Visit(children, nodes, b, seen).0;
      assert a + b == b && [] + second == second;
    } else {
      assert (a + b)[1..] == a[1..] + b && Within(nodes, a[1..] + b);
      if a[0] in seen {
        VisitAppend(children, nodes, a[1..], b, seen);
      } else {
        var (below, seen0) := Visit(children, nodes, children(a[0]), seen + {a[0]});
        VisitAppend(children, nodes, a[1..], b, seen0);
        var (first, seen1) := Visit(children, nodes, a[1..], seen0);
        var second := Visit(children, nodes, b, seen1).0;
        assert below + [a[0]] + (first + second) == below + [a[0]] + first + second;
      }
    }
  }

  /** A node not seen before comes out right after what is below it. */
  lemma VisitNode<T(!new)>(children: T -> seq<T>, nodes: set<T>, x: T, seen: set<T>)
    requires Closed(children, nodes) && seen <= nodes && x in nodes && x !in seen
    ensures Within(nodes, children(x))
    ensures var (below, all) := Visit(children, nodes, children(x), seen + {x});
            Visit(children, nodes, [x], seen) == (below + [x], all)
  {
    var (below, all) := Visit(children, nodes, children(x), seen + {x});
    assert [x][1..] == [] && below + [x] + [] == below + [x];
    assert Visit(children, nodes, [], all) == ([], all);
  }

  /** Root by root, each after what is below it; all roots count as seen from the start. */
  ghost function DepthFirst<T(!new)>(children: T -> seq<T>, nodes: set<T>, roots: seq<T>, seen: set<T>): seq<T>
    requires Closed(children, nodes) && seen <= nodes && Within(nodes, roots)
    decreases |roots|
  {
    if roots == [] then []
    else
      var (below, seen1) := Visit(children, nodes, children(roots[0]), seen);
      below + [roots[0]] + DepthFirst(children, nodes, roots[1..], seen1)
  }

  ghost predicate StackWithin<T>(nodes: set<T>, stack: seq<Entry<T>>) {
    forall i :: 0 <= i < |stack| ==> Within(nodes, stack[i].0)
  }

  /** What is still to come out of a stack. */
  ghost function Pending<T(!new)>(children: T -> seq<T>, nodes: set<T>, stack: seq<Entry<T>>, seen: set<T>): seq<T>
    requires Closed(children, nodes) && seen <= nodes && StackWithin(nodes, stack)
    decreases |stack|
  {
    if stack == [] then []
    else
      var (rem, top) := stack[|stack| - 1];
      var (below, seen1) := Visit(children, nodes, rem, seen);
      below + [top] + Pending(children, nodes, stack[..|stack| - 1], seen1)
  }

  lemma PendingTop<T(!new)>(children: T -> seq<T>, nodes: set<T>, below: seq<Entry<T>>, rem: seq<T>, top: T,
                            seen: set<T>)
    requires Closed(children, nodes) && seen <= nodes && StackWithin(nodes, below) && Within(nodes, rem)
    ensures StackWithin(nodes, below + [(rem, top)])
    ensures var (out, seen1) := Visit(children, nodes, rem, seen);
            Pending(children, nodes, below + [(rem, top)], seen) == out + [top] + Pending(children, nodes, below, seen1)
  {
    assert (below + [(rem, top)])[..|below|] == below;
  }

  /** Passing over a child that has been seen changes nothing of what is to come. */
  lemma SkipPending<T(!new)>(children: T -> seq<T>, nodes: set<T>, below: seq<Entry<T>>, rem: seq<T>, top: T,
                             seen: set<T>)
    requires Closed(children, nodes) && seen <= nodes && StackWithin(nodes, below) && Within(nodes, rem)
    requires rem != [] && rem[0] in seen
    ensures StackWithin(nodes, below + [(rem, top)]) && StackWithin(nodes, below + [(rem[1..], top)])
    ensures Pending(children, nodes, below + [(rem, top)], seen) ==
            Pending(children, nodes, below + [(rem[1..], top)], seen)
  {
    PendingTop(children, nodes, below, rem, top, seen);
    PendingTop(children, nodes, below, rem[1..], top, seen);
  }

  lemma Regroup<T>(a: seq<T>, c: T, b: seq<T>, top: T, rest: seq<T>)
    ensures (a + [c] + b) + [top] + rest == a + [c] + (b + [top] + rest)
  {}

  /** Nor does going down to a child that has not. */
  lemma PushPending<T(!new)>(children: T -> seq<T>, nodes: set<T>, below: seq<Entry<T>>, rem: seq<T>, top: T,
                             seen: set<T>)
    requires Closed(children, nodes) && seen <= nodes && StackWithin(nodes, below) && Within(nodes, rem)
    requires rem != [] && rem[0] !in seen
    ensures var stack := below + [(rem[1..], top)] + [(children(rem[0]), rem[0])];
            && StackWithin(nodes, below + [(rem, top)]) && StackWithin(nodes, stack)
            && Pending(children, nodes, below + [(rem, top)], seen) ==
               Pending(children, nodes, stack, seen + {rem[0]})
  {
    var c := rem[0];
    var (out, seen1) := Visit(children, nodes, children(c), seen + {c});
    PendingTop(children, nodes, below, rem, top, seen);
    PendingTop(children, nodes, below, rem[1..], top, seen1);
    PendingTop(children, nodes, below + [(rem[1..], top)], children(c), c, seen + {c});
    var (after, seen2) := Visit(children, nodes, rem[1..], seen1);
    assert Visit(children, nodes, rem, seen) == (out + [c] + after, seen2);
    Regroup(out, c, after, top, Pending(children, nodes, below, seen2));
  }

  lemma {:induction false} RootsPending<T(!new)>(children: T -> seq<T>, nodes: set<T>, roots: seq<T>, seen: set<T>)
    requires Closed(children, nodes) && seen <= nodes && Within(nodes, roots)
    ensures StackWithin(nodes, RootEntries(children, roots))
    ensures Pending(children, nodes, RootEntries(children, roots), seen) == DepthFirst(children, nodes, roots, seen)
    decreases |roots|
  {
    if roots != [] {
      var front := RootEntries(children, roots[1..]);
      assert RootEntries(children, roots) == front + [(children(roots[0]), roots[0])];
      var seen1 := Visit(children, nodes, children(roots[0]), seen).1;
      RootsPending(children, nodes, roots[1..], seen1);
      PendingTop(children, nodes, front, children(roots[0]), roots[0], seen);
    }
  }

  /** What has come out and what is still to come out, of a stack over the graph. */
  ghost function WholeOf<T(!new)>(children: T -> seq<T>, nodes: set<T>, stack: seq<Entry<T>>, visited: set<T>,
                                  emitted: seq<T>): Option<seq<T>>
  {
    if Closed(children, nodes) && visited <= nodes && StackWithin(nodes, stack)
    then Some(emitted + Pending(children, nodes, stack, visited)) else None
  }

  lemma StartWhole<T(!new)>(children: T -> seq<T>, nodes: set<T>, roots: seq<T>, seen: set<T>)
    requires Closed(children, nodes) && seen <= nodes && Within(nodes, roots)
    ensures WholeOf(children, nodes, RootEntries(children, roots), seen, []) ==
            Some(DepthFirst(children, nodes, roots, seen))
  {
    RootsPending(children, nodes, roots, seen);
    var all := Pending(children, nodes, RootEntries(children, roots), seen);
    assert [] + all == all;
  }

  lemma TopWithin<T(!new)>(nodes: set<T>, below: seq<Entry<T>>, rem: seq<T>, top: T)
    requires StackWithin(nodes, below + [(rem, top)])
    ensures StackWithin(nodes, below) && Within(nodes, rem)
  {
    var s := below + [(rem, top)];
    assert s[|below|] == (rem, top);
    forall i | 0 <= i < |below| ensures Within(nodes, below[i].0) {
      assert s[i] == below[i];
    }
  }

  lemma SkipOnTheWay<T(!new)>(children: T -> seq<T>, nodes: set<T>, below: seq<Entry<T>>, rem: seq<T>, top: T,
                              visited: set<T>, emitted: seq<T>, whole: seq<T>)
    requires rem != [] && rem[0] in visited
    requires WholeOf(children, nodes, below + [(rem, top)], visited, emitted) == Some(whole)
    ensures WholeOf(children, nodes, below + [(rem[1..], top)], visited, emitted) == Some(whole)
  {
    TopWithin(nodes, below, rem, top);
    SkipPending(children, nodes, below, rem, top, visited);
  }

  lemma PushOnTheWay<T(!new)>(children: T -> seq<T>, nodes: set<T>, below: seq<Entry<T>>, rem: seq<T>, top: T,
                              visited: set<T>, emitted: seq<T>, whole: seq<T>)
    requires rem != [] && rem[0] !in visited
    requires WholeOf(children, nodes, below + [(rem, top)], visited, emitted) == Some(whole)
    ensures WholeOf(children, nodes, below + [(rem[1..], top)] + [(children(rem[0]), rem[0])], visited + {rem[0]},
                     emitted) == Some(whole)
  {
    TopWithin(nodes, below, rem, top);
    PushPending(children, nodes, below, rem, top, visited);
  }

  lemma EmitOnTheWay<T(!new)>(children: T -> seq<T>, nodes: set<T>, below: seq<Entry<T>>, top: T,
                              visited: set<T>, emitted: seq<T>, whole: seq<T>)
    requires WholeOf(children, nodes, below + [([], top)], visited, emitted) == Some(whole)
    ensures WholeOf(children, nodes, below, visited, emitted + [top]) == Some(whole)
  {
    TopWithin(nodes, below, [], top);
    PendingTop(children, nodes, below, [], top, visited);
    var rest := Pending(children, nodes, below, visited);
    assert [] + [top] + rest == [top] + rest && emitted + ([top] + rest) == emitted + [top] + rest;
  }

  /** The whole output that a traversal is on the way to, if its state is sound. */
  ghost function Outlook<T(!new)>(children: T -> seq<T>, nodes: set<T>, roots: seq<T>, stack: seq<Entry<T>>, base: nat,
                                  visited: set<T>, emitted: seq<T>, marks: seq<nat>): Option<seq<T>>
  {
    if Invariant(children, nodes, roots, stack, base, visited, emitted, marks)
    then WholeOf(children, nodes, stack, visited, emitted) else None
  }

  lemma StartOutlook<T(!new)>(children: T -> seq<T>, nodes: set<T>, roots: seq<T>)
    requires Closed(children, nodes) && Acyclic(children, nodes) && Within(nodes, roots)
    ensures var seen := set r | r in roots;
            Outlook(children, nodes, roots, RootEntries(children, roots), |roots|, seen, [], []) ==
            Some(DepthFirst(children, nodes, roots, seen))
  {
    StartInvariant(children, nodes, roots);
    StartWhole(children, nodes, roots, set r | r in roots);
  }

  lemma TakeOutlook<T(!new)>(children: T -> seq<T>, nodes: set<T>, roots: seq<T>, stack: seq<Entry<T>>, base: nat,
                             visited: set<T>, emitted: seq<T>, marks: seq<nat>, whole: seq<T>)
    requires stack != [] && Outlook(children, nodes, roots, stack, base, visited, emitted, marks) == Some(whole)
    ensures Lowered(base, |stack|) <= |stack| - 1
    ensures Outlook(children, nodes, roots, stack, Lowered(base, |stack|), visited, emitted, marks) == Some(whole)
  {
    TakeInvariant(children, nodes, roots, stack, base, visited, emitted, marks);
  }

  lemma SkipOutlook<T(!new)>(children: T -> seq<T>, nodes: set<T>, roots: seq<T>, below: seq<Entry<T>>, rem: seq<T>,
                             top: T, base: nat, visited: set<T>, emitted: seq<T>, marks: seq<nat>, whole: seq<T>)
    requires base <= |below| && rem != [] && rem[0] in visited
    requires Outlook(children, nodes, roots, below + [(rem, top)], base, visited, emitted, marks) == Some(whole)
    ensures Outlook(children, nodes, roots, below + [(rem[1..], top)], base, visited, emitted, marks) == Some(whole)
  {
    SkipOnTheWay(children, nodes, below, rem, top, visited, emitted, whole);
    SkipInvariant(children, nodes, roots, below, rem, top, base, visited, emitted, marks);
  }

  lemma PushOutlook<T(!new)>(children: T -> seq<T>, nodes: set<T>, roots: seq<T>, below: seq<Entry<T>>, rem: seq<T>,
                             top: T, base: nat, visited: set<T>, emitted: seq<T>, marks: seq<nat>, whole: seq<T>)
    requires base <= |below| && rem != [] && rem[0] !in visited
    requires Outlook(children, nodes, roots, below + [(rem, top)], base, visited, emitted, marks) == Some(whole)
    ensures rem[0] in nodes
    ensures Outlook(children, nodes, roots, below + [(rem[1..], top)] + [(children(rem[0]), rem[0])], base,
                    visited + {rem[0]}, emitted, marks) == Some(whole)
  {
    PushOnTheWay(children, nodes, below, rem, top, visited, emitted, whole);
    PushInvariant(children, nodes, roots, below, rem, top, base, visited, emitted, marks);
  }

  lemma EmitOutlook<T(!new)>(children: T -> seq<T>, nodes: set<T>, roots: seq<T>, below: seq<Entry<T>>, top: T,
                             base: nat, visited: set<T>, emitted: seq<T>, marks: seq<nat>, whole: seq<T>)
    requires base <= |below|
    requires Outlook(children, nodes, roots, below + [([], top)], base, visited, emitted, marks) == Some(whole)
    ensures Outlook(children, nodes, roots, below, base, visited, emitted + [top],
                    if |below| == base then marks + [|emitted|] else marks) == Some(whole)
  {
    EmitOnTheWay(children, nodes, below, top, visited, emitted, whole);
    EmitInvariant(children, nodes, roots, below, top, base, visited, emitted, marks);
  }

  class Traversal<T(==,!new)> {
    const children: T -> seq<T>
    var stack: seq<Entry<T>>
    var visited: set<T>
    ghost const nodes: set<T>
    ghost const roots: seq<T>
    ghost var base: nat
    ghost var emitted: seq<T>
    ghost var marks: seq<nat>
    ghost const whole: seq<T>

    ghost predicate Valid()
      reads this
    {
      Outlook(children, nodes, roots, stack, base, visited, emitted, marks) == Some(whole)
    }

    /** The invariant while the top entry is held outside the stack. */
    ghost predicate Holding(rem: seq<T>, top: T)
      reads this
    {
      && base <= |stack|
      && Outlook(children, nodes, roots, stack + [(rem, top)], base, visited, emitted, marks) == Some(whole)
    }

    constructor (children: T -> seq<T>, roots: seq<T>, ghost nodes: set<T>)
      requires Closed(children, nodes) && Acyclic(children, nodes) && forall r :: r in roots ==> r in nodes
      ensures Valid() && this.children == children && this.roots == roots && this.nodes == nodes
      ensures emitted == [] && whole == DepthFirst(children, nodes, roots, set r | r in roots)
    {
      StartOutlook(children, nodes, roots);
      whole := DepthFirst(children, nodes, roots, set r | r in roots);
      this.children := children;
      this.roots, this.nodes := roots, nodes;
      stack := RootEntries(children, roots);
      visited := set r | r in roots;
      base, emitted, marks := |roots|, [], [];
    }

    /** Takes the top entry off the stack; a pending root thereby becomes the one worked on. */
    method TakeTop() returns (rem: seq<T>, from: T)
      requires stack != []
      modifies this`stack, this`base
      ensures stack + [(rem, from)] == old(stack) && |stack| == |old(stack)| - 1
      ensures base == Lowered(old(base), |old(stack)|)
    {
      var top := stack[|stack| - 1];
      rem, from := top.0, top.1;
      base := Lowered(base, |stack|);
      stack := stack[..|stack| - 1];
    }

    /** Goes down from `first`, pushing every node seen for the first time, to one with no children left. */
    method Descend(first: seq<T>, from: T) returns (top: T)
      requires Holding(first, from)
      modifies this`stack, this`visited
      ensures Holding([], top)
      ensures old(visited) <= visited && (old(visited) == visited ==> stack == old(stack))
    {
      var rem := first;
      top := from;
      while rem != []
        invariant Holding(rem, top)
        invariant old(visited) <= visited && (old(visited) == visited ==> stack == old(stack))
        decreases nodes - visited, |rem|
      {
        var next := rem[0];
        if next in visited {
          SkipOutlook(children, nodes, roots, stack, rem, top, base, visited, emitted, marks, whole);
          rem := rem[1..];
          continue;
        }
        PushOutlook(children, nodes, roots, stack, rem, top, base, visited, emitted, marks, whole);
        stack := stack + [(rem[1..], top)];
        visited := visited + {next};
        top := next;
        rem := children(top);
      }
    }

    /** Accounts for the emission of the node held. */
    ghost method Emit(top: T)
      requires Holding([], top)
      modifies this`emitted, this`marks
      ensures Valid() && emitted == old(emitted) + [top]
    {
      var places := if |stack| == base then marks + [|emitted|] else marks;
      EmitOutlook(children, nodes, roots, stack, top, base, visited, emitted, marks, whole);
      emitted, marks := emitted + [top], places;
    }

    /** One step of the iterator: works down to a node with no children left, and yields it. */
    method Next() returns (r: Option<T>)
      requires Valid()
      modifies this
      ensures Valid()
      ensures r == None ==> old(stack) == [] && stack == [] && emitted == old(emitted) && visited == old(visited)
      ensures r.Some? ==> emitted == old(emitted) + [r.value]
      ensures r.Some? ==> old(visited) < visited || (old(visited) == visited && |stack| < |old(stack)|)
    {
      if stack == [] {
        return None;
      }
      TakeOutlook(children, nodes, roots, stack, base, visited, emitted, marks, whole);
      var rem, from := TakeTop();
      var top := Descend(rem, from);
      Emit(top);
      return Some(top);
    }
  }

  lemma DistinctRoots<T(!new)>(children: T -> seq<T>, roots: seq<T>)
    requires RootsApart(children, roots)
    ensures NoDuplicates(roots)
  {
    forall i, j | 0 <= i < j < |roots| ensures roots[i] != roots[j] {
      ReachesSelf(children, roots[i]);
    }
  }

  /** How roots fail to be apart: a root given twice, or a later root that is a child of an earlier one. */
  lemma NotApart<T(!new)>(children: T -> seq<T>, a: T, b: T)
    requires a == b || b in children(a)
    ensures !RootsApart(children, [a, b])
  {
    ReachesSelf(children, a);
    if b in children(a) {
      ReachesStep(children, a, a, b);
    }
    assert Reaches(children, [a, b][0], [a, b][1]);
  }

  // ----- the whole output

  /** Everything reachable from an emitted node has been emitted no later than it. */
  lemma {:induction false} ReachableComesFirst<T(!new)>(children: T -> seq<T>, out: seq<T>, i: nat, p: seq<T>)
    requires ChildrenFirst(children, out) && i < |out| && IsPath(children, p) && p[0] == out[i]
    ensures p[|p| - 1] in out[..i + 1]
    ensures |p| > 1 ==> p[|p| - 1] in out[..i]
    decreases |p|
  {
    if |p| > 1 {
      var c := p[1];
      assert c in children(out[i]);
      var j :| 0 <= j < i && out[j] == c;
      assert IsPath(children, p[1..]);
      ReachableComesFirst(children, out, j, p[1..]);
      assert out[..j + 1] <= out[..i];
    }
  }

  /** With roots apart, the finished traversal is a post order. */
  lemma FinishedIsPostorder<T(!new)>(children: T -> seq<T>, roots: seq<T>, base: nat, visited: set<T>,
                                     emitted: seq<T>, marks: seq<nat>)
    requires Shape(children, roots, [], base, emitted, marks) && Progress(children, roots, [], base, visited, emitted)
    ensures IsPostorder(children, roots, emitted)
  {
    forall x | ReachedFrom(children, roots, x) ensures x in emitted {
      var r :| r in roots && Reaches(children, r, x);
      var k :| 0 <= k < |roots| && roots[k] == r;
      var p :| IsPath(children, p) && p[0] == r && p[|p| - 1] == x;
      ReachableComesFirst(children, emitted, marks[k], p);
    }
  }

  /** The roots come out in their order, so a post order means none is reachable from an earlier one. */
  lemma PostorderNeedsApart<T(!new)>(children: T -> seq<T>, roots: seq<T>, base: nat, emitted: seq<T>, marks: seq<nat>)
    requires Shape(children, roots, [], base, emitted, marks) && IsPostorder(children, roots, emitted)
    ensures RootsApart(children, roots)
  {
    forall i, j | 0 <= i < j < |roots| ensures !Reaches(children, roots[i], roots[j]) {
      if Reaches(children, roots[i], roots[j]) {
        var p :| IsPath(children, p) && p[0] == roots[i] && p[|p| - 1] == roots[j];
        ReachableComesFirst(children, emitted, marks[i], p);
        assert false;
      }
    }
  }

  /**
   `dag_depth_postorder_multiroot`, collected. It always ends, and its output is a post order of
   the reachable nodes exactly when no root is reachable from an earlier one.
   */
  method Traverse<T(==,!new)>(children: T -> seq<T>, roots: seq<T>, ghost nodes: set<T>) returns (out: seq<T>)
    requires Closed(children, nodes) && Acyclic(children, nodes) && forall r :: r in roots ==> r in nodes
    ensures out == DepthFirst(children, nodes, roots, set r | r in roots)
    ensures IsPostorder(children, roots, out) <==> RootsApart(children, roots)
  {
    var t := new Traversal(children, roots, nodes);
    out := [];
    while true
      invariant t.Valid() && fresh(t) && t.children == children && t.roots == roots && t.nodes == nodes
      invariant out == t.emitted && t.whole == DepthFirst(children, nodes, roots, set r | r in roots)
      decreases nodes - t.visited, |t.stack|
    {
      var x := t.Next();
      if x.None? {
        break;
      }
      out := out + [x.value];
    }
    if RootsApart(children, roots) {
      FinishedIsPostorder(children, roots, t.base, t.visited, out, t.marks);
    }
    if IsPostorder(children, roots, out) {
      PostorderNeedsApart(children, roots, t.base, out, t.marks);
    }
  }

  /** `dag_depth_postorder`: one root is always apart, so the output is always a post order. */
  method TraverseFrom<T(==,!new)>(children: T -> seq<T>, root: T, ghost nodes: set<T>) returns (out: seq<T>)
    requires Closed(children, nodes) && Acyclic(children, nodes) && root in nodes
    ensures out == Visit(children, nodes, [root], {}).0
    ensures IsPostorder(children, [root], out)
  {
    out := Traverse(children, [root], nodes);
    assert (set r | r in [root]) == {root} == {} + {root};
    assert [root][1..] == [];
    var (below, seen) := Visit(children, nodes, children(root), {root});
    assert DepthFirst(children, nodes, [], seen) == [] && Visit(children, nodes, [], seen).0 == [];
  }
}
