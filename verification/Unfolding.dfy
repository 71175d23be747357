/** Work stacks over trees that are discovered while walking: each visited item names the items to push. */
module Unfolding {
  import opened Names
  import opened Trees

  /** What a step pushes is always smaller than what it was pushed for. */
  ghost predicate Shrinks<W(!new)>(step: W -> Option<seq<W>>, size: W -> nat) {
    forall w, i: nat :: step(w).Some? && i < |step(w).value| ==> size(step(w).value[i]) < size(w)
  }

  function Next<W>(step: W -> Option<seq<W>>, w: W): seq<W> {
    match step(w)
    case Some(next) => next
    case None => []
  }

  /** The tree of everything reachable from `w`. An item the step refuses has no children. */
  function Unfold<W(!new)>(step: W -> Option<seq<W>>, size: W -> nat, w: W): Tree<W>
    requires Shrinks(step, size)
    decreases size(w)
  {
    var next := Next(step, w);
    Tree(w, seq(|next|, i requires 0 <= i < |next| => Unfold(step, size, next[i])))
  }

  function UnfoldAll<W(!new)>(step: W -> Option<seq<W>>, size: W -> nat, ws: seq<W>): seq<Tree<W>>
    requires Shrinks(step, size)
  {
    seq(|ws|, i requires 0 <= i < |ws| => Unfold(step, size, ws[i]))
  }

  /** The order in which a work stack holding `ws` visits everything reachable from it. */
  function Order<W(!new)>(step: W -> Option<seq<W>>, size: W -> nat, ws: seq<W>): seq<W>
    requires Shrinks(step, size)
  {
    Visit(UnfoldAll(step, size, ws))
  }

  /** Popping an item and pushing what it names continues the order. */
  lemma OrderStep<W(!new)>(step: W -> Option<seq<W>>, size: W -> nat, ws: seq<W>)
    requires Shrinks(step, size) && ws != []
    ensures var top := ws[|ws| - 1];
            Order(step, size, ws) == [top] + Order(step, size, ws[..|ws| - 1] + Next(step, top))
  {
    var top, rest := ws[|ws| - 1], ws[..|ws| - 1];
    var all := UnfoldAll(step, size, ws);
    assert all[..|all| - 1] == UnfoldAll(step, size, rest);
    assert all[|all| - 1] == Unfold(step, size, top);
    assert Unfold(step, size, top).children == UnfoldAll(step, size, Next(step, top));
    assert UnfoldAll(step, size, rest + Next(step, top)) == UnfoldAll(step, size, rest)
           + UnfoldAll(step, size, Next(step, top));
    PopPush(all);
  }

  lemma OrderOfOne<W(!new)>(step: W -> Option<seq<W>>, size: W -> nat, w: W)
    requires Shrinks(step, size)
    ensures multiset(Order(step, size, [w])) == Nodes(Unfold(step, size, w))
    ensures |Order(step, size, [w])| == Size(Unfold(step, size, w))
  {
    assert UnfoldAll(step, size, [w]) == [Unfold(step, size, w)];
    VisitRoot(Unfold(step, size, w));
    VisitLength([Unfold(step, size, w)]);
    assert SizeAll([Unfold(step, size, w)]) == SizeAll<W>([]) + Size(Unfold(step, size, w));
  }

  lemma {:induction false} VisitLength<T>(stack: seq<Tree<T>>)
    ensures |Visit(stack)| == SizeAll(stack)
    decreases SizeAll(stack)
  {
    if stack != [] {
      PopPush(stack);
      VisitLength(stack[..|stack| - 1] + stack[|stack| - 1].children);
    }
  }

  // ------------------------------------------------------- properties of a whole tree

  /** `p` holds of an item and, recursively, of everything reachable from it. */
  ghost predicate Everywhere<T>(p: T -> bool, t: Tree<T>) {
    p(t.node) && forall i :: 0 <= i < |t.children| ==> Everywhere(p, t.children[i])
  }

  lemma {:induction false} EverywhereReaches<T(!new)>(p: T -> bool, t: Tree<T>, n: T)
    requires Everywhere(p, t) && n in Nodes(t)
    ensures p(n)
  {
    if n in NodesAll(t.children) {
      var i := ChildHolding(t.children, n);
      EverywhereReaches(p, t.children[i], n);
    }
  }

  lemma {:induction false} EveryNodeIsEverywhere<T(!new)>(p: T -> bool, t: Tree<T>)
    requires forall n :: n in Nodes(t) ==> p(n)
    ensures Everywhere(p, t)
  {
    assert t.node in Nodes(t);
    forall i | 0 <= i < |t.children| ensures Everywhere(p, t.children[i]) {
      forall n | n in Nodes(t.children[i]) ensures p(n) {
        ChildIsIn(t.children, i, n);
        assert n in Nodes(t);
      }
      EveryNodeIsEverywhere(p, t.children[i]);
    }
  }

  lemma EverywhereIsEveryNode<T(!new)>(p: T -> bool, t: Tree<T>)
    ensures Everywhere(p, t) <==> forall n :: n in Nodes(t) ==> p(n)
  {
    if Everywhere(p, t) {
      forall n | n in Nodes(t) ensures p(n) {
        EverywhereReaches(p, t, n);
      }
    } else if forall n :: n in Nodes(t) ==> p(n) {
      EveryNodeIsEverywhere(p, t);
    }
  }

  lemma {:induction false} ChildHolding<T>(ts: seq<Tree<T>>, n: T) returns (i: nat)
    requires n in NodesAll(ts)
    ensures i < |ts| && n in Nodes(ts[i])
  {
    if n in Nodes(ts[|ts| - 1]) {
      i := |ts| - 1;
    } else {
      i := ChildHolding(ts[..|ts| - 1], n);
    }
  }

  lemma {:induction false} ChildIsIn<T>(ts: seq<Tree<T>>, i: nat, n: T)
    requires i < |ts| && n in Nodes(ts[i])
    ensures n in NodesAll(ts)
  {
    if i < |ts| - 1 {
      ChildIsIn(ts[..|ts| - 1], i, n);
    }
  }

  /** How many nodes satisfy `p`, by structural recursion. */
  function Count<T>(p: T -> bool, t: Tree<T>): nat
    decreases t, 0
  {
    (if p(t.node) then 1 else 0) + CountAll(p, t.children)
  }

  function CountAll<T>(p: T -> bool, ts: seq<Tree<T>>): nat
    decreases ts
  {
    if ts == [] then 0 else CountAll(p, ts[..|ts| - 1]) + Count(p, ts[|ts| - 1])
  }

  function CountIn<T>(p: T -> bool, items: seq<T>): nat {
    if items == [] then 0 else CountIn(p, items[1..]) + if p(items[0]) then 1 else 0
  }

  lemma {:induction false} CountInGrows<T>(p: T -> bool, items: seq<T>, x: T)
    ensures CountIn(p, items + [x]) == CountIn(p, items) + if p(x) then 1 else 0
  {
    if items == [] {
      assert [] + [x] == [x];
    } else {
      assert (items + [x])[1..] == items[1..] + [x];
      CountInGrows(p, items[1..], x);
    }
  }

  lemma {:induction false} CountAllAppend<T>(p: T -> bool, a: seq<Tree<T>>, b: seq<Tree<T>>)
    ensures CountAll(p, a + b) == CountAll(p, a) + CountAll(p, b)
  {
    if b == [] {
      assert a + b == a;
    } else {
      assert (a + b)[..|a + b| - 1] == a + b[..|b| - 1];
      CountAllAppend(p, a, b[..|b| - 1]);
    }
  }

  /** Counting along the work stack's order counts the tree. */
  lemma {:induction false} CountInVisit<T>(p: T -> bool, stack: seq<Tree<T>>)
    ensures CountIn(p, Visit(stack)) == CountAll(p, stack)
    decreases SizeAll(stack)
  {
    if stack != [] {
      var top, rest := stack[|stack| - 1], stack[..|stack| - 1];
      PopPush(stack);
      CountInVisit(p, rest + top.children);
      CountAllAppend(p, rest, top.children);
      var later := Visit(rest + top.children);
      assert ([top.node] + later)[1..] == later;
    }
  }
}
