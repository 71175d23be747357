/** Rose trees and the last-in-first-out work-stack traversal every plan walk uses. */
module Trees {

  datatype Tree<T> = Tree(node: T, children: seq<Tree<T>>)

  function Size<T>(t: Tree<T>): nat
    decreases t, 0
  {
    1 + SizeAll(t.children)
  }

  function SizeAll<T>(ts: seq<Tree<T>>): nat
    decreases ts
  {
    if ts == [] then 0 else SizeAll(ts[..|ts| - 1]) + Size(ts[|ts| - 1])
  }

  lemma {:induction false} SizeAllAppend<T>(a: seq<Tree<T>>, b: seq<Tree<T>>)
    ensures SizeAll(a + b) == SizeAll(a) + SizeAll(b)
  {
    if b == [] {
      assert a + b == a;
    } else {
      assert (a + b)[..|a + b| - 1] == a + b[..|b| - 1];
      SizeAllAppend(a, b[..|b| - 1]);
    }
  }

  /** Replacing the top of the stack by its children makes the pending work one node smaller. */
  lemma PopPush<T>(stack: seq<Tree<T>>)
    requires stack != []
    ensures SizeAll(stack[..|stack| - 1] + stack[|stack| - 1].children) + 1 == SizeAll(stack)
  {
    SizeAllAppend(stack[..|stack| - 1], stack[|stack| - 1].children);
    assert Size(stack[|stack| - 1]) == 1 + SizeAll(stack[|stack| - 1].children);
  }

  /** The nodes in the order a work stack visits them: pop the back, push its children, repeat. */
  function Visit<T>(stack: seq<Tree<T>>): seq<T>
    decreases SizeAll(stack)
  {
    if stack == [] then []
    else
      var top := stack[|stack| - 1];
      var rest := stack[..|stack| - 1];
      PopPush(stack);
      [top.node] + Visit(rest + top.children)
  }

  /** The nodes of a tree by plain structural recursion, as a multiset. */
  ghost function Nodes<T>(t: Tree<T>): multiset<T>
    decreases t, 0
  {
    multiset{t.node} + NodesAll(t.children)
  }

  ghost function NodesAll<T>(ts: seq<Tree<T>>): multiset<T>
    decreases ts
  {
    if ts == [] then multiset{} else NodesAll(ts[..|ts| - 1]) + Nodes(ts[|ts| - 1])
  }

  lemma {:induction false} NodesAllAppend<T>(a: seq<Tree<T>>, b: seq<Tree<T>>)
    ensures NodesAll(a + b) == NodesAll(a) + NodesAll(b)
  {
    if b == [] {
      assert a + b == a;
    } else {
      assert (a + b)[..|a + b| - 1] == a + b[..|b| - 1];
      NodesAllAppend(a, b[..|b| - 1]);
    }
  }

  /** The work stack visits every node exactly as often as it occurs in the trees, whatever their shape. */
  lemma {:induction false} VisitIsTraversal<T>(stack: seq<Tree<T>>)
    ensures multiset(Visit(stack)) == NodesAll(stack)
    decreases SizeAll(stack)
  {
    if stack != [] {
      var top := stack[|stack| - 1];
      var rest := stack[..|stack| - 1];
      PopPush(stack);
      VisitIsTraversal(rest + top.children);
      NodesAllAppend(rest, top.children);
    }
  }

  lemma VisitRoot<T>(root: Tree<T>)
    ensures Visit([root]) == [root.node] + Visit(root.children)
    ensures multiset(Visit([root])) == Nodes(root)
  {
    assert [root][..0] + root.children == root.children;
    VisitIsTraversal([root]);
    assert NodesAll([root]) == NodesAll<T>([]) + Nodes(root);
  }
}
