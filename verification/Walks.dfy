/** Draining a work stack while each node is checked: the shared shape of the plan walks. */
module Walks {
  import opened Policies
  import opened Trees
  import opened Plans

  function FlatMap<T, U>(f: T -> seq<U>, nodes: seq<T>): seq<U> {
    if nodes == [] then [] else FlatMap(f, nodes[..|nodes| - 1]) + f(nodes[|nodes| - 1])
  }

  lemma {:induction false} FlatMapAppend<T, U>(f: T -> seq<U>, a: seq<T>, b: seq<T>)
    ensures FlatMap(f, a + b) == FlatMap(f, a) + FlatMap(f, b)
  {
    if b == [] {
      assert a + b == a;
    } else {
      assert (a + b)[..|a + b| - 1] == a + b[..|b| - 1];
      FlatMapAppend(f, a, b[..|b| - 1]);
    }
  }

  lemma {:induction false} FlatMapMember<T, U>(f: T -> seq<U>, nodes: seq<T>, x: U)
    ensures x in FlatMap(f, nodes) <==> exists n :: n in nodes && x in f(n)
  {
    if nodes != [] {
      var init, last := nodes[..|nodes| - 1], nodes[|nodes| - 1];
      FlatMapMember(f, init, x);
      assert nodes == init + [last];
    }
  }

  /** What checking one function of a node came to. */
  datatype Finding = Passed(key: FunctionGrant, caller: bool) | Refused(key: FunctionGrant) | Stuck

  predicate AllPassed(findings: seq<Finding>) {
    forall f :: f in findings ==> f.Passed?
  }

  function Keys(findings: seq<Finding>): set<FunctionGrant> {
    set f | f in findings && f.Passed? :: f.key
  }

  function CallerKeys(findings: seq<Finding>): set<FunctionGrant> {
    set f | f in findings && f.Passed? && f.caller :: f.key
  }

  function WithFindings(findings: seq<Finding>, e: Evidence): Evidence {
    e.(functions := e.functions + Keys(findings), callerFunctions := e.callerFunctions + CallerKeys(findings))
  }

  /** The first finding that did not pass is number `i`. */
  predicate FailsAt(findings: seq<Finding>, i: nat) {
    i < |findings| && AllPassed(findings[..i]) && !findings[i].Passed?
  }

  /** Reading the findings in order ends at one that is stuck. */
  ghost predicate EndsStuck(findings: seq<Finding>) {
    exists i: nat :: FailsAt(findings, i) && findings[i].Stuck?
  }

  /** A verdict and evidence that match reading `findings` in order and stopping at the first that did not pass. */
  ghost predicate Ran(findings: seq<Finding>, before: Evidence, verdict: Verdict, after: Evidence) {
    && (verdict.Pass? <==> AllPassed(findings))
    && (verdict.Pass? ==> after == WithFindings(findings, before))
    && (verdict.Deny? ==> exists i: nat :: FailsAt(findings, i) && findings[i].Refused?
                                      && after.violations == before.violations + {FunctionNotAllowed(findings[i].key)})
    && (verdict.Broken? ==> EndsStuck(findings) && after.violations == before.violations)
  }

  lemma PassedBefore(findings: seq<Finding>, i: nat, k: nat)
    requires FailsAt(findings, i) && k < i
    ensures findings[k].Passed?
  {
    assert findings[k] == findings[..i][k];
  }

  /** Only one finding is the first that did not pass. */
  lemma OneFailure(findings: seq<Finding>, i: nat, j: nat)
    requires FailsAt(findings, i) && FailsAt(findings, j)
    ensures i == j
  {
    if i < j {
      PassedBefore(findings, j, i);
    } else if j < i {
      PassedBefore(findings, i, j);
    }
  }

  /** A run breaks exactly when its findings end stuck. */
  lemma BreaksIffStuck(findings: seq<Finding>, before: Evidence, verdict: Verdict, after: Evidence)
    requires Ran(findings, before, verdict, after)
    ensures verdict.Broken? <==> EndsStuck(findings)
  {
    if EndsStuck(findings) {
      var i: nat :| FailsAt(findings, i) && findings[i].Stuck?;
      assert findings[i] in findings;
      if verdict.Deny? {
        var j: nat :| FailsAt(findings, j) && findings[j].Refused?;
        OneFailure(findings, i, j);
      }
    }
  }

  method Run(findings: seq<Finding>, before: Evidence) returns (verdict: Verdict, after: Evidence)
    ensures Ran(findings, before, verdict, after)
  {
    after := before;
    for i := 0 to |findings|
      invariant AllPassed(findings[..i])
      invariant after == WithFindings(findings[..i], before)
    {
      assert findings[..i + 1] == findings[..i] + [findings[i]];
      assert findings[i] in findings;
      match findings[i]
      case Stuck =>
        return Broken, after;
      case Refused(key) =>
        after := after.(violations := after.violations + {FunctionNotAllowed(key)});
        return Deny, after;
      case Passed(key, caller) =>
        after := after.(functions := after.functions + {key},
                        callerFunctions := after.callerFunctions + (if caller then {key} else {}));
    }
    assert findings[..|findings|] == findings;
    verdict := Pass;
  }

  /** A passed prefix followed by a run is a run of the concatenation, and of anything longer once it has stopped. */
  lemma RanAfter(done: seq<Finding>, next: seq<Finding>, rest: seq<Finding>, before: Evidence, middle: Evidence,
                 verdict: Verdict, after: Evidence)
    requires Ran(done, before, Pass, middle) && Ran(next, middle, verdict, after)
    ensures verdict.Pass? ==> Ran(done + next, before, verdict, after)
    ensures !verdict.Pass? ==> Ran(done + next + rest, before, verdict, after)
  {
    if verdict.Pass? {
      assert Keys(done + next) == Keys(done) + Keys(next);
      assert CallerKeys(done + next) == CallerKeys(done) + CallerKeys(next);
    } else {
      var i: nat :| FailsAt(next, i) && (verdict.Broken? <==> next[i].Stuck?)
               && (verdict.Deny? ==> after.violations == middle.violations + {FunctionNotAllowed(next[i].key)});
      FailsLater(done, next, rest, i);
    }
  }

  lemma FailsLater(done: seq<Finding>, next: seq<Finding>, rest: seq<Finding>, i: nat)
    requires AllPassed(done) && FailsAt(next, i)
    ensures FailsAt(done + next + rest, |done| + i) && (done + next + rest)[|done| + i] == next[i]
  {
    assert (done + next + rest)[..|done| + i] == done + next[..i];
  }

  /** Two runs in a row, the second only if the first passed, are one run. */
  lemma RanBoth(first: seq<Finding>, second: seq<Finding>, before: Evidence, met: Verdict, middle: Evidence,
                verdict: Verdict, after: Evidence)
    requires Ran(first, before, met, middle)
    requires if met.Pass? then Ran(second, middle, verdict, after) else verdict == met && after == middle
    ensures Ran(first + second, before, verdict, after)
  {
    if met.Pass? {
      RanAfter(first, second, [], before, middle, verdict, after);
      assert first + second + [] == first + second;
    } else {
      assert [] + first + second == first + second;
      RanAfter([], first, second, before, before, met, middle);
    }
  }

  /** Drains a stack of trees, checking every node with `check` and collecting what `gather` finds on it. */
  method Drain<T, U>(check: T -> seq<Finding>, gather: T -> seq<U>, roots: seq<Tree<T>>, before: Evidence)
    returns (verdict: Verdict, after: Evidence, gathered: seq<U>)
    ensures Ran(FlatMap(check, Visit(roots)), before, verdict, after)
    ensures verdict.Pass? ==> gathered == FlatMap(gather, Visit(roots))
  {
    var stack := roots;
    ghost var done: seq<T> := [];
    after, gathered := before, [];
    while stack != []
      invariant done + Visit(stack) == Visit(roots)
      invariant Ran(FlatMap(check, done), before, Pass, after)
      invariant gathered == FlatMap(gather, done)
      decreases SizeAll(stack)
    {
      PopPush(stack);
      var top := stack[|stack| - 1];
      var rest := stack[..|stack| - 1];
      var middle := after;
      verdict, after := Run(check(top.node), middle);
      ghost var pending := Visit(rest + top.children);
      ghost var grown := done + [top.node];
      assert grown[..|done|] == done;
      RanAfter(FlatMap(check, done), check(top.node), FlatMap(check, pending), before, middle, verdict, after);
      assert grown + pending == Visit(roots);
      if !verdict.Pass? {
        FlatMapAppend(check, grown, pending);
        return;
      }
      gathered := gathered + gather(top.node);
      done := grown;
      stack := rest + top.children;
    }
    assert done == Visit(roots);
    verdict := Pass;
  }
}
