/** The explicit-stack walk over a statement's syntax tree and the verdict drawn from it. */
module AstWalk {
  import opened Names
  import opened Policies
  import opened Origins
  import opened Jsons
  import opened Trees
  import opened Unfolding
  import opened AstGrammar
  import opened LeafScreen

  type Inspector = Work -> Option<Syntax>

  function WorkWeight(w: Work): nat {
    Weight(w.value)
  }

  function Push(inspect: Inspector): Work -> Option<seq<Work>> {
    w => match inspect(w)
      case Some(syntax) => Some(syntax.next)
      case None => None
  }

  ghost predicate Sound(inspect: Inspector) {
    forall w :: inspect(w).Some? ==> Fits(w, inspect(w).value.next)
  }

  lemma SoundShrinks(inspect: Inspector)
    requires Sound(inspect)
    ensures Shrinks(Push(inspect), WorkWeight)
  {
  }

  function NotesOf(inspect: Inspector, w: Work): Notes {
    match inspect(w)
    case Some(syntax) => syntax.notes
    case None => NOTHING
  }

  // ------------------------------------------------------- what a walk has recorded

  function CallsTo(inspect: Inspector, name: string): Work -> bool {
    w => NotesOf(inspect, w).call.Some? && NotesOf(inspect, w).call.value.name == name
  }

  /** `functions` holds every called name with its number of occurrences. */
  ghost predicate Tallied(counts: string -> nat, functions: map<string, nat>) {
    forall name :: (name in functions <==> counts(name) > 0) && (name in functions ==> functions[name] == counts(name))
  }

  predicate CalledAt(inspect: Inspector, w: Work, name: string, position: int) {
    NotesOf(inspect, w).call == Some(Call(name, position))
  }

  /** `position` is the earliest known position of `name` among the nodes seen. */
  ghost predicate Earliest(inspect: Inspector, seen: multiset<Work>, name: string, position: int) {
    && 0 <= position && (exists w :: w in seen && CalledAt(inspect, w, name, position))
    && forall w, k :: w in seen && CalledAt(inspect, w, name, k) && 0 <= k ==> position <= k
  }

  ghost predicate NoPosition(inspect: Inspector, seen: multiset<Work>, name: string) {
    forall w, k :: w in seen && CalledAt(inspect, w, name, k) ==> k < 0
  }

  ghost predicate Located(inspect: Inspector, seen: multiset<Work>, positions: map<string, int>) {
    forall name ::
      if name in positions then Earliest(inspect, seen, name, positions[name]) else NoPosition(inspect, seen, name)
  }

  ghost predicate Rejects(inspect: Inspector, seen: multiset<Work>, v: AstViolation) {
    exists w :: w in seen && v in NotesOf(inspect, w).rejects
  }

  ghost predicate Says(inspect: Inspector, seen: multiset<Work>, f: Fact) {
    exists w :: w in seen && f in NotesOf(inspect, w).facts
  }

  /** The facts recorded are exactly what the nodes seen contribute. */
  ghost predicate Recorded(inspect: Inspector, seen: multiset<Work>, facts: set<Fact>) {
    forall f :: f in facts <==> Says(inspect, seen, f)
  }

  ghost predicate Rejected(inspect: Inspector, seen: multiset<Work>, violations: set<AstViolation>) {
    forall v :: v in violations <==> Rejects(inspect, seen, v)
  }

  lemma RecordStep(inspect: Inspector, seen: multiset<Work>, facts: set<Fact>, w: Work)
    requires Recorded(inspect, seen, facts)
    ensures Recorded(inspect, seen + multiset{w}, facts + NotesOf(inspect, w).facts)
  {
    var all := seen + multiset{w};
    assert forall x :: x in all <==> x in seen || x == w;
  }

  lemma RejectStep(inspect: Inspector, seen: multiset<Work>, violations: set<AstViolation>, w: Work)
    requires Rejected(inspect, seen, violations)
    ensures Rejected(inspect, seen + multiset{w}, violations + NotesOf(inspect, w).rejects)
  {
    var all := seen + multiset{w};
    assert forall x :: x in all <==> x in seen || x == w;
  }

  function Counted(functions: map<string, nat>, name: string): map<string, nat> {
    functions[name := (if name in functions then functions[name] else 0) + 1]
  }

  function Relocated(positions: map<string, int>, call: Call): map<string, int> {
    if 0 <= call.position && (call.name !in positions || call.position < positions[call.name])
    then positions[call.name := call.position] else positions
  }

  lemma LocateStep(inspect: Inspector, seen: multiset<Work>, positions: map<string, int>, w: Work)
    requires Located(inspect, seen, positions)
    ensures var call := NotesOf(inspect, w).call;
            Located(inspect, seen + multiset{w}, if call.None? then positions else Relocated(positions, call.value))
  {
    var call := NotesOf(inspect, w).call;
    var after := if call.None? then positions else Relocated(positions, call.value);
    forall name ensures
      if name in after then Earliest(inspect, seen + multiset{w}, name, after[name])
      else NoPosition(inspect, seen + multiset{w}, name)
    {
      LocateOne(inspect, seen, positions, w, name);
    }
  }

  lemma LocateOne(inspect: Inspector, seen: multiset<Work>, positions: map<string, int>, w: Work, name: string)
    requires Located(inspect, seen, positions)
    ensures var call := NotesOf(inspect, w).call;
            var after := if call.None? then positions else Relocated(positions, call.value);
            if name in after then Earliest(inspect, seen + multiset{w}, name, after[name])
            else NoPosition(inspect, seen + multiset{w}, name)
  {
    var all := seen + multiset{w};
    assert forall x :: x in all <==> x in seen || x == w;
    var call := NotesOf(inspect, w).call;
    var after := if call.None? then positions else Relocated(positions, call.value);
    if name in after {
      if name in positions && positions[name] == after[name] {
        var x :| x in seen && CalledAt(inspect, x, name, after[name]);
        assert x in all;
      } else {
        assert w in all && CalledAt(inspect, w, name, after[name]);
      }
    }
  }

  // ------------------------------------------------------- the walker

  /** Why a walk stopped: a limit, or a node outside the grammar. */
  datatype Stopped = OverLimit | Unsupported

  predicate WithinLimits(limits: Limits, visited: nat, w: Work) {
    visited <= limits.nodes && w.depth <= limits.depth
  }

  function Fate(inspect: Inspector, limits: Limits, visited: nat, w: Work): Option<Stopped> {
    if !WithinLimits(limits, visited, w) then Some(OverLimit)
    else if inspect(w).None? then Some(Unsupported) else None
  }

  /** The first `n` nodes of a visiting order pass. */
  ghost predicate Passes(inspect: Inspector, limits: Limits, order: seq<Work>, n: nat) {
    n <= |order| && forall k :: 0 <= k < n ==> Fate(inspect, limits, k + 1, order[k]).None?
  }

  /** The k-th visited node is the first that does not pass, and `why` is what it fails on. */
  ghost predicate StopsAt(inspect: Inspector, limits: Limits, order: seq<Work>, k: nat, why: Stopped) {
    k < |order| && Passes(inspect, limits, order, k) && Fate(inspect, limits, k + 1, order[k]) == Some(why)
  }

  lemma WalkStep(inspect: Inspector, limits: Limits, order: seq<Work>, done: seq<Work>, pending: seq<Work>)
    requires Sound(inspect) && Shrinks(Push(inspect), WorkWeight) && pending != []
    requires order == done + Order(Push(inspect), WorkWeight, pending) && Passes(inspect, limits, order, |done|)
    ensures |done| < |order| && order[|done|] == pending[|pending| - 1]
    ensures var top, fate := order[|done|], Fate(inspect, limits, |done| + 1, order[|done|]);
            if fate.Some? then StopsAt(inspect, limits, order, |done|, fate.value)
            else order == done + [top] + Order(Push(inspect), WorkWeight,
                                               pending[..|pending| - 1] + inspect(top).value.next)
                 && Passes(inspect, limits, order, |done| + 1)
  {
    OrderStep(Push(inspect), WorkWeight, pending);
    var top := pending[|pending| - 1];
    var later := Order(Push(inspect), WorkWeight, pending[..|pending| - 1] + Next(Push(inspect), top));
    assert order == done + [top] + later;
  }

  ghost function CountsIn(inspect: Inspector, done: seq<Work>): string -> nat {
    name => CountIn(CallsTo(inspect, name), done)
  }

  /** The tables a walk keeps. */
  datatype Findings = Findings(
    functions: map<string, nat>, positions: map<string, int>, violations: set<AstViolation>, facts: set<Fact>)

  const NO_FINDINGS := Findings(map[], map[], {}, {})

  function Noted(f: Findings, notes: Notes): Findings {
    Findings(
      if notes.call.None? then f.functions else Counted(f.functions, notes.call.value.name),
      if notes.call.None? then f.positions else Relocated(f.positions, notes.call.value),
      f.violations + notes.rejects, f.facts + notes.facts)
  }

  /** The tables hold exactly what the visited nodes contribute. */
  ghost predicate Holds(inspect: Inspector, done: seq<Work>, f: Findings) {
    && Tallied(CountsIn(inspect, done), f.functions)
    && Located(inspect, multiset(done), f.positions)
    && Rejected(inspect, multiset(done), f.violations)
    && Recorded(inspect, multiset(done), f.facts)
  }

  lemma NoteStep(inspect: Inspector, done: seq<Work>, f: Findings, w: Work)
    requires Holds(inspect, done, f)
    ensures Holds(inspect, done + [w], Noted(f, NotesOf(inspect, w)))
  {
    assert multiset(done + [w]) == multiset(done) + multiset{w};
    TallyStep(inspect, done, f.functions, w);
    LocateStep(inspect, multiset(done), f.positions, w);
    RejectStep(inspect, multiset(done), f.violations, w);
    RecordStep(inspect, multiset(done), f.facts, w);
  }

  class Walker {
    const inspect: Inspector
    const limits: Limits
    var pending: seq<Work>
    var nodes: nat
    var functions: map<string, nat>
    var positions: map<string, int>
    var violations: set<AstViolation>
    var facts: set<Fact>

    constructor (inspect: Inspector, limits: Limits)
      ensures this.inspect == inspect && this.limits == limits
      ensures pending == [] && nodes == 0 && Found() == NO_FINDINGS
    {
      this.inspect, this.limits := inspect, limits;
      pending, nodes, functions, positions, violations, facts := [], 0, map[], map[], {}, {};
    }

    function Found(): Findings
      reads this
    {
      Findings(functions, positions, violations, facts)
    }

    /** One occurrence of a function name. */
    method Function(call: Call)
      modifies this`functions, this`positions
      ensures functions == Counted(old(functions), call.name)
      ensures positions == Relocated(old(positions), call)
    {
      functions := functions[call.name := (if call.name in functions then functions[call.name] else 0) + 1];
      if 0 <= call.position && (call.name !in positions || call.position < positions[call.name]) {
        positions := positions[call.name := call.position];
      }
    }

    method CheckNode(w: Work) returns (stop: Option<Stopped>)
      modifies this
      ensures nodes == old(nodes) + 1 && stop == Fate(inspect, limits, nodes, w)
      ensures stop.None? ==> pending == old(pending) + inspect(w).value.next
      ensures stop.None? ==> Found() == Noted(old(Found()), NotesOf(inspect, w))
    {
      nodes := nodes + 1;
      if nodes > limits.nodes || w.depth > limits.depth {
        return Some(OverLimit);
      }
      var syntax := inspect(w);
      if syntax.None? {
        return Some(Unsupported);
      }
      pending := pending + syntax.value.next;
      var notes := syntax.value.notes;
      if notes.call.Some? {
        Function(notes.call.value);
      }
      violations := violations + notes.rejects;
      facts := facts + notes.facts;
      stop := None;
    }

    method Check(root: Work) returns (stop: Option<Stopped>)
      requires Sound(inspect) && pending == [] && nodes == 0 && Found() == NO_FINDINGS
      modifies this
      ensures Shrinks(Push(inspect), WorkWeight)
      ensures var order := Order(Push(inspect), WorkWeight, [root]);
              match stop
              case None => Passes(inspect, limits, order, |order|) && Holds(inspect, order, Found())
              case Some(why) => exists k :: StopsAt(inspect, limits, order, k, why)
    {
      SoundShrinks(inspect);
      ghost var order := Order(Push(inspect), WorkWeight, [root]);
      ghost var done: seq<Work> := [];
      WalkStarts(inspect, limits, root);
      pending := [root];
      while pending != []
        invariant Walked(inspect, limits, order, done, pending, nodes, Found())
        decreases |order| - |done|
      {
        WalkedStep(inspect, limits, order, done, pending, nodes, Found());
        var work := pending[|pending| - 1];
        pending := pending[..|pending| - 1];
        stop := CheckNode(work);
        if stop.Some? {
          return;
        }
        done := done + [work];
      }
      WalkEnds(inspect, limits, order, done, nodes, Found());
      stop := None;
    }
  }

  /** How far a walk has come: `done` is visited and recorded, `pending` is what is left of the order. */
  ghost predicate Walked(inspect: Inspector, limits: Limits, order: seq<Work>, done: seq<Work>, pending: seq<Work>,
                         nodes: nat, f: Findings)
    requires Shrinks(Push(inspect), WorkWeight)
  {
    && order == done + Order(Push(inspect), WorkWeight, pending) && nodes == |done|
    && Holds(inspect, done, f) && Passes(inspect, limits, order, |done|)
  }

  lemma WalkStarts(inspect: Inspector, limits: Limits, root: Work)
    requires Shrinks(Push(inspect), WorkWeight)
    ensures Walked(inspect, limits, Order(Push(inspect), WorkWeight, [root]), [], [root], 0, NO_FINDINGS)
  {
    var order := Order(Push(inspect), WorkWeight, [root]);
    assert [] + order == order;
  }

  lemma WalkEnds(inspect: Inspector, limits: Limits, order: seq<Work>, done: seq<Work>, nodes: nat, f: Findings)
    requires Shrinks(Push(inspect), WorkWeight) && Walked(inspect, limits, order, done, [], nodes, f)
    ensures Passes(inspect, limits, order, |order|) && Holds(inspect, order, f)
  {
    assert UnfoldAll(Push(inspect), WorkWeight, []) == [];
    assert done == order;
  }

  lemma WalkedStep(inspect: Inspector, limits: Limits, order: seq<Work>, done: seq<Work>, pending: seq<Work>,
                   nodes: nat,
                   f: Findings)
    requires Sound(inspect) && Shrinks(Push(inspect), WorkWeight) && pending != []
    requires Walked(inspect, limits, order, done, pending, nodes, f)
    ensures var top := pending[|pending| - 1];
            var fate := Fate(inspect, limits, nodes + 1, top);
            && |done| < |order|
            && (if fate.Some? then StopsAt(inspect, limits, order, |done|, fate.value)
                else Walked(inspect, limits, order, done + [top], pending[..|pending| - 1] + inspect(top).value.next,
                            nodes + 1, Noted(f, NotesOf(inspect, top))))
  {
    WalkStep(inspect, limits, order, done, pending);
    NoteStep(inspect, done, f, pending[|pending| - 1]);
  }

  lemma TallyStep(inspect: Inspector, done: seq<Work>, functions: map<string, nat>, w: Work)
    requires Tallied(CountsIn(inspect, done), functions)
    ensures var call := NotesOf(inspect, w).call;
            Tallied(CountsIn(inspect, done + [w]),
                    if call.None? then functions else Counted(functions, call.value.name))
  {
    forall name ensures CountsIn(inspect, done + [w])(name)
                     == CountsIn(inspect, done)(name) + if CallsTo(inspect, name)(w) then 1 else 0 {
      CountInGrows(CallsTo(inspect, name), done, w);
    }
  }

  // ------------------------------------------------------- the walk as a recursive check

  function SyntaxTree(inspect: Inspector, root: Work): Tree<Work>
    requires Shrinks(Push(inspect), WorkWeight)
  {
    Unfold(Push(inspect), WorkWeight, root)
  }

  function Conforming(inspect: Inspector): Work -> bool {
    w => inspect(w).Some?
  }

  function NotDeeper(depth: nat): Work -> bool {
    (w: Work) => w.depth <= depth
  }

  /** The recursive specification: every reachable node conforms, and the totals are within the limits. */
  ghost predicate Acceptable(inspect: Inspector, limits: Limits, tree: Tree<Work>) {
    Everywhere(Conforming(inspect),
               tree) && Size(tree) <= limits.nodes && tree.node.depth + Height(tree) <= limits.depth
  }

  lemma PassesIsAcceptable(inspect: Inspector, limits: Limits, root: Work)
    requires Sound(inspect) && Shrinks(Push(inspect), WorkWeight)
    ensures var order := Order(Push(inspect), WorkWeight, [root]);
            Passes(inspect, limits, order, |order|) <==> Acceptable(inspect, limits, SyntaxTree(inspect, root))
  {
    var order, tree := Order(Push(inspect), WorkWeight, [root]), SyntaxTree(inspect, root);
    OrderOfOne(Push(inspect), WorkWeight, root);
    EverywhereIsEveryNode(Conforming(inspect), tree);
    EverywhereIsEveryNode(NotDeeper(limits.depth), tree);
    DepthIsHeight(inspect, limits.depth, root);
    PassesMeans(inspect, limits, order, tree);
  }

  lemma PassesMeans(inspect: Inspector, limits: Limits, order: seq<Work>, tree: Tree<Work>)
    requires multiset(order) == Nodes(tree) && |order| == Size(tree)
    ensures Passes(inspect, limits, order, |order|) <==>
            && (forall w :: w in Nodes(tree) ==> Conforming(inspect)(w) && NotDeeper(limits.depth)(w))
            && Size(tree) <= limits.nodes
  {
    if Passes(inspect, limits, order, |order|) {
      assert Size(tree) == 0 || Fate(inspect, limits, |order|, order[|order| - 1]).None?;
      forall w | w in Nodes(tree) ensures Conforming(inspect)(w) && NotDeeper(limits.depth)(w) {
        assert w in multiset(order);
        var k :| 0 <= k < |order| && order[k] == w;
        assert Fate(inspect, limits, k + 1, order[k]).None?;
      }
    } else if Size(tree) <= limits.nodes {
      var k :| 0 <= k < |order| && Fate(inspect, limits, k + 1, order[k]).Some?;
      assert order[k] in multiset(order);
    }
  }

  function Height<T>(t: Tree<T>): nat
    decreases t, 0
  {
    Tallest(t.children)
  }

  /** One more than the height of the tallest tree; nothing for no trees. */
  function Tallest<T>(ts: seq<Tree<T>>): nat
    decreases ts
  {
    if ts == [] then 0
    else
      var rest, last := Tallest(ts[..|ts| - 1]), Height(ts[|ts| - 1]) + 1;
      if rest < last then last else rest
  }

  lemma {:induction false} TallestBounds<T>(ts: seq<Tree<T>>, n: int)
    requires 0 <= n
    ensures Tallest(ts) <= n <==> forall i :: 0 <= i < |ts| ==> Height(ts[i]) + 1 <= n
  {
    if ts != [] {
      TallestBounds(ts[..|ts| - 1], n);
      assert forall i :: 0 <= i < |ts| - 1 ==> ts[..|ts| - 1][i] == ts[i];
    }
  }

  /** The recorded depths are levels of the tree, so the deepest node is as deep as the tree is high. */
  lemma {:induction false} DepthIsHeight(inspect: Inspector, depth: nat, w: Work)
    requires Sound(inspect) && Shrinks(Push(inspect), WorkWeight)
    ensures Everywhere(NotDeeper(depth), SyntaxTree(inspect, w)) <==> w.depth + Height(SyntaxTree(inspect, w)) <= depth
    decreases WorkWeight(w)
  {
    var tree, next := SyntaxTree(inspect, w), Next(Push(inspect), w);
    forall i | 0 <= i < |next|
      ensures tree.children[i] == SyntaxTree(inspect, next[i]) && next[i].depth == w.depth + 1
      ensures Everywhere(NotDeeper(depth), tree.children[i]) <==> w.depth + 1 + Height(tree.children[i]) <= depth
    {
      DepthIsHeight(inspect, depth, next[i]);
    }
    if w.depth <= depth {
      TallestBounds(tree.children, depth - w.depth);
    }
  }

  ghost function CountsOf(inspect: Inspector, tree: Tree<Work>): string -> nat {
    name => Count(CallsTo(inspect, name), tree)
  }

  lemma CountsAgree(inspect: Inspector, root: Work, functions: map<string, nat>)
    requires Shrinks(Push(inspect), WorkWeight)
    requires Tallied(CountsIn(inspect, Order(Push(inspect), WorkWeight, [root])), functions)
    ensures Tallied(CountsOf(inspect, SyntaxTree(inspect, root)), functions)
  {
    var order, tree := Order(Push(inspect), WorkWeight, [root]), SyntaxTree(inspect, root);
    assert UnfoldAll(Push(inspect), WorkWeight, [root]) == [tree];
    forall name ensures CountsIn(inspect, order)(name) == CountsOf(inspect, tree)(name) {
      CountInVisit(CallsTo(inspect, name), [tree]);
      assert CountAll(CallsTo(inspect, name), [tree]) == CountAll(CallsTo(inspect, name), [])
             + Count(CallsTo(inspect, name), tree);
    }
  }

  // ------------------------------------------------------- the verdict

  datatype Verdict = Halted(why: Stopped) | Judged(violations: set<AstViolation>, record: BindingPolicy)

  predicate Eligible(inv: Inventory, layers: Layers, name: string) {
    FunctionEligible(inv, layers.ceiling, name) && FunctionEligible(inv, layers.policy, name)
  }

  /** A called name neither layer may refuse by leaf, with its exact count and earliest known position. */
  ghost predicate Screened(inv: Inventory, layers: Layers, inspect: Inspector, tree: Tree<Work>, v: AstViolation) {
    && v.FunctionNotEligible? && !Eligible(inv, layers, v.name)
    && v.occurrences == CountsOf(inspect, tree)(v.name) > 0
    && (|| Earliest(inspect, Nodes(tree), v.name, v.position)
        || (v.position == -1 && NoPosition(inspect, Nodes(tree), v.name)))
  }

  /** The same from the walk's own tables. */
  ghost predicate ScreenedBy(inv: Inventory, layers: Layers, functions: map<string, nat>, positions: map<string, int>,
                             v: AstViolation)
  {
    && v.FunctionNotEligible? && v.name in functions && !Eligible(inv, layers, v.name)
    && v.occurrences == functions[v.name] && v.position == if v.name in positions then positions[v.name] else -1
  }

  method Screen(inv: Inventory, layers: Layers, functions: map<string, nat>, positions: map<string, int>)
    returns (violations: set<AstViolation>)
    ensures forall v :: v in violations <==> ScreenedBy(inv, layers, functions, positions, v)
  {
    violations := {};
    var rest := functions.Keys;
    while rest != {}
      invariant rest <= functions.Keys
      invariant forall v :: v in violations <==> ScreenedBy(inv, layers, functions, positions, v) && v.name !in rest
      decreases rest
    {
      var name :| name in rest;
      if !Eligible(inv, layers, name) {
        var position := if name in positions then positions[name] else -1;
        violations := violations + {FunctionNotEligible(name, functions[name], position)};
      }
      rest := rest - {name};
    }
  }

  lemma ScreensAgree(inv: Inventory, layers: Layers, inspect: Inspector, tree: Tree<Work>, functions: map<string, nat>,
                     positions: map<string, int>, v: AstViolation)
    requires Tallied(CountsOf(inspect, tree), functions) && Located(inspect, Nodes(tree), positions)
    ensures ScreenedBy(inv, layers, functions, positions, v) <==> Screened(inv, layers, inspect, tree, v)
  {
    if v.FunctionNotEligible? {
      assert v.name in functions <==> CountsOf(inspect, tree)(v.name) > 0;
      PositionIsUnique(inspect, Nodes(tree), positions, v.name, v.position);
    }
  }

  lemma PositionIsUnique(inspect: Inspector, seen: multiset<Work>, positions: map<string, int>, name: string,
                         position: int)
    requires Located(inspect, seen, positions)
    ensures position == (if name in positions then positions[name] else -1)
       <==> Earliest(inspect, seen, name, position) || (position == -1 && NoPosition(inspect, seen, name))
  {
    if name in positions {
      var w :| w in seen && CalledAt(inspect, w, name, positions[name]);
      if Earliest(inspect, seen, name, position) {
        var x :| x in seen && CalledAt(inspect, x, name, position);
      }
    } else {
      assert !Earliest(inspect, seen, name, position);
    }
  }

  // ------------------------------------------------------- validating one statement

  function StatementInspector(s: Setup): (inspect: Inspector)
    ensures forall w :: inspect(w) == Inspect(s, w)
    ensures Sound(inspect) && Shrinks(Push(inspect), WorkWeight)
  {
    var inspect: Inspector := w => Inspect(s, w);
    SoundShrinks(inspect);
    inspect
  }

  function Root(json: Json): Work {
    Work(json, "root", 0, "")
  }

  function StatementTree(s: Setup, json: Json): Tree<Work> {
    SyntaxTree(StatementInspector(s), Root(json))
  }

  /** The folded names a text calls. */
  ghost predicate Called(inspect: Inspector, tree: Tree<Work>, folded: string) {
    exists name :: CountsOf(inspect, tree)(name) > 0 && Lower(name) == folded
  }

  /** The record for the private bind: the called names and the facts, each exactly as the nodes contribute them. */
  ghost predicate Describes(s: Setup, inspect: Inspector, tree: Tree<Work>, record: BindingPolicy) {
    exists callers, facts ::
      record == RecordOf(callers, facts) && DescribedBy(s, inspect, tree, callers, facts)
  }

  ghost predicate DescribedBy(s: Setup, inspect: Inspector, tree: Tree<Work>, callers: set<string>, facts: set<Fact>) {
    && Recorded(inspect, Nodes(tree), facts)
    && forall name :: name in callers <==> s.binding && Called(inspect, tree, name)
  }

  /** A tree has one record. */
  lemma DescribedOnce(s: Setup, inspect: Inspector, tree: Tree<Work>, a: BindingPolicy, b: BindingPolicy)
    requires Describes(s, inspect, tree, a) && Describes(s, inspect, tree, b)
    ensures a == b
  {
    var callers, facts :| a == RecordOf(callers, facts) && DescribedBy(s, inspect, tree, callers, facts);
    var callers', facts' :| b == RecordOf(callers', facts') && DescribedBy(s, inspect, tree, callers', facts');
    assert callers == callers' && facts == facts';
  }

  ghost predicate Reported(violations: set<AstViolation>, name: string) {
    exists v :: v in violations && v.FunctionNotEligible? && v.name == name
  }

  /** What a finished walk of `tree` must have concluded. */
  ghost predicate Concluded(inv: Inventory, s: Setup, inspect: Inspector, tree: Tree<Work>,
                            violations: set<AstViolation>,
                            record: BindingPolicy)
  {
    && (forall v :: v in violations <==> Rejects(inspect, Nodes(tree), v) || Screened(inv, s.layers, inspect, tree, v))
    && (forall name ::
          CountsOf(inspect, tree)(name) > 0 && !Eligible(inv, s.layers, name) ==> Reported(violations, name))
    && Describes(s, inspect, tree, record)
  }

  method Validate(inv: Inventory, s: Setup, json: Json) returns (r: Verdict)
    ensures r.Judged? <==> Acceptable(StatementInspector(s), s.limits, StatementTree(s, json))
    ensures r.Judged? ==> Concluded(inv, s, StatementInspector(s), StatementTree(s, json), r.violations, r.record)
    ensures r.Halted? ==> exists k ::
      StopsAt(StatementInspector(s), s.limits, Order(Push(StatementInspector(s)), WorkWeight, [Root(json)]), k, r.why)
  {
    r := Judge(inv, s, StatementInspector(s), Root(json));
  }

  method Judge(inv: Inventory, s: Setup, inspect: Inspector, root: Work) returns (r: Verdict)
    requires Sound(inspect) && Shrinks(Push(inspect), WorkWeight)
    ensures r.Judged? <==> Acceptable(inspect, s.limits, SyntaxTree(inspect, root))
    ensures r.Judged? ==> Concluded(inv, s, inspect, SyntaxTree(inspect, root), r.violations, r.record)
    ensures r.Halted? ==> exists k :: StopsAt(inspect, s.limits, Order(Push(inspect), WorkWeight, [root]), k, r.why)
  {
    var walker := new Walker(inspect, s.limits);
    var stop := walker.Check(root);
    PassesIsAcceptable(inspect, s.limits, root);
    if stop.Some? {
      return Halted(stop.value);
    }
    r := Conclude(inv, s, inspect, root, walker.Found());
  }

  /** Screens the called names once the walk is done. */
  method Conclude(inv: Inventory, s: Setup, inspect: Inspector, root: Work, f: Findings) returns (r: Verdict)
    requires Sound(inspect) && Shrinks(Push(inspect), WorkWeight)
    requires Holds(inspect, Order(Push(inspect), WorkWeight, [root]), f)
    ensures r.Judged? && Concluded(inv, s, inspect, SyntaxTree(inspect, root), r.violations, r.record)
  {
    var screened := Screen(inv, s.layers, f.functions, f.positions);
    var callers := if s.binding then FoldNames(f.functions.Keys) else {};
    OrderOfOne(Push(inspect), WorkWeight, root);
    CountsAgree(inspect, root, f.functions);
    Conclusion(inv, s, inspect, SyntaxTree(inspect, root), f, screened);
    r := Judged(f.violations + screened, RecordOf(callers, f.facts));
  }

  lemma Conclusion(inv: Inventory, s: Setup, inspect: Inspector, tree: Tree<Work>, f: Findings,
                   screened: set<AstViolation>)
    requires Tallied(CountsOf(inspect, tree), f.functions) && Located(inspect, Nodes(tree), f.positions)
    requires Rejected(inspect, Nodes(tree), f.violations) && Recorded(inspect, Nodes(tree), f.facts)
    requires forall v :: v in screened <==> ScreenedBy(inv, s.layers, f.functions, f.positions, v)
    ensures Concluded(inv, s, inspect, tree, f.violations + screened,
                      RecordOf(if s.binding then FoldNames(f.functions.Keys) else {}, f.facts))
  {
    forall v ensures v in screened <==> Screened(inv, s.layers, inspect, tree, v) {
      ScreensAgree(inv, s.layers, inspect, tree, f.functions, f.positions, v);
    }
    forall name | CountsOf(inspect, tree)(name) > 0 && !Eligible(inv, s.layers, name)
      ensures Reported(f.violations + screened, name)
    {
      var position := if name in f.positions then f.positions[name] else -1;
      assert FunctionNotEligible(name, f.functions[name], position) in screened;
    }
    forall name ensures name in FoldNames(f.functions.Keys) <==> Called(inspect, tree, name) {
      if name in FoldNames(f.functions.Keys) {
        var n :| n in f.functions.Keys && Lower(n) == name;
        assert CountsOf(inspect, tree)(n) > 0;
      }
    }
  }

  lemma {:induction false} CountedOnce<T>(p: T -> bool, t: Tree<T>, n: T)
    requires n in Nodes(t) && p(n)
    ensures Count(p, t) > 0
  {
    if !p(t.node) {
      var i := ChildHolding(t.children, n);
      CountedOnce(p, t.children[i], n);
      CountedChild(p, t.children, i);
    }
  }

  lemma {:induction false} CountedChild<T>(p: T -> bool, ts: seq<Tree<T>>, i: nat)
    requires i < |ts|
    ensures Count(p, ts[i]) <= CountAll(p, ts)
  {
    if i < |ts| - 1 {
      CountedChild(p, ts[..|ts| - 1], i);
    }
  }

  /** Text that passes calls only names under which each layer allows some resolved function. */
  lemma AcceptedNamesCanResolve(inv: Inventory, s: Setup, inspect: Inspector, tree: Tree<Work>, record: BindingPolicy,
                                w: Work)
    requires inv.Valid() && WellFormedPolicy(s.layers.ceiling) && WellFormedPolicy(s.layers.policy)
    requires Concluded(inv, s, inspect, tree, {}, record) && w in Nodes(tree) && NotesOf(inspect, w).call.Some?
    ensures var name := NotesOf(inspect, w).call.value.name;
            && (exists id: Identity :: Lower(id.name) == Lower(name) && FunctionAllowed(inv, s.layers.ceiling, id))
            && (exists id: Identity :: Lower(id.name) == Lower(name) && FunctionAllowed(inv, s.layers.policy, id))
  {
    var name := NotesOf(inspect, w).call.value.name;
    CountedOnce(CallsTo(inspect, name), tree, w);
    assert CountsOf(inspect, tree)(name) > 0 && !Reported({}, name);
    LeafScreenIsExact(inv, s.layers.ceiling, name);
    LeafScreenIsExact(inv, s.layers.policy, name);
  }

  /** In text that passes, every call written anywhere is static and can resolve to a function each layer allows. */
  lemma EveryWrittenCallIsScreened(inv: Inventory, s: Setup, json: Json, record: BindingPolicy, w: Work)
    requires inv.Valid() && WellFormedPolicy(s.layers.ceiling) && WellFormedPolicy(s.layers.policy)
    requires Acceptable(StatementInspector(s), s.limits, StatementTree(s, json))
    requires Concluded(inv, s, StatementInspector(s), StatementTree(s, json), {}, record)
    requires w in Nodes(StatementTree(s, json)) && RuledNode(w) && CallKind(Kind(s, w))
    ensures var name := Lower(Field(w.value, "function_name"));
            && !DynamicCall(name, w.edge)
            && (exists id: Identity :: Lower(id.name) == Lower(name) && FunctionAllowed(inv, s.layers.ceiling, id))
            && (exists id: Identity :: Lower(id.name) == Lower(name) && FunctionAllowed(inv, s.layers.policy, id))
  {
    var inspect, tree := StatementInspector(s), StatementTree(s, json);
    EverywhereReaches(Conforming(inspect), tree, w);
    assert inspect(w) == Inspect(s, w);
    EveryCallIsNoted(s, w);
    CallIsScreened(inv, s, inspect, tree, record, w, Lower(Field(w.value, "function_name")), Position(w.value));
  }

  lemma CallIsScreened(inv: Inventory, s: Setup, inspect: Inspector, tree: Tree<Work>, record: BindingPolicy, w: Work,
                       name: string, position: int)
    requires inv.Valid() && WellFormedPolicy(s.layers.ceiling) && WellFormedPolicy(s.layers.policy)
    requires Concluded(inv, s, inspect, tree, {}, record) && w in Nodes(tree)
    requires NotesOf(inspect, w).call == Some(Call(name, position))
    ensures DynamicSql(name, position) !in NotesOf(inspect, w).rejects
    ensures exists id: Identity :: Lower(id.name) == Lower(name) && FunctionAllowed(inv, s.layers.ceiling, id)
    ensures exists id: Identity :: Lower(id.name) == Lower(name) && FunctionAllowed(inv, s.layers.policy, id)
  {
    AcceptedNamesCanResolve(inv, s, inspect, tree, record, w);
    assert !Rejects(inspect, Nodes(tree), DynamicSql(name, position));
  }
}
