/**
 * The execution boundary: read operators only, scans held to the private bind's record, tables and functions allowed.
 */
module PlanCheck {
  import opened Names
  import opened Policies
  import opened TablePolicy
  import opened Trees
  import opened Origins
  import opened Plans
  import opened Walks
  import opened PlanAuthorization

  datatype PlanOrigin = Private | Engine | Prescreen

  datatype ReturnType = QueryResult | ChangedRows | Nothing

  datatype Modified = Modified(database: string, onlyCreates: bool)

  datatype Properties = Properties(modified: seq<Modified>, returns_: ReturnType)

  // ------------------------------------------------------- the PIVOT enum shape

  predicate PivotEnumName(name: string) {
    && |name| == 49 && "__pivot_enum_" <= name
    && forall i :: 13 <= i < 49 ==>
         if i == 21 || i == 26 || i == 31 || i == 36 then name[i] == '-'
         else '0' <= name[i] <= '9' || 'a' <= name[i] <= 'f'
  }

  predicate PivotEnumInfo(info: CreateInfo) {
    info.temporary && !info.internal && info.replaceOnConflict && info.undefinedType && PivotEnumName(info.name)
  }

  predicate PivotEnumPlan(plan: Plan) {
    && plan.node.kind.CreateType? && |plan.children| == 1
    && var info := plan.node.kind.info; PivotEnumInfo(info) && info.catalog == "temp" && !info.hasQuery
  }

  predicate ModifiesDatabase(props: Properties, pivotEnum: bool) {
    exists m :: m in props.modified && !(pivotEnum && m.database == "temp" && m.onlyCreates)
  }

  predicate ReadOnly(props: Properties, pivotEnum: bool) {
    !ModifiesDatabase(props, pivotEnum) && props.returns_ == (if pivotEnum then Nothing else QueryResult)
  }

  // ------------------------------------------------------- scans

  function EntryKey(t: TableEntry): Table {
    ObjectKey(t.catalog, t.schemaPath, t.name)
  }

  function TableOf(node: OpNode): seq<TableEntry> {
    if node.kind.Get? && node.kind.scan.table.Some? then [node.kind.scan.table.value] else []
  }

  /** A base table is accounted by resolved identity, any other source by its function's name. */
  function TableScan(node: OpNode): seq<Table> {
    if TableOf(node) != [] then [EntryKey(TableOf(node)[0])] else []
  }

  function SourceScan(node: OpNode): seq<string> {
    if node.kind.Get? && node.kind.scan.table.None? then [node.kind.scan.function_.name] else []
  }

  predicate OpaqueScan(node: OpNode) {
    node.kind.Get? && node.kind.scan.table.None? && OpaqueQuack(node.kind.scan.function_.name)
  }

  /** What `f` finds on the nodes of a tree, by structural recursion. */
  ghost function Collect<T, U>(f: T -> seq<U>, t: Tree<T>): multiset<U>
    decreases t, 0
  {
    multiset(f(t.node)) + CollectAll(f, t.children)
  }

  ghost function CollectAll<T, U>(f: T -> seq<U>, ts: seq<Tree<T>>): multiset<U>
    decreases ts
  {
    if ts == [] then multiset{} else CollectAll(f, ts[..|ts| - 1]) + Collect(f, ts[|ts| - 1])
  }

  lemma {:induction false} CollectAllAppend<T, U>(f: T -> seq<U>, a: seq<Tree<T>>, b: seq<Tree<T>>)
    ensures CollectAll(f, a + b) == CollectAll(f, a) + CollectAll(f, b)
  {
    if b == [] {
      assert a + b == a;
    } else {
      assert (a + b)[..|a + b| - 1] == a + b[..|b| - 1];
      CollectAllAppend(f, a, b[..|b| - 1]);
    }
  }

  /** The work stack collects what structural recursion collects. */
  lemma {:induction false} StackCollects<T, U>(f: T -> seq<U>, stack: seq<Tree<T>>)
    ensures multiset(FlatMap(f, Visit(stack))) == CollectAll(f, stack)
    decreases SizeAll(stack)
  {
    if stack != [] {
      PopPush(stack);
      var top, rest := stack[|stack| - 1], stack[..|stack| - 1];
      StackCollects(f, rest + top.children);
      CollectAllAppend(f, rest, top.children);
      FlatMapAppend(f, [top.node], Visit(rest + top.children));
      assert FlatMap(f, [top.node]) == FlatMap(f, []) + f(top.node);
    }
  }

  ghost function TableScans(plan: Plan): multiset<Table> {
    Collect(TableScan, plan)
  }

  ghost function SourceScans(plan: Plan): multiset<string> {
    Collect(SourceScan, plan)
  }

  lemma RootCollects<U>(f: OpNode -> seq<U>, plan: Plan)
    ensures multiset(FlatMap(f, Visit([plan]))) == Collect(f, plan)
  {
    StackCollects(f, [plan]);
    assert CollectAll(f, [plan]) == CollectAll(f, []) + Collect(f, plan);
  }

  // ------------------------------------------------------- counters

  function Count<K>(book: map<K, nat>, key: K): nat {
    if key in book then book[key] else 0
  }

  ghost predicate Tallies<K(!new)>(book: map<K, nat>, scans: multiset<K>) {
    forall k :: Count(book, k) == scans[k]
  }

  /** The private pass counts up from nothing, the engine pass counts the record down and stops at zero. */
  function Account<K>(origin: PlanOrigin, book: map<K, nat>, key: K): Option<map<K, nat>> {
    if origin.Private? then Some(book[key := Count(book, key) + 1])
    else if Count(book, key) == 0 then None
    else Some(book[key := Count(book, key) - 1])
  }

  function AccountAll<K>(origin: PlanOrigin, book: map<K, nat>, keys: seq<K>): Option<map<K, nat>> {
    if keys == [] then Some(book)
    else
      var r := AccountAll(origin, book, keys[..|keys| - 1]);
      if r.None? then None else Account(origin, r.value, keys[|keys| - 1])
  }

  lemma AccountSingle<K>(origin: PlanOrigin, book: map<K, nat>, key: K)
    ensures AccountAll(origin, book, [key]) == Account(origin, book, key)
  {
    assert [key][..0] == [];
    assert AccountAll(origin, book, []) == Some(book);
  }

  lemma {:induction false} AccountedPrefix<K>(origin: PlanOrigin, book: map<K, nat>, a: seq<K>, b: seq<K>)
    requires AccountAll(origin, book, a).None?
    ensures AccountAll(origin, book, a + b).None?
  {
    if b == [] {
      assert a + b == a;
    } else {
      assert (a + b)[..|a + b| - 1] == a + b[..|b| - 1];
      AccountedPrefix(origin, book, a, b[..|b| - 1]);
    }
  }

  /** Counting up records the multiset. */
  lemma {:induction false} CountingUp<K(!new)>(keys: seq<K>)
    ensures var r := AccountAll<K>(Private, map[], keys); r.Some? && Tallies(r.value, multiset(keys))
  {
    if keys != [] {
      var init, last := keys[..|keys| - 1], keys[|keys| - 1];
      CountingUp(init);
      assert keys == init + [last];
    }
  }

  ghost predicate Within<K(!new)>(scans: multiset<K>, book: map<K, nat>) {
    forall k :: scans[k] <= Count(book, k)
  }

  /** Counting down succeeds exactly on the multisets the record holds. */
  lemma {:induction false} CountingDown<K(!new)>(book: map<K, nat>, keys: seq<K>)
    ensures var r := AccountAll(Engine, book, keys);
            && (r.Some? <==> Within(multiset(keys), book))
            && (r.Some? ==> forall k :: Count(r.value, k) + multiset(keys)[k] == Count(book, k))
  {
    if keys != [] {
      var init, last := keys[..|keys| - 1], keys[|keys| - 1];
      CountingDown(book, init);
      assert keys == init + [last];
      assert multiset(keys) == multiset(init) + multiset{last};
      if Within(multiset(keys), book) {
        assert multiset(keys)[last] <= Count(book, last);
        forall k ensures multiset(init)[k] <= Count(book, k) {
          assert multiset(keys)[k] <= Count(book, k);
        }
      }
    }
  }

  // ------------------------------------------------------- tables

  function TableViolation(p: Policy, t: TableEntry): Violation {
    var raw := Table(t.catalog, t.schemaPath, t.name);
    if TableBlocked(p, t.catalog, t.schemaPath, t.name) then ObjectBlocked(raw)
    else if t.internal then InternalObject(raw) else ObjectNotAllowed(raw)
  }

  /** One layer's decision on a retrieved table; a violation already on record refuses it too. */
  function AuthorizeTableAgainst(p: Policy, t: TableEntry, attributable: bool, e: Evidence): (Verdict, Evidence) {
    var raw := Table(t.catalog, t.schemaPath, t.name);
    var refused := attributable && !TableAllowed(p, t.catalog, t.schemaPath, t.name, t.internal);
    var e' := if refused then e.(violations := e.violations + {TableViolation(p, t)}) else e;
    if e'.violations != {} then (Deny, e')
    else (Pass, e'.(objects := e'.objects + {raw},
                    callerObjects := e'.callerObjects + (if attributable then {raw} else {})))
  }

  function AuthorizeTable(layers: Layers, t: TableEntry, attributable: bool, e: Evidence): (Verdict, Evidence) {
    var (verdict, e') := AuthorizeTableAgainst(layers.ceiling, t, attributable, e);
    if verdict.Pass? then AuthorizeTableAgainst(layers.policy, t, attributable, e') else (verdict, e')
  }

  predicate TablePasses(layers: Layers, binding: BindingPolicy, prov: Provenance, t: TableEntry) {
    ObjectAttributable(prov, binding, EntryKey(t)) ==>
      && TableAllowed(layers.ceiling, t.catalog, t.schemaPath, t.name, t.internal)
      && TableAllowed(layers.policy, t.catalog, t.schemaPath, t.name, t.internal)
  }

  // ------------------------------------------------------- one operator

  predicate OperatorPasses(node: OpNode, enumRoot: bool) {
    ReadOperator(node.kind) || enumRoot
  }

  predicate ScanPasses(layers: Layers, binding: BindingPolicy, prov: Provenance, node: OpNode, clean: bool) {
    && !OpaqueScan(node)
    && (TableOf(node) != [] ==> clean && TablePasses(layers, binding, prov, TableOf(node)[0]))
  }

  datatype Books = Books(tables: map<Table, nat>, sources: map<string, nat>)

  function AccountNode(origin: PlanOrigin, books: Books, node: OpNode): Option<Books> {
    var t := AccountAll(origin, books.tables, TableScan(node));
    var s := AccountAll(origin, books.sources, SourceScan(node));
    if t.None? || s.None? then None else Some(Books(t.value, s.value))
  }

  ghost predicate Reviewed(pivotEnum: bool, nodes: seq<OpNode>) {
    forall i :: 0 <= i < |nodes| ==> OperatorPasses(nodes[i], pivotEnum && i == 0)
  }

  ghost predicate ScansPass(layers: Layers, binding: BindingPolicy, prov: Provenance, nodes: seq<OpNode>, clean: bool) {
    forall i :: 0 <= i < |nodes| ==> ScanPasses(layers, binding, prov, nodes[i], clean)
  }

  /** What the operator walk requires of the nodes it visits. */
  ghost predicate NodesPass(layers: Layers, binding: BindingPolicy, prov: Provenance, origin: PlanOrigin,
                            pivotEnum: bool, nodes: seq<OpNode>, clean: bool)
  {
    && Reviewed(pivotEnum, nodes)
    && (!origin.Prescreen? ==> ScansPass(layers, binding, prov, nodes, clean))
  }

  function BooksAfter(origin: PlanOrigin, start: Books, nodes: seq<OpNode>): Option<Books> {
    if origin.Prescreen? then Some(start)
    else
      var t := AccountAll(origin, start.tables, FlatMap(TableScan, nodes));
      var s := AccountAll(origin, start.sources, FlatMap(SourceScan, nodes));
      if t.None? || s.None? then None else Some(Books(t.value, s.value))
  }

  lemma BooksStep(origin: PlanOrigin, start: Books, done: seq<OpNode>, node: OpNode, rest: seq<OpNode>)
    requires !origin.Prescreen? && BooksAfter(origin, start, done).Some?
    ensures var books := BooksAfter(origin, start, done).value;
            && BooksAfter(origin, start, done + [node]) == AccountNode(origin, books, node)
            && (AccountNode(origin, books, node).None? ==> BooksAfter(origin, start, done + [node] + rest).None?)
  {
    var grown := done + [node];
    assert grown[..|done|] == done;
    FlatMapAppend(TableScan, grown, rest);
    FlatMapAppend(SourceScan, grown, rest);
    var t, s := FlatMap(TableScan, done), FlatMap(SourceScan, done);
    AccountOne(origin, start.tables, t, TableScan(node));
    AccountOne(origin, start.sources, s, SourceScan(node));
    if AccountAll(origin, start.tables, FlatMap(TableScan, grown)).None? {
      AccountedPrefix(origin, start.tables, FlatMap(TableScan, grown), FlatMap(TableScan, rest));
    }
    if AccountAll(origin, start.sources, FlatMap(SourceScan, grown)).None? {
      AccountedPrefix(origin, start.sources, FlatMap(SourceScan, grown), FlatMap(SourceScan, rest));
    }
  }

  lemma AccountOne<K>(origin: PlanOrigin, book: map<K, nat>, keys: seq<K>, next: seq<K>)
    requires |next| <= 1 && AccountAll(origin, book, keys).Some?
    ensures AccountAll(origin, book, keys + next) == AccountAll(origin, AccountAll(origin, book, keys).value, next)
  {
    if next == [] {
      assert keys + next == keys;
    } else {
      assert (keys + next)[..|keys|] == keys;
      AccountSingle(origin, AccountAll(origin, book, keys).value, next[0]);
    }
  }

  function Objects(nodes: seq<OpNode>): set<Table> {
    set node | node in nodes && TableOf(node) != [] :: var t := TableOf(node)[0]; Table(t.catalog, t.schemaPath, t.name)
  }

  function CallerObjects(binding: BindingPolicy, prov: Provenance, nodes: seq<OpNode>): set<Table> {
    set node | node in nodes && TableOf(node) != [] && ObjectAttributable(prov, binding, EntryKey(TableOf(node)[0]))
      :: var t := TableOf(node)[0]; Table(t.catalog, t.schemaPath, t.name)
  }

  function WithObjects(binding: BindingPolicy, prov: Provenance, origin: PlanOrigin, nodes: seq<OpNode>,
                       e: Evidence): Evidence {
    if origin.Prescreen? then e
    else
      e.(objects := e.objects + Objects(nodes),
         callerObjects := e.callerObjects + CallerObjects(binding, prov, nodes))
  }

  lemma TableVerdict(layers: Layers, t: TableEntry, attributable: bool, e: Evidence)
    ensures var (verdict, e') := AuthorizeTable(layers, t, attributable, e);
            var raw := Table(t.catalog, t.schemaPath, t.name);
            && (verdict.Pass? <==> e.violations == {}
                                   && (attributable ==> TableAllowed(layers.ceiling, t.catalog, t.schemaPath, t.name,
                                                                     t.internal)
                                                        && TableAllowed(layers.policy, t.catalog, t.schemaPath, t.name,
                                                                        t.internal)))
            && (verdict.Pass? ==> e' == e.(objects := e.objects + {raw},
                                           callerObjects := e.callerObjects + (if attributable then {raw} else {})))
            && (!verdict.Pass? ==> e'.violations != {})
  {
  }

  lemma ObjectsOfOne(binding: BindingPolicy, prov: Provenance, node: OpNode)
    ensures TableOf(node) == [] ==> Objects([node]) == {} && CallerObjects(binding, prov, [node]) == {}
    ensures TableOf(node) != [] ==>
            var t := TableOf(node)[0];
            var raw := Table(t.catalog, t.schemaPath, t.name);
            && Objects([node]) == {raw}
            && CallerObjects(binding, prov, [node]) == if ObjectAttributable(prov, binding,
                                                                             EntryKey(t)) then {raw} else {}
  {
    assert node in [node];
  }

  /** A source scan outside the pre-screen: accounted, then authorized. */
  method CheckScan(layers: Layers, binding: BindingPolicy, prov: Provenance, origin: PlanOrigin, node: OpNode,
                   books: Books, e: Evidence)
    returns (passed: bool, books': Books, e': Evidence)
    requires node.kind.Get? && !origin.Prescreen?
    ensures passed <==>
            ScanPasses(layers, binding, prov, node, e.violations == {}) && AccountNode(origin, books, node).Some?
    ensures passed ==>
            e' == WithObjects(binding, prov, origin, [node], e) && Some(books') == AccountNode(origin, books, node)
    ensures !passed ==> e'.violations != {}
  {
    books', e' := books, e;
    ObjectsOfOne(binding, prov, node);
    if OpaqueScan(node) {
      return false, books', e.(violations := e.violations + {UnsupportedStatement("Quack scan lacks an identity")});
    }
    if node.kind.scan.table.Some? {
      var t := node.kind.scan.table.value;
      var booked := Account(origin, books.tables, EntryKey(t));
      AccountSingle(origin, books.tables, EntryKey(t));
      if booked.None? {
        return false, books', e.(violations := e.violations + {ScanDiverged(EntryKey(t))});
      }
      books' := books.(tables := booked.value);
      var attributable := ObjectAttributable(prov, binding, EntryKey(t));
      TableVerdict(layers, t, attributable, e);
      var (verdict, seen) := AuthorizeTable(layers, t, attributable, e);
      return verdict.Pass?, books', seen;
    }
    var source := node.kind.scan.function_.name;
    var booked := Account(origin, books.sources, source);
    AccountSingle(origin, books.sources, source);
    if booked.None? {
      return false, books', e.(violations := e.violations + {SourceDiverged(source)});
    }
    books' := books.(sources := booked.value);
    passed := true;
  }

  /** One operator: reviewed first, then its scan. */
  method CheckOperator(layers: Layers, binding: BindingPolicy, prov: Provenance, origin: PlanOrigin, node: OpNode,
                       enumRoot: bool, books: Books, e: Evidence)
    returns (passed: bool, books': Books, e': Evidence)
    ensures passed <==> NodePasses(layers, binding, prov, origin, node, enumRoot, books, e.violations == {})
    ensures passed ==>
            e' == WithObjects(binding, prov, origin, [node], e) && Some(books') == BooksWith(origin, books, node)
    ensures !passed ==> e'.violations != {}
  {
    if !ReadOperator(node.kind) && !enumRoot {
      return false, books, e.(violations := e.violations + {UnsupportedStatement("unsupported plan operator")});
    }
    if node.kind.Get? && !origin.Prescreen? {
      passed, books', e' := CheckScan(layers, binding, prov, origin, node, books, e);
    } else {
      ObjectsOfOne(binding, prov, node);
      passed, books', e' := true, books, e;
    }
  }

  predicate NodePasses(layers: Layers, binding: BindingPolicy, prov: Provenance, origin: PlanOrigin, node: OpNode,
                       enumRoot: bool, books: Books, clean: bool)
  {
    && NodeReviewed(layers, binding, prov, origin, node, enumRoot, clean)
    && (!origin.Prescreen? ==> AccountNode(origin, books, node).Some?)
  }

  function BooksWith(origin: PlanOrigin, books: Books, node: OpNode): Option<Books> {
    if origin.Prescreen? then Some(books) else AccountNode(origin, books, node)
  }

  /** One more operator visited: either the prefix still passes, or nothing longer can. */
  lemma OperatorStep(layers: Layers, binding: BindingPolicy, prov: Provenance, origin: PlanOrigin, pivotEnum: bool,
                     done: seq<OpNode>, node: OpNode, rest: seq<OpNode>, clean: bool, start: Books, books: Books)
    requires NodesPass(layers, binding, prov, origin, pivotEnum, done, clean)
             && Some(books) == BooksAfter(origin, start, done)
    ensures NodePasses(layers, binding, prov, origin, node, pivotEnum && done == [], books, clean) ==>
            && NodesPass(layers, binding, prov, origin, pivotEnum, done + [node], clean)
            && BooksAfter(origin, start, done + [node]) == BooksWith(origin, books, node)
    ensures !NodePasses(layers, binding, prov, origin, node, pivotEnum && done == [], books, clean) ==>
            var all := done + [node] + rest;
            !NodesPass(layers, binding, prov, origin, pivotEnum, all, clean) || BooksAfter(origin, start, all).None?
  {
    NodesStep(layers, binding, prov, origin, pivotEnum, done, node, rest, clean);
    if !origin.Prescreen? {
      BooksStep(origin, start, done, node, rest);
    }
  }

  /** The node itself, whatever the books say. */
  predicate NodeReviewed(layers: Layers, binding: BindingPolicy, prov: Provenance, origin: PlanOrigin, node: OpNode,
                         enumRoot: bool, clean: bool)
  {
    OperatorPasses(node, enumRoot) && (!origin.Prescreen? ==> ScanPasses(layers, binding, prov, node, clean))
  }

  lemma NodesStep(layers: Layers, binding: BindingPolicy, prov: Provenance, origin: PlanOrigin, pivotEnum: bool,
                  done: seq<OpNode>, node: OpNode, rest: seq<OpNode>, clean: bool)
    requires NodesPass(layers, binding, prov, origin, pivotEnum, done, clean)
    ensures NodeReviewed(layers, binding, prov, origin, node, pivotEnum && done == [], clean) ==>
            NodesPass(layers, binding, prov, origin, pivotEnum, done + [node], clean)
    ensures !NodeReviewed(layers, binding, prov, origin, node, pivotEnum && done == [], clean) ==>
            !NodesPass(layers, binding, prov, origin, pivotEnum, done + [node] + rest, clean)
  {
    assert (done + [node] + rest)[|done|] == node;
  }

  method CheckOperators(layers: Layers, binding: BindingPolicy, prov: Provenance, origin: PlanOrigin, plan: Plan,
                        start: Books, e: Evidence)
    returns (passed: bool, books: Books, e': Evidence)
    ensures passed <==> NodesPass(layers, binding, prov, origin, PivotEnumPlan(plan), Visit([plan]), e.violations == {})
                        && BooksAfter(origin, start, Visit([plan])).Some?
    ensures passed ==> Some(books) == BooksAfter(origin, start, Visit([plan]))
                       && e' == WithObjects(binding, prov, origin, Visit([plan]), e)
    ensures !passed ==> e'.violations != {}
  {
    var pivotEnum := PivotEnumPlan(plan);
    var stack: seq<Plan> := [plan];
    var first := true;
    ghost var done: seq<OpNode> := [];
    ghost var all := Visit([plan]);
    books, e' := start, e;
    assert BooksAfter(origin, start, []) == Some(start);
    assert WithObjects(binding, prov, origin, [], e) == e;
    while stack != []
      invariant done + Visit(stack) == all
      invariant first <==> done == []
      invariant NodesPass(layers, binding, prov, origin, pivotEnum, done, e.violations == {})
      invariant Some(books) == BooksAfter(origin, start, done)
      invariant e' == WithObjects(binding, prov, origin, done, e)
      decreases SizeAll(stack)
    {
      PopPush(stack);
      var op := stack[|stack| - 1];
      var rest := stack[..|stack| - 1];
      ghost var grown := done + [op.node];
      assert all == grown + Visit(rest + op.children);
      OperatorStep(layers, binding, prov, origin, pivotEnum, done, op.node, Visit(rest + op.children),
                   e.violations == {},
                   start, books);
      var ok, books', seen := CheckOperator(layers, binding, prov, origin, op.node, pivotEnum && first, books, e');
      if !ok {
        return false, books', seen;
      }
      WithObjectsStep(binding, prov, origin, done, op.node, e);
      books, e', first := books', seen, false;
      done := grown;
      stack := rest + op.children;
    }
    assert done == all;
    passed := true;
  }

  lemma WithObjectsStep(binding: BindingPolicy, prov: Provenance, origin: PlanOrigin, done: seq<OpNode>, node: OpNode,
                        e: Evidence)
    ensures WithObjects(binding, prov, origin, [node], WithObjects(binding, prov, origin, done, e))
         == WithObjects(binding, prov, origin, done + [node], e)
  {
    assert Objects(done + [node]) == Objects(done) + Objects([node]);
    assert CallerObjects(binding, prov, done + [node]) == CallerObjects(binding, prov, done)
           + CallerObjects(binding, prov, [node]);
  }

  // ------------------------------------------------------- the whole check

  /** Every operator is a reviewed read operator; only a PIVOT enum's root is excepted. */
  ghost predicate OnlyReviewed(plan: Plan) {
    && OperatorPasses(plan.node, PivotEnumPlan(plan))
    && forall node :: node in NodesAll(plan.children) ==> ReadOperator(node.kind)
  }

  ghost predicate EveryScanPasses(layers: Layers, binding: BindingPolicy, prov: Provenance, plan: Plan, clean: bool) {
    forall node :: node in Nodes(plan) ==> ScanPasses(layers, binding, prov, node, clean)
  }

  ghost predicate ScansWithin(plan: Plan, books: Books) {
    Within(TableScans(plan), books.tables) && Within(SourceScans(plan), books.sources)
  }

  /** What the execution boundary demands of a plan, said by structural recursion and multisets. */
  ghost predicate PlanAccepted(inv: Inventory, layers: Layers, binding: BindingPolicy, prov: Provenance,
                               origin: PlanOrigin, props: Properties, plan: Plan, clean: bool)
  {
    && ReadOnly(props, PivotEnumPlan(plan))
    && OperatorsAccepted(layers, binding, prov, origin, plan, clean)
    && Accepts(inv, layers.ceiling, binding, prov, plan)
    && Accepts(inv, layers.policy, binding, prov, plan)
  }

  lemma ForAllNodes<T(!new)>(s: seq<T>, m: multiset<T>, holds: T -> bool)
    requires multiset(s) == m
    ensures (forall i :: 0 <= i < |s| ==> holds(s[i])) <==> (forall x :: x in m ==> holds(x))
  {
    forall i | 0 <= i < |s| ensures s[i] in m {
      assert s[i] in multiset(s);
    }
    forall x | x in m ensures exists i :: 0 <= i < |s| && s[i] == x {
      assert x in s;
    }
  }

  lemma OperatorsPassStructurally(plan: Plan)
    ensures Reviewed(PivotEnumPlan(plan), Visit([plan])) <==> OnlyReviewed(plan)
  {
    VisitRoot(plan);
    VisitIsTraversal(plan.children);
    ForAllNodes(Visit(plan.children), NodesAll(plan.children), (n: OpNode) => ReadOperator(n.kind));
    RootAndBelow(PivotEnumPlan(plan), plan.node, Visit(plan.children), Visit([plan]));
  }

  lemma ScansPassStructurally(layers: Layers, binding: BindingPolicy, prov: Provenance, plan: Plan, clean: bool)
    ensures ScansPass(layers, binding, prov, Visit([plan]), clean) <==> EveryScanPasses(layers, binding, prov, plan,
                                                                                        clean)
  {
    VisitRoot(plan);
    ForAllNodes(Visit([plan]), Nodes(plan), (n: OpNode) => ScanPasses(layers, binding, prov, n, clean));
  }

  lemma RootAndBelow(pivotEnum: bool, root: OpNode, below: seq<OpNode>, all: seq<OpNode>)
    requires all == [root] + below
    ensures (forall i :: 0 <= i < |all| ==> OperatorPasses(all[i], pivotEnum && i == 0)) <==>
            OperatorPasses(root, pivotEnum) && forall i :: 0 <= i < |below| ==> ReadOperator(below[i].kind)
  {
    if forall i :: 0 <= i < |all| ==> OperatorPasses(all[i], pivotEnum && i == 0) {
      assert OperatorPasses(all[0], pivotEnum);
      forall i | 0 <= i < |below| ensures ReadOperator(below[i].kind) {
        assert OperatorPasses(all[i + 1], pivotEnum && i + 1 == 0);
      }
    }
    if OperatorPasses(root, pivotEnum) && forall i :: 0 <= i < |below| ==> ReadOperator(below[i].kind) {
      forall i | 0 <= i < |all| ensures OperatorPasses(all[i], pivotEnum && i == 0) {
        if i > 0 {
          assert all[i] == below[i - 1];
        }
      }
    }
  }

  lemma CountedUp(nodes: seq<OpNode>)
    ensures var r := BooksAfter(Private, Books(map[], map[]), nodes);
            && r.Some?
            && Tallies(r.value.tables, multiset(FlatMap(TableScan, nodes)))
            && Tallies(r.value.sources, multiset(FlatMap(SourceScan, nodes)))
  {
    CountingUp(FlatMap(TableScan, nodes));
    CountingUp(FlatMap(SourceScan, nodes));
  }

  lemma PrivateBooks(plan: Plan)
    ensures var r := BooksAfter(Private, Books(map[], map[]), Visit([plan]));
            r.Some? && Tallies(r.value.tables, TableScans(plan)) && Tallies(r.value.sources, SourceScans(plan))
  {
    CountedUp(Visit([plan]));
    RootCollects(TableScan, plan);
    RootCollects(SourceScan, plan);
  }

  /** What a private pass over the plan leaves on record. */
  ghost function TallyOf(plan: Plan): Books {
    PrivateBooks(plan);
    BooksAfter(Private, Books(map[], map[]), Visit([plan])).value
  }

  lemma EngineBooks(start: Books, plan: Plan)
    ensures BooksAfter(Engine, start, Visit([plan])).Some? <==>
            ScansWithin(plan, start)
  {
    RootCollects(TableScan, plan);
    RootCollects(SourceScan, plan);
    CountingDown(start.tables, FlatMap(TableScan, Visit([plan])));
    CountingDown(start.sources, FlatMap(SourceScan, Visit([plan])));
  }

  ghost predicate OperatorsAccepted(layers: Layers, binding: BindingPolicy, prov: Provenance, origin: PlanOrigin,
                                    plan: Plan, clean: bool)
  {
    && OnlyReviewed(plan)
    && (!origin.Prescreen? ==> EveryScanPasses(layers, binding, prov, plan, clean))
    && (origin.Engine? ==> ScansWithin(plan, Books(prov.validatedScans, prov.validatedFunctionScans)))
  }

  function StartBooks(origin: PlanOrigin, prov: Provenance): Books {
    if origin.Private? then Books(map[], map[]) else Books(prov.validatedScans, prov.validatedFunctionScans)
  }

  lemma WalkIsStructural(layers: Layers, binding: BindingPolicy, prov: Provenance, origin: PlanOrigin, plan: Plan,
                         clean: bool)
    ensures OperatorsAccepted(layers, binding, prov, origin, plan, clean) <==>
            && NodesPass(layers, binding, prov, origin, PivotEnumPlan(plan), Visit([plan]), clean)
            && BooksAfter(origin, StartBooks(origin, prov), Visit([plan])).Some?
  {
    OperatorsPassStructurally(plan);
    ScansPassStructurally(layers, binding, prov, plan, clean);
    match origin {
      case Private => PrivateBooks(plan);
      case Engine => EngineBooks(StartBooks(origin, prov), plan);
      case Prescreen =>
    }
  }

  /** The operator half of the check, with the record it leaves. */
  method CheckScans(layers: Layers, binding: BindingPolicy, prov: Provenance, origin: PlanOrigin, plan: Plan,
                    before: Evidence)
    returns (passed: bool, prov': Provenance, after: Evidence)
    ensures passed <==> OperatorsAccepted(layers, binding, prov, origin, plan, before.violations == {})
    ensures !origin.Private? ==> prov' == prov
    ensures prov' == prov.(validatedScans := prov'.validatedScans,
                           validatedFunctionScans := prov'.validatedFunctionScans)
    ensures passed && origin.Private? ==> Books(prov'.validatedScans, prov'.validatedFunctionScans) == TallyOf(plan)
    ensures passed ==> after == WithObjects(binding, prov, origin, Visit([plan]), before)
    ensures !passed ==> after.violations != {}
  {
    WalkIsStructural(layers, binding, prov, origin, plan, before.violations == {});
    PrivateBooks(plan);
    var books;
    passed, books, after := CheckOperators(layers, binding, prov, origin, plan, StartBooks(origin, prov), before);
    prov' := if origin.Private? then prov.(validatedScans := books.tables,
                                           validatedFunctionScans := books.sources) else prov;
  }

  /** The checks of the operators pass, and the function walk meets something it cannot inspect. */
  ghost predicate PlanBreaks(inv: Inventory, layers: Layers, binding: BindingPolicy, prov: Provenance,
                             origin: PlanOrigin, props: Properties, plan: Plan, clean: bool)
  {
    && ReadOnly(props, PivotEnumPlan(plan))
    && OperatorsAccepted(layers, binding, prov, origin, plan, clean)
    && LayersBreak(inv, layers, binding, prov, plan)
  }

  /** What an accepted plan adds to the evidence. */
  function PlanEvidence(binding: BindingPolicy, prov: Provenance, origin: PlanOrigin, plan: Plan,
                        before: Evidence): Evidence
  {
    WithObjects(binding, prov, origin, Visit([plan]), before)
    .(functions := before.functions + PlanFunctions(binding, prov, plan),
      callerFunctions := before.callerFunctions + PlanCallers(binding, prov, plan))
  }

  /**
   * The execution boundary. It passes exactly the accepted plans; a private pass leaves the plan's scan multisets as
   * the record and no other pass touches it; a denial always leaves a violation behind.
   */
  method CheckPlan(inv: Inventory, layers: Layers, binding: BindingPolicy, prov: Provenance, origin: PlanOrigin,
                   props: Properties, plan: Plan, before: Evidence)
    returns (verdict: Verdict, prov': Provenance, after: Evidence)
    ensures verdict.Pass? <==> PlanAccepted(inv, layers, binding, prov, origin, props, plan, before.violations == {})
    ensures !origin.Private? ==> prov' == prov
    ensures prov' == prov.(validatedScans := prov'.validatedScans,
                           validatedFunctionScans := prov'.validatedFunctionScans)
    ensures verdict.Pass? && origin.Private? ==>
            Books(prov'.validatedScans, prov'.validatedFunctionScans) == TallyOf(plan)
    ensures verdict.Pass? ==> after == PlanEvidence(binding, prov, origin, plan, before)
    ensures verdict.Broken? <==>
            PlanBreaks(inv, layers, binding, prov, origin, props, plan, before.violations == {})
    ensures verdict.Deny? ==> after.violations != {}
  {
    prov' := prov;
    var pivotEnum := PivotEnumPlan(plan);
    if ModifiesDatabase(props, pivotEnum) {
      return Deny, prov', before.(violations := before.violations + {UnsupportedStatement("modifies a database")});
    }
    if props.returns_ != (if pivotEnum then Nothing else QueryResult) {
      return Deny, prov', before.(violations := before.violations + {UnsupportedStatement("returns no query result")});
    }
    var passed, seen;
    passed, prov', seen := CheckScans(layers, binding, prov, origin, plan, before);
    if !passed {
      return Deny, prov', seen;
    }
    verdict, after := AuthorizePlan(inv, layers, binding, prov, plan, seen);
  }

  /** Scan accounting is multiset inclusion between the two plans, whatever their shapes. */
  lemma AccountingIsInclusion<K(!new)>(record: map<K, nat>, validated: multiset<K>, scans: multiset<K>)
    requires Tallies(record, validated)
    ensures Within(scans, record) <==> scans <= validated
  {
    if scans <= validated {
      forall k ensures scans[k] <= Count(record, k) {
      }
    }
    if Within(scans, record) {
      forall k ensures scans[k] <= validated[k] {
        assert scans[k] <= Count(record, k);
      }
    }
  }

  /** An engine plan accepted after a private pass scans no source the private plan did not, and none more often. */
  lemma EnginePlanStaysWithinThePrivatePlan(inv: Inventory, layers: Layers, binding: BindingPolicy, prov: Provenance,
                                            props: Properties, validated: Plan, plan: Plan, clean: bool)
    requires Tallies(prov.validatedScans, TableScans(validated))
    requires Tallies(prov.validatedFunctionScans, SourceScans(validated))
    requires PlanAccepted(inv, layers, binding, prov, Engine, props, plan, clean)
    ensures TableScans(plan) <= TableScans(validated) && SourceScans(plan) <= SourceScans(validated)
  {
    AccountingIsInclusion(prov.validatedScans, TableScans(validated), TableScans(plan));
    AccountingIsInclusion(prov.validatedFunctionScans, SourceScans(validated), SourceScans(plan));
  }

  /** A plan accepted with violations on record is accepted without them too. */
  lemma CleanIsWeakest(inv: Inventory, layers: Layers, binding: BindingPolicy, prov: Provenance, origin: PlanOrigin,
                       props: Properties, plan: Plan, clean: bool)
    requires PlanAccepted(inv, layers, binding, prov, origin, props, plan, clean)
    ensures PlanAccepted(inv, layers, binding, prov, origin, props, plan, true)
  {
    if !origin.Prescreen? {
      forall node | node in Nodes(plan) ensures ScanPasses(layers, binding, prov, node, true) {
        assert ScanPasses(layers, binding, prov, node, clean);
      }
    }
  }
}
