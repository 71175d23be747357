/** The smallest text: a tree the walk accepts under every policy, with nothing to record. */
module TextWitness {
  import opened Names
  import opened Policies
  import opened Origins
  import opened Trees
  import opened Jsons
  import opened Unfolding
  import opened AstGrammar
  import opened AstWalk
  import opened TextChecks

  /** A root that may be empty. */
  predicate EmptyRoot(g: Grammar) {
    "root" !in g.dispatch && "root" in g.rules && g.rules["root"].required == {}
  }

  const BARE: Json := Obj([])

  const SILENT := RecordOf({}, {})

  lemma BareIsShaped(rule: Rule)
    requires rule.required == {}
    ensures Shaped(BARE, "root", rule) && Get(BARE, "cte_map") == Missing
  {
  }

  lemma RootReferences(s: Setup)
    ensures References(s, BARE, "root", "") == Some(NOTHING)
  {
  }

  lemma BareIsObject(s: Setup, w: Work)
    requires EmptyRoot(s.grammar) && w == Root(BARE)
    ensures ObjectNode(s, w) == Some(Syntax([], NOTHING))
  {
    var rule := s.grammar.rules["root"];
    BareIsShaped(rule);
    RootReferences(s);
    assert RuleName(s.grammar, w.value, w.expected) == Some("root");
    var below, fields := Below(w, Items(Get(Get(BARE, "cte_map"), "map")), "cte_entry", ""), FieldWork(w, [], rule);
    assert below == [] && fields == [] && below + fields == [];
  }

  lemma RootIsRuled(w: Work)
    requires w == Root(BARE)
    ensures RuledNode(w)
  {
    assert w.expected[2..] == "ot" && w.expected[2] == 'o';
  }

  lemma BareInspects(inv: Inventory, layers: Layers)
    requires EmptyRoot(inv.grammar)
    ensures Inspect(WalkSetup(inv, layers), Root(BARE)) == Some(Syntax([], NOTHING))
  {
    var s, w := WalkSetup(inv, layers), Root(BARE);
    BareIsObject(s, w);
    RootIsRuled(w);
    assert Inspect(s, w) == ObjectNode(s, w);
  }

  lemma BareTree(inspect: Inspector)
    requires Shrinks(Push(inspect), WorkWeight) && inspect(Root(BARE)) == Some(Syntax([], NOTHING))
    ensures SyntaxTree(inspect, Root(BARE)) == Tree(Root(BARE), [])
    ensures Acceptable(inspect, DEFAULT_LIMITS, Tree(Root(BARE), []))
  {
    assert Next(Push(inspect), Root(BARE)) == [];
  }

  lemma BareConcludes(inv: Inventory, s: Setup, inspect: Inspector)
    requires inspect(Root(BARE)) == Some(Syntax([], NOTHING))
    ensures AstWalk.Concluded(inv, s, inspect, Tree(Root(BARE), []), {}, SILENT)
  {
    var tree := Tree(Root(BARE), []);
    assert Nodes(tree) == multiset{Root(BARE)};
    assert NotesOf(inspect, Root(BARE)) == NOTHING;
    forall name ensures CountsOf(inspect, tree)(name) == 0 {
    }
    assert Recorded(inspect, Nodes(tree), {});
    assert Describes(s, inspect, tree, SILENT);
  }

  lemma BareIsAccepted(inv: Inventory, layers: Layers)
    requires EmptyRoot(inv.grammar)
    ensures TextAccepted(inv, layers, BARE, SILENT)
  {
    var s := WalkSetup(inv, layers);
    var inspect := StatementInspector(s);
    BareInspects(inv, layers);
    BareTree(inspect);
    BareConcludes(inv, s, inspect);
  }
}
