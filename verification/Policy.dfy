/** The policy algebra: qualified rules, deny-wins blocks and the decisions made from them. */
module Policies {
  import opened Names

  datatype Table = Table(catalog: string, schemaPath: NamePath, table: string)

  /** A function rule. An empty catalog or kind means "any"; "*" is any catalog or any schema component. */
  datatype FunctionGrant = FunctionGrant(catalog: string, schemaPath: NamePath, name: string, kind: string)

  /**
   * A resolved function. `internal` is the catalog entry's own flag, when an entry established it. It is evidence
   * about the identity and not part of its key, so sets of identities are sets of `Key()`.
   */
  datatype Identity = Identity(catalog: string, schemaPath: NamePath, name: string, kind: string,
                               internal: Option<bool>)
  {
    /** The comparison key of the engine's identity sets: everything but the origin flag, spelled as given. */
    function Key(): FunctionGrant {
      FunctionGrant(catalog, schemaPath, name, kind)
    }

    /** The case-folded key every provenance set uses. */
    function FoldedKey(): FunctionGrant {
      FunctionGrant(Lower(catalog), FoldPath(schemaPath), Lower(name), Lower(kind))
    }

    predicate System() {
      name != "" && Lower(catalog) == "system" && FoldPath(schemaPath) == ["main"]
    }
  }

  datatype Policy = Policy(
    defaults: bool,
    tables: bool,
    allowedFunctions: set<FunctionGrant>,
    blockedFunctions: set<FunctionGrant>,
    allowedTables: set<Table>,
    blockedTables: set<Table>)

  const DEFAULT_POLICY := Policy(true, false, {}, {}, {}, {})

  /** The ceiling the host set and the request layer; an enforced connection puts one snapshot in both. */
  datatype Layers = Layers(ceiling: Policy, policy: Policy)

  const KINDS: set<string> := {"scalar", "aggregate", "table", "macro", "table_macro", "window"}

  datatype Rule = Rule(fields: map<string, string>, required: set<string>)

  /** The reviewed grammar: node rules, tag dispatch, and the expression types of each expression class. */
  datatype Grammar = Grammar(
    rules: map<string, Rule>, dispatch: map<string, map<string, string>>, expressionTypes: map<string, set<string>>)

  /** What is compiled in: default identities, the never-bind names, Gatekeeper's own controls, the grammar. */
  datatype Inventory = Inventory(
    defaults: set<FunctionGrant>, neverBind: set<string>, controlPlane: set<string>, grammar: Grammar)
  {
    predicate NeverBind(name: string) {
      Lower(name) in neverBind
    }

    predicate ControlPlane(name: string) {
      Lower(name) in controlPlane
    }

    /** What loading the embedded inventory insists on. */
    ghost predicate Valid() {
      && controlPlane <= neverBind
      && forall d :: d in defaults ==>
           && Plain(d.catalog) && d.catalog != WILDCARD
           && ConcretePath(d.schemaPath) && Plain(d.name) && d.kind in KINDS
    }
  }

  predicate ConcretePath(path: NamePath) {
    PlainPath(path) && WILDCARD !in path
  }

  predicate NulFree(s: string) {
    '\0' !in s
  }

  /** An identifier as rules store it: folded, nonempty, NUL-free. */
  predicate Plain(s: string) {
    s != "" && Folded(s) && NulFree(s)
  }

  predicate PlainPath(path: NamePath) {
    path != [] && forall i :: 0 <= i < |path| ==> Plain(path[i])
  }

  /** The shape every stored function rule has. */
  predicate WellFormedGrant(g: FunctionGrant) {
    && (g.catalog == "" || Plain(g.catalog)) && PlainPath(g.schemaPath) && Plain(g.name)
    && (g.kind == "" || g.kind in KINDS)
  }

  predicate WellFormedTable(t: Table) {
    (t.catalog == "" || Plain(t.catalog)) && PlainPath(t.schemaPath) && Plain(t.table)
  }

  ghost predicate WellFormedPolicy(p: Policy) {
    && (forall g :: g in p.allowedFunctions ==> WellFormedGrant(g))
    && (forall g :: g in p.blockedFunctions ==> WellFormedGrant(g))
    && (forall t :: t in p.allowedTables ==> WellFormedTable(t))
    && (forall t :: t in p.blockedTables ==> WellFormedTable(t))
    && (!p.tables ==> p.allowedTables == {})
  }

  // ---------------------------------------------------------------- matching

  predicate AnyCatalog(catalog: string) {
    catalog == "" || catalog == WILDCARD
  }

  predicate NamespaceMatches(catalog: string, schemaPath: NamePath, actualCatalog: string, actualPath: NamePath,
                             exactSchema: bool)
  {
    && actualCatalog != "" && actualPath != [] && |schemaPath| == |actualPath|
    && (AnyCatalog(catalog) || catalog == Lower(actualCatalog))
    && forall i :: 0 <= i < |schemaPath| ==>
         && actualPath[i] != ""
         && (schemaPath[i] == Lower(actualPath[i]) || (!exactSchema && schemaPath[i] == WILDCARD))
  }

  predicate FunctionMatches(rule: FunctionGrant, id: Identity, exactSchema: bool) {
    && !(exactSchema && WILDCARD in rule.schemaPath)
    && (rule.kind == "" || rule.kind == id.kind) && rule.name == Lower(id.name)
    && NamespaceMatches(rule.catalog, rule.schemaPath, id.catalog, id.schemaPath, exactSchema)
  }

  predicate FunctionBlocked(p: Policy, id: Identity) {
    exists rule :: rule in p.blockedFunctions && FunctionMatches(rule, id, false)
  }

  predicate FunctionDenied(inv: Inventory, p: Policy, id: Identity) {
    inv.NeverBind(id.name) || FunctionBlocked(p, id)
  }

  /** An entry of unknown origin is treated as internal: no schema wildcard can reach it. */
  predicate ExactSchemaRequired(id: Identity) {
    match id.internal
    case Some(b) => b
    case None => true
  }

  predicate DefaultAllows(inv: Inventory, p: Policy, id: Identity) {
    && p.defaults && id.internal == Some(true)
    && FunctionGrant(Lower(id.catalog), FoldPath(id.schemaPath), Lower(id.name), id.kind) in inv.defaults
  }

  predicate GrantAllows(p: Policy, id: Identity) {
    exists rule :: rule in p.allowedFunctions && FunctionMatches(rule, id, ExactSchemaRequired(id))
  }

  /** The decision on a resolved function. */
  predicate FunctionAllowed(inv: Inventory, p: Policy, id: Identity) {
    && id.name != "" && id.catalog != "" && id.schemaPath != [] && id.kind in KINDS
    && !FunctionDenied(inv, p, id)
    && NonemptyParts(id.schemaPath)
    && (DefaultAllows(inv, p, id) || GrantAllows(p, id))
  }

  /** Coverage of a namespace pattern by a block, not merely a matching leaf. */
  predicate BlockCovers(block: FunctionGrant, candidate: FunctionGrant) {
    && (AnyCatalog(block.catalog) || block.catalog == candidate.catalog)
    && |block.schemaPath| == |candidate.schemaPath|
    && (forall i :: 0 <= i < |block.schemaPath| ==>
          block.schemaPath[i] == WILDCARD || block.schemaPath[i] == candidate.schemaPath[i])
    && (block.kind == "" || block.kind == candidate.kind) && block.name == candidate.name
  }

  predicate Covered(p: Policy, candidate: FunctionGrant) {
    exists block :: block in p.blockedFunctions && BlockCovers(block, candidate)
  }

  predicate Survives(p: Policy, rule: FunctionGrant, name: string) {
    && rule.name == Lower(name)
    && exists kind :: kind in KINDS && (rule.kind == "" || rule.kind == kind)
                      && !Covered(p, FunctionGrant(rule.catalog, rule.schemaPath, Lower(name), kind))
  }

  /** The pre-bind screen: all it has is a leaf name. */
  predicate FunctionEligible(inv: Inventory, p: Policy, name: string) {
    && !inv.NeverBind(name)
    && ((p.defaults && exists rule :: rule in inv.defaults && Survives(p, rule, name))
        || exists rule :: rule in p.allowedFunctions && Survives(p, rule, name))
  }
}
