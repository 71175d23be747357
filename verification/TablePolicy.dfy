/** Table rules: the indexed match, its plain meaning, and the decision built from it. */
module TablePolicy {
  import opened Names
  import opened Policies

  function ObjectKey(catalog: string, schemaPath: NamePath, table: string): Table {
    Table(Lower(catalog), FoldPath(schemaPath), Lower(table))
  }

  predicate HasStar(key: Table) {
    WILDCARD in key.schemaPath || key.table == WILDCARD
  }

  /** One rule against one resolved key. Internal objects need the schema and table spelled out. */
  predicate RuleMatches(rule: Table, key: Table, internal: bool) {
    && NamespaceMatches(rule.catalog, rule.schemaPath, key.catalog, key.schemaPath, internal)
    && (rule.table == key.table || (!internal && rule.table == WILDCARD))
  }

  /** Set lookup first, then the scan that wildcard rules need. */
  predicate TableMatches(rules: set<Table>, key: Table, internal: bool) {
    if internal && HasStar(key) then false
    else key in rules || exists rule :: rule in rules && RuleMatches(rule, key, internal)
  }

  predicate TableBlocked(p: Policy, catalog: string, schemaPath: NamePath, table: string) {
    TableMatches(p.blockedTables, ObjectKey(catalog, schemaPath, table), false)
  }

  predicate TableAllowed(p: Policy, catalog: string, schemaPath: NamePath, table: string, internal: bool) {
    var key := ObjectKey(catalog, schemaPath, table);
    && !TableMatches(p.blockedTables, key, false)
    && ((!p.tables && !internal) || TableMatches(p.allowedTables, key, internal))
  }

  /** A key the catalog can produce: every component present and folded. */
  predicate Resolved(key: Table) {
    && key.catalog != "" && key.schemaPath != [] && NonemptyParts(key.schemaPath) && key.table != ""
    && Folded(key.catalog) && FoldedPath(key.schemaPath) && Folded(key.table)
  }

  lemma ObjectKeyIsResolved(catalog: string, schemaPath: NamePath, table: string)
    requires catalog != "" && schemaPath != [] && NonemptyParts(schemaPath) && table != ""
    ensures Resolved(ObjectKey(catalog, schemaPath, table))
  {
    LowerIdempotent(catalog);
    LowerIdempotent(table);
    FoldPathIdempotent(schemaPath);
  }

  /** The set index is only a shortcut: for a resolved key it finds nothing the scan would not. */
  lemma IndexAgreesWithScan(rules: set<Table>, key: Table, internal: bool)
    requires Resolved(key)
    ensures TableMatches(rules, key, internal) <==>
            !(internal && HasStar(key)) && exists rule :: rule in rules && RuleMatches(rule, key, internal)
  {
    assert RuleMatches(key, key, internal);
  }

  /** What the lookup is meant to be: a scan of the rules. */
  ghost predicate IsScan(key: Table, internal: bool) {
    forall rules: set<Table> ::
      TableMatches(rules, key, internal) <==>
      !(internal && HasStar(key)) && exists rule :: rule in rules && RuleMatches(rule, key, internal)
  }

  /**
   * The exact condition: the index is the scan, for every rule set, iff the key names a catalog and a whole schema path
   * or is refused before either is asked.
   */
  lemma IndexIsScanIff(key: Table, internal: bool)
    requires Folded(key.catalog) && FoldedPath(key.schemaPath) && Folded(key.table)
    ensures IsScan(key, internal) <==>
            || (internal && HasStar(key))
            || (key.catalog != "" && key.schemaPath != [] && NonemptyParts(key.schemaPath))
  {
    if IsScan(key, internal) && !(internal && HasStar(key)) {
      assert TableMatches({key}, key, internal);
      assert RuleMatches(key, key, internal);
    } else if key.catalog != "" && key.schemaPath != [] && NonemptyParts(key.schemaPath) {
      assert RuleMatches(key, key, internal);
    }
  }

  /** Without a resolved catalog the index and the scan part ways: the index finds the rule, the scan cannot. */
  lemma IndexAndScanPartOnAnEmptyCatalog(path: NamePath, table: string, internal: bool)
    requires path != [] && !HasStar(Table("", path, table))
    ensures var key := Table("", path, table);
            TableMatches({key}, key, internal) && !RuleMatches(key, key, internal)
  {
  }

  /** An object is admitted iff no block matches and a rule does, or tables are open and it is not internal. */
  lemma TableDecision(p: Policy, catalog: string, schemaPath: NamePath, table: string, internal: bool)
    requires catalog != "" && schemaPath != [] && NonemptyParts(schemaPath) && table != ""
    ensures var key := ObjectKey(catalog, schemaPath, table);
            TableAllowed(p, catalog, schemaPath, table, internal) <==>
            && (forall rule :: rule in p.blockedTables ==> !RuleMatches(rule, key, false))
            && (|| (!p.tables && !internal)
                || (!(internal && HasStar(key))
                    && exists rule :: rule in p.allowedTables && RuleMatches(rule, key, internal)))
  {
    var key := ObjectKey(catalog, schemaPath, table);
    ObjectKeyIsResolved(catalog, schemaPath, table);
    IndexAgreesWithScan(p.blockedTables, key, false);
    IndexAgreesWithScan(p.allowedTables, key, internal);
  }

  /** An internal object passes only by a rule that spells its schema path and table, with no wildcard in either. */
  lemma InternalNeedsExactRule(p: Policy, catalog: string, schemaPath: NamePath, table: string)
    requires catalog != "" && schemaPath != [] && NonemptyParts(schemaPath) && table != ""
    requires TableAllowed(p, catalog, schemaPath, table, true)
    ensures exists rule :: rule in p.allowedTables && rule.schemaPath == FoldPath(schemaPath)
                           && rule.table == Lower(table) && !HasStar(rule)
  {
    var key := ObjectKey(catalog, schemaPath, table);
    TableDecision(p, catalog, schemaPath, table, true);
    var rule :| rule in p.allowedTables && RuleMatches(rule, key, true);
    assert rule.schemaPath == key.schemaPath by {
      FoldPathIdempotent(schemaPath);
    }
  }
}
