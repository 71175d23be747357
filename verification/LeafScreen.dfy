/** The pre-bind leaf screen decides exactly "some resolved identity with this leaf is allowed". */
module LeafScreen {
  import opened Names
  import opened Policies

  /** A block that covers the rule an identity was admitted by blocks that identity. */
  lemma CoveringBlockMatches(block: FunctionGrant, rule: FunctionGrant, id: Identity)
    requires FunctionMatches(rule, id, false)
    requires BlockCovers(block, FunctionGrant(rule.catalog, rule.schemaPath, Lower(id.name), id.kind))
    ensures FunctionMatches(block, id, false)
  {
    forall i | 0 <= i < |block.schemaPath|
      ensures id.schemaPath[i] != ""
      ensures block.schemaPath[i] == Lower(id.schemaPath[i]) || block.schemaPath[i] == WILDCARD
    {
      assert rule.schemaPath[i] == Lower(id.schemaPath[i]) || rule.schemaPath[i] == WILDCARD;
    }
  }

  lemma AllowedRuleSurvives(inv: Inventory, p: Policy, rule: FunctionGrant, id: Identity)
    requires FunctionAllowed(inv, p, id) && FunctionMatches(rule, id, false)
    ensures Survives(p, rule, id.name)
  {
    var candidate := FunctionGrant(rule.catalog, rule.schemaPath, Lower(id.name), id.kind);
    if Covered(p, candidate) {
      var block :| block in p.blockedFunctions && BlockCovers(block, candidate);
      CoveringBlockMatches(block, rule, id);
      assert false;
    }
  }

  lemma AllowedIsEligible(inv: Inventory, p: Policy, id: Identity)
    requires inv.Valid() && FunctionAllowed(inv, p, id)
    ensures FunctionEligible(inv, p, id.name)
  {
    if GrantAllows(p, id) {
      var rule :| rule in p.allowedFunctions && FunctionMatches(rule, id, ExactSchemaRequired(id));
      assert FunctionMatches(rule, id, false);
      AllowedRuleSurvives(inv, p, rule, id);
    } else {
      var rule := FunctionGrant(Lower(id.catalog), FoldPath(id.schemaPath), Lower(id.name), id.kind);
      assert FunctionMatches(rule, id, false);
      AllowedRuleSurvives(inv, p, rule, id);
    }
  }

  /** Every name a block mentions; a fresh one escapes all of them. */
  ghost function BlockNames(p: Policy): set<string> {
    (set block | block in p.blockedFunctions :: block.catalog)
    + (set block, part | block in p.blockedFunctions && part in block.schemaPath :: part)
  }

  /** The identity a surviving pattern admits: wildcards become a name no block mentions. */
  ghost function Witness(p: Policy, rule: FunctionGrant, kind: string, internal: bool): (id: Identity)
    ensures |id.schemaPath| == |rule.schemaPath|
  {
    var spare := Fresh(BlockNames(p));
    Identity(if AnyCatalog(rule.catalog) then spare else rule.catalog,
             seq(|rule.schemaPath|, i requires 0 <= i < |rule.schemaPath| =>
               if rule.schemaPath[i] == WILDCARD then spare else rule.schemaPath[i]),
             rule.name, kind, Some(internal))
  }

  /** A block that covers neither the pattern nor, therefore, its witness. */
  lemma UncoveredWitnessEscapes(p: Policy, rule: FunctionGrant, kind: string, internal: bool, block: FunctionGrant)
    requires WellFormedGrant(rule) && block in p.blockedFunctions
    requires !BlockCovers(block, FunctionGrant(rule.catalog, rule.schemaPath, rule.name, kind))
    ensures !FunctionMatches(block, Witness(p, rule, kind, internal), false)
  {
    var id := Witness(p, rule, kind, internal);
    var spare := Fresh(BlockNames(p));
    assert block.catalog in BlockNames(p);
    if FunctionMatches(block, id, false) {
      assert block.catalog == rule.catalog || AnyCatalog(block.catalog);
      forall i | 0 <= i < |block.schemaPath|
        ensures block.schemaPath[i] == WILDCARD || block.schemaPath[i] == rule.schemaPath[i]
      {
        assert block.schemaPath[i] in block.schemaPath && block.schemaPath[i] in BlockNames(p);
        assert Lower(id.schemaPath[i]) == id.schemaPath[i];
      }
      assert false;
    }
  }

  lemma WitnessMatches(p: Policy, rule: FunctionGrant, kind: string, internal: bool)
    requires WellFormedGrant(rule) && kind in KINDS && (rule.kind == "" || rule.kind == kind)
    requires internal ==> WILDCARD !in rule.schemaPath
    ensures var id := Witness(p, rule, kind, internal);
            NonemptyParts(id.schemaPath) && FunctionMatches(rule, id, internal)
  {
  }

  /** A default identity has no wildcards, so its witness is the default itself. */
  lemma ConcreteWitness(p: Policy, rule: FunctionGrant, kind: string)
    requires ConcretePath(rule.schemaPath) && !AnyCatalog(rule.catalog) && Folded(rule.catalog)
    ensures var id := Witness(p, rule, kind, true);
            Lower(id.catalog) == rule.catalog && FoldPath(id.schemaPath) == rule.schemaPath
  {
  }

  lemma UncoveredIsUnblocked(p: Policy, rule: FunctionGrant, kind: string, internal: bool)
    requires WellFormedGrant(rule) && !Covered(p, FunctionGrant(rule.catalog, rule.schemaPath, rule.name, kind))
    ensures !FunctionBlocked(p, Witness(p, rule, kind, internal))
  {
    forall block | block in p.blockedFunctions
      ensures !FunctionMatches(block, Witness(p, rule, kind, internal), false)
    {
      UncoveredWitnessEscapes(p, rule, kind, internal, block);
    }
  }

  lemma GrantSurvivorIsAllowed(inv: Inventory, p: Policy, rule: FunctionGrant, name: string) returns (id: Identity)
    requires WellFormedGrant(rule) && Survives(p, rule, name) && !inv.NeverBind(name) && rule in p.allowedFunctions
    ensures Lower(id.name) == Lower(name) && FunctionAllowed(inv, p, id)
  {
    var kind :| kind in KINDS && (rule.kind == "" || rule.kind == kind)
      && !Covered(p, FunctionGrant(rule.catalog, rule.schemaPath, Lower(name), kind));
    id := Witness(p, rule, kind, false);
    WitnessMatches(p, rule, kind, false);
    UncoveredIsUnblocked(p, rule, kind, false);
    assert GrantAllows(p, id);
  }

  lemma DefaultSurvivorIsAllowed(inv: Inventory, p: Policy, rule: FunctionGrant, name: string) returns (id: Identity)
    requires inv.Valid() && Survives(p, rule, name) && !inv.NeverBind(name) && p.defaults && rule in inv.defaults
    ensures Lower(id.name) == Lower(name) && FunctionAllowed(inv, p, id)
  {
    assert rule.kind in KINDS && rule.kind != "";
    id := Witness(p, rule, rule.kind, true);
    WitnessMatches(p, rule, rule.kind, true);
    UncoveredIsUnblocked(p, rule, rule.kind, true);
    ConcreteWitness(p, rule, rule.kind);
    assert DefaultAllows(inv, p, id);
  }

  /** The screen is exact: it passes a leaf precisely when some identity with that leaf would be allowed. */
  lemma LeafScreenIsExact(inv: Inventory, p: Policy, name: string)
    requires inv.Valid() && WellFormedPolicy(p)
    ensures FunctionEligible(inv, p, name) <==>
            exists id: Identity :: Lower(id.name) == Lower(name) && FunctionAllowed(inv, p, id)
  {
    if id: Identity :| Lower(id.name) == Lower(name) && FunctionAllowed(inv, p, id) {
      AllowedIsEligible(inv, p, id);
      EligibleByLeaf(inv, p, id.name, name);
    }
    if FunctionEligible(inv, p, name) {
      if rule :| rule in p.allowedFunctions && Survives(p, rule, name) {
        var id := GrantSurvivorIsAllowed(inv, p, rule, name);
      } else {
        var rule :| rule in inv.defaults && Survives(p, rule, name);
        var id := DefaultSurvivorIsAllowed(inv, p, rule, name);
      }
    }
  }

  lemma EligibleByLeaf(inv: Inventory, p: Policy, a: string, b: string)
    requires Lower(a) == Lower(b) && FunctionEligible(inv, p, a)
    ensures FunctionEligible(inv, p, b)
  {
    if rule :| rule in p.allowedFunctions && Survives(p, rule, a) {
      assert Survives(p, rule, b);
    } else {
      var rule :| rule in inv.defaults && Survives(p, rule, a);
      assert Survives(p, rule, b);
    }
  }
}
