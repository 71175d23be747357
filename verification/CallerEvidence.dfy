/** The functions attributed to the caller are exactly the functions a policy can decide about. */
module CallerEvidence {
  import opened Names
  import opened Policies
  import opened Trees
  import opened Origins
  import opened Plans
  import opened Walks
  import opened PlanAuthorization

  /** The kinds the walk itself assigns are all supported. */
  lemma StepKinds(binding: BindingPolicy, prov: Provenance, root: Plan, call: Call)
    requires Invoke(call) in PlanSteps(binding, prov, root)
    ensures call.id.kind in KINDS
  {
    FlatMapMember((node: OpNode) => ScanSteps(binding, prov, node), Visit([root]), Invoke(call));
    FlatMapMember((node: ExprNode) => ExprSteps(binding, prov, node), Visit(Expressions(root)), Invoke(call));
  }

  /** No attached-catalog scan runs a reader whose name the caller's syntax could also imply. */
  ghost predicate NoImplicitTableScan(binding: BindingPolicy, root: Plan) {
    forall node :: node in Nodes(root) && node.kind.Get? && node.kind.scan.table.Some? ==>
      !binding.Implicit(Lower(node.kind.scan.function_.name))
  }

  lemma ImplicitExprIsCallers(binding: BindingPolicy, prov: Provenance, node: ExprNode, call: Call)
    requires !prov.unattributed && Invoke(call) in ExprSteps(binding, prov, node)
    requires binding.Implicit(Lower(call.id.name))
    ensures call.callers
  {
    assert Attributable(prov, binding, call.id.name);
  }

  lemma ImplicitScanIsCallers(binding: BindingPolicy, prov: Provenance, node: OpNode, call: Call)
    requires !prov.unattributed && Invoke(call) in ScanSteps(binding, prov, node)
    requires binding.Implicit(Lower(call.id.name)) && node.kind.scan.table.None?
    ensures call.callers
  {
    assert Attributable(prov, binding, call.id.name);
  }

  /** Names the caller's syntax implies are met as the caller's. */
  lemma ImplicitIsCallers(binding: BindingPolicy, prov: Provenance, root: Plan, call: Call)
    requires !prov.unattributed && NoImplicitTableScan(binding, root)
    requires Invoke(call) in PlanSteps(binding, prov, root) && binding.Implicit(Lower(call.id.name))
    ensures call.callers
  {
    var scans := (node: OpNode) => ScanSteps(binding, prov, node);
    var nested := (node: ExprNode) => ExprSteps(binding, prov, node);
    if Invoke(call) in FlatMap(scans, Visit([root])) {
      FlatMapMember(scans, Visit([root]), Invoke(call));
      var node :| node in Visit([root]) && Invoke(call) in scans(node);
      VisitRoot(root);
      assert node in multiset(Visit([root]));
      ImplicitScanIsCallers(binding, prov, node, call);
    } else {
      FlatMapMember(nested, Visit(Expressions(root)), Invoke(call));
      var node :| node in Visit(Expressions(root)) && Invoke(call) in nested(node);
      ImplicitExprIsCallers(binding, prov, node, call);
    }
  }

  lemma ResolveKeepsName(binding: BindingPolicy, prov: Provenance, call: Call)
    ensures var r := Resolve(binding, prov, call);
            && Lower(r.id.name) == Lower(call.id.name) && r.id.kind == call.id.kind
            && (r.grantOn ==> r.grantOff)
            && (binding.Implicit(Lower(call.id.name)) && call.callers ==> r.callers)
  {
  }

  /** What a second policy must say about a resolved caller function for the first one's acceptance to carry over. */
  predicate CarriesOver(inv: Inventory, p: Policy, q: Policy, id: Identity) {
    && !FunctionDenied(inv, q, id)
    && (FunctionAllowed(inv, p, id) ==> FunctionAllowed(inv, q, id))
    && (q.defaults == p.defaults || FunctionAllowed(inv, q, id))
  }

  lemma CallCarriesOver(inv: Inventory, p: Policy, q: Policy, binding: BindingPolicy, prov: Provenance, call: Call)
    requires CallPasses(inv, p, binding, prov, call) && (q.defaults ==> p.defaults)
    requires binding.Implicit(Lower(call.id.name)) ==> call.callers
    requires var r := Resolve(binding, prov, call); r.callers ==> CarriesOver(inv, p, q, r.id)
    ensures CallPasses(inv, q, binding, prov, call)
  {
    ResolveKeepsName(binding, prov, call);
    var r := Resolve(binding, prov, call);
    VerdictCarriesOver(inv, p, q, binding, r.id, r.callers, if p.defaults then r.grantOn else r.grantOff,
                       if q.defaults then r.grantOn else r.grantOff);
  }

  lemma VerdictCarriesOver(inv: Inventory, p: Policy, q: Policy, binding: BindingPolicy, id: Identity, callers: bool,
                           grant: bool, grant': bool)
    requires !FunctionRefused(inv, p, binding, id, callers, grant)
    requires (grant ==> grant') && (p.defaults == q.defaults ==> grant == grant')
    requires binding.Implicit(Lower(id.name)) ==> callers
    requires callers ==> CarriesOver(inv, p, q, id)
    ensures !FunctionRefused(inv, q, binding, id, callers, grant')
  {
  }

  /** A policy acts on a plan only through the caller's functions. */
  lemma PolicyActsOnCallersOnly(inv: Inventory, p: Policy, q: Policy, binding: BindingPolicy, prov: Provenance,
                                root: Plan)
    requires !prov.unattributed && NoImplicitTableScan(binding, root)
    requires Accepts(inv, p, binding, prov, root) && (q.defaults ==> p.defaults)
    requires forall call :: Invoke(call) in PlanSteps(binding, prov, root) && Resolve(binding, prov, call).callers ==>
               CarriesOver(inv, p, q, Resolve(binding, prov, call).id)
    ensures Accepts(inv, q, binding, prov, root)
  {
    forall step | step in PlanSteps(binding, prov, root) ensures StepPasses(inv, q, binding, prov, step) {
      assert StepPasses(inv, p, binding, prov, step);
      if binding.Implicit(Lower(step.call.id.name)) {
        ImplicitIsCallers(binding, prov, root, step.call);
      }
      CallCarriesOver(inv, p, q, binding, prov, step.call);
    }
  }

  // ------------------------------------------------------- exact grants

  function ExactGrant(key: FunctionGrant): FunctionGrant {
    FunctionGrant(Lower(key.catalog), FoldPath(key.schemaPath), Lower(key.name), key.kind)
  }

  /** The policy that turns the defaults off, blocks nothing and grants exactly `keys`. */
  function ExactPolicy(p: Policy, keys: set<FunctionGrant>): Policy {
    p.(defaults := false, blockedFunctions := {}, allowedFunctions := set k | k in keys :: ExactGrant(k))
  }

  function Blocking(p: Policy, key: FunctionGrant): Policy {
    p.(blockedFunctions := p.blockedFunctions + {ExactGrant(key)})
  }

  /** An identity a policy admitted, or a system builtin, is one an exact rule can name. */
  predicate Nameable(id: Identity) {
    && id.name != "" && id.catalog != "" && id.schemaPath != [] && NonemptyParts(id.schemaPath)
    && (ExactSchemaRequired(id) ==> WILDCARD !in FoldPath(id.schemaPath))
  }

  lemma AllowedIsNameable(inv: Inventory, p: Policy, id: Identity)
    requires inv.Valid() && FunctionAllowed(inv, p, id)
    ensures Nameable(id)
  {
    if ExactSchemaRequired(id) {
      var path := if DefaultAllows(inv, p, id) then FoldPath(id.schemaPath)
                  else var rule :| rule in p.allowedFunctions && FunctionMatches(rule, id, true); rule.schemaPath;
      assert WILDCARD !in path;
      assert FoldPath(id.schemaPath) == path;
    }
  }

  lemma SystemIsNameable(id: Identity)
    requires id.System()
    ensures Nameable(id)
  {
    assert FoldPath(id.schemaPath)[0] == "main" == Lower(id.schemaPath[0]);
  }

  lemma PassingCallerIsNameable(inv: Inventory, p: Policy, binding: BindingPolicy, prov: Provenance, call: Call)
    requires inv.Valid() && CallPasses(inv, p, binding, prov, call) && Resolve(binding, prov, call).callers
    ensures Nameable(Resolve(binding, prov, call).id)
    ensures !FunctionDenied(inv, p, Resolve(binding, prov, call).id)
  {
    var r := Resolve(binding, prov, call);
    if r.id.System() {
      SystemIsNameable(r.id);
    } else {
      AllowedIsNameable(inv, p, r.id);
    }
  }

  lemma ExactRuleMatches(id: Identity)
    requires Nameable(id)
    ensures FunctionMatches(ExactGrant(id.Key()), id, ExactSchemaRequired(id))
    ensures FunctionMatches(ExactGrant(id.Key()), id, false)
  {
    var rule := ExactGrant(id.Key());
    assert NamespaceMatches(rule.catalog, rule.schemaPath, id.catalog, id.schemaPath, ExactSchemaRequired(id));
  }

  lemma ExactPolicyAllows(inv: Inventory, p: Policy, keys: set<FunctionGrant>, id: Identity)
    requires Nameable(id) && id.kind in KINDS && !inv.NeverBind(id.name) && id.Key() in keys
    ensures FunctionAllowed(inv, ExactPolicy(p, keys), id)
  {
    ExactRuleMatches(id);
    var q := ExactPolicy(p, keys);
    assert ExactGrant(id.Key()) in q.allowedFunctions;
    assert GrantAllows(q, id);
  }

  // ------------------------------------------------------- the two oracles

  /** Replay: an accepted plan is accepted again with the defaults off and exact grants for its caller functions. */
  lemma CallerGrantsSuffice(inv: Inventory, p: Policy, binding: BindingPolicy, prov: Provenance, root: Plan)
    requires inv.Valid() && !prov.unattributed && NoImplicitTableScan(binding, root)
    requires Accepts(inv, p, binding, prov, root)
    ensures Accepts(inv, ExactPolicy(p, PlanCallers(binding, prov, root)), binding, prov, root)
  {
    var keys := PlanCallers(binding, prov, root);
    var q := ExactPolicy(p, keys);
    forall call | Invoke(call) in PlanSteps(binding, prov, root) && Resolve(binding, prov, call).callers
      ensures CarriesOver(inv, p, q, Resolve(binding, prov, call).id)
    {
      var id := Resolve(binding, prov, call).id;
      assert StepPasses(inv, p, binding, prov, Invoke(call));
      PassingCallerIsNameable(inv, p, binding, prov, call);
      StepKinds(binding, prov, root, call);
      ResolveKeepsName(binding, prov, call);
      assert id.Key() in keys;
      ExactPolicyAllows(inv, p, keys, id);
    }
    PolicyActsOnCallersOnly(inv, p, q, binding, prov, root);
  }

  /** Block: refusing any one of the caller functions exactly refuses the plan. */
  lemma CallerBlockRefuses(inv: Inventory, p: Policy, binding: BindingPolicy, prov: Provenance, root: Plan,
                           key: FunctionGrant)
    requires inv.Valid() && Accepts(inv, p, binding, prov, root)
    requires key in PlanCallers(binding, prov, root)
    ensures !Accepts(inv, Blocking(p, key), binding, prov, root)
  {
    var step :| step in PlanSteps(binding, prov, root) && step.Invoke? && Resolve(binding, prov, step.call).callers
      && Resolve(binding, prov, step.call).id.Key() == key;
    var id := Resolve(binding, prov, step.call).id;
    assert StepPasses(inv, p, binding, prov, step);
    PassingCallerIsNameable(inv, p, binding, prov, step.call);
    ExactRuleMatches(id);
    var q := Blocking(p, key);
    assert ExactGrant(key) in q.blockedFunctions;
    assert FunctionBlocked(q, id);
    assert !StepPasses(inv, q, binding, prov, step);
  }

  lemma BlockingOnlyDenies(inv: Inventory, p: Policy, rule: FunctionGrant, id: Identity)
    ensures var q := p.(blockedFunctions := p.blockedFunctions + {rule});
            && (FunctionDenied(inv, q, id) <==> FunctionDenied(inv, p, id) || FunctionMatches(rule, id, false))
            && (FunctionAllowed(inv, q, id) <==> FunctionAllowed(inv, p, id) && !FunctionMatches(rule, id, false))
  {
    var q := p.(blockedFunctions := p.blockedFunctions + {rule});
    assert rule in q.blockedFunctions;
    assert GrantAllows(q, id) <==> GrantAllows(p, id);
    assert FunctionBlocked(q, id) <==> FunctionBlocked(p, id) || FunctionMatches(rule, id, false);
  }

  /** A block that reaches none of the caller's functions changes nothing, whatever else of the plan it matches. */
  lemma ForeignBlockIsInert(inv: Inventory, p: Policy, binding: BindingPolicy, prov: Provenance, root: Plan,
                            rule: FunctionGrant)
    requires !prov.unattributed && NoImplicitTableScan(binding, root)
    requires forall call :: Invoke(call) in PlanSteps(binding, prov, root) && Resolve(binding, prov, call).callers ==>
               !FunctionMatches(rule, Resolve(binding, prov, call).id, false)
    ensures Accepts(inv, p, binding, prov, root) <==>
            Accepts(inv, p.(blockedFunctions := p.blockedFunctions + {rule}), binding, prov, root)
  {
    var q := p.(blockedFunctions := p.blockedFunctions + {rule});
    forall call | Invoke(call) in PlanSteps(binding, prov, root) && Resolve(binding, prov, call).callers
      ensures Accepts(inv, p, binding, prov, root) ==> CarriesOver(inv, p, q, Resolve(binding, prov, call).id)
      ensures Accepts(inv, q, binding, prov, root) ==> CarriesOver(inv, q, p, Resolve(binding, prov, call).id)
    {
      BlockingOnlyDenies(inv, p, rule, Resolve(binding, prov, call).id);
      if Accepts(inv, p, binding, prov, root) {
        assert StepPasses(inv, p, binding, prov, Invoke(call));
      }
      if Accepts(inv, q, binding, prov, root) {
        assert StepPasses(inv, q, binding, prov, Invoke(call));
      }
    }
    if Accepts(inv, p, binding, prov, root) {
      PolicyActsOnCallersOnly(inv, p, q, binding, prov, root);
    }
    if Accepts(inv, q, binding, prov, root) {
      PolicyActsOnCallersOnly(inv, q, p, binding, prov, root);
    }
  }
}
