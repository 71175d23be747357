/** Function authorization of a bound plan, one policy layer at a time. */
module PlanAuthorization {
  import opened Names
  import opened Policies
  import opened Trees
  import opened Origins
  import opened Plans
  import opened Walks

  // ------------------------------------------------------- what a plan asks for

  /** One bound function as the walk meets it, before its origin is resolved. */
  datatype Call = Call(id: Identity, callers: bool, grant: bool, definition: Option<Identity>)

  datatype Step = Invoke(call: Call) | Blind

  /** Is the name the caller's, or one the caller's COLLATE chose? */
  predicate CallersName(binding: BindingPolicy, prov: Provenance, name: string) {
    Attributable(prov, binding, name) || Lower(name) in prov.collationFunctions
  }

  /** An engine descriptor read as a function of one kind. */
  function As(id: Identity, kind: string): Identity {
    id.(kind := kind)
  }

  function DefinedAs(definition: Option<Identity>, kind: string): Option<Identity> {
    if definition.None? then None else Some(As(definition.value, kind))
  }

  const UNNEST_IDENTITY := Identity("system", ["main"], "unnest", "scalar", Some(true))

  function ScanSteps(binding: BindingPolicy, prov: Provenance, node: OpNode): seq<Step> {
    if node.kind.Get? && node.kind.scan.function_.name != "seq_scan" then
      var scan := node.kind.scan;
      [Invoke(Call(As(scan.function_, "table"), scan.table.None? && CallersName(binding, prov, scan.function_.name),
                   true, None))]
    else []
  }

  predicate Dispatches(prov: Provenance, name: string) {
    prov.authorizedDispatchers != {} && DispatchingAggregator(name)
  }

  function ExprSteps(binding: BindingPolicy, prov: Provenance, node: ExprNode): seq<Step> {
    match node
    case OtherExpr => []
    case UnnestExpr => [Invoke(Call(UNNEST_IDENTITY, CallersName(binding, prov, "unnest"), true, None))]
    case FunctionExpr(id, definition, opaqueLambda, target) =>
      var written := Lower(id.name) in binding.callerFunctions || Lower(id.name) in prov.collationFunctions
                     || (binding.callerCollates && CollationFunction(id.name));
      [Invoke(Call(As(id, "scalar"), CallersName(binding, prov, id.name), written, DefinedAs(definition, "scalar")))]
      + (if opaqueLambda then [Blind] else [])
      + (match target
         case NoTarget => []
         case Uninspectable => [Blind]
         case Target(agg) =>
           var dispatched := Dispatches(prov, id.name);
           var callers := CallersName(binding, prov, id.name) || CallersName(binding, prov, agg.name) || dispatched;
           [Invoke(Call(As(agg, "aggregate"), callers, dispatched, None))])
    case AggregateExpr(id, definition) =>
      [Invoke(Call(As(id, "aggregate"), CallersName(binding, prov, id.name), Lower(id.name) in binding.callerFunctions,
                   DefinedAs(definition, "aggregate")))]
    case WindowAggregateExpr(id, definition) =>
      [Invoke(Call(As(id, "aggregate"), CallersName(binding, prov, id.name), true, DefinedAs(definition, "aggregate")))]
    case WindowExpr(id) => [Invoke(Call(As(id, "window"), CallersName(binding, prov, id.name), true, None))]
    case UnknownWindowExpr => [Blind]
  }

  function Expressions(root: Plan): seq<Expression> {
    FlatMap((node: OpNode) => node.expressions, Visit([root]))
  }

  /** Every function the walk of a plan meets, in order: scans while operators drain, then all expressions. */
  function PlanSteps(binding: BindingPolicy, prov: Provenance, root: Plan): seq<Step> {
    FlatMap((node: OpNode) => ScanSteps(binding, prov, node), Visit([root]))
    + FlatMap((node: ExprNode) => ExprSteps(binding, prov, node), Visit(Expressions(root)))
  }

  // ------------------------------------------------------- resolving one call

  /** A retained definition proves an edge from a source entry to the implementation bound for it. */
  function FromDefinition(prov: Provenance, id: Identity, definition: Option<Identity>): (r: Identity)
    ensures r.name == id.name && r.kind == id.kind
  {
    if definition.None? || definition.value.FoldedKey() !in prov.functionEntries then id
    else
      var k := definition.value.FoldedKey();
      var source := Identity(k.catalog, k.schemaPath, k.name, k.kind, prov.functionEntries[k]);
      if !MayImplement(source, Lower(id.name)) then id
      else
        var placed := if id.catalog == "" && id.schemaPath == []
                      then id.(catalog := k.catalog, schemaPath := k.schemaPath) else id;
        if Lower(placed.catalog) == k.catalog && FoldPath(placed.schemaPath) == k.schemaPath
        then placed.(internal := source.internal) else placed
  }

  /** Restore the origin flag from an exact observed entry; an unknown substitution stays unknown. */
  function WithOrigin(prov: Provenance, id: Identity): (r: Identity)
    ensures r.Key() == id.Key()
  {
    var k := id.FoldedKey();
    if id.internal.Some? then id
    else if k in prov.functionEntries then id.(internal := prov.functionEntries[k])
    else if k in prov.callerImplementations then id.(internal := prov.callerImplementations[k])
    else if k in prov.trustedImplementations then id.(internal := prov.trustedImplementations[k])
    else id
  }

  /** An unqualified aggregate specialization is the one system aggregate of that name, when nothing competes. */
  function Recovered(prov: Provenance, id: Identity, definition: Option<Identity>): (r: Identity)
    ensures Lower(r.name) == Lower(id.name) && r.kind == id.kind
  {
    var name := Lower(id.name);
    var k := FunctionGrant("system", ["main"], name, "aggregate");
    var seen := prov.callerImplementations.Keys + prov.trustedImplementations.Keys;
    LowerIdempotent(id.name);
    if && id.catalog == "" && id.schemaPath == [] && id.kind == "aggregate"
       && (definition.None? || definition.value.System())
       && k in seen && (forall e :: e in seen && Lower(e.name) == name && e.kind == id.kind ==> e == k)
    then Identity("system", ["main"], name, "aggregate",
                  if k in prov.trustedImplementations then prov.trustedImplementations[k]
                  else prov.callerImplementations[k])
    else id
  }

  /** A call with its origin settled. `grantOff` says whether a grant is needed once the defaults are off. */
  datatype Resolved = Resolved(id: Identity, callers: bool, grantOn: bool, grantOff: bool)

  predicate DefinedByCaller(prov: Provenance, definition: Option<Identity>) {
    definition.Some? && definition.value.FoldedKey() in prov.callerImplementations
  }

  function Resolve(binding: BindingPolicy, prov: Provenance, call: Call): Resolved {
    var id := Recovered(prov, WithOrigin(prov, FromDefinition(prov, call.id, call.definition)), call.definition);
    var key := id.FoldedKey();
    var trusted := key in prov.trustedImplementations && !binding.Implicit(key.name)
                   && key.name !in prov.collationFunctions;
    var observed := key in prov.callerImplementations;
    var defined := DefinedByCaller(prov, call.definition);
    var callers := (call.callers && !trusted) || observed || defined;
    var grant := call.grant || (defined && (!call.definition.value.System() || !observed));
    var expanded := Lower(call.id.name) in prov.callerExpansions || Lower(call.id.name) in prov.callerExpansionTargets;
    Resolved(id, callers, grant, grant || expanded || (callers && observed))
  }

  /** The rule one resolved function must meet. */
  predicate FunctionRefused(inv: Inventory, p: Policy, binding: BindingPolicy, id: Identity, attributable: bool,
                            grant: bool)
  {
    var canonical := Lower(id.name);
    || inv.ControlPlane(id.name)
    || (attributable && FunctionDenied(inv, p, id))
    || (grant && attributable && !FunctionAllowed(inv, p, id))
    || (!grant && attributable && !id.System())
    || (canonical in binding.systemFunctions && !id.System())
    || (binding.Implicit(canonical) && (!id.System() || !FunctionAllowed(inv, p, id)))
  }

  predicate CallPasses(inv: Inventory, p: Policy, binding: BindingPolicy, prov: Provenance, call: Call) {
    var r := Resolve(binding, prov, call);
    !FunctionRefused(inv, p, binding, r.id, r.callers, if p.defaults then r.grantOn else r.grantOff)
  }

  predicate StepPasses(inv: Inventory, p: Policy, binding: BindingPolicy, prov: Provenance, step: Step) {
    step.Invoke? && CallPasses(inv, p, binding, prov, step.call)
  }

  /** One layer accepts a plan: every function in it passes. */
  predicate Accepts(inv: Inventory, p: Policy, binding: BindingPolicy, prov: Provenance, root: Plan) {
    forall step :: step in PlanSteps(binding, prov, root) ==> StepPasses(inv, p, binding, prov, step)
  }

  // ------------------------------------------------------- evidence

  /** The functions a plan binds, and those of them policy holds the caller to. Neither mentions a policy. */
  function PlanFunctions(binding: BindingPolicy, prov: Provenance, root: Plan): set<FunctionGrant> {
    set step | step in PlanSteps(binding, prov, root) && step.Invoke? :: Resolve(binding, prov, step.call).id.Key()
  }

  function PlanCallers(binding: BindingPolicy, prov: Provenance, root: Plan): set<FunctionGrant> {
    set step | step in PlanSteps(binding, prov, root) && step.Invoke? && Resolve(binding, prov, step.call).callers
      :: Resolve(binding, prov, step.call).id.Key()
  }

  // ------------------------------------------------------- the walk

  function Check(inv: Inventory, p: Policy, binding: BindingPolicy, prov: Provenance, step: Step): Finding {
    if step.Blind? then Stuck
    else
      var r := Resolve(binding, prov, step.call);
      if CallPasses(inv, p, binding, prov, step.call) then Passed(r.id.Key(), r.callers) else Refused(r.id.Key())
  }

  function CheckAll(inv: Inventory, p: Policy, binding: BindingPolicy, prov: Provenance,
                    steps: seq<Step>): (r: seq<Finding>)
    ensures |r| == |steps|
    ensures forall i :: 0 <= i < |steps| ==> r[i] == Check(inv, p, binding, prov, steps[i])
  {
    seq(|steps|, i requires 0 <= i < |steps| => Check(inv, p, binding, prov, steps[i]))
  }

  /** The findings of one layer's walk, in the order the two stacks produce them. */
  function Findings(inv: Inventory, p: Policy, binding: BindingPolicy, prov: Provenance, root: Plan): seq<Finding> {
    FlatMap((node: OpNode) => CheckAll(inv, p, binding, prov, ScanSteps(binding, prov, node)), Visit([root]))
    + FlatMap((node: ExprNode) => CheckAll(inv, p, binding, prov, ExprSteps(binding, prov, node)),
              Visit(Expressions(root)))
  }

  lemma {:induction false} ScanFindings(inv: Inventory, p: Policy, binding: BindingPolicy, prov: Provenance,
                                        nodes: seq<OpNode>)
    ensures FlatMap((node: OpNode) => CheckAll(inv, p, binding, prov, ScanSteps(binding, prov, node)), nodes)
         == CheckAll(inv, p, binding, prov, FlatMap((node: OpNode) => ScanSteps(binding, prov, node), nodes))
  {
    if nodes != [] {
      ScanFindings(inv, p, binding, prov, nodes[..|nodes| - 1]);
    }
  }

  lemma {:induction false} ExprFindings(inv: Inventory, p: Policy, binding: BindingPolicy, prov: Provenance,
                                        nodes: seq<ExprNode>)
    ensures FlatMap((node: ExprNode) => CheckAll(inv, p, binding, prov, ExprSteps(binding, prov, node)), nodes)
         == CheckAll(inv, p, binding, prov, FlatMap((node: ExprNode) => ExprSteps(binding, prov, node), nodes))
  {
    if nodes != [] {
      ExprFindings(inv, p, binding, prov, nodes[..|nodes| - 1]);
    }
  }

  /** Node by node or all at once, the same checks in the same order. */
  lemma FindingsAreChecks(inv: Inventory, p: Policy, binding: BindingPolicy, prov: Provenance, root: Plan)
    ensures Findings(inv, p, binding, prov, root) == CheckAll(inv, p, binding, prov, PlanSteps(binding, prov, root))
  {
    ScanFindings(inv, p, binding, prov, Visit([root]));
    ExprFindings(inv, p, binding, prov, Visit(Expressions(root)));
  }

  /** Acceptance and evidence read off the findings. */
  lemma FindingsDecide(inv: Inventory, p: Policy, binding: BindingPolicy, prov: Provenance, root: Plan)
    ensures var f := Findings(inv, p, binding, prov, root);
            && (AllPassed(f) <==> Accepts(inv, p, binding, prov, root))
            && (AllPassed(f) ==> Keys(f) == PlanFunctions(binding, prov, root)
                                 && CallerKeys(f) == PlanCallers(binding, prov, root))
  {
    FindingsAreChecks(inv, p, binding, prov, root);
    var steps := PlanSteps(binding, prov, root);
    ChecksDecide(inv, p, binding, prov, steps, CheckAll(inv, p, binding, prov, steps));
  }

  lemma ChecksDecide(inv: Inventory, p: Policy, binding: BindingPolicy, prov: Provenance, steps: seq<Step>,
                     f: seq<Finding>)
    requires |f| == |steps| && forall i :: 0 <= i < |steps| ==> f[i] == Check(inv, p, binding, prov, steps[i])
    ensures AllPassed(f) <==> forall step :: step in steps ==> StepPasses(inv, p, binding, prov, step)
    ensures AllPassed(f) ==>
            && Keys(f) == (set s | s in steps && s.Invoke? :: Resolve(binding, prov, s.call).id.Key())
            && CallerKeys(f) == (set s | s in steps && s.Invoke? && Resolve(binding, prov, s.call).callers
                                   :: Resolve(binding, prov, s.call).id.Key())
  {
    forall i | 0 <= i < |steps| ensures f[i].Passed? <==> StepPasses(inv, p, binding, prov, steps[i]) {
    }
    if AllPassed(f) {
      var r := (s: Step) => if s.Invoke? then Resolve(binding, prov, s.call)
        else Resolved(UNNEST_IDENTITY, false, false, false);
      forall i | 0 <= i < |steps|
        ensures steps[i].Invoke? && f[i] == Passed(r(steps[i]).id.Key(), r(steps[i]).callers)
      {
        assert f[i] in f;
      }
      KeysOf(steps, r, f);
    }
  }

  /** The keys of a passing run are the resolved keys of its steps; `r` names each step's resolution. */
  lemma KeysOf(steps: seq<Step>, r: Step -> Resolved, f: seq<Finding>)
    requires |f| == |steps|
    requires forall i :: 0 <= i < |steps| ==> steps[i].Invoke? && f[i] == Passed(r(steps[i]).id.Key(),
                                                                                 r(steps[i]).callers)
    ensures Keys(f) == (set s | s in steps :: r(s).id.Key())
    ensures CallerKeys(f) == (set s | s in steps && r(s).callers :: r(s).id.Key())
  {
    forall s | s in steps ensures Passed(r(s).id.Key(), r(s).callers) in f {
      var i :| 0 <= i < |steps| && steps[i] == s;
      assert f[i] in f;
    }
    forall x | x in f ensures exists s :: s in steps && x == Passed(r(s).id.Key(), r(s).callers) {
      var i :| 0 <= i < |f| && f[i] == x;
      assert steps[i] in steps;
    }
  }

  /** The walk of a plan under one layer meets something it cannot inspect before anything it refuses. */
  ghost predicate Breaks(inv: Inventory, p: Policy, binding: BindingPolicy, prov: Provenance, root: Plan) {
    BreaksAmong(inv, p, binding, prov, PlanSteps(binding, prov, root))
  }

  ghost predicate BreaksAmong(inv: Inventory, p: Policy, binding: BindingPolicy, prov: Provenance, steps: seq<Step>) {
    exists i: nat :: i < |steps| && steps[i].Blind?
                     && forall j :: 0 <= j < i ==> StepPasses(inv, p, binding, prov, steps[j])
  }

  lemma BreaksIsStuck(inv: Inventory, p: Policy, binding: BindingPolicy, prov: Provenance, root: Plan)
    ensures Breaks(inv, p, binding, prov, root) <==> EndsStuck(Findings(inv, p, binding, prov, root))
  {
    FindingsAreChecks(inv, p, binding, prov, root);
    var steps := PlanSteps(binding, prov, root);
    StuckAmong(inv, p, binding, prov, steps, CheckAll(inv, p, binding, prov, steps));
  }

  lemma StuckAmong(inv: Inventory, p: Policy, binding: BindingPolicy, prov: Provenance, steps: seq<Step>,
                   f: seq<Finding>)
    requires |f| == |steps| && forall i :: 0 <= i < |steps| ==> f[i] == Check(inv, p, binding, prov, steps[i])
    ensures BreaksAmong(inv, p, binding, prov, steps) <==> EndsStuck(f)
  {
    forall i | 0 <= i < |steps|
      ensures (f[i].Passed? <==> StepPasses(inv, p, binding, prov, steps[i])) && (f[i].Stuck? <==> steps[i].Blind?)
    {
    }
    if i: nat :| && i < |steps| && steps[i].Blind?
                 && forall j :: 0 <= j < i ==> StepPasses(inv, p, binding, prov, steps[j]) {
      assert FailsAt(f, i);
    }
    if i: nat :| FailsAt(f, i) && f[i].Stuck? {
      forall j | 0 <= j < i ensures StepPasses(inv, p, binding, prov, steps[j]) {
        PassedBefore(f, i, j);
      }
    }
  }

  /** The same for both layers, the second walked only when the first accepts. */
  ghost predicate LayersBreak(inv: Inventory, layers: Layers, binding: BindingPolicy, prov: Provenance, root: Plan) {
    || Breaks(inv, layers.ceiling, binding, prov, root)
    || (Accepts(inv, layers.ceiling, binding, prov, root) && Breaks(inv, layers.policy, binding, prov, root))
  }

  /** The walk of a plan under one layer: it passes exactly the accepted plans, and its evidence is the plan's own. */
  method AuthorizePlanAgainst(inv: Inventory, p: Policy, binding: BindingPolicy, prov: Provenance, root: Plan,
                              before: Evidence)
    returns (verdict: Verdict, after: Evidence)
    ensures verdict.Pass? <==> Accepts(inv, p, binding, prov, root)
    ensures verdict.Pass? ==>
            after == before.(functions := before.functions + PlanFunctions(binding, prov, root),
                             callerFunctions := before.callerFunctions + PlanCallers(binding, prov, root))
    ensures Ran(Findings(inv, p, binding, prov, root), before, verdict, after)
    ensures verdict.Broken? <==> Breaks(inv, p, binding, prov, root)
  {
    var expressions: seq<Expression>;
    verdict, after, expressions :=
      Drain((node: OpNode) => CheckAll(inv, p, binding, prov, ScanSteps(binding, prov, node)),
            (node: OpNode) => node.expressions, [root], before);
    var met, middle := verdict, after;
    if verdict.Pass? {
      var rest: seq<Expression>;
      verdict, after, rest :=
        Drain((node: ExprNode) => CheckAll(inv, p, binding, prov, ExprSteps(binding, prov, node)),
              (node: ExprNode) => [], expressions, middle);
    }
    RanBoth(FlatMap((node: OpNode) => CheckAll(inv, p, binding, prov, ScanSteps(binding, prov, node)), Visit([root])),
            FlatMap((node: ExprNode) => CheckAll(inv, p, binding, prov, ExprSteps(binding, prov, node)),
                    Visit(Expressions(root))), before, met, middle, verdict, after);
    FindingsDecide(inv, p, binding, prov, root);
    BreaksIsStuck(inv, p, binding, prov, root);
    BreaksIffStuck(Findings(inv, p, binding, prov, root), before, verdict, after);
  }

  /** Both layers in turn, the ceiling first. */
  method AuthorizePlan(inv: Inventory, layers: Layers, binding: BindingPolicy, prov: Provenance, root: Plan,
                       before: Evidence)
    returns (verdict: Verdict, after: Evidence)
    ensures verdict.Pass? <==> Accepts(inv, layers.ceiling, binding, prov, root)
                               && Accepts(inv, layers.policy, binding, prov, root)
    ensures verdict.Pass? ==>
            after == before.(functions := before.functions + PlanFunctions(binding, prov, root),
                             callerFunctions := before.callerFunctions + PlanCallers(binding, prov, root))
    ensures !Accepts(inv, layers.ceiling, binding, prov, root) ==>
            Ran(Findings(inv, layers.ceiling, binding, prov, root), before, verdict, after)
    ensures verdict.Broken? <==> LayersBreak(inv, layers, binding, prov, root)
    ensures verdict.Deny? ==> after.violations != {}
  {
    verdict, after := AuthorizePlanAgainst(inv, layers.ceiling, binding, prov, root, before);
    if verdict.Pass? {
      var middle := after;
      verdict, after := AuthorizePlanAgainst(inv, layers.policy, binding, prov, root, middle);
    }
  }
}
