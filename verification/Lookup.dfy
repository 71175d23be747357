/** One catalog lookup of a private bind: attribution, authorization under both layers, and what it teaches. */
module Lookups {
  import opened Names
  import opened Policies
  import opened TablePolicy
  import opened Origins
  import opened Plans
  import opened PlanAuthorization
  import opened PlanCheck

  datatype EntryKind = BaseTable | View | ScalarFunction | AggregateFunction | TableFunction | ScalarMacro | TableMacro
                     | PragmaFunction | WindowFunction | OtherEntry

  /**
   * A catalog entry the binder retrieved. For a scalar macro, `bodyNames`, `bodyTables` and `bodyTargets` are the
   * function names, table references and dispatched aggregates its definition writes; `nativeCallback` marks a scalar
   * function whose bind can replace the node, `quack` an object of an attached remote catalog.
   */
  datatype CatalogEntry = CatalogEntry(
    kind: EntryKind, catalog: string, schemaPath: NamePath, name: string, internal: bool, bodyNames: set<string>,
    bodyTables: set<NamePath>, bodyTargets: set<string>, nativeCallback: bool, quack: bool)
  {
    predicate Object() {
      kind.BaseTable? || kind.View?
    }

    predicate Function() {
      !Object() && !kind.OtherEntry?
    }

    function Key(): Table {
      ObjectKey(catalog, schemaPath, name)
    }

    function AsTable(): TableEntry {
      TableEntry(catalog, schemaPath, name, internal)
    }

    function AsFunction(): Identity {
      Identity(catalog, schemaPath, name, KindName(kind), Some(internal))
    }

    /** The entry sits in system.main, spelled exactly so. */
    predicate Builtin() {
      catalog == "system" && schemaPath == ["main"]
    }
  }

  function KindName(kind: EntryKind): string {
    match kind
    case ScalarFunction => "scalar"
    case AggregateFunction => "aggregate"
    case TableFunction => "table"
    case ScalarMacro => "macro"
    case TableMacro => "table_macro"
    case PragmaFunction => "pragma"
    case WindowFunction => "window"
    case _ => ""
  }

  /**
   * What the callback itself looks up: the system aggregates by name, with their origin, and what the search path makes
   * of the aggregates that min and max depend on. A missing entry is an engine error.
   */
  datatype SystemCatalog = SystemCatalog(aggregates: map<string, bool>, dependencies: map<string, Identity>)

  /** How far a lookup has come: its verdict so far, and what it has learned and recorded. */
  datatype Progress = Progress(verdict: Verdict, prov: Provenance, evidence: Evidence)
  {
    /** The next stage, if there is one. */
    function Then(next: Progress): Progress {
      if verdict.Pass? then next else this
    }

    function Refuse(v: Violation): Progress {
      Progress(Deny, prov, evidence.(violations := evidence.violations + {v}))
    }
  }

  function WithFunction(e: Evidence, id: Identity, caller: bool): Evidence {
    e.(functions := e.functions + {id.Key()}, callerFunctions := e.callerFunctions + if caller then {id.Key()} else {})
  }

  // ------------------------------------------------------- attribution of one lookup

  /** The caller's when its text names it, or when its own binder retrieved it and no trusted macro body names it. */
  predicate ObjectIsCallers(binding: BindingPolicy, prov: Provenance, trusted: bool, key: Table) {
    CallerNamesObject(binding, key) || (!trusted && !NamesObject(prov.trustedTableNames, key))
  }

  predicate FunctionIsCallers(binding: BindingPolicy, prov: Provenance, trusted: bool, canonical: string) {
    !trusted && !(canonical in prov.trustedNames && !CallerCanName(prov, binding, canonical))
  }

  predicate LookupIsCallers(binding: BindingPolicy, prov: Provenance, trusted: bool, entry: CatalogEntry) {
    if entry.Object() then ObjectIsCallers(binding, prov, trusted, entry.Key())
    else FunctionIsCallers(binding, prov, trusted, Lower(entry.name))
  }

  /** Retrieving a trusted body arms the callback: the next binder copied from it is that body's. */
  predicate Arms(trusted: bool, attributable: bool, entry: CatalogEntry) {
    && !trusted
    && (|| ((entry.kind.View? || entry.kind.TableMacro?) && (!entry.internal || !attributable))
        || (entry.kind.TableFunction? && !attributable))
  }

  /** A scalar macro binds in its caller's binder, so its names are learned from the definition. */
  predicate Teaches(trusted: bool, entry: CatalogEntry) {
    !trusted && entry.kind.ScalarMacro?
  }

  // ------------------------------------------------------- authorization of one entry

  /** Under caller expansions, the names default macros introduced are held to system entries. */
  function LookupBinding(binding: BindingPolicy, prov: Provenance, canonical: string): BindingPolicy {
    if canonical in prov.replacementFunctions then
      binding.(systemFunctions := prov.callerExpansions, callerFunctions := binding.callerFunctions + {canonical})
    else if canonical in prov.callerExpansions then binding.(systemFunctions := prov.callerExpansions)
    else binding
  }

  predicate FunctionEntryRefused(inv: Inventory, p: Policy, binding: BindingPolicy, entry: CatalogEntry,
                                 attributable: bool)
  {
    var canonical := Lower(entry.name);
    var selected := canonical in binding.callerFunctions
                    || ((!p.defaults || !entry.internal) && canonical in binding.systemFunctions);
    FunctionRefused(inv, p, binding, entry.AsFunction(), attributable, selected)
  }

  /** Arguments that vary by row, or a literal the text walk relied on, need the builtin itself. */
  predicate Misplaced(binding: BindingPolicy, entry: CatalogEntry) {
    || ((entry.kind.TableFunction? || entry.kind.TableMacro?) && Lower(entry.name) in binding.runtimeTableFunctions
        && !(entry.kind.TableFunction? && entry.Builtin()))
    || (Lower(entry.name) in binding.literalConstructors && !(entry.kind.ScalarFunction? && entry.Builtin()))
  }

  predicate EntryRefused(inv: Inventory, p: Policy, binding: BindingPolicy, entry: CatalogEntry, attributable: bool) {
    || OpaqueQuack(entry.name) || FunctionEntryRefused(inv, p, binding, entry, attributable)
    || Misplaced(binding, entry)
  }

  /** A function entry under both layers, ceiling first. */
  function AuthorizeEntry(inv: Inventory, layers: Layers, binding: BindingPolicy, entry: CatalogEntry,
                          attributable: bool, g: Progress): Progress
  {
    var known := g.(evidence := WithFunction(g.evidence, entry.AsFunction(), attributable));
    if EntryRefused(inv, layers.ceiling, binding, entry, attributable) then
      g.Refuse(FunctionNotAllowed(entry.AsFunction().Key()))
    else if EntryRefused(inv, layers.policy, binding, entry, attributable) then
      known.Refuse(FunctionNotAllowed(entry.AsFunction().Key()))
    else known
  }

  /** A definition the plan could not be traced back to, or a quantile whose fraction is no literal. */
  predicate Untraceable(binding: BindingPolicy, entry: CatalogEntry, attributable: bool) {
    && attributable
    && (|| (entry.kind.ScalarFunction? && entry.nativeCallback && !entry.AsFunction().System())
        || (entry.kind.AggregateFunction? && entry.AsFunction().System()
            && Lower(entry.name) in binding.unsupportedQuantiles))
  }

  // ------------------------------------------------------- dispatched and dependent aggregates

  function SystemAggregate(name: string, internal: bool): Identity {
    Identity("system", ["main"], name, "aggregate", Some(internal))
  }

  function Dependency(name: string): string {
    if name == "min" then "arg_min" else "arg_max"
  }

  predicate TrustedDependency(id: Identity) {
    id.kind == "aggregate" && id.internal == Some(true) && id.catalog == "system" && id.schemaPath == ["main"]
  }

  /** Collated min and max resolve a second aggregate through the search path; a shadow of it is refused. */
  function CheckDependency(catalog: SystemCatalog, name: string, g: Progress): Progress {
    if name != "min" && name != "max" then g
    else if Dependency(name) !in catalog.dependencies then g.(verdict := Broken)
    else
      var id := catalog.dependencies[Dependency(name)];
      if !TrustedDependency(id) then g.Refuse(FunctionNotAllowed(id.Key()))
      else g.(prov := g.prov.(functionEntries := Insert(g.prov.functionEntries, id)))
  }

  /** A default macro's own aggregate is part of the defaults; one the caller dispatches to needs a grant. */
  predicate TargetAllowed(inv: Inventory, p: Policy, id: Identity, expanded: bool) {
    if expanded then !FunctionBlocked(p, id)
      && ((p.defaults && id.internal == Some(true)) || FunctionAllowed(inv, p, id))
    else FunctionAllowed(inv, p, id)
  }

  function AuthorizeTarget(inv: Inventory, layers: Layers, catalog: SystemCatalog, name: string, expanded: bool,
                           g: Progress): Progress
  {
    if name !in catalog.aggregates then g.(verdict := Broken)
    else
      var id := SystemAggregate(name, catalog.aggregates[name]);
      var allowed := TargetAllowed(inv, layers.ceiling, id, expanded) && TargetAllowed(inv, layers.policy, id,
                                                                                       expanded);
      LearnTarget(catalog, id, allowed, expanded, g)
  }

  function LearnTarget(catalog: SystemCatalog, id: Identity, allowed: bool, expanded: bool, g: Progress): Progress {
    if !allowed then g.Refuse(FunctionNotAllowed(id.Key()))
    else
      var named := if !expanded then g
                   else g.(prov := g.prov.(callerExpansionTargets := g.prov.callerExpansionTargets + {id.name}));
      var checked := CheckDependency(catalog, id.name, named);
      checked.Then(Progress(Pass, RecordFunction(checked.prov, id, true), WithFunction(checked.evidence, id, true)))
  }

  function AuthorizeTargets(inv: Inventory, layers: Layers, catalog: SystemCatalog, names: seq<string>, expanded: bool,
                            g: Progress): Progress
  {
    if names == [] then g
    else
      var first := AuthorizeTarget(inv, layers, catalog, names[0], expanded, g);
      first.Then(AuthorizeTargets(inv, layers, catalog, names[1..], expanded, first))
  }

  predicate CallerDispatch(binding: BindingPolicy, entry: CatalogEntry, attributable: bool) {
    && attributable && entry.kind.ScalarFunction? && entry.Builtin()
    && DispatchingAggregator(Lower(entry.name)) && Lower(entry.name) in binding.callerDispatchers
  }

  function TargetsOf(binding: BindingPolicy, name: string): set<string> {
    set d | d in binding.dispatches && d.0 == name :: d.1
  }

  function AuthorizeDispatch(inv: Inventory, layers: Layers, binding: BindingPolicy, entry: CatalogEntry,
                             attributable: bool, catalog: SystemCatalog, targets: seq<string>, g: Progress): Progress
  {
    var name := Lower(entry.name);
    if !CallerDispatch(binding, entry, attributable) then g
    else if name in binding.unsupportedDispatchers then g.Refuse(FunctionNotAllowed(entry.AsFunction().Key()))
    else if TargetsOf(binding, name) == {} then g.(verdict := Broken)
    else
      var all := AuthorizeTargets(inv, layers, catalog, targets, false, g);
      all.Then(all.(prov := all.prov.(authorizedDispatchers := all.prov.authorizedDispatchers + {name})))
  }

  /** The aggregates a lookup must resolve besides its entry; the callback visits them in the order of their names. */
  function TargetsToResolve(binding: BindingPolicy, trusted: bool, attributable: bool,
                            entry: CatalogEntry): set<string> {
    if CallerDispatch(binding, entry, attributable) then TargetsOf(binding, Lower(entry.name))
    else if Teaches(trusted, entry) && entry.internal && attributable then entry.bodyTargets
    else {}
  }

  // ------------------------------------------------------- what a macro teaches

  function LearnMacro(inv: Inventory, layers: Layers, trusted: bool, attributable: bool, entry: CatalogEntry,
                      catalog: SystemCatalog, targets: seq<string>, g: Progress): Progress
  {
    if !Teaches(trusted, entry) then g
    else if !entry.internal || !attributable then
      g.(prov := g.prov.(trustedNames := g.prov.trustedNames + entry.bodyNames,
                         trustedTableNames := g.prov.trustedTableNames + entry.bodyTables))
    else
      AuthorizeTargets(inv, layers, catalog, targets, true,
                       g.(prov := g.prov.(callerExpansions := g.prov.callerExpansions + entry.bodyNames)))
  }

  // ------------------------------------------------------- a whole lookup

  function LearnObject(prov: Provenance, key: Table, attributable: bool): Provenance {
    if attributable then prov.(callerObjects := prov.callerObjects + {key})
    else prov.(trustedObjects := prov.trustedObjects + {key})
  }

  function LookObject(layers: Layers, attributable: bool, entry: CatalogEntry, g: Progress): Progress {
    var learned := g.(prov := LearnObject(g.prov, entry.Key(), attributable));
    if entry.kind.View? && entry.quack then
      learned.Refuse(UnsupportedStatement("Quack object has unsupported remote authorization scope"))
    else
      var (verdict, evidence) := AuthorizeTable(layers, entry.AsTable(), attributable, g.evidence);
      Progress(verdict, learned.prov, evidence)
  }

  function Named(attributable: bool, entry: CatalogEntry, g: Progress): Progress {
    if !attributable then g
    else g.(prov := g.prov.(callerLookups := g.prov.callerLookups + {Lower(entry.name)}))
  }

  /** The entry itself: allowed by both layers, traceable, and on record. */
  function LookEntry(inv: Inventory, layers: Layers, binding: BindingPolicy, attributable: bool, entry: CatalogEntry,
                     g: Progress): Progress
  {
    var allowed := AuthorizeEntry(inv, layers, LookupBinding(binding, g.prov, Lower(entry.name)), entry, attributable,
                                  g);
    if !allowed.verdict.Pass? then allowed
    else if Untraceable(binding, entry, attributable) then allowed.Refuse(FunctionNotAllowed(entry.AsFunction().Key()))
    else allowed.(prov := RecordFunction(allowed.prov, entry.AsFunction(), attributable))
  }

  /** The stages of a function lookup up to the point where a trusted binder is done. */
  function LookKnown(inv: Inventory, layers: Layers, binding: BindingPolicy, attributable: bool, entry: CatalogEntry,
                     catalog: SystemCatalog, targets: seq<string>, g: Progress): Progress
  {
    var recorded := LookEntry(inv, layers, binding, attributable, entry, g);
    var dispatched :=
      recorded.Then(AuthorizeDispatch(inv, layers, binding, entry, attributable, catalog, targets, recorded));
    var named := dispatched.Then(Named(attributable, entry, dispatched));
    named.Then(if attributable && entry.kind.AggregateFunction? && entry.Builtin()
               then CheckDependency(catalog, Lower(entry.name), named) else named)
  }

  function Look(inv: Inventory, layers: Layers, binding: BindingPolicy, trusted: bool, entry: CatalogEntry,
                catalog: SystemCatalog, targets: seq<string>, prov: Provenance, evidence: Evidence): Progress
  {
    var attributable := LookupIsCallers(binding, prov, trusted, entry);
    var g := Progress(Pass, prov, evidence);
    if entry.Object() then LookObject(layers, attributable, entry, g)
    else if !entry.Function() then g
    else
      var known := LookKnown(inv, layers, binding, attributable, entry, catalog, targets, g);
      known.Then(LearnMacro(inv, layers, trusted, attributable, entry, catalog, targets, known))
  }

  // ------------------------------------------------------- replacement scans

  /** What the host's callbacks made of a name the catalog did not have. */
  datatype Resolution = Unclaimed | Unsupported | Reader(entry: CatalogEntry)

  /** The names the caller wrote choose the reader; without a text on record every name is the caller's. */
  predicate CallerWrote(binding: Option<BindingPolicy>, path: NamePath) {
    binding.None? || path in binding.value.callerTableNames
  }

  function ReaderBinding(binding: Option<BindingPolicy>, entry: CatalogEntry): BindingPolicy {
    var text := if binding.Some? then binding.value else NO_TEXT;
    text.(callerFunctions := text.callerFunctions + {Lower(entry.name)})
  }

  predicate ReaderRefused(inv: Inventory, p: Policy, binding: Option<BindingPolicy>, path: NamePath,
                          entry: CatalogEntry)
  {
    || (CallerWrote(binding, path) && !FunctionEligible(inv, p, entry.name))
    || EntryRefused(inv, p, ReaderBinding(binding, entry), entry, CallerWrote(binding, path))
  }

  /** A replacement inside a private bind: refused, the engine's missing table, or a reader that is now known. */
  function Substitute(inv: Inventory, layers: Layers, binding: BindingPolicy, path: NamePath, resolution: Resolution,
                      prov: Provenance, evidence: Evidence): Progress
  {
    var g := Progress(Pass, prov, evidence);
    match resolution
    case Unclaimed => g.(verdict := Broken)
    case Unsupported => g.Refuse(UnsupportedStatement("replacement scan cannot be authorized"))
    case Reader(entry) =>
      var refused := ReaderRefused(inv, layers.ceiling, Some(binding), path, entry)
                     || ReaderRefused(inv, layers.policy, Some(binding), path, entry);
      LearnReader(entry, refused, CallerWrote(Some(binding), path), g)
  }

  function LearnReader(entry: CatalogEntry, refused: bool, caller: bool, g: Progress): Progress {
    if refused then g.Refuse(FunctionNotAllowed(entry.AsFunction().Key()))
    else
      var known := RecordFunction(g.prov, entry.AsFunction(), caller);
      Progress(Pass,
               if caller then known.(replacementFunctions := known.replacementFunctions + {Lower(entry.name)})
                 else known,
               WithFunction(g.evidence, entry.AsFunction(), caller))
  }
}
