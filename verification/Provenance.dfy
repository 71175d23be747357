/** What the caller's text says and what a private bind learns about the origin of names and objects. */
module Origins {
  import opened Names
  import opened Policies

  /** The text walk's record of one statement. */
  datatype BindingPolicy = BindingPolicy(
    synthesizedFunctions: set<string>,
    systemFunctions: set<string>,
    literalConstructors: set<string>,
    callerFunctions: set<string>,
    callerCollates: bool,
    callerTableNames: set<NamePath>,
    callerParameters: map<string, int>,
    callerCollationNames: set<string>,
    callerDispatchers: set<string>,
    unsupportedDispatchers: set<string>,
    dispatches: set<(string, string)>,
    unsupportedQuantiles: set<string>,
    runtimeTableFunctions: set<string>)
  {
    /** Syntax the walk could not pin to one function: held to the implementation the binder selects. */
    predicate Implicit(canonical: string) {
      canonical in synthesizedFunctions || canonical in literalConstructors
    }
  }

  const NO_TEXT := BindingPolicy({}, {}, {}, {}, false, {}, map[], {}, {}, {}, {}, {}, {})

  /** One thing a node of the caller's text says that the private bind must know. */
  datatype Fact =
    | Synthesizes(name: string)
    | Constructs(name: string)
    | Writes(path: NamePath)
    | CollatesBy(name: string)
    | Takes(parameter: string, position: int)
    | Dispatches(name: string)
    | DispatchesTo(name: string, target: string)
    | DispatchUnsupported(name: string)
    | QuantileUnsupported(name: string)
    | RunsPerRow(name: string)

  /** The known positions at which a parameter is written. */
  function PositionsOf(facts: set<Fact>, name: string): set<int> {
    set f | f in facts && f.Takes? && f.parameter == name && 0 <= f.position :: f.position
  }

  predicate IsLeast(positions: set<int>, least: int) {
    least in positions && forall x :: x in positions ==> least <= x
  }

  lemma {:induction false} LeastExists(positions: set<int>)
    requires positions != {}
    ensures exists least :: IsLeast(positions, least)
    decreases |positions|
  {
    assert (forall k :: k !in positions) ==> positions == {};
    var k :| k in positions;
    var rest := positions - {k};
    assert forall x :: x in positions ==> x == k || x in rest;
    if rest == {} {
      assert IsLeast(positions, k);
    } else {
      LeastExists(rest);
      var least :| IsLeast(rest, least);
      assert IsLeast(positions, if least <= k then least else k);
    }
  }

  /** The earliest known position of a parameter; -1 when none is known. */
  function EarliestOf(facts: set<Fact>, name: string): (position: int)
    ensures if PositionsOf(facts, name) == {} then position == -1 else IsLeast(PositionsOf(facts, name), position)
  {
    var known := PositionsOf(facts, name);
    if known == {} then -1
    else
      LeastExists(known);
      var least :| least in known && IsLeast(known, least);
      least
  }

  /** Every parameter the text takes, with its earliest known position. */
  function Parameters(facts: set<Fact>): map<string, int> {
    map f | f in facts && f.Takes? :: f.parameter := EarliestOf(facts, f.parameter)
  }

  /** The record of a text that calls `callers` and says `facts`. */
  function RecordOf(callers: set<string>, facts: set<Fact>): BindingPolicy {
    BindingPolicy(
      set f | f in facts && f.Synthesizes? :: f.name, {}, set f | f in facts && f.Constructs? :: f.name, callers,
      exists f :: f in facts && f.CollatesBy?, set f | f in facts && f.Writes? :: f.path,
      Parameters(facts), set f | f in facts && f.CollatesBy? :: f.name,
      set f | f in facts && f.Dispatches? :: f.name, set f | f in facts && f.DispatchUnsupported? :: f.name,
      set f | f in facts && f.DispatchesTo? :: (f.name, f.target),
      set f | f in facts && f.QuantileUnsupported? :: f.name, set f | f in facts && f.RunsPerRow? :: f.name)
  }

  /** Identity sets compare without the origin flag, so they are maps from folded key to the first flag seen. */
  type IdentitySet = map<FunctionGrant, Option<bool>>

  datatype Provenance = Provenance(
    collationFunctions: set<string>,
    functionEntries: IdentitySet,
    callerImplementations: IdentitySet,
    trustedImplementations: IdentitySet,
    replacementFunctions: set<string>,
    authorizedDispatchers: set<string>,
    callerLookups: set<string>,
    callerExpansions: set<string>,
    callerExpansionTargets: set<string>,
    trustedNames: set<string>,
    trustedTableNames: set<NamePath>,
    callerObjects: set<Table>,
    trustedObjects: set<Table>,
    validatedScans: map<Table, nat>,
    validatedFunctionScans: map<string, nat>,
    unattributed: bool)

  const NO_PROVENANCE := Provenance({}, map[], map[], map[], {}, {}, {}, {}, {}, {}, {}, {}, {}, map[], map[], false)

  predicate CollationFunction(name: string) {
    var lower := Lower(name);
    lower == "lower" || lower == "strip_accents" || lower == "nfc_normalize" || "icu_collate_" <= lower
  }

  predicate DispatchingAggregator(name: string) {
    || name == "aggregate" || name == "array_aggr" || name == "array_aggregate" || name == "list_aggr"
    || name == "list_aggregate"
  }

  predicate DatePart(name: string) {
    || name == "epoch" || name == "julian" || name == "year" || name == "month" || name == "day" || name == "decade"
    || name == "century" || name == "millennium" || name == "microsecond" || name == "millisecond" || name == "second"
    || name == "minute" || name == "hour" || name == "dayofweek" || name == "isodow" || name == "week"
    || name == "isoyear" || name == "quarter" || name == "dayofyear" || name == "yearweek" || name == "era"
    || name == "timezone" || name == "timezone_hour" || name == "timezone_minute"
  }

  /** The implementations a reviewed system builtin may bind in its place (engine major version 2). */
  predicate MayImplement(source: Identity, name: string) {
    || name == Lower(source.name)
    || (source.System() && source.internal == Some(true)
        && if source.kind == "aggregate" then
             || (source.name == "min" && name == "arg_min") || (source.name == "max" && name == "arg_max")
             || (source.name == "quantile" && name == "quantile_disc")
           else source.kind == "scalar" && (source.name == "date_part" || source.name == "datepart") && DatePart(name))
  }

  /** std::set insertion: an identity already present keeps its flag. */
  function Insert(entries: IdentitySet, id: Identity): IdentitySet {
    if id.FoldedKey() in entries then entries else entries[id.FoldedKey() := id.internal]
  }

  function RecordFunction(prov: Provenance, source: Identity, caller: bool): Provenance {
    var seen := prov.(functionEntries := Insert(prov.functionEntries, source));
    if caller then seen.(callerImplementations := Insert(prov.callerImplementations, source))
    else seen.(trustedImplementations := Insert(prov.trustedImplementations, source))
  }

  predicate CallerCanName(prov: Provenance, binding: BindingPolicy, name: string) {
    var canonical := Lower(name);
    || canonical in binding.callerFunctions || binding.Implicit(canonical) || canonical in prov.callerExpansions
    || (binding.callerCollates && CollationFunction(canonical))
  }

  predicate Attributable(prov: Provenance, binding: BindingPolicy, name: string) {
    !prov.unattributed && (CallerCanName(prov, binding, name) || Lower(name) in prov.callerLookups)
  }

  predicate IsSuffix(ref: NamePath, full: NamePath) {
    |ref| <= |full| && full[|full| - |ref|..] == ref
  }

  /** One written reference can resolve to this key: as a path suffix, or with the default schema left out. */
  predicate RefNames(ref: NamePath, key: Table) {
    && ref != [] && ref[|ref| - 1] == key.table
    && (|| IsSuffix(ref, [key.catalog] + key.schemaPath + [key.table])
        || (|ref| == 2 && ref[0] == key.catalog)
        || (|ref| == 3 && ref[0] == key.catalog && ref[1] == ""))
  }

  predicate NamesObject(written: set<NamePath>, key: Table) {
    exists ref :: ref in written && RefNames(ref, key)
  }

  predicate CallerNamesObject(binding: BindingPolicy, key: Table) {
    NamesObject(binding.callerTableNames, key)
  }

  /** The plan-time question: is this scanned object the caller's? */
  predicate ObjectAttributable(prov: Provenance, binding: BindingPolicy, key: Table) {
    !prov.unattributed && (key in prov.callerObjects || CallerNamesObject(binding, key) || key !in prov.trustedObjects)
  }
}
