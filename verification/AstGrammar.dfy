/** One node of the syntax walk: does it conform to the grammar, what does it push, and what does it record? */
module AstGrammar {
  import opened Names
  import opened Policies
  import opened Origins
  import opened Jsons
  import opened Scans
  import opened Unfolding
  import opened AstLiterals

  datatype Limits = Limits(nodes: nat, depth: nat)

  /** Everything a walk is run with. `binding` says whether a record for the private bind is kept. */
  datatype Setup = Setup(grammar: Grammar, layers: Layers, limits: Limits, binding: bool)

  datatype Work = Work(value: Json, expected: string, depth: nat, edge: string)

  datatype AstViolation =
    | BindTimeExpression(context: string, table: string, position: int)
    | DynamicSql(name: string, position: int)
    | SchemaWideShow(table: string, position: int)
    | FunctionNotEligible(name: string, occurrences: nat, position: int)

  datatype Call = Call(name: string, position: int)

  /** What one node adds to the walk's record: an occurrence of a function name, refusals, and facts about the text. */
  datatype Notes = Notes(call: Option<Call>, rejects: set<AstViolation>, facts: set<Fact>)

  const NOTHING := Notes(None, {}, {})

  datatype Syntax = Syntax(next: seq<Work>, notes: Notes)

  function Both(a: Option<Notes>, b: Option<Notes>): Option<Notes> {
    if a.None? || b.None? then None
    else
      var (x, y) := (a.value, b.value);
      Some(Notes(if x.call.Some? then x.call else y.call, x.rejects + y.rejects, x.facts + y.facts))
  }

  // ------------------------------------------------------- bind-time expressions

  const PLAINLY := Forms(false, false)
  const WITH_CONTAINERS := Forms(true, false)
  const WITH_PIVOT_NAMES := Forms(true, true)

  /** Facts are recorded only when there is a private bind to record them for. */
  function Says(s: Setup, facts: set<Fact>): Notes {
    NOTHING.(facts := if s.binding then facts else {})
  }

  /** A scan whose outcome only matters for what it records. */
  function Probe(s: Setup, e: Json, forms: Forms): Option<Notes> {
    var scan := LiteralScan(forms, s.limits.nodes, e);
    if scan.ending == Halted then None else Some(Says(s, set name | name in scan.notes :: Constructs(name)))
  }

  function BindTime(s: Setup, e: Json, context: string, forms: Forms): Option<Notes> {
    if e == Missing then Some(NOTHING)
    else
      var probe := Probe(s, e, forms);
      if probe.None? || LiteralScan(forms, s.limits.nodes, e).ending == Finished then probe
      else Some(probe.value.(rejects := {BindTimeExpression(context, Field(e, "table_name"), Position(e))}))
  }

  function BindTimeAll(s: Setup, es: seq<Json>, context: string, forms: Forms): Option<Notes> {
    if es == [] then Some(NOTHING)
    else Both(BindTimeAll(s, es[..|es| - 1], context, forms), BindTime(s, es[|es| - 1], context, forms))
  }

  function ProbeAll(s: Setup, es: seq<Json>, forms: Forms): Option<Notes> {
    if es == [] then Some(NOTHING)
    else Both(ProbeAll(s, es[..|es| - 1], forms), Probe(s, es[|es| - 1], forms))
  }

  // ------------------------------------------------------- calls

  function At(items: seq<Json>, i: nat): Json {
    if i < |items| then items[i] else Missing
  }

  function ArgumentName(call: Json, i: nat): string {
    if Get(call, "arguments") != Missing then Field(At(Items(Get(call, "arguments")), i), "name")
    else Field(At(Items(Get(call, "children")), i), "alias")
  }

  /** `name = value` on a one-part column reference is a named parameter; its value is the argument. */
  function ArgumentValue(argument: Json): Json {
    var left := Get(argument, "left");
    if Field(argument, "type") == "COMPARE_EQUAL" && Field(left, "class") == "COLUMN_REF"
       && |Items(Get(left, "column_names"))| == 1
    then Get(argument, "right") else argument
  }

  function ArgumentValues(arguments: seq<Json>): seq<Json> {
    seq(|arguments|, i requires 0 <= i < |arguments| => ArgumentValue(arguments[i]))
  }

  /** The arguments of UNNEST that are options: all but an unnamed first one. */
  function UnnestOptions(call: Json): seq<Json> {
    var arguments := Arguments(call);
    if arguments == [] || ArgumentName(call, 0) != "" then arguments else arguments[1..]
  }

  predicate RuntimeCapable(name: string) {
    name == "unnest" || name == "range" || name == "generate_series"
  }

  predicate Quantile(name: string) {
    || name == "quantile" || name == "quantile_cont" || name == "quantile_disc" || name == "approx_quantile"
    || name == "reservoir_quantile"
  }

  /** Calls that syntax may stand for; the tree does not tell which were written. */
  predicate SyntaxHelper(name: string) {
    name == "list_value" || name == "struct_pack" || name == "row" || name == "contains" || name == "regexp_full_match"
  }

  predicate RuntimeCall(s: Setup, name: string, arguments: seq<Json>) {
    RuntimeCapable(name)
    && exists i :: 0 <= i < |arguments| && RuntimeReference(s.limits.nodes, ArgumentValue(arguments[i]))
  }

  function Implied(s: Setup, names: set<string>): Notes {
    Says(s, set name | name in names :: Synthesizes(Lower(name)))
  }

  function FoldNames(names: set<string>): set<string> {
    set name | name in names :: Lower(name)
  }

  /** Named arguments, which the engine may reorder before a callback sees them. */
  predicate HasNamedArguments(call: Json) {
    || (exists item :: item in Items(Get(call, "arguments")) && Field(item, "name") != "")
    || (exists item :: item in Items(Get(call, "children")) && Field(item, "alias") != "")
  }

  /** A call whose arguments cannot be read by position: dotted, or with names. */
  predicate Unpositioned(call: Json) {
    WrittenPath(call, true).None? || |WrittenPath(call, true).value| > 1 || HasNamedArguments(call)
  }

  predicate DynamicCall(name: string, edge: string) {
    (edge == "function" && (name == "query" || name == "query_table" || name == "json_execute_serialized_sql"))
    || name == "json_serialize_plan"
  }

  function TableFunctionNotes(s: Setup, value: Json, name: string, edge: string): Option<Notes> {
    if edge != "function" then Some(NOTHING)
    else if RuntimeCall(s, name, Arguments(value)) then Some(Says(s, {RunsPerRow(name)}))
    else BindTimeAll(s, ArgumentValues(Arguments(value)), "table-function argument", WITH_CONTAINERS)
  }

  /** The fractions and options of a quantile: all its arguments, or all but the aggregated one. */
  function Fractions(call: Json): seq<Json> {
    var arguments := Arguments(call);
    if |arguments| == 1 && Items(Get(Get(call, "order_bys"), "orders")) != [] then arguments
    else if arguments == [] then [] else arguments[1..]
  }

  predicate AllLiteral(s: Setup, es: seq<Json>, forms: Forms) {
    forall i :: 0 <= i < |es| ==> LiteralScan(forms, s.limits.nodes, es[i]).ending == Finished
  }

  function QuantileNotes(s: Setup, value: Json, name: string): Option<Notes> {
    if !s.binding || !Quantile(name) then Some(NOTHING)
    else if WrittenPath(value, true).None? then None
    else
      var supported := !Unpositioned(value) && AllLiteral(s, Fractions(value), WITH_CONTAINERS);
      Both(ProbeAll(s, Fractions(value), WITH_CONTAINERS),
           Some(Says(s, if supported then {} else {QuantileUnsupported(name)})))
  }

  /** The aggregate name a list dispatcher is given, when it is written as a string literal. */
  function DispatchTarget(call: Json): Json {
    var target := At(Arguments(call), 1);
    var literal := Get(target, "literal");
    if Field(target, "class") != "CONSTANT" then Missing
    else if Field(literal, "kind") == "STRING" then Get(literal, "text")
    else Get(Get(target, "value"), "value")
  }

  function DispatchNotes(s: Setup, value: Json, name: string): Option<Notes> {
    if !s.binding || !DispatchingAggregator(name) then Some(NOTHING)
    else if WrittenPath(value, true).None? then None
    else if Unpositioned(value) || !DispatchTarget(value).Str? then
      Some(Says(s, {Dispatches(name), DispatchUnsupported(name)}))
    else Some(Says(s, {Dispatches(name), DispatchesTo(name, Lower(DispatchTarget(value).text))}))
  }

  function UnnestNotes(s: Setup, value: Json, name: string): Option<Notes> {
    if name == "unnest" then BindTimeAll(s, UnnestOptions(value), "UNNEST option", PLAINLY) else Some(NOTHING)
  }

  function CallNotes(s: Setup, value: Json, edge: string): Option<Notes> {
    var name := Lower(Field(value, "function_name"));
    var operator := Get(value, "is_operator") == Bool(true);
    var syntax := Some(Implied(s, if operator || SyntaxHelper(name) then {name} else {}));
    var own := NOTHING.(call := Some(Call(name, Position(value))),
                        rejects := if DynamicCall(name, edge) then {DynamicSql(name, Position(value))} else {});
    Both(Both(syntax, TableFunctionNotes(s, value, name, edge)),
         Both(Both(UnnestNotes(s, value, name), QuantileNotes(s, value, name)),
              Both(DispatchNotes(s, value, name), Some(own))))
  }

  // ------------------------------------------------------- the other nodes

  /** The function a bare name can stand for; empty when it stands for none. */
  function SqlValue(name: string): string {
    if name == "current_time" then "get_current_time"
    else if name == "current_timestamp" then "get_current_timestamp"
    else if name == "localtime" then "current_localtime"
    else if name == "localtimestamp" then "current_localtimestamp"
    else if || name == "current_catalog" || name == "current_schema" || name == "current_date" || name == "current_user"
            || name == "current_role" || name == "session_user" || name == "user" then name
    else ""
  }

  function ColumnNotes(s: Setup, value: Json): Notes {
    var columns := Items(Get(value, "column_names"));
    if |columns| > 1 then
      Implied(s, {"struct_extract", "struct_pack", "union_extract", "map_extract_value", "json_extract",
                  "variant_extract"})
    else
      var name := Lower(Text(At(columns, 0)));
      var value := SqlValue(name);
      Implied(s, {"struct_pack"} + if value == "" then {} else {value})
  }

  function OperatorNotes(s: Setup, value: Json): Notes {
    var kind := Field(value, "type");
    if kind == "ARRAY_CONSTRUCTOR" then Implied(s, {"list_value"}).(call := Some(Call("list_value", Position(value))))
    else if kind == "ARRAY_SLICE" then Implied(s, {"array_slice"}).(call := Some(Call("array_slice", Position(value))))
    else if kind == "ARROW" then Implied(s, {"json_extract"}).(call := Some(Call("json_extract", Position(value))))
    else if kind == "ARRAY_EXTRACT" then
      Implied(s, {"array_extract", "map_extract_value", "json_extract", "variant_extract"})
    else if kind == "STRUCT_EXTRACT" then
      Implied(s, {"struct_extract", "union_extract", "map_extract_value", "json_extract", "variant_extract"})
    else NOTHING
  }

  function NotTypes(es: seq<Json>): seq<Json> {
    if es == [] then []
    else NotTypes(es[..|es| - 1]) + if Field(es[|es| - 1], "class") != "TYPE" then [es[|es| - 1]] else []
  }

  function SampleNotes(value: Json): Notes {
    var sample := Get(value, "sample_size");
    if sample != Missing && (!sample.Obj? || Get(sample, "type") == Missing || Get(sample, "class") != Missing)
    then NOTHING.(rejects := {BindTimeExpression("sample size", Field(value, "table_name"), Position(value))})
    else NOTHING
  }

  predicate NoTableRules(p: Policy) {
    !p.tables && p.blockedTables == {}
  }

  function ShowNotes(s: Setup, value: Json): Notes {
    if Get(value, "query") == Missing && !(NoTableRules(s.layers.ceiling) && NoTableRules(s.layers.policy))
    then NOTHING.(rejects := {SchemaWideShow(Field(value, "table_name"), Position(value))})
    else NOTHING
  }

  function TableNotes(s: Setup, value: Json): Option<Notes> {
    if !s.binding then Some(NOTHING)
    else match WrittenPath(value, false)
      case None => None
      case Some(path) => Some(Says(s, {Writes(path)}))
  }

  predicate CallKind(kind: string) {
    kind == "FunctionExpression" || kind == "WindowExpression"
  }

  /** What a conforming node of kind `kind` records; nothing when it must stop the walk after all. */
  function References(s: Setup, value: Json, kind: string, edge: string): Option<Notes> {
    if CallKind(kind) then CallNotes(s, value, edge)
    else if kind == "BaseTableRef" then TableNotes(s, value)
    else if kind == "ParameterExpression" then
      Some(Says(s, {Takes(Lower(Field(value, "identifier")), Position(value))}))
    else if kind == "CollateExpression" then Some(Says(s, {CollatesBy(Lower(Field(value, "collation")))}))
    else if kind == "LimitModifier" || kind == "LimitPercentModifier" || kind == "LegacyLimitPercentModifier" then
      Both(BindTime(s, Get(value, "limit"), "LIMIT", PLAINLY), BindTime(s, Get(value, "offset"), "OFFSET", PLAINLY))
    else if kind == "AtClause" then BindTime(s, Get(value, "expr"), "AT clause", PLAINLY)
    else if kind == "StarExpression" then BindTime(s, Get(value, "expr"), "COLUMNS", WITH_CONTAINERS)
    else if kind == "PivotColumnEntry" then BindTime(s, Get(value, "star_expr"), "PIVOT IN", WITH_PIVOT_NAMES)
    else if kind == "SampleOptions" then Some(SampleNotes(value))
    else if kind == "CastExpression" then
      if Get(value, "type_expr") != Missing && Field(Get(value, "type_expr"),
                                                     "class") != "TYPE" then None else Some(NOTHING)
    else if kind == "TypeExpression" then
      BindTimeAll(s, NotTypes(Items(Get(value, "children"))), "type parameter", PLAINLY)
    else if kind == "OperatorExpression" then Some(OperatorNotes(s, value))
    else if kind == "LambdaExpression" then
      Some(if Field(value, "syntax_type") != "LAMBDA_KEYWORD" then Implied(s, {"json_extract"}) else NOTHING)
    else if kind == "ColumnRefExpression" then Some(ColumnNotes(s, value))
    else if kind == "ShowRef" then Some(ShowNotes(s, value))
    else Some(NOTHING)
  }

  // ------------------------------------------------------- grammar

  function Below(w: Work, es: seq<Json>, expected: string, edge: string): (r: seq<Work>)
    requires forall i :: 0 <= i < |es| ==> Weight(es[i]) < Weight(w.value)
    ensures Fits(w, r)
  {
    seq(|es|, i requires 0 <= i < |es| => Work(es[i], expected, w.depth + 1, edge))
  }

  /** Pushed work is one level deeper and strictly inside the node. */
  predicate Fits(w: Work, next: seq<Work>) {
    forall i :: 0 <= i < |next| ==> next[i].depth == w.depth + 1 && Weight(next[i].value) < Weight(w.value)
  }

  function TypeNode(w: Work): (r: Option<seq<Work>>)
    ensures r.Some? ==> Fits(w, r.value)
  {
    var id, info := Field(w.value, "id"), Get(w.value, "type_info");
    var expr := Get(info, "expr");
    if id == "UNBOUND" || id == "USER" then
      if expr != Missing then
        if Field(expr, "class") != "TYPE" then None else Some(Below(w, [expr], "ParsedExpression", "type"))
      else if Field(info, "name") == "" then None
      else Some([])
    else if id == "" then None
    else NestedTypes(w, info)
  }

  function NestedTypes(w: Work, info: Json): (r: Option<seq<Work>>)
    requires Weight(info) < Weight(w.value)
    ensures r.Some? ==> Fits(w, r.value)
  {
    var child, children := Get(info, "child_type"), Get(info, "child_types");
    if children != Missing && !children.Arr? then None
    else
      var entries := Items(children);
      Some((if child == Missing then [] else Below(w, [child], "logical_type", "type"))
           + Below(w, seq(|entries|, i requires 0 <= i < |entries| => Get(entries[i], "second")), "logical_type",
                   "type"))
  }

  predicate ArrayOf(expected: string) {
    |expected| > 2 && expected[|expected| - 2..] == "[]"
  }

  predicate Scalar(expected: string) {
    expected == "string" || expected == "boolean" || expected == "number"
  }

  predicate IsScalar(value: Json, expected: string) {
    (expected == "string" ==> value.Str?) && (expected == "boolean" ==> value.Bool?)
      && (expected == "number" ==> value.Number?)
  }

  /** The rule a node is held to: its expected rule, or the one its tag dispatches to. */
  function RuleName(g: Grammar, value: Json, expected: string): Option<string> {
    if expected !in g.dispatch then Some(expected)
    else
      var tag := Field(value, if expected == "ParsedExpression" then "class" else "type");
      if expected == "ParsedExpression"
         && (tag !in g.expressionTypes || Field(value, "type") !in g.expressionTypes[tag]) then None
      else if tag !in g.dispatch[expected] then None
      else Some(g.dispatch[expected][tag])
  }

  predicate ShowKind(value: Json) {
    Field(value, "show_type") in {"SHOW_FROM", "SHOW_UNQUALIFIED", "SHOW_SPECIAL", "DESCRIBE", "SUMMARY"}
  }

  predicate SetOperation(value: Json) {
    && Field(value, "setop_type") in {"UNION", "EXCEPT", "INTERSECT", "UNION_BY_NAME"}
    && var (children, left, right) := (Get(value, "children"), Get(value, "left"), Get(value, "right"));
       if children != Missing then left == Missing && right == Missing && |Items(children)| >= 2
       else left.Obj? && right.Obj?
  }

  predicate KnownFields(fields: seq<Member>, rule: Rule) {
    && (forall i :: 0 <= i < |fields| ==> fields[i].key in rule.fields)
    && (forall i, j :: 0 <= i < j < |fields| ==> fields[i].key != fields[j].key)
  }

  predicate CteMap(ctes: Json) {
    ctes != Missing ==>
      && ctes.Obj? && |ctes.fields| <= 1
      && (ctes.fields != [] ==> Get(ctes, "map").Arr?)
      && DistinctCtes(Items(Get(ctes, "map")))
  }

  predicate DistinctCtes(entries: seq<Json>) {
    forall i, j :: 0 <= i < j < |entries| ==> Lower(Field(entries[i], "key")) != Lower(Field(entries[j], "key"))
  }

  /** The checks on an object once its rule is known. */
  predicate Shaped(value: Json, kind: string, rule: Rule)
    requires value.Obj?
  {
    && (kind == "ShowRef" ==> ShowKind(value)) && (kind == "SetOperationNode" ==> SetOperation(value))
    && (forall name :: name in rule.required ==> Get(value, name) != Missing)
    && KnownFields(value.fields, rule) && CteMap(Get(value, "cte_map"))
  }

  function FieldWork(w: Work, fields: seq<Member>, rule: Rule): (r: seq<Work>)
    requires forall i :: 0 <= i < |fields| ==> fields[i].key in rule.fields && Weight(fields[i].value) < Weight(w.value)
    ensures Fits(w, r)
  {
    if fields == [] then []
    else
      var last := fields[|fields| - 1];
      FieldWork(w, fields[..|fields| - 1], rule)
      + if last.key == "cte_map" then [] else [Work(last.value, rule.fields[last.key], w.depth + 1, last.key)]
  }

  lemma FieldsAreInside(value: Json)
    requires value.Obj?
    ensures forall i :: 0 <= i < |value.fields| ==> Weight(value.fields[i].value) < Weight(value)
  {
    forall i | 0 <= i < |value.fields| ensures Weight(value.fields[i].value) < Weight(value) {
      FieldWeight(value.fields, i);
    }
  }

  function ObjectNode(s: Setup, w: Work): (r: Option<Syntax>)
    requires w.value.Obj?
    ensures r.Some? ==> Fits(w, r.value.next)
  {
    var kind := RuleName(s.grammar, w.value, w.expected);
    if kind.None? || kind.value !in s.grammar.rules then None
    else
      var rule := s.grammar.rules[kind.value];
      var notes := References(s, w.value, kind.value, w.edge);
      if !Shaped(w.value, kind.value, rule) || notes.None? then None
      else
        FieldsAreInside(w.value);
        Some(Syntax(Below(w, Items(Get(Get(w.value, "cte_map"), "map")), "cte_entry", "")
                    + FieldWork(w, w.value.fields, rule), notes.value))
  }

  /** One node of the walk: what it pushes and records, or nothing when it stops the walk. */
  function Inspect(s: Setup, w: Work): (r: Option<Syntax>)
    ensures r.Some? ==> Fits(w, r.value.next)
  {
    if w.expected == "logical_type" then
      match TypeNode(w)
      case None => None
      case Some(next) => Some(Syntax(next, NOTHING))
    else if w.expected == "opaque" then
      Some(Syntax(if Field(Get(w.value, "type"), "id") == "TYPE"
                  then Below(w, [Get(w.value, "value")], "logical_type", "type") else [], NOTHING))
    else if ArrayOf(w.expected) then
      if !w.value.Arr? then None
      else Some(Syntax(Below(w, Items(w.value), w.expected[..|w.expected| - 2], ""), NOTHING))
    else if Scalar(w.expected) then
      if IsScalar(w.value, w.expected) then Some(Syntax([], NOTHING)) else None
    else if !w.value.Obj? then None
    else ObjectNode(s, w)
  }

  // ------------------------------------------------------- nothing is skipped

  /** The node is held to a grammar rule, rather than being a type, an opaque payload, an array or a scalar. */
  predicate RuledNode(w: Work) {
    w.expected != "logical_type" && w.expected != "opaque" && !ArrayOf(w.expected) && !Scalar(w.expected)
  }

  function Kind(s: Setup, w: Work): string {
    match RuleName(s.grammar, w.value, w.expected)
    case Some(kind) => kind
    case None => ""
  }

  predicate CheckedField(m: Member) {
    m.key != "cte_map"
  }

  lemma {:induction false} FieldWorkCovers(w: Work, fields: seq<Member>, rule: Rule, m: Member)
    requires forall i :: 0 <= i < |fields| ==> fields[i].key in rule.fields && Weight(fields[i].value) < Weight(w.value)
    requires m in fields && CheckedField(m)
    ensures Work(m.value, rule.fields[m.key], w.depth + 1, m.key) in FieldWork(w, fields, rule)
  {
    if m != fields[|fields| - 1] {
      FieldWorkCovers(w, fields[..|fields| - 1], rule, m);
    }
  }

  lemma {:induction false} FieldWorkIsFields(w: Work, fields: seq<Member>, rule: Rule)
    requires forall i :: 0 <= i < |fields| ==> fields[i].key in rule.fields && Weight(fields[i].value) < Weight(w.value)
    ensures |FieldWork(w, fields, rule)| == CountIn(CheckedField, fields)
  {
    if fields != [] {
      var n := |fields| - 1;
      FieldWorkIsFields(w, fields[..n], rule);
      CountInGrows(CheckedField, fields[..n], fields[n]);
      assert fields == fields[..n] + [fields[n]];
    }
  }

  /** Each member is pushed under the type its rule gives it, each CTE is pushed, and nothing else is. */
  ghost predicate Covers(w: Work, fields: seq<Member>, entries: seq<Json>, rule: Rule, next: seq<Work>) {
    && (forall m :: m in fields ==> m.key in rule.fields)
    && (forall m :: m in fields && m.key in rule.fields && CheckedField(m) ==>
          Work(m.value, rule.fields[m.key], w.depth + 1, m.key) in next)
    && (forall e :: e in entries ==> Work(e, "cte_entry", w.depth + 1, "") in next)
    && |next| == |entries| + CountIn(CheckedField, fields)
  }

  lemma PushedCovers(w: Work, fields: seq<Member>, entries: seq<Json>, rule: Rule)
    requires forall i :: 0 <= i < |fields| ==> fields[i].key in rule.fields && Weight(fields[i].value) < Weight(w.value)
    requires forall i :: 0 <= i < |entries| ==> Weight(entries[i]) < Weight(w.value)
    ensures Covers(w, fields, entries, rule, Below(w, entries, "cte_entry", "") + FieldWork(w, fields, rule))
  {
    var below, work := Below(w, entries, "cte_entry", ""), FieldWork(w, fields, rule);
    forall m | m in fields && m.key in rule.fields && CheckedField(m)
      ensures Work(m.value, rule.fields[m.key], w.depth + 1, m.key) in work
    {
      FieldWorkCovers(w, fields, rule, m);
    }
    forall e | e in entries ensures Work(e, "cte_entry", w.depth + 1, "") in below {
      var i :| 0 <= i < |entries| && entries[i] == e;
      assert below[i] == Work(e, "cte_entry", w.depth + 1, "");
    }
    FieldWorkIsFields(w, fields, rule);
  }

  lemma RuledIsObject(s: Setup, w: Work)
    requires RuledNode(w) && Inspect(s, w).Some?
    ensures w.value.Obj? && Inspect(s, w) == ObjectNode(s, w)
  {
  }

  lemma ObjectSkipsNothing(s: Setup, w: Work)
    requires w.value.Obj? && ObjectNode(s, w).Some?
    ensures Kind(s, w) in s.grammar.rules
    ensures var rule := s.grammar.rules[Kind(s, w)];
            && (forall name :: name in rule.required ==> Get(w.value, name) != Missing)
            && Covers(w, w.value.fields, Items(Get(Get(w.value, "cte_map"), "map")), rule, ObjectNode(s, w).value.next)
  {
    FieldsAreInside(w.value);
    PushedCovers(w, w.value.fields, Items(Get(Get(w.value, "cte_map"), "map")), s.grammar.rules[Kind(s, w)]);
  }

  /**
   * A node that passes is held to a rule that knows every one of its members; each member is pushed under the type the
   * rule gives it, each CTE is pushed, nothing else is, and no required member is absent.
   */
  lemma NothingIsSkipped(s: Setup, w: Work)
    requires RuledNode(w) && Inspect(s, w).Some?
    ensures w.value.Obj? && Kind(s, w) in s.grammar.rules
    ensures var rule := s.grammar.rules[Kind(s, w)];
            && (forall name :: name in rule.required ==> Get(w.value, name) != Missing)
            && Covers(w, w.value.fields, Items(Get(Get(w.value, "cte_map"), "map")), rule, Inspect(s, w).value.next)
  {
    RuledIsObject(s, w);
    ObjectSkipsNothing(s, w);
  }

  // ------------------------------------------------------- no call goes unnoted

  lemma {:induction false} BindTimeCallsNothing(s: Setup, es: seq<Json>, context: string, forms: Forms)
    requires BindTimeAll(s, es, context, forms).Some?
    ensures BindTimeAll(s, es, context, forms).value.call.None?
  {
    if es != [] {
      BindTimeCallsNothing(s, es[..|es| - 1], context, forms);
    }
  }

  lemma {:induction false} ProbeCallsNothing(s: Setup, es: seq<Json>, forms: Forms)
    requires ProbeAll(s, es, forms).Some?
    ensures ProbeAll(s, es, forms).value.call.None?
  {
    if es != [] {
      ProbeCallsNothing(s, es[..|es| - 1], forms);
    }
  }

  predicate CallsNothing(notes: Option<Notes>) {
    notes.Some? ==> notes.value.call.None?
  }

  lemma TableFunctionCallsNothing(s: Setup, value: Json, name: string, edge: string)
    ensures CallsNothing(TableFunctionNotes(s, value, name, edge))
  {
    var es := ArgumentValues(Arguments(value));
    if BindTimeAll(s, es, "table-function argument", WITH_CONTAINERS).Some? {
      BindTimeCallsNothing(s, es, "table-function argument", WITH_CONTAINERS);
    }
  }

  lemma UnnestCallsNothing(s: Setup, value: Json, name: string)
    ensures CallsNothing(UnnestNotes(s, value, name))
  {
    if BindTimeAll(s, UnnestOptions(value), "UNNEST option", PLAINLY).Some? {
      BindTimeCallsNothing(s, UnnestOptions(value), "UNNEST option", PLAINLY);
    }
  }

  lemma QuantileCallsNothing(s: Setup, value: Json, name: string)
    ensures CallsNothing(QuantileNotes(s, value, name))
  {
    var es := Fractions(value);
    if ProbeAll(s, es, WITH_CONTAINERS).Some? {
      ProbeCallsNothing(s, es, WITH_CONTAINERS);
    }
  }

  lemma DispatchCallsNothing(s: Setup, value: Json, name: string)
    ensures CallsNothing(DispatchNotes(s, value, name))
  {
  }

  lemma CallIsNoted(s: Setup, value: Json, edge: string)
    requires CallNotes(s, value, edge).Some?
    ensures var notes, name := CallNotes(s, value, edge).value, Lower(Field(value, "function_name"));
            && notes.call == Some(Call(name, Position(value)))
            && (DynamicCall(name, edge) ==> DynamicSql(name, Position(value)) in notes.rejects)
  {
    var name := Lower(Field(value, "function_name"));
    TableFunctionCallsNothing(s, value, name, edge);
    UnnestCallsNothing(s, value, name);
    QuantileCallsNothing(s, value, name);
    DispatchCallsNothing(s, value, name);
  }

  lemma ObjectNotes(s: Setup, w: Work)
    requires w.value.Obj? && ObjectNode(s, w).Some?
    ensures References(s, w.value, Kind(s, w), w.edge) == Some(ObjectNode(s, w).value.notes)
  {
  }

  /** Every written call of a passing node is noted under its folded name, and dynamic SQL is always rejected. */
  lemma EveryCallIsNoted(s: Setup, w: Work)
    requires RuledNode(w) && Inspect(s, w).Some? && CallKind(Kind(s, w))
    ensures var notes, name := Inspect(s, w).value.notes, Lower(Field(w.value, "function_name"));
            && notes.call == Some(Call(name, Position(w.value)))
            && (DynamicCall(name, w.edge) ==> DynamicSql(name, Position(w.value)) in notes.rejects)
  {
    RuledIsObject(s, w);
    ObjectNotes(s, w);
    CallIsNoted(s, w.value, w.edge);
  }
}
