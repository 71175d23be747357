/** The binding boundary: what a statement's text comes to once it is parsed and its syntax tree walked. */
module TextChecks {
  import opened Policies
  import opened Origins
  import opened Plans
  import opened Jsons
  import opened AstGrammar
  import opened AstWalk

  const MAX_AST_BYTES: nat := 8388608
  const DEFAULT_LIMITS := Limits(100000, 512)

  /** One admitted statement: its syntax tree, whether parameters defer its bind, the text's record, the bind's. */
  datatype Unit = Unit(
    text: Json, parameterized: bool, pivotEnums: set<string>, binding: BindingPolicy, prov: Provenance)

  /** A text that cannot be read raises a parser or an input error; any other error of the engine is thrown. */
  datatype TextOutcome =
    | TextUnreadable
    | TextThrows(described: bool)
    | TextDenied(found: set<Violation>)
    | TextAllowed(units: seq<Unit>)

  /**
   * What the parser makes of a text. A batch is the one the parser rewrites a dynamic PIVOT into; it is decided
   * statement by statement, so its outcome stands for all of them. An engine error says whether validation describes
   * it; the rest must reach the engine.
   */
  datatype Source =
    | NulByte
    | TooLong
    | Unparsable
    | NoStatement
    | TooManyStatements
    | EngineThrows(described: bool)
    | Batch(result: TextOutcome)
    | Statement(ast: Json, astBytes: nat, parameterized: bool)
    | OtherStatement

  function WalkSetup(inv: Inventory, layers: Layers): Setup {
    Setup(inv.grammar, layers, DEFAULT_LIMITS, true)
  }

  /** The text's tree conforms, stays within the limits, violates nothing, and says exactly what the record holds. */
  ghost predicate TextAccepted(inv: Inventory, layers: Layers, text: Json, record: BindingPolicy) {
    var s := WalkSetup(inv, layers);
    && Acceptable(StatementInspector(s), s.limits, StatementTree(s, text))
    && Concluded(inv, s, StatementInspector(s), StatementTree(s, text), {}, record)
  }

  function RuleOf(v: AstViolation): Violation {
    match v
    case BindTimeExpression(_, _, _) => TextRefused("bind_time_expression")
    case DynamicSql(_, _) => TextRefused("dynamic_sql")
    case SchemaWideShow(_, _) => TextRefused("table")
    case FunctionNotEligible(_, _, _) => TextRefused("function")
  }

  /** A check of texts: a syntax tree and the record it is accepted with. */
  type Acceptance = (Json, BindingPolicy) -> bool

  /** The syntax walk's own. */
  ghost function WalkAccepts(inv: Inventory, layers: Layers): Acceptance {
    (text: Json, record: BindingPolicy) => TextAccepted(inv, layers, text, record)
  }

  /** The unit of an admitted statement: its tree, accepted with the record it carries, and nothing bound for it yet. */
  ghost predicate AdmittedAs(accepts: Acceptance, source: Source, r: TextOutcome) {
    && source.Statement? && r.TextAllowed? && |r.units| == 1
    && r.units[0] == Unit(source.ast, source.parameterized, {}, r.units[0].binding, NO_PROVENANCE)
    && accepts(source.ast, r.units[0].binding)
  }

  /** A statement the text boundary admits. */
  ghost predicate Admissible(accepts: Acceptance, source: Source) {
    source.Statement? && source.astBytes <= MAX_AST_BYTES && exists record :: accepts(source.ast, record)
  }

  predicate OverLimit(source: Source) {
    source.TooLong? || source.TooManyStatements? || (source.Statement? && source.astBytes > MAX_AST_BYTES)
  }

  /** How the text boundary decides every single statement. */
  ghost predicate TextDecided(accepts: Acceptance, source: Source, r: TextOutcome) {
    && (r.TextUnreadable? <==> source.NulByte? || source.Unparsable? || source.NoStatement?)
    && (r.TextThrows? <==> source.EngineThrows?) && (r.TextThrows? ==> r.described == source.described)
    && (r.TextAllowed? <==> Admissible(accepts, source)) && (r.TextAllowed? ==> AdmittedAs(accepts, source, r))
    && (OverLimit(source) ==> r == TextDenied({TextRefused("limit")}))
    && (source.OtherStatement? ==> r == TextDenied({UnsupportedStatement("unsupported statement")}))
    && (r.TextDenied? ==> r.found != {})
  }

  /** The text boundary, on one statement or on the outcome of a batch. */
  method CheckText(inv: Inventory, layers: Layers, source: Source) returns (r: TextOutcome)
    ensures source.Batch? ==> r == source.result
    ensures !source.Batch? ==> TextDecided(WalkAccepts(inv, layers), source, r)
  {
    match source
    case NulByte => r := TextUnreadable;
    case Unparsable => r := TextUnreadable;
    case NoStatement => r := TextUnreadable;
    case TooLong => r := TextDenied({TextRefused("limit")});
    case TooManyStatements => r := TextDenied({TextRefused("limit")});
    case OtherStatement => r := TextDenied({UnsupportedStatement("unsupported statement")});
    case EngineThrows(described) => r := TextThrows(described);
    case Batch(result) => r := result;
    case Statement(ast, astBytes, parameterized) =>
      if astBytes > MAX_AST_BYTES {
        return TextDenied({TextRefused("limit")});
      }
      r := CheckStatement(inv, layers, ast, parameterized);
  }

  method CheckStatement(inv: Inventory, layers: Layers, ast: Json, parameterized: bool) returns (r: TextOutcome)
    ensures r.TextDenied? || r.TextAllowed?
    ensures r.TextAllowed? ==>
            && |r.units| == 1 && r.units[0] == Unit(ast, parameterized, {}, r.units[0].binding, NO_PROVENANCE)
            && WalkAccepts(inv, layers)(ast, r.units[0].binding)
    ensures (exists record :: WalkAccepts(inv, layers)(ast, record)) ==> r.TextAllowed?
    ensures r.TextDenied? ==> r.found != {}
  {
    var s := WalkSetup(inv, layers);
    var verdict := Validate(inv, s, ast);
    if verdict.Halted? {
      return TextDenied({TextRefused(if verdict.why.OverLimit? then "limit" else "unsupported_structure")});
    }
    if verdict.violations != {} {
      var v :| v in verdict.violations;
      VerdictIsUnique(inv, s, ast, verdict.violations, verdict.record);
      return TextDenied({RuleOf(v)} + set x | x in verdict.violations :: RuleOf(x));
    }
    r := TextAllowed([Unit(ast, parameterized, {}, verdict.record, NO_PROVENANCE)]);
  }

  /** The walk concludes one set of violations, so a text with some cannot also be accepted. */
  lemma VerdictIsUnique(inv: Inventory, s: Setup, ast: Json, violations: set<AstViolation>, record: BindingPolicy)
    requires violations != {}
    requires Concluded(inv, s, StatementInspector(s), StatementTree(s, ast), violations, record)
    ensures forall other :: !Concluded(inv, s, StatementInspector(s), StatementTree(s, ast), {}, other)
  {
    var v :| v in violations;
    forall other ensures !Concluded(inv, s, StatementInspector(s), StatementTree(s, ast), {}, other) {
      assert v !in {};
    }
  }

  ghost predicate OneRecord(accepts: Acceptance) {
    forall text, a, b :: accepts(text, a) && accepts(text, b) ==> a == b
  }

  /** A text is accepted with one record only. */
  lemma RecordIsUnique(inv: Inventory, layers: Layers, text: Json, a: BindingPolicy, b: BindingPolicy)
    requires TextAccepted(inv, layers, text, a) && TextAccepted(inv, layers, text, b)
    ensures a == b
  {
    var s := WalkSetup(inv, layers);
    DescribedOnce(s, StatementInspector(s), StatementTree(s, text), a, b);
  }

  lemma WalkHasOneRecord(inv: Inventory, layers: Layers)
    ensures OneRecord(WalkAccepts(inv, layers))
  {
    var accepts := WalkAccepts(inv, layers);
    forall text, a, b | accepts(text, a) && accepts(text, b) ensures a == b {
      RecordIsUnique(inv, layers, text, a, b);
    }
  }
}
