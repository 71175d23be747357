/** Bound plans as the engine hands them over, and the evidence a check accumulates. */
module Plans {
  import opened Names
  import opened Policies
  import opened Trees

  /** The aggregate a list dispatcher carries in its bind data, as far as it can be inspected. */
  datatype DispatchTarget = NoTarget | Target(id: Identity) | Uninspectable

  /**
   * One bound expression. The children of its tree are the nested expressions in enumeration order, a list lambda's
   * body last. `opaqueLambda` marks a system list-lambda builtin whose body cannot be reached.
   */
  datatype ExprNode =
    | OtherExpr
    | UnnestExpr
    | FunctionExpr(id: Identity, definition: Option<Identity>, opaqueLambda: bool, target: DispatchTarget)
    | AggregateExpr(id: Identity, definition: Option<Identity>)
    | WindowAggregateExpr(id: Identity, definition: Option<Identity>)
    | WindowExpr(id: Identity)
    | UnknownWindowExpr

  type Expression = Tree<ExprNode>

  datatype TableEntry = TableEntry(catalog: string, schemaPath: NamePath, name: string, internal: bool)

  /** A LOGICAL_GET: the scan function and, when an attached catalog provides it, the table entry. */
  datatype Scan = Scan(function_: Identity, table: Option<TableEntry>)

  /** The type a CREATE TYPE operator would create. */
  datatype CreateInfo = CreateInfo(
    temporary: bool, internal: bool, replaceOnConflict: bool, undefinedType: bool, name: string, catalog: string,
    hasQuery: bool)

  datatype OperatorKind =
    | Projection | Filter | AggregateAndGroupBy | Window | Unnest | Limit | OrderBy | TopN | Distinct | Sample | Pivot
    | Get(scan: Scan) | ChunkGet | DelimGet | ExpressionGet | DummyScan | EmptyResult | CteRef
    | Join | DelimJoin | ComparisonJoin | AnyJoin | CrossProduct | PositionalJoin | AsofJoin | DependentJoin
    | Union | Except | Intersect | RecursiveCte | MaterializedCte | SecureView
    | CreateType(info: CreateInfo) | PrepareWrapper | ExecuteWrapper | Unreviewed(code: nat)

  datatype OpNode = OpNode(kind: OperatorKind, expressions: seq<Expression>)

  type Plan = Tree<OpNode>

  /** The reviewed operators a bound SELECT may contain. */
  predicate ReadOperator(kind: OperatorKind) {
    !kind.CreateType? && !kind.PrepareWrapper? && !kind.ExecuteWrapper? && !kind.Unreviewed?
  }

  /** Functions that hand SQL on to a server, where no local identity says what is read. */
  predicate OpaqueQuack(name: string) {
    Lower(name) == "quack_query" || Lower(name) == "quack_query_by_name"
  }

  datatype Violation =
    | FunctionNotAllowed(id: FunctionGrant)
    | ObjectBlocked(object: Table)
    | InternalObject(object: Table)
    | ObjectNotAllowed(object: Table)
    | UnsupportedStatement(reason: string)
    | TextRefused(rule: string)
    | ScanDiverged(object: Table)
    | SourceDiverged(function_: string)

  /** The part of a check's result that plan checks read or extend. */
  datatype Evidence = Evidence(
    violations: set<Violation>,
    functions: set<FunctionGrant>,
    callerFunctions: set<FunctionGrant>,
    objects: set<Table>,
    callerObjects: set<Table>)

  const NO_EVIDENCE := Evidence({}, {}, {}, {}, {})

  /** How a check that can throw ended: normally, with a permission error, or with an engine error. */
  datatype Verdict = Pass | Deny | Broken
}
