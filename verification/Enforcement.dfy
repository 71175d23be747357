/**
 * The per-connection enforcement latch: what each engine hook does to it, what it logs, and how it ends.
 * Every hook is a function from the engine's view and the latch to an effect; EnforcementState refines them.
 */
module Enforcement {
  import opened Names
  import opened Policies
  import opened Origins
  import opened Plans
  import opened PlanAuthorization
  import opened PlanCheck
  import opened Lookups
  import opened TextChecks
  import opened StatementBinds

  datatype Mode = Enforce | LogOnly

  datatype Boundary = AtBinding | AtAuthorize | AtExecution | AtPrepare | AtReplacement

  /** The decision in progress, as far as the hooks read it. */
  datatype Decision = Decision(allowed: bool, violations: set<Violation>)

  const UNDECIDED := Decision(false, {})
  const NOT_ADMITTED := Decision(false, {UnsupportedStatement("not admitted")})

  function Denied(d: Decision): Decision {
    d.(allowed := false)
  }

  datatype Latch = Latch(
    statementId: nat,
    policy: Policy,
    result: Decision,
    logOnly: bool,
    inStatement: bool,
    decided: bool,
    prepareDecided: bool,
    admitted: bool,
    authorized: bool,
    executingPrepared: bool,
    prescreened: bool,
    unit: Option<Unit>)

  const CLEARED := Latch(0, DEFAULT_POLICY, UNDECIDED, false, false, false, false, false, false, false, false, None)

  /** What a hook reads from the engine: the active query id, the two global settings. */
  datatype EngineView = EngineView(active: Option<nat>, logOnly: bool, policy: Option<Policy>)

  /** How a hook ends: normally, by refusing the statement, or with an error that is no decision. */
  datatype Outcome = Returned | Refused | Thrown

  /** The history: snapshots taken, checks passed, readers asked about, and the records of the audit log. */
  datatype Entry =
    | Admission(id: nat, snapshot: Option<Policy>, logOnly: bool)
    | TextPassed(id: nat, policy: Policy, unit: Unit)
    | Authorized(id: nat, policy: Policy, unit: Unit, validated: Plan)
    | PlanPassed(id: nat, policy: Policy, unit: Unit, plan: Plan, props: Properties)
    | Prescreened(query: Option<nat>, policy: Policy, plan: Plan, props: Properties)
    | ReaderAsked(query: Option<nat>, policy: Policy)
    | Record(query: Option<nat>, mode: Mode, boundary: Boundary, inForce: Option<Policy>, allowed: bool)

  datatype Effect = Effect(latch: Latch, outcome: Outcome, trace: seq<Entry>)
  {
    /** The same effect with what was logged before it. */
    function After(earlier: seq<Entry>): Effect {
      this.(trace := earlier + trace)
    }
  }

  function ModeFor(logOnly: bool): Mode {
    if logOnly then LogOnly else Enforce
  }

  function Snapshot(p: Policy): Layers {
    Layers(p, p)
  }

  predicate Current(engine: EngineView, l: Latch) {
    l.inStatement && engine.active == Some(l.statementId)
  }

  /** A denied decision refuses in ENFORCE mode and nowhere else. */
  function OutcomeOf(mode: Mode, allowed: bool): Outcome {
    if !allowed && mode.Enforce? then Refused else Returned
  }

  /** The statement's record, marked before it can refuse. */
  function RecordDecision(engine: EngineView, l: Latch, boundary: Boundary, inForce: Option<Policy>): Effect {
    Effect(l.(decided := true), OutcomeOf(ModeFor(l.logOnly), l.result.allowed),
           [Record(engine.active, ModeFor(l.logOnly), boundary, inForce, l.result.allowed)])
  }

  // ------------------------------------------------------- admission

  /** What log-only mode's own parse finds: nothing, a statement that must be enforced, or an error it lets through. */
  datatype Routing = Ordinary | Control | Unroutable

  /**
   * What the checks at a statement's admission come to: a routing control, the remote scope, the text, the session
   * variables a parameter could read and whether that is permitted, and the private bind.
   */
  datatype Admitting = Admitting(
    routing: Routing, remoteScope: bool, text: TextOutcome, variables: set<string>, fallback: bool, auth: AuthOutcome)

  /**
   * The checks the hooks rely on, each under one policy: of a text and its record, of a parameter's fallback, of what a
   * private bind hands over, and of a plan.
   */
  datatype Checks = Checks(
    text: TextTest,
    fallback: (Policy, BindingPolicy, set<string>) -> bool,
    vetted: (Policy, BindingPolicy, Provenance, Plan) -> bool,
    plan: PlanTest)

  /** A text check under each policy. */
  type TextTest = Policy -> Acceptance

  /** A plan check: policy, text record, provenance, origin, properties, plan, and whether no violation is on record. */
  type PlanTest = (Policy, BindingPolicy, Provenance, PlanOrigin, Properties, Plan, bool) -> bool

  ghost function PlanCheckOf(inv: Inventory): PlanTest {
    (p: Policy, record: BindingPolicy, prov: Provenance, origin: PlanOrigin, props: Properties, plan: Plan,
     clean: bool) =>
      PlanAccepted(inv, Snapshot(p), record, prov, origin, props, plan, clean)
  }

  /** The check of texts the hooks make. */
  ghost function SyntaxWalk(inv: Inventory): TextTest {
    (p: Policy) => WalkAccepts(inv, Snapshot(p))
  }

  /** Gatekeeper's own around a check of texts: the fallback permission, the private bind, and the plan check. */
  ghost function GatekeeperChecks(inv: Inventory, text: TextTest): Checks {
    Checks(
      text,
      (p: Policy, record: BindingPolicy, variables: set<string>) =>
        !FallbackRefused(inv, Snapshot(p), record, variables),
      (p: Policy, record: BindingPolicy, prov: Provenance, plan: Plan) =>
        Vetted(inv, Snapshot(p), record, prov, plan),
      PlanCheckOf(inv))
  }

  /** A private bind that passed is one that vetted what it hands over. */
  ghost predicate SoundAuth(c: Checks, p: Policy, binding: BindingPolicy, auth: AuthOutcome) {
    auth.AuthPasses? ==> c.vetted(p, binding, auth.prov, auth.validated)
  }

  /** The one unit a text was admitted with, when the hooks go on with it. */
  predicate AdmitsUnit(text: TextOutcome) {
    text.TextAllowed? && |text.units| == 1 && text.units[0].pivotEnums == {}
  }

  /** Verdicts the checks themselves can have given under the policy in force. */
  ghost predicate SoundAdmitting(c: Checks, engine: EngineView, input: Admitting) {
    engine.policy.Some? && AdmitsUnit(input.text) ==>
      var p, unit := engine.policy.value, input.text.units[0];
      && c.text(p)(unit.text, unit.binding) && unit.prov == NO_PROVENANCE
      && (input.fallback <==> c.fallback(p, unit.binding, input.variables))
      && SoundAuth(c, p, unit.binding, input.auth)
  }

  function Authorize(engine: EngineView, l: Latch, auth: AuthOutcome): Effect {
    match auth
    case AuthPasses(prov, validated) =>
      if l.unit.None? then Effect(l, Thrown, [])
      else
        var unit := l.unit.value.(prov := prov);
        Effect(l.(authorized := true, unit := Some(unit)), Returned, [Authorized(l.statementId, l.policy, unit,
                                                                                 validated)])
    case AuthRefused(found) =>
      RecordDecision(engine, l.(result := Decision(false, l.result.violations + found)), AtAuthorize, Some(l.policy))
    case AuthFails(described) =>
      if !l.logOnly || !described then Effect(l, Thrown, [])
      else RecordDecision(engine, l.(result := Denied(l.result)), AtAuthorize, Some(l.policy))
  }

  /** The latch as a statement's admission leaves it before any check: cleared, with the settings as they stand. */
  function Opened(engine: EngineView, input: Admitting): Latch
    requires engine.active.Some?
  {
    CLEARED.(inStatement := true, statementId := engine.active.value,
             logOnly := engine.logOnly && !input.routing.Control?,
             policy := if engine.policy.Some? then engine.policy.value else DEFAULT_POLICY)
  }

  /** The parse for routing controls, which only log-only mode makes, can throw before any setting is read. */
  predicate ThrowsEarly(engine: EngineView, input: Admitting) {
    engine.logOnly && input.routing.Unroutable?
  }

  function BeginStatement(engine: EngineView, input: Admitting): Effect
    requires engine.active.Some?
  {
    if ThrowsEarly(engine, input) then Abandon(engine) else Proceed(engine, input)
  }

  function Abandon(engine: EngineView): Effect
    requires engine.active.Some?
  {
    Effect(CLEARED.(inStatement := true, statementId := engine.active.value), Thrown,
           [Admission(engine.active.value, None, false)])
  }

  /** The settings are read and the statement is decided under them. */
  function Proceed(engine: EngineView, input: Admitting): Effect
    requires engine.active.Some?
  {
    var l := Opened(engine, input);
    (if engine.policy.None? then RecordDecision(engine, l, AtBinding, None) else Admit(engine, l, input))
    .After([Admission(l.statementId, engine.policy, l.logOnly)])
  }

  /** The text boundary and what follows it, once the snapshot is taken. */
  function Admit(engine: EngineView, l: Latch, input: Admitting): Effect {
    var inForce := Some(l.policy);
    if !input.remoteScope then
      RecordDecision(engine, l.(result := Decision(false, {UnsupportedStatement("remote SQL pushdown")})), AtBinding,
                     inForce)
    else
      match input.text
      case TextThrows(_) => Effect(l, Thrown, [])
      case TextUnreadable => RecordDecision(engine, l, AtBinding, inForce)
      case TextDenied(found) => RecordDecision(engine, l.(result := Decision(false, found)), AtBinding, inForce)
      case TextAllowed(units) =>
        if |units| != 1 || units[0].pivotEnums != {} then
          RecordDecision(engine, l.(result := Decision(false, {UnsupportedStatement("unsupported statement")})),
                         AtBinding, inForce)
        else AdmitUnit(engine, l, units[0], input)
  }

  function AdmitUnit(engine: EngineView, l: Latch, unit: Unit, input: Admitting): Effect {
    AfterText(engine, l.(result := Decision(true, {}), admitted := true, unit := Some(unit)), unit.parameterized, input)
    .After([TextPassed(l.statementId, l.policy, unit)])
  }

  /** An admitted statement: its parameters' fallbacks, then its private bind unless parameters defer it. */
  function AfterText(engine: EngineView, l: Latch, parameterized: bool, input: Admitting): Effect {
    if !input.fallback then
      RecordDecision(engine, l.(result := Decision(false, {UnsupportedStatement("session-variable fallback")})),
                     AtBinding, Some(l.policy))
    else if !parameterized then Authorize(engine, l, input.auth)
    else Effect(l, Returned, [])
  }

  /** DuckDB 2.0 announces every later statement of a batch only here. */
  function CanRequestRebind(engine: EngineView, l: Latch, input: Admitting): Effect {
    if l.inStatement && engine.active.Some? && !Current(engine, l) then BeginStatement(engine, input)
    else Effect(l, Returned, [])
  }

  // ------------------------------------------------------- the other hooks

  /** `error` is None without an error, else whether the engine's error can be described as a decision. */
  function QueryEnd(engine: EngineView, l: Latch, error: Option<bool>): Effect {
    if l.inStatement && l.logOnly && !l.decided && error == Some(true) then
      RecordDecision(engine, l.(result := Denied(l.result)), AtAuthorize, Some(l.policy)).(latch := CLEARED)
    else Effect(CLEARED, Returned, [])
  }

  function OnPlanningError(engine: EngineView, l: Latch, described: bool): Effect {
    if !l.inStatement then Effect(l.(prepareDecided := false), Returned, [])
    else if l.logOnly && !l.decided && described then
      RecordDecision(engine, l.(result := Denied(l.result)), AtAuthorize, Some(l.policy))
    else Effect(l, Returned, [])
  }

  function OnFinalizePrepare(l: Latch): Effect {
    Effect(if l.inStatement then l else l.(prepareDecided := false), Returned, [])
  }

  function ForceRebind(engine: EngineView, l: Latch): Effect {
    var e := if !l.admitted && !l.decided
             then RecordDecision(engine, l.(result := NOT_ADMITTED), AtBinding, Some(l.policy))
               else Effect(l, Returned, []);
    if e.outcome.Returned? then e.(latch := e.latch.(executingPrepared := true)) else e
  }

  // ------------------------------------------------------- the replacement gate

  datatype GateMode = GateOpen | GateEnforce | GateLogOnly

  function ReplacementGate(engine: EngineView, l: Latch): GateMode {
    if l.inStatement then
      if !Current(engine, l) || !l.logOnly then GateEnforce else if l.decided then GateOpen else GateLogOnly
    else if !engine.logOnly then GateEnforce
    else if l.prepareDecided then GateOpen
    else GateLogOnly
  }

  /** The accessors the gate reads: the admission's own snapshot, only while its statement is the active one. */
  function AdmittedPolicy(engine: EngineView, l: Latch): Option<Policy> {
    if l.admitted && Current(engine, l) then Some(l.policy) else None
  }

  function AdmittedBinding(engine: EngineView, l: Latch): Option<BindingPolicy> {
    if l.admitted && Current(engine, l) && l.unit.Some? then Some(l.unit.value.binding) else None
  }

  function GateRecord(engine: EngineView, l: Latch, mode: Mode, inForce: Option<Policy>): Effect {
    Effect(if l.inStatement then l.(decided := true) else l.(prepareDecided := true), OutcomeOf(mode, false),
           [Record(engine.active, mode, AtReplacement, inForce, false)])
  }

  function ReplacementScan(inv: Inventory, engine: EngineView, l: Latch, path: NamePath,
                           resolution: Resolution): Effect {
    var gate := ReplacementGate(engine, l);
    if gate.GateOpen? then Effect(l, Returned, [])
    else
      var mode := if gate.GateLogOnly? then LogOnly else Enforce;
      var p := if AdmittedPolicy(engine, l).Some? then AdmittedPolicy(engine, l) else engine.policy;
      UnderPolicy(inv, engine, l, mode, p, path, resolution)
  }

  function UnderPolicy(inv: Inventory, engine: EngineView, l: Latch, mode: Mode, p: Option<Policy>, path: NamePath,
                       resolution: Resolution): Effect
  {
    if p.None? then GateRecord(engine, l, mode, None)
    else JudgeReplacement(inv, engine, l, mode, p.value, path, resolution).After([ReaderAsked(engine.active, p.value)])
  }

  /** The policy in force decides about what the callbacks produced; nothing produced is the engine's own error. */
  function JudgeReplacement(inv: Inventory, engine: EngineView, l: Latch, mode: Mode, p: Policy, path: NamePath,
                            resolution: Resolution): Effect
  {
    match resolution
    case Unclaimed => Effect(l, if mode.LogOnly? then Returned else Thrown, [])
    case Unsupported => GateRecord(engine, l, mode, Some(p))
    case Reader(entry) =>
      if ReaderRefused(inv, p, AdmittedBinding(engine, l), path, entry) then GateRecord(engine, l, mode, Some(p))
      else Effect(l, Returned, [])
  }

  // ------------------------------------------------------- the execution boundary

  datatype Binding = Binding(plan: Plan, props: Properties, preparing: bool, auth: AuthOutcome)

  /** What checking the plan came to, with the violations it left. */
  datatype Judgement = Judgement(verdict: Verdict, left: set<Violation>)

  const UNATTRIBUTED := NO_PROVENANCE.(unattributed := true)

  predicate Wrapper(plan: Plan) {
    plan.node.kind.PrepareWrapper? || plan.node.kind.ExecuteWrapper?
  }

  /** A nested plan a Prepare() prepares; the rebind hook's flag keeps an EXECUTE's plan out of this case. */
  predicate OnlyPrescreened(l: Latch, b: Binding) {
    b.preparing && !l.executingPrepared
  }

  function PrescreenOutside(engine: EngineView, l: Latch, b: Binding, j: Judgement): Effect {
    var mode := ModeFor(engine.logOnly);
    if l.prepareDecided then Effect(l.(prepareDecided := false), Returned, [])
    else if engine.policy.None? then
      Effect(l, OutcomeOf(mode, false), [Record(engine.active, mode, AtPrepare, None, false)])
    else
      match j.verdict
      case Pass => Effect(l, Returned, [Prescreened(engine.active, engine.policy.value, b.plan, b.props)])
      case Deny => Effect(l, OutcomeOf(mode, false), [Record(engine.active, mode, AtPrepare, engine.policy, false)])
      case Broken => Effect(l, Thrown, [])
  }

  function PrescreenInside(engine: EngineView, l: Latch, b: Binding, j: Judgement): Effect {
    if !l.admitted then RecordDecision(engine, l.(result := NOT_ADMITTED), AtPrepare, Some(l.policy))
    else
      match j.verdict
      case Pass => Effect(l.(prescreened := true), Returned, [Prescreened(engine.active, l.policy, b.plan, b.props)])
      case Deny => RecordDecision(engine, l.(result := Decision(false, j.left)), AtPrepare, Some(l.policy))
      case Broken => Effect(l, Thrown, [])
  }

  function AcceptWrapper(engine: EngineView, l: Latch, plan: Plan): Effect {
    var prepare := plan.node.kind.PrepareWrapper?;
    if (if prepare then l.prescreened else l.decided && l.result.allowed) then Effect(l, Returned, [])
    else RecordDecision(engine, l.(result := NOT_ADMITTED), if prepare then AtPrepare else AtExecution, Some(l.policy))
  }

  /** The plan the engine is about to execute: authorize it if parameters deferred that, then check it and record. */
  function DecidePlan(engine: EngineView, l: Latch, b: Binding, j: Judgement): Effect {
    if !l.admitted then RecordDecision(engine, l.(result := NOT_ADMITTED), AtExecution, Some(l.policy))
    else
      var a := if l.authorized then Effect(l, Returned, []) else Authorize(engine, l, b.auth);
      if !a.latch.authorized then a
      else Conclude(engine, a.latch, b, j).After(a.trace)
  }

  /** The one record an allowed statement produces, or the denial of its plan. */
  function Conclude(engine: EngineView, l: Latch, b: Binding, j: Judgement): Effect {
    match j.verdict
    case Pass =>
      if l.unit.None? then Effect(l, Thrown, [])
      else RecordDecision(engine, l, AtExecution, Some(l.policy))
           .After([PlanPassed(l.statementId, l.policy, l.unit.value, b.plan, b.props)])
    case Deny => RecordDecision(engine, l.(result := Decision(false, j.left)), AtExecution, Some(l.policy))
    case Broken => Effect(l, Thrown, [])
  }

  function PostBind(engine: EngineView, l: Latch, b: Binding, j: Judgement): Effect {
    if !l.inStatement then PrescreenOutside(engine, l, b, j)
    else if !Current(engine, l) then RecordDecision(engine, l.(result := NOT_ADMITTED), AtExecution, Some(l.policy))
    else if l.logOnly && l.decided then Effect(l, Returned, [])
    else PostBindInside(engine, l, b, j)
  }

  /** A plan of the statement in progress, not decided yet. */
  function PostBindInside(engine: EngineView, l: Latch, b: Binding, j: Judgement): Effect {
    if OnlyPrescreened(l, b) then PrescreenInside(engine, l, b, j)
    else if Wrapper(b.plan) then AcceptWrapper(engine, l, b.plan)
    else DecidePlan(engine, l, b, j)
  }

  /** The unit the engine's plan is held against: the admitted one, with this hook's own private bind if it ran. */
  function CheckedProvenance(l: Latch, b: Binding): Provenance {
    if !l.authorized && b.auth.AuthPasses? then b.auth.prov
    else if l.unit.Some? then l.unit.value.prov else NO_PROVENANCE
  }

  /** The question PostBind puts to the plan check, in each of the cases that ask one. */
  ghost predicate PlanQuestion(test: PlanTest, engine: EngineView, l: Latch, b: Binding) {
    if !l.inStatement then
      engine.policy.Some? && test(engine.policy.value, NO_TEXT, UNATTRIBUTED, Prescreen, b.props, b.plan, true)
    else if OnlyPrescreened(l, b) then
      test(l.policy, NO_TEXT, UNATTRIBUTED, Prescreen, b.props, b.plan, l.result.violations == {})
    else
      l.unit.Some?
      && test(l.policy, l.unit.value.binding, CheckedProvenance(l, b), PlanOrigin.Engine, b.props, b.plan,
              l.result.violations == {})
  }

  /** The cases in which PostBind asks the plan check at all. */
  predicate Asks(engine: EngineView, l: Latch, b: Binding) {
    if !l.inStatement then !l.prepareDecided && engine.policy.Some?
    else
      && Current(engine, l) && !(l.logOnly && l.decided) && l.admitted
      && (OnlyPrescreened(l, b) || (!Wrapper(b.plan) && (l.authorized || b.auth.AuthPasses?)))
  }

  /** A judgement the plan check can have given. */
  ghost predicate Faithful(test: PlanTest, engine: EngineView, l: Latch, b: Binding, j: Judgement) {
    Asks(engine, l, b) ==> (j.verdict.Pass? <==> PlanQuestion(test, engine, l, b))
  }

  /** The flag invariants the latch documents. */
  predicate FlagsHold(l: Latch) {
    && (l.authorized ==> l.admitted) && (l.admitted ==> l.inStatement)
    && (l.prepareDecided ==> !l.inStatement)
    && (l.admitted <==> l.unit.Some?)
    && (l.prescreened ==> l.admitted)
    && (!l.inStatement ==> !l.logOnly && l.policy == DEFAULT_POLICY)
  }

  // ------------------------------------------------------- what the entries mean

  /** An entry is sincere when the check it reports really holds of what it names. */
  ghost predicate Sincere(c: Checks, x: Entry) {
    match x
    case TextPassed(_, p, unit) => c.text(p)(unit.text, unit.binding)
    case Authorized(_, p, unit, validated) => c.vetted(p, unit.binding, unit.prov, validated)
    case PlanPassed(_, p, unit, plan, props) => c.plan(p, unit.binding, unit.prov, PlanOrigin.Engine, props, plan, true)
    case Prescreened(_, p, plan, props) => c.plan(p, NO_TEXT, UNATTRIBUTED, Prescreen, props, plan, true)
    case _ => true
  }

  ghost predicate AllSincere(c: Checks, entries: seq<Entry>) {
    forall x :: x in entries ==> Sincere(c, x)
  }
}
