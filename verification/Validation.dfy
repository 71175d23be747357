/** gatekeeper_validate with no options and the enforcement hooks: the same checks, and so the same verdict. */
module Validations {
  import opened Names
  import opened Policies
  import opened Trees
  import opened Origins
  import opened Plans
  import opened Walks
  import opened PlanAuthorization
  import opened PlanCheck
  import opened TextChecks
  import opened StatementBinds
  import opened Enforcement
  import opened EnforcementStates
  import opened Hooks

  // ------------------------------------------------------- validation

  datatype Report = Allows | Denies | Throws

  /** The statement's text is admitted, and its private bind passes. */
  ghost predicate PassesAll(n: Answers, p: Policy, a: Arrival) {
    && a.source.Statement? && a.source.astBytes <= MAX_AST_BYTES
    && exists record :: n.text(p)(a.source.ast, record) && n.passes(p, record, a.script)
  }

  /** The statement's text is admitted, and its private bind ends in an engine error. */
  ghost predicate FailsToBind(n: Answers, p: Policy, a: Arrival) {
    && a.source.Statement? && a.source.astBytes <= MAX_AST_BYTES
    && exists record ::
         n.text(p)(a.source.ast, record) && !n.passes(p, record, a.script) && n.breaks(p, record, a.script)
  }

  /**
   * What validation reports of one statement: it allows exactly what passes every check, it throws exactly the engine
   * errors that must not be described, and it denies the rest.
   */
  ghost predicate Reports(n: Answers, p: Policy, a: Arrival, report: Report) {
    && (report == Allows <==> a.remoteScope && PassesAll(n, p, a))
    && (report == Throws <==>
          a.source == EngineThrows(false) || (a.remoteScope && !a.described && FailsToBind(n, p, a)))
  }

  function ReportOfText(text: TextOutcome): Report {
    if text.TextThrows? && !text.described then Throws else Denies
  }

  function ReportOfBind(auth: AuthOutcome): Report {
    match auth
    case AuthPasses(_, _) => Allows
    case AuthRefused(_) => Denies
    case AuthFails(described) => if described then Denies else Throws
  }

  lemma TextReports(n: Answers, p: Policy, a: Arrival, text: TextOutcome)
    requires TextDecided(n.text(p), a.source, text) && !text.TextAllowed?
    ensures Reports(n, p, a, ReportOfText(text))
  {
  }

  lemma BindReports(n: Answers, p: Policy, a: Arrival, text: TextOutcome, auth: AuthOutcome)
    requires TextDecided(n.text(p), a.source, text) && text.TextAllowed? && OneRecord(n.text(p))
    requires var record := text.units[0].binding;
             AuthDecided(a.remoteScope, n.passes(p, record, a.script), n.breaks(p, record, a.script),
                         n.left(p, record, a.script), a.script, a.described, auth)
    ensures Reports(n, p, a, ReportOfBind(auth))
  {
    var record := text.units[0].binding;
    assert n.text(p)(a.source.ast, record);
  }

  /** Validation of one statement: its text, then its private authorization, with errors described where they can be. */
  method Check(inv: Inventory, p: Policy, a: Arrival) returns (report: Report)
    requires !a.source.Batch? && PlayableFor(inv, p, SyntaxWalk(inv)(p), a.source, a.script)
    ensures Reports(GatekeeperAnswers(inv, SyntaxWalk(inv)), p, a, report)
  {
    var text := CheckText(inv, Snapshot(p), a.source);
    if !text.TextAllowed? {
      TextReports(GatekeeperAnswers(inv, SyntaxWalk(inv)), p, a, text);
      return ReportOfText(text);
    }
    var auth := AuthorizeAlone(inv, p, text.units[0].binding, a, SyntaxWalk(inv));
    WalkHasOneRecord(inv, Snapshot(p));
    BindReports(GatekeeperAnswers(inv, SyntaxWalk(inv)), p, a, text, auth);
    report := ReportOfBind(auth);
  }

  method AuthorizeAlone(inv: Inventory, p: Policy, record: BindingPolicy, a: Arrival, ghost text: TextTest)
    returns (auth: AuthOutcome)
    requires Playable(inv, Snapshot(p), record, FromNothing(), a.script)
    ensures var n := GatekeeperAnswers(inv, text);
            AuthDecided(a.remoteScope, n.passes(p, record, a.script), n.breaks(p, record, a.script),
                        n.left(p, record, a.script), a.script, a.described, auth)
  {
    auth := AuthorizeUnit(inv, Snapshot(p), record, NO_EVIDENCE, a.remoteScope, a.script, None, a.described);
  }

  // ------------------------------------------------------- admission agrees with it

  /**
   * One statement without parameters, put to both in one session: the same variables, and a parser that fails for one
   * fails for the other, unless the text is refused before it is parsed.
   */
  predicate SingleStatement(a: Arrival) {
    && !a.source.Batch? && (a.source.Statement? ==> !a.source.parameterized) && a.script.variables == a.variables
    && (a.routing.Unroutable? ==> a.source.NulByte? || a.source.TooLong? || a.source.EngineThrows?)
  }

  /** A fallback that is not permitted is refused by the private bind too. */
  ghost predicate FallbacksBind(n: Answers) {
    forall p, record, script: Script :: !n.fallback(p, record, script.variables) ==>
      !n.passes(p, record, script) && !n.breaks(p, record, script)
  }

  /** Both put the same question to the same answers. */
  ghost predicate Asked(n: Answers, engine: EngineView, a: Arrival, input: Admitting, report: Report) {
    && engine.active.Some? && engine.policy.Some? && SingleStatement(a)
    && OneRecord(n.text(engine.policy.value)) && FallbacksBind(n)
    && Decides(n, engine, a, input) && Reports(n, engine.policy.value, a, report)
  }

  /** What validation would report of the verdicts an admission that read the text acts on. */
  lemma SameVerdict(n: Answers, engine: EngineView, a: Arrival, input: Admitting, report: Report)
    requires Asked(n, engine, a, input, report) && ReadsText(engine, a)
    ensures !input.text.TextAllowed? ==> report == ReportOfText(input.text)
    ensures input.text.TextAllowed? ==> AdmitsUnit(input.text) && !input.text.units[0].parameterized
    ensures input.text.TextAllowed? && !input.fallback ==> report == Denies
    ensures input.text.TextAllowed? && input.fallback ==> report == ReportOfBind(input.auth)
    ensures FailsToBind(n, engine.policy.value, a) <==>
            input.text.TextAllowed? && input.fallback && input.auth.AuthFails?
  {
    if input.text.TextAllowed? {
      assert n.text(engine.policy.value)(a.source.ast, input.text.units[0].binding);
    }
  }

  /**
   * Enforcing, the admission lets a statement go on exactly when validation allows it. It throws exactly when it got as
   * far as the text and met an engine error, and what it refuses validation denies, but for one text error that only
   * validation meets.
   */
  lemma EnforcingAgrees(n: Answers, engine: EngineView, a: Arrival, input: Admitting, report: Report)
    requires Asked(n, engine, a, input, report) && (!engine.logOnly || a.routing.Control?)
    ensures var e := BeginStatement(engine, input);
            && (e.latch.authorized <==> report == Allows)
            && (e.outcome == Returned <==> report == Allows)
            && (e.outcome == Thrown <==>
                  a.remoteScope && (a.source.EngineThrows? || FailsToBind(n, engine.policy.value, a)))
            && (e.outcome == Outcome.Refused ==>
                  (report == Denies <==> a.source != EngineThrows(false)))
  {
    if ReadsText(engine, a) {
      SameVerdict(n, engine, a, input, report);
    }
  }

  /**
   * Errors the two treat alike. The admission asks about the remote scope before it reads the text and lets every text
   * error but an unreadable text through; validation asks after it and describes what can be described. The parse for
   * routing controls, which only log-only admission makes, comes before all of it.
   */
  predicate SameErrors(a: Arrival) {
    if a.routing.Unroutable? then a.source == EngineThrows(false)
    else a.source.EngineThrows? ==> (a.source.described <==> !a.remoteScope)
  }

  /**
   * Log-only, the admission records a denial exactly when validation reports one and throws exactly when it throws, if
   * and only if the text raises no error that the two treat differently.
   */
  lemma LogOnlyAgreesIff(n: Answers, engine: EngineView, a: Arrival, input: Admitting, report: Report)
    requires Asked(n, engine, a, input, report) && engine.logOnly && !a.routing.Control?
    ensures var e := BeginStatement(engine, input);
            && (e.latch.authorized <==> report == Allows)
            && ((&& (e.latch.decided <==> report == Denies)
                 && (e.outcome == Thrown <==> report == Throws))
                <==> SameErrors(a))
  {
    if ReadsText(engine, a) {
      SameVerdict(n, engine, a, input, report);
    }
  }

  lemma GatekeeperFallbacksBind(inv: Inventory, text: TextTest)
    ensures FallbacksBind(GatekeeperAnswers(inv, text))
  {
  }

  /** How an admission left the latch, against what validation reported: both modes. */
  ghost predicate Agree(engine: EngineView, a: Arrival, l: Latch, outcome: Outcome, report: Report) {
    && (l.authorized <==> report == Allows)
    && (!engine.logOnly || a.routing.Control? ==> (outcome == Returned <==> report == Allows))
    && (engine.logOnly && !a.routing.Control? ==>
          ((l.decided <==> report == Denies) && (outcome == Thrown <==> report == Throws) <==> SameErrors(a)))
  }

  lemma Agreement(n: Answers, engine: EngineView, a: Arrival, input: Admitting, report: Report)
    requires Asked(n, engine, a, input, report)
    ensures var e := BeginStatement(engine, input); Agree(engine, a, e.latch, e.outcome, report)
  {
    if !engine.logOnly || a.routing.Control? {
      EnforcingAgrees(n, engine, a, input, report);
    } else {
      LogOnlyAgreesIff(n, engine, a, input, report);
    }
  }

  lemma GatekeeperIsAsked(inv: Inventory, engine: EngineView, a: Arrival, input: Admitting, report: Report)
    requires engine.active.Some? && engine.policy.Some? && SingleStatement(a)
    requires var n := GatekeeperAnswers(inv, SyntaxWalk(inv));
             Decides(n, engine, a, input) && Reports(n, engine.policy.value, a, report)
    ensures Asked(GatekeeperAnswers(inv, SyntaxWalk(inv)), engine, a, input, report)
  {
    WalkHasOneRecord(inv, Snapshot(engine.policy.value));
    GatekeeperFallbacksBind(inv, SyntaxWalk(inv));
  }

  /** The two code paths on one statement: validation first, then the hook. */
  method ValidateThenBegin(state: EnforcementState, engine: EngineView, a: Arrival)
    returns (report: Report, outcome: Outcome)
    requires engine.active.Some? && engine.policy.Some? && SingleStatement(a)
    requires PlayableUnder(state.inv, engine, SyntaxWalk(state.inv), a)
    modifies state
    ensures Agree(engine, a, state.View(), outcome, report)
  {
    report := Check(state.inv, engine.policy.value, a);
    ghost var input;
    outcome, input := QueryBegin(state, engine, a);
    GatekeeperIsAsked(state.inv, engine, a, input, report);
    Agreement(GatekeeperAnswers(state.inv, SyntaxWalk(state.inv)), engine, a, input, report);
  }

  // ------------------------------------------------------- and so does execution

  lemma {:induction false} FlatMapCongruent<T, U>(f: T -> seq<U>, g: T -> seq<U>, nodes: seq<T>)
    requires forall x :: x in nodes ==> f(x) == g(x)
    ensures FlatMap(f, nodes) == FlatMap(g, nodes)
  {
    if nodes != [] {
      FlatMapCongruent(f, g, nodes[..|nodes| - 1]);
      assert nodes[|nodes| - 1] in nodes;
    }
  }

  /** Two provenances that differ in nothing but the tallies of validated scans. */
  predicate SameButScans(a: Provenance, b: Provenance) {
    b == a.(validatedScans := b.validatedScans, validatedFunctionScans := b.validatedFunctionScans)
  }

  lemma StepsIgnoreScans(binding: BindingPolicy, a: Provenance, b: Provenance, plan: Plan)
    requires SameButScans(a, b)
    ensures PlanSteps(binding, a, plan) == PlanSteps(binding, b, plan)
  {
    var ops, exprs := Visit([plan]), Visit(Expressions(plan));
    FlatMapCongruent((node: OpNode) => ScanSteps(binding, a, node), (node: OpNode) => ScanSteps(binding, b, node), ops);
    FlatMapCongruent((node: ExprNode) => ExprSteps(binding, a, node), (node: ExprNode) => ExprSteps(binding, b, node),
                     exprs);
  }

  lemma CallIgnoresScans(inv: Inventory, p: Policy, binding: BindingPolicy, a: Provenance, b: Provenance, call: Call)
    requires SameButScans(a, b)
    ensures CallPasses(inv, p, binding, a, call) == CallPasses(inv, p, binding, b, call)
  {
    assert Resolve(binding, a, call) == Resolve(binding, b, call);
  }

  lemma AcceptsIgnoresScans(inv: Inventory, p: Policy, binding: BindingPolicy, a: Provenance, b: Provenance, plan: Plan)
    requires SameButScans(a, b) && Accepts(inv, p, binding, a, plan)
    ensures Accepts(inv, p, binding, b, plan)
  {
    StepsIgnoreScans(binding, a, b, plan);
    forall step | step in PlanSteps(binding, b, plan) ensures StepPasses(inv, p, binding, b, step) {
      assert StepPasses(inv, p, binding, a, step);
      CallIgnoresScans(inv, p, binding, a, b, step.call);
    }
  }

  lemma TalliedIsWithin<K(!new)>(book: map<K, nat>, scans: multiset<K>)
    requires Tallies(book, scans)
    ensures Within(scans, book)
  {
  }

  lemma ScansIgnoreScans(layers: Layers, binding: BindingPolicy, a: Provenance, b: Provenance, plan: Plan)
    requires SameButScans(a, b) && EveryScanPasses(layers, binding, a, plan, true)
    ensures EveryScanPasses(layers, binding, b, plan, true)
  {
    forall node | node in Nodes(plan) ensures ScanPasses(layers, binding, b, node, true) {
      assert ScanPasses(layers, binding, a, node, true);
    }
  }

  /** The plan a private bind validated is accepted again, as the engine's, against the tallies it left. */
  lemma ValidatedPlanPassesAgain(inv: Inventory, layers: Layers, binding: BindingPolicy, before: Provenance,
                                 prov: Provenance, props: Properties, plan: Plan)
    requires SameButScans(before, prov) && PlanAccepted(inv, layers, binding, before, Private, props, plan, true)
    requires Tallies(prov.validatedScans, TableScans(plan)) && Tallies(prov.validatedFunctionScans, SourceScans(plan))
    ensures PlanAccepted(inv, layers, binding, prov, PlanOrigin.Engine, props, plan, true)
  {
    AcceptsIgnoresScans(inv, layers.ceiling, binding, before, prov, plan);
    AcceptsIgnoresScans(inv, layers.policy, binding, before, prov, plan);
    ScansIgnoreScans(layers, binding, before, prov, plan);
    TalliedIsWithin(prov.validatedScans, TableScans(plan));
    TalliedIsWithin(prov.validatedFunctionScans, SourceScans(plan));
  }

  /** The boundary lets an authorized plan through that its check accepts, and records it as allowed. */
  lemma AcceptedIsLetThrough(test: PlanTest, engine: EngineView, l: Latch, b: Binding, j: Judgement)
    requires FlagsHold(l) && Current(engine, l) && l.authorized && l.result == Decision(true, {})
    requires !(l.logOnly && l.decided)
    requires !OnlyPrescreened(l, b) && !Wrapper(b.plan) && Faithful(test, engine, l, b, j)
    requires test(l.policy, l.unit.value.binding, l.unit.value.prov, PlanOrigin.Engine, b.props, b.plan, true)
    ensures RunsAllowed(engine, l, b, j)
  {
    assert Asks(engine, l, b) && j.verdict.Pass?;
    var e := Enforcement.PostBind(engine, l, b, j);
    assert e.trace[1] == Record(engine.active, ModeFor(l.logOnly), AtExecution, Some(l.policy), true);
  }

  /** A vetted plan's root is a reviewed operator, so it is no wrapper. */
  lemma AcceptedIsNoWrapper(inv: Inventory, layers: Layers, binding: BindingPolicy, prov: Provenance, props: Properties,
                            plan: Plan)
    requires PlanAccepted(inv, layers, binding, prov, PlanOrigin.Engine, props, plan, true)
    ensures !Wrapper(plan)
  {
    assert OnlyReviewed(plan);
  }

  /** A bind that passes leaves a provenance against which its own plan, with its own properties, passes again. */
  ghost predicate Repeats(n: Answers, test: PlanTest) {
    forall p, record, script :: RepeatsFor(n, test, p, record, script)
  }

  ghost predicate RepeatsFor(n: Answers, test: PlanTest, p: Policy, record: BindingPolicy, script: Script) {
    n.passes(p, record, script) ==>
      && script.ending.Bound? && !Wrapper(script.ending.plan)
      && test(p, record, n.left(p, record, script), PlanOrigin.Engine, script.ending.props, script.ending.plan, true)
  }

  lemma AloneRepeats(inv: Inventory, p: Policy, record: BindingPolicy, script: Script)
    requires PassesAlone(inv, p, record, script)
    ensures script.ending.Bound? && !Wrapper(script.ending.plan)
    ensures PlanAccepted(inv, Snapshot(p), record, LeftAlone(inv, p, record, script), PlanOrigin.Engine,
                         script.ending.props, script.ending.plan, true)
  {
    LeftIsTallied(inv, Snapshot(p), record, FromNothing(), script);
    ValidatedPlanPassesAgain(inv, Snapshot(p), record, Played(inv, Snapshot(p), record, FromNothing(), script).prov,
                             LeftAlone(inv, p, record, script), script.ending.props, script.ending.plan);
    AcceptedIsNoWrapper(inv, Snapshot(p), record, LeftAlone(inv, p, record, script), script.ending.props,
                        script.ending.plan);
  }

  lemma GatekeeperRepeats(inv: Inventory, text: TextTest)
    ensures Repeats(GatekeeperAnswers(inv, text), PlanCheckOf(inv))
  {
    forall p, record, script
      ensures RepeatsFor(GatekeeperAnswers(inv, text), PlanCheckOf(inv), p, record, script)
    {
      GatekeeperRepeatsFor(inv, text, p, record, script);
    }
  }

  lemma GatekeeperRepeatsFor(inv: Inventory, text: TextTest, p: Policy, record: BindingPolicy, script: Script)
    ensures RepeatsFor(GatekeeperAnswers(inv, text), PlanCheckOf(inv), p, record, script)
  {
    if PassesAlone(inv, p, record, script) {
      AloneRepeats(inv, p, record, script);
    }
  }

  lemma AllowedIsAuthorized(n: Answers, engine: EngineView, a: Arrival, input: Admitting)
    requires Asked(n, engine, a, input, Allows)
    ensures var l, p := BeginStatement(engine, input).latch, engine.policy.value;
            && FlagsHold(l) && Current(engine, l) && l.authorized && l.result == Decision(true, {}) && !l.decided
            && !l.executingPrepared && l.policy == p && l.unit.Some?
            && n.passes(p, l.unit.value.binding, a.script)
            && l.unit.value.prov == n.left(p, l.unit.value.binding, a.script)
  {
    assert ReadsText(engine, a);
    SameVerdict(n, engine, a, input, Allows);
  }

  /** The boundary returns normally and records the plan as allowed. */
  predicate RunsAllowed(engine: EngineView, l: Latch, b: Binding, j: Judgement) {
    var e := Enforcement.PostBind(engine, l, b, j);
    && e.outcome == Returned
    && Record(engine.active, ModeFor(l.logOnly), AtExecution, Some(l.policy), true) in e.trace
  }

  /**
   * What validation allows, enforcement runs: when the engine binds the very plan the private bind ended with, with the
   * same properties, the boundary lets it through and records it as allowed, whatever happened to the settings in the
   * meantime.
   */
  lemma ValidatedExecutes(n: Answers, test: PlanTest, engine: EngineView, later: EngineView, a: Arrival,
                          input: Admitting)
    requires Asked(n, engine, a, input, Allows) && Repeats(n, test) && later.active == engine.active
    ensures a.script.ending.Bound?
    ensures forall auth, j ::
              var l := BeginStatement(engine, input).latch;
              var b := Binding(a.script.ending.plan, a.script.ending.props, false, auth);
              Faithful(test, later, l, b, j) ==> RunsAllowed(later, l, b, j)
  {
    AllowedIsAuthorized(n, engine, a, input);
    var l := BeginStatement(engine, input).latch;
    assert RepeatsFor(n, test, l.policy, l.unit.value.binding, a.script);
    forall auth, j
      | Faithful(test, later, l, Binding(a.script.ending.plan, a.script.ending.props, false, auth), j)
      ensures RunsAllowed(later, l, Binding(a.script.ending.plan, a.script.ending.props, false, auth), j)
    {
      AcceptedIsLetThrough(test, later, l, Binding(a.script.ending.plan, a.script.ending.props, false, auth), j);
    }
  }

  /** The same with Gatekeeper's own binds and plan check, around any check of texts. */
  lemma ValidatedStatementExecutes(inv: Inventory, text: TextTest, engine: EngineView, later: EngineView, a: Arrival,
                                   input: Admitting)
    requires Asked(GatekeeperAnswers(inv, text), engine, a, input, Allows) && later.active == engine.active
    ensures a.script.ending.Bound?
    ensures forall auth, j ::
              var l := BeginStatement(engine, input).latch;
              var b := Binding(a.script.ending.plan, a.script.ending.props, false, auth);
              Faithful(PlanCheckOf(inv), later, l, b, j) ==> RunsAllowed(later, l, b, j)
  {
    GatekeeperRepeats(inv, text);
    ValidatedExecutes(GatekeeperAnswers(inv, text), PlanCheckOf(inv), engine, later, a, input);
  }
}
