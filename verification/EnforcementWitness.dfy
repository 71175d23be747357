/** Concrete runs: one in which a statement executes, and one in which a stale plan passes in log-only mode. */
module EnforcementWitness {
  import opened Names
  import opened Policies
  import opened Trees
  import opened Origins
  import opened Plans
  import opened PlanAuthorization
  import opened PlanCheck
  import opened TextChecks
  import opened TextWitness
  import opened PrivateBinds
  import opened StatementBinds
  import opened Enforcement
  import opened EnforcementRuns
  import opened EnforcementSafety
  import opened Hooks
  import opened Validations

  // ------------------------------------------------------- a plan that passes

  /** The plan of a SELECT without a FROM clause and without a function. */
  const IDLE: Plan := Tree(OpNode(DummyScan, []), [])

  const READS := Properties([], QueryResult)

  lemma IdleVisits()
    ensures Visit([IDLE]) == [IDLE.node] && Expressions(IDLE) == [] && TableScans(IDLE) == multiset{}
    ensures SourceScans(IDLE) == multiset{}
  {
    VisitRoot(IDLE);
    assert Visit<OpNode>([]) == [];
  }

  lemma IdleAccepted(inv: Inventory, p: Policy, origin: PlanOrigin)
    ensures PlanAccepted(inv, Snapshot(p), SILENT, NO_PROVENANCE, origin, READS, IDLE, true)
  {
    IdleVisits();
    assert PlanSteps(SILENT, NO_PROVENANCE, IDLE) == [];
  }

  /** The private bind of it: no lookups, no parameters, and the plan at the end. */
  const IDLE_BIND := Script({}, Some(map[]), [], Bound(IDLE, READS, true, {}))

  lemma IdleTally()
    ensures TallyOf(IDLE) == Books(map[], map[])
  {
    IdleVisits();
  }

  /** Its one event. */
  lemma IdlePlays(inv: Inventory, p: Policy)
    ensures Playable(inv, Snapshot(p), SILENT, FromNothing(), IDLE_BIND)
    ensures Played(inv, Snapshot(p), SILENT, FromNothing(), IDLE_BIND)
         == RootedAt(FromNothing(), map[], NO_EVIDENCE)
    ensures RootedAt(FromNothing(), map[], NO_EVIDENCE).prov == NO_PROVENANCE
  {
    var root := PrivateBinds.Root(map[], NO_EVIDENCE);
    assert BindEvents(SILENT, FromNothing(), IDLE_BIND) == [root] && [root][..0] == [];
    assert PrivateBinds.Run(inv, Snapshot(p), SILENT, FromNothing(), []) == Some(FromNothing());
  }

  lemma IdlePasses(inv: Inventory, p: Policy)
    ensures PassesAlone(inv, p, SILENT, IDLE_BIND) && LeftAlone(inv, p, SILENT, IDLE_BIND) == NO_PROVENANCE
  {
    IdlePlays(inv, p);
    IdleAccepted(inv, p, Private);
    IdleLeaves(RootedAt(FromNothing(), map[], NO_EVIDENCE));
  }

  lemma IdleLeaves(played: Bind)
    ensures Checked(SILENT, played, IDLE).prov == played.prov.(validatedScans := map[], validatedFunctionScans := map[])
  {
    IdleTally();
  }

  // ------------------------------------------------------- a run that executes

  const UNIT := Unit(BARE, false, {}, SILENT, NO_PROVENANCE)

  const ARRIVES := Arrival(Ordinary, true, Statement(BARE, 0, false), {}, IDLE_BIND, false)

  const STARTED := QueryBegins(
    0, Admitting(Ordinary, true, TextAllowed([UNIT]), {}, true, AuthPasses(NO_PROVENANCE, IDLE)))

  const PLANNED := Binds(Binding(IDLE, READS, false, AuthFails(false)), Judgement(Pass, {}))

  /** Checks that pass the statement above. */
  ghost predicate PassesIdle(c: Checks, p: Policy) {
    && c.text(p)(BARE, SILENT) && c.fallback(p, SILENT, {}) && c.vetted(p, SILENT, NO_PROVENANCE, IDLE)
    && c.plan(p, SILENT, NO_PROVENANCE, PlanOrigin.Engine, READS, IDLE, true)
  }

  lemma OneStep(inv: Inventory, guard: Guard, start: World, e: EnforcementRuns.Event)
    ensures EnforcementRuns.Run(inv, start, [e]) == EnforcementRuns.Next(inv, start, e)
    ensures Legal(inv, guard, start, [e], true) <==> NewIds(start, e) && guard(start, e) && Orderly(start, e)
  {
    assert [e][..0] == [];
  }

  lemma StartedIsAuthorized(c: Checks, inv: Inventory, p: Policy)
    requires PassesIdle(c, p)
    ensures Legal(inv, Honest(c), Initial(Some(p), false), [STARTED], true)
    ensures var w := EnforcementRuns.Run(inv, Initial(Some(p), false), [STARTED]);
            && w.engine == EngineView(Some(0), false, Some(p)) && !w.failed
            && w.latch == Latch(0, p, Decision(true, {}), false, true, false, false, true, true, false, false,
                                Some(UNIT))
  {
    OneStep(inv, Honest(c), Initial(Some(p), false), STARTED);
  }

  lemma PlannedReturns(c: Checks, inv: Inventory, w: World, p: Policy)
    requires PassesIdle(c, p) && w.engine == EngineView(Some(0), false, Some(p)) && !w.failed
    requires w.latch == Latch(0, p, Decision(true, {}), false, true, false, false, true, true, false, false, Some(UNIT))
    ensures EnforcementSafety.Possible(c, w, PLANNED) && Orderly(w, PLANNED)
    ensures EnforcementRuns.Next(inv, w, PLANNED).outcome == Returned
  {
  }

  lemma IdleExecutes(c: Checks, inv: Inventory, p: Policy)
    requires PassesIdle(c, p)
    ensures Legal(inv, Honest(c), Initial(Some(p), false), [STARTED] + [PLANNED], true)
    ensures LetsThrough(inv, Initial(Some(p), false), [STARTED], PLANNED.binding, PLANNED.judgement)
  {
    var start := Initial(Some(p), false);
    StartedIsAuthorized(c, inv, p);
    PlannedReturns(c, inv, EnforcementRuns.Run(inv, start, [STARTED]), p);
    assert ([STARTED] + [PLANNED])[..1] == [STARTED];
  }

  lemma GatekeeperPassesIdle(inv: Inventory, text: TextTest, p: Policy)
    requires text(p)(BARE, SILENT)
    ensures PassesIdle(GatekeeperChecks(inv, text), p)
  {
    IdlePasses(inv, p);
    AloneIsVetted(inv, p, SILENT, IDLE_BIND);
    IdleAccepted(inv, p, PlanOrigin.Engine);
  }

  /**
   * Under every policy there is a legal, orderly run, with the checks' own verdicts, whose plan is let through, once
   * the text check accepts the smallest text. The syntax walk does: `WalkAcceptsBare`.
   */
  lemma SomeStatementExecutes(inv: Inventory, text: TextTest, p: Policy)
    requires text(p)(BARE, SILENT)
    ensures Legal(inv, Honest(GatekeeperChecks(inv, text)), Initial(Some(p), false), [STARTED] + [PLANNED], true)
    ensures LetsThrough(inv, Initial(Some(p), false), [STARTED], PLANNED.binding, PLANNED.judgement)
  {
    GatekeeperPassesIdle(inv, text, p);
    IdleExecutes(GatekeeperChecks(inv, text), inv, p);
  }

  lemma WalkAcceptsBare(inv: Inventory, p: Policy)
    requires EmptyRoot(inv.grammar)
    ensures SyntaxWalk(inv)(p)(BARE, SILENT)
  {
    BareIsAccepted(inv, Snapshot(p));
  }

  // ------------------------------------------------------- validation and admission of single statements

  predicate PassesScript(n: Answers, p: Policy) {
    n.fallback(p, SILENT, {}) && n.passes(p, SILENT, IDLE_BIND) && n.left(p, SILENT, IDLE_BIND) == NO_PROVENANCE
  }

  lemma GatekeeperPassesScript(inv: Inventory, text: TextTest, p: Policy)
    ensures PassesScript(GatekeeperAnswers(inv, text), p)
  {
    IdlePasses(inv, p);
  }

  lemma BothAllow(n: Answers, p: Policy, logOnly: bool)
    requires OneRecord(n.text(p)) && FallbacksBind(n) && n.text(p)(BARE, SILENT) && PassesScript(n, p)
    ensures Asked(n, EngineView(Some(0), logOnly, Some(p)), ARRIVES, STARTED.input, Allows)
  {
  }

  /** The statement above put to both: validation allows it, and its admission gets the verdicts it starts with. */
  lemma SomeStatementIsAllowed(inv: Inventory, text: TextTest, p: Policy, logOnly: bool)
    requires OneRecord(text(p)) && text(p)(BARE, SILENT)
    ensures Asked(GatekeeperAnswers(inv, text), EngineView(Some(0), logOnly, Some(p)), ARRIVES, STARTED.input, Allows)
  {
    GatekeeperPassesScript(inv, text, p);
    GatekeeperFallbacksBind(inv, text);
    BothAllow(GatekeeperAnswers(inv, text), p, logOnly);
  }

  /** A statement whose text raises an engine error. */
  function Troubled(routing: Routing, remoteScope: bool, described: bool): Arrival {
    Arrival(routing, remoteScope, EngineThrows(described), {}, IDLE_BIND, false)
  }

  function TroubledInput(routing: Routing, remoteScope: bool, described: bool): Admitting {
    Admitting(routing, remoteScope, TextThrows(described), {}, false, AuthFails(false))
  }

  /** An error that validation describes as a denial: log-only admission throws it and records nothing. */
  lemma DescribedErrorGoesUnrecorded(n: Answers, p: Policy)
    ensures var engine := EngineView(Some(0), true, Some(p));
            var a, input := Troubled(Ordinary, true, true), TroubledInput(Ordinary, true, true);
            && Decides(n, engine, a, input) && Reports(n, p, a, Denies)
            && BeginStatement(engine, input).outcome == Thrown
            && BeginStatement(engine, input).trace == [Admission(0, Some(p), true)]
  {
  }

  /** An error that validation throws: under an unsupported remote scope log-only admission records a denial. */
  lemma ThrownErrorIsRecorded(n: Answers, p: Policy)
    ensures var engine := EngineView(Some(0), true, Some(p));
            var a, input := Troubled(Ordinary, false, false), TroubledInput(Ordinary, false, false);
            && Decides(n, engine, a, input) && Reports(n, p, a, Throws)
            && BeginStatement(engine, input).outcome == Returned
            && BeginStatement(engine, input).trace
               == [Admission(0, Some(p), true), Record(Some(0), LogOnly, AtBinding, Some(p), false)]
  {
  }

  /** A text too long to validate, whose parse for routing controls fails: validation denies it, admission throws. */
  lemma UnroutableTextGoesUnrecorded(n: Answers, p: Policy)
    ensures var engine := EngineView(Some(0), true, Some(p));
            var a := Arrival(Unroutable, true, TooLong, {}, IDLE_BIND, false);
            var input := Admitting(Unroutable, true, TextUnreadable, {}, false, AuthFails(false));
            && SingleStatement(a) && Decides(n, engine, a, input) && Reports(n, p, a, Denies)
            && BeginStatement(engine, input).outcome == Thrown
            && BeginStatement(engine, input).trace == [Admission(0, None, false)]
  {
  }

  // ------------------------------------------------------- a stale plan in log-only mode

  /** A statement recorded at its admission, because remote pushdown is on. */
  const REMOTE := QueryBegins(0, Admitting(Ordinary, false, TextUnreadable, {}, false, AuthFails(false)))

  function RemoteLog(p: Policy): seq<Entry> {
    [Admission(0, Some(p), true), Record(Some(0), LogOnly, AtBinding, Some(p), false)]
  }

  lemma RemoteBegins(c: Checks, inv: Inventory, p: Policy)
    ensures Legal(inv, Honest(c), Initial(Some(p), true), [REMOTE], false)
    ensures var w := EnforcementRuns.Run(inv, Initial(Some(p), true), [REMOTE]);
            && w.latch.inStatement && w.latch.statementId == 0 && w.latch.logOnly && w.latch.decided
            && w.log == RemoteLog(p) && w.nextId == 1
  {
    OneStep(inv, Honest(c), Initial(Some(p), true), REMOTE);
    assert [] + RemoteLog(p) == RemoteLog(p);
  }

  lemma RemoteIsRecorded(c: Checks, inv: Inventory, p: Policy)
    ensures Legal(inv, Honest(c), Initial(Some(p), true), [REMOTE, NextStatement(1)], false)
    ensures var w := EnforcementRuns.Run(inv, Initial(Some(p), true), [REMOTE, NextStatement(1)]);
            Stale(w) && w.latch.logOnly && w.latch.decided && SinceAdmission(w.log) == RemoteLog(p)
  {
    RemoteBegins(c, inv, p);
    assert [REMOTE, NextStatement(1)][..1] == [REMOTE];
    assert RemoteLog(p) + [] == RemoteLog(p);
    RemoteWindow(p);
  }

  lemma RemoteWindow(p: Policy)
    ensures SinceAdmission(RemoteLog(p)) == RemoteLog(p)
  {
    WindowOpens([], RemoteLog(p));
    assert [] + RemoteLog(p) == RemoteLog(p);
  }

  lemma OneMore(inv: Inventory, guard: Guard, start: World, events: seq<EnforcementRuns.Event>,
                e: EnforcementRuns.Event)
    requires Legal(inv, guard, start, events, false)
    ensures var w := EnforcementRuns.Run(inv, start, events);
            && (NewIds(w, e) && guard(w, e) ==> Legal(inv, guard, start, events + [e], false))
            && EnforcementRuns.Run(inv, start, events + [e]) == EnforcementRuns.Next(inv, w, e)
  {
    assert (events + [e])[..|events|] == events;
  }

  lemma RemoteHasOneRecord(p: Policy)
    ensures Records(RemoteLog(p)) == 1
  {
    var log := RemoteLog(p);
    RecordsOfOne(log[0]);
    RecordsOfOne(log[1]);
    RecordsAppend([log[0]], [log[1]]);
    assert [log[0]] + [log[1]] == log;
  }

  /**
   * The next statement's plan arrives before its admission: in log-only mode it is let through, and a second record is
   * written. So no record count survives without the order that admits a statement before planning it.
   */
  lemma StalePlanPassesInLogOnly(c: Checks, inv: Inventory, p: Policy, b: Binding, j: Judgement)
    ensures var start, events := Initial(Some(p), true), [REMOTE, NextStatement(1)];
            var w := EnforcementRuns.Run(inv, start, events + [Binds(b, j)]);
            && Legal(inv, Honest(c), start, events + [Binds(b, j)], false)
            && w.outcome == Returned && Records(SinceAdmission(w.log)) == 2
            && !Orderly(EnforcementRuns.Run(inv, start, events), Binds(b, j))
  {
    var start, events := Initial(Some(p), true), [REMOTE, NextStatement(1)];
    RemoteIsRecorded(c, inv, p);
    var w := EnforcementRuns.Run(inv, start, events);
    OneMore(inv, Honest(c), start, events, Binds(b, j));
    StalePlanIsRefusedIffEnforcing(inv, w, b, j);
    StalePlanIsAlwaysRecorded(inv, w, b, j);
    RemoteHasOneRecord(p);
  }
}
