/** What the history means: no entry without its check, and so what an executed plan was checked for, over every run. */
module EnforcementSafety {
  import opened Names
  import opened Policies
  import opened Trees
  import opened Origins
  import opened Plans
  import opened PlanAuthorization
  import opened PlanCheck
  import opened Lookups
  import opened TextChecks
  import opened TablePolicy
  import PrivateBinds
  import opened StatementBinds
  import opened Enforcement
  import opened EnforcementRuns

  // ------------------------------------------------------- runs whose verdicts are the checks' own

  ghost predicate Possible(c: Checks, w: World, e: Event) {
    && (e.QueryBegins? || e.AsksRebind? ==> SoundAdmitting(c, EngineAt(w, e), e.input))
    && (e.Binds? ==>
          && Faithful(c.plan, w.engine, w.latch, e.binding, e.judgement)
          && (w.latch.unit.Some? ==> SoundAuth(c, w.latch.policy, w.latch.unit.value.binding, e.binding.auth)))
  }

  /** The guard of runs in which every verdict handed to a hook is the one the checks give. */
  ghost function Honest(c: Checks): Guard {
    (w: World, e: Event) => Possible(c, w, e)
  }

  /** A plan accepted with violations on record is accepted without them. */
  ghost predicate CleanIsEnough(c: Checks) {
    forall p, record, prov, origin, props, plan, clean ::
      c.plan(p, record, prov, origin, props, plan, clean) ==> c.plan(p, record, prov, origin, props, plan, true)
  }

  // ------------------------------------------------------- no entry without its check

  lemma AuthorizeIsSincere(c: Checks, engine: EngineView, l: Latch, auth: AuthOutcome)
    requires l.unit.Some? && SoundAuth(c, l.policy, l.unit.value.binding, auth)
    ensures AllSincere(c, Authorize(engine, l, auth).trace)
  {
  }

  lemma AdmissionIsSincere(c: Checks, engine: EngineView, input: Admitting)
    requires engine.active.Some? && SoundAdmitting(c, engine, input)
    ensures AllSincere(c, BeginStatement(engine, input).trace)
  {
    var l := Opened(engine, input);
    if engine.policy.Some? && input.remoteScope && AdmitsUnit(input.text) {
      var unit := input.text.units[0];
      var l' := l.(result := Decision(true, {}), admitted := true, unit := Some(unit));
      AuthorizeIsSincere(c, engine, l', input.auth);
      assert AllSincere(c, AfterText(engine, l', unit.parameterized, input).trace);
    }
  }

  lemma DecideIsSincere(c: Checks, engine: EngineView, l: Latch, b: Binding, j: Judgement)
    requires CleanIsEnough(c) && FlagsHold(l) && Current(engine, l) && Faithful(c.plan, engine, l, b, j)
    requires !OnlyPrescreened(l, b) && !Wrapper(b.plan) && !(l.logOnly && l.decided)
    requires l.unit.Some? ==> SoundAuth(c, l.policy, l.unit.value.binding, b.auth)
    ensures AllSincere(c, DecidePlan(engine, l, b, j).trace)
  {
    if l.admitted {
      var a := if l.authorized then Effect(l, Returned, []) else Authorize(engine, l, b.auth);
      AuthorizeIsSincere(c, engine, l, b.auth);
      if a.latch.authorized {
        assert a.latch.unit == Some(l.unit.value.(prov := CheckedProvenance(l, b))) && a.latch.policy == l.policy;
        ConcludeIsSincere(c, engine, a.latch, b, j, l.result.violations == {});
      }
    }
  }

  lemma ConcludeIsSincere(c: Checks, engine: EngineView, l: Latch, b: Binding, j: Judgement, clean: bool)
    requires CleanIsEnough(c) && l.unit.Some?
    requires j.verdict.Pass? ==>
               c.plan(l.policy, l.unit.value.binding, l.unit.value.prov, PlanOrigin.Engine, b.props, b.plan, clean)
    ensures AllSincere(c, Conclude(engine, l, b, j).trace)
  {
  }

  lemma PostBindIsSincere(c: Checks, engine: EngineView, l: Latch, b: Binding, j: Judgement)
    requires CleanIsEnough(c) && FlagsHold(l) && Faithful(c.plan, engine, l, b, j)
    requires l.unit.Some? ==> SoundAuth(c, l.policy, l.unit.value.binding, b.auth)
    ensures AllSincere(c, PostBind(engine, l, b, j).trace)
  {
    if Current(engine, l) && !(l.logOnly && l.decided) && !OnlyPrescreened(l, b) && !Wrapper(b.plan) {
      DecideIsSincere(c, engine, l, b, j);
    }
  }

  lemma OthersAreSincere(c: Checks, inv: Inventory, engine: EngineView, l: Latch, e: Event)
    requires !e.QueryBegins? && !e.Binds? && !e.AsksRebind?
    ensures AllSincere(c, Hook(inv, engine, l, e).trace)
  {
  }

  lemma HookIsSincere(c: Checks, inv: Inventory, w: World, e: Event)
    requires CleanIsEnough(c) && FlagsHold(w.latch) && Possible(c, w, e)
    ensures AllSincere(c, Hook(inv, EngineAt(w, e), w.latch, e).trace)
  {
    var engine := EngineAt(w, e);
    if e.QueryBegins? || e.AsksRebind? {
      if engine.active.Some? {
        AdmissionIsSincere(c, engine, e.input);
      }
    } else if e.Binds? {
      PostBindIsSincere(c, engine, w.latch, e.binding, e.judgement);
    } else {
      OthersAreSincere(c, inv, engine, w.latch, e);
    }
  }

  /** In every run, whatever the history says passed a check did pass it, under the policy the entry names. */
  lemma {:induction false} EveryEntryIsSincere(c: Checks, inv: Inventory, policy: Option<Policy>, logOnly: bool,
                                               events: seq<Event>, orderly: bool)
    requires CleanIsEnough(c) && Legal(inv, Honest(c), Initial(policy, logOnly), events, orderly)
    ensures AllSincere(c, Run(inv, Initial(policy, logOnly), events).log)
  {
    if events != [] {
      var init, last := events[..|events| - 1], events[|events| - 1];
      EveryEntryIsSincere(c, inv, policy, logOnly, init, orderly);
      EveryStateIsSound(inv, Honest(c), policy, logOnly, init, orderly);
      HookIsSincere(c, inv, Run(inv, Initial(policy, logOnly), init), last);
    }
  }

  // ------------------------------------------------------- execution safety

  /** The entries behind an executed plan, all of its own statement and its own snapshot. */
  ghost predicate Executes(w: World, b: Binding) {
    var id, p, win := w.latch.statementId, w.latch.policy, SinceAdmission(w.log);
    && w.engine.active == Some(id)
    && win != [] && win[0] == Admission(id, Some(p), false) && AdmittedOnce(w.log)
    && OneSnapshot(win, id, p)
    && TextIn(win, w.latch) && AuthorizedIn(win, w.latch)
    && PlanPassed(id, p, w.latch.unit.value, b.plan, b.props) in win
    && w.log[|w.log| - 1..] == [Record(Some(id), Enforce, AtExecution, Some(p), true)]
  }

  /** The boundary lets a plan through that it must decide: no wrapper, no pre-screen, an enforcing statement. */
  ghost predicate LetsThrough(inv: Inventory, start: World, events: seq<Event>, b: Binding, j: Judgement) {
    var w := Run(inv, start, events);
    && w.latch.inStatement && !w.latch.logOnly && !OnlyPrescreened(w.latch, b) && !Wrapper(b.plan)
    && Run(inv, start, events + [Binds(b, j)]).outcome == Returned
  }

  lemma SafeStep(inv: Inventory, w: World, b: Binding, j: Judgement, w': World)
    requires Sound(w) && Sound(w') && w' == Next(inv, w, Binds(b, j)) && w'.outcome == Returned
    requires w.latch.inStatement && !w.latch.logOnly && !OnlyPrescreened(w.latch, b) && !Wrapper(b.plan)
    ensures Executes(w', b)
  {
    var e := PostBind(w.engine, w.latch, b, j);
    ReturnedConcludes(w.engine, w.latch, b, j);
    PostBindContinues(w.engine, w.latch, b, j);
    ConcludedIsRecorded(w, b, e, w');
  }

  /** For any checks: a plan that is let through has its entries, and every one of them is sincere. */
  lemma LetThroughIsSincere(c: Checks, inv: Inventory, policy: Option<Policy>, logOnly: bool, events: seq<Event>,
                            b: Binding, j: Judgement)
    requires CleanIsEnough(c) && Legal(inv, Honest(c), Initial(policy, logOnly), events + [Binds(b, j)], false)
    requires LetsThrough(inv, Initial(policy, logOnly), events, b, j)
    ensures var w := Run(inv, Initial(policy, logOnly), events + [Binds(b, j)]);
            Executes(w, b) && AllSincere(c, SinceAdmission(w.log))
  {
    var start := Initial(policy, logOnly);
    LastStep(inv, Honest(c), start, events, Binds(b, j), false);
    EveryStateIsSound(inv, Honest(c), policy, logOnly, events, false);
    EveryEntryIsSincere(c, inv, policy, logOnly, events + [Binds(b, j)], false);
    var w := Run(inv, start, events);
    StepKeepsSound(inv, w, Binds(b, j));
    SafeStep(inv, w, b, j, Next(inv, w, Binds(b, j)));
    WindowIsPartOfLog(Next(inv, w, Binds(b, j)).log);
  }

  /** The three entries of an executed plan, read for what the checks behind them say. */
  lemma EntriesMean(c: Checks, l: Latch, win: seq<Entry>, b: Binding)
    requires AllSincere(c, win) && TextIn(win, l) && AuthorizedIn(win, l)
    requires PlanPassed(l.statementId, l.policy, l.unit.value, b.plan, b.props) in win
    ensures var unit := l.unit.value;
            && c.text(l.policy)(unit.text, unit.binding)
            && c.plan(l.policy, unit.binding, unit.prov, PlanOrigin.Engine, b.props, b.plan, true)
            && exists validated ::
                 && Authorized(l.statementId, l.policy, unit, validated) in win
                 && c.vetted(l.policy, unit.binding, unit.prov, validated)
  {
    var unit := l.unit.value;
    var u :| TextPassed(l.statementId, l.policy, u) in win && u.text == unit.text && u.binding == unit.binding;
    assert Sincere(c, TextPassed(l.statementId, l.policy, u));
    var validated :| Authorized(l.statementId, l.policy, unit, validated) in win;
    assert Sincere(c, Authorized(l.statementId, l.policy, unit, validated));
    assert Sincere(c, PlanPassed(l.statementId, l.policy, unit, b.plan, b.props));
  }

  /** The plan was accepted, what it is held against was vetted, and it scans nothing the vetted plan did not. */
  ghost predicate PlanChecked(c: Checks, p: Policy, unit: Unit, b: Binding, validated: Plan) {
    && c.vetted(p, unit.binding, unit.prov, validated)
    && c.plan(p, unit.binding, unit.prov, PlanOrigin.Engine, b.props, b.plan, true)
    && TableScans(b.plan) <= TableScans(validated) && SourceScans(b.plan) <= SourceScans(validated)
  }

  /** Everything an executed plan was checked for, under the one snapshot its own admission took. */
  ghost predicate SafelyExecuted(c: Checks, w: World, b: Binding) {
    && Executes(w, b)
    && var p, unit := w.latch.policy, w.latch.unit.value;
       && c.text(p)(unit.text, unit.binding)
       && exists validated ::
            && Authorized(w.latch.statementId, p, unit, validated) in SinceAdmission(w.log)
            && PlanChecked(c, p, unit, b, validated)
  }

  /** Accepted against a vetted provenance, a plan stays within the plan that was vetted. */
  ghost predicate Accounts(c: Checks) {
    forall p, record, prov, validated, props, plan :: AccountsFor(c, p, record, prov, validated, props, plan)
  }

  ghost predicate AccountsFor(c: Checks, p: Policy, record: BindingPolicy, prov: Provenance, validated: Plan,
                              props: Properties, plan: Plan)
  {
    c.vetted(p, record, prov, validated) && c.plan(p, record, prov, PlanOrigin.Engine, props, plan, true) ==>
      TableScans(plan) <= TableScans(validated) && SourceScans(plan) <= SourceScans(validated)
  }

  lemma LetThroughIsSafe(c: Checks, inv: Inventory, policy: Option<Policy>, logOnly: bool, events: seq<Event>,
                         b: Binding, j: Judgement)
    requires CleanIsEnough(c) && Accounts(c)
    requires Legal(inv, Honest(c), Initial(policy, logOnly), events + [Binds(b, j)], false)
    requires LetsThrough(inv, Initial(policy, logOnly), events, b, j)
    ensures SafelyExecuted(c, Run(inv, Initial(policy, logOnly), events + [Binds(b, j)]), b)
  {
    LetThroughIsSincere(c, inv, policy, logOnly, events, b, j);
    ExecutedIsSafe(c, Run(inv, Initial(policy, logOnly), events + [Binds(b, j)]), b);
  }

  lemma ExecutedIsSafe(c: Checks, w: World, b: Binding)
    requires Accounts(c) && Executes(w, b) && AllSincere(c, SinceAdmission(w.log))
    ensures SafelyExecuted(c, w, b)
  {
    EntriesMean(c, w.latch, SinceAdmission(w.log), b);
    var p, unit := w.latch.policy, w.latch.unit.value;
    var validated :| Authorized(w.latch.statementId, p, unit, validated) in SinceAdmission(w.log)
                     && c.vetted(p, unit.binding, unit.prov, validated);
    assert AccountsFor(c, p, unit.binding, unit.prov, validated, b.props, b.plan);
    assert PlanChecked(c, p, unit, b, validated);
  }

  lemma StaysWithin(inv: Inventory, p: Policy, record: BindingPolicy, prov: Provenance, validated: Plan,
                    props: Properties, plan: Plan)
    requires Vetted(inv, Snapshot(p), record, prov, validated)
    requires PlanAccepted(inv, Snapshot(p), record, prov, PlanOrigin.Engine, props, plan, true)
    ensures TableScans(plan) <= TableScans(validated) && SourceScans(plan) <= SourceScans(validated)
  {
    var v :| VettedBy(inv, Snapshot(p), record, prov, validated, v);
    var _ := VettedIsTallied(inv, Snapshot(p), record, prov, validated, v);
    EnginePlanStaysWithinThePrivatePlan(inv, Snapshot(p), record, prov, props, validated, plan, true);
  }

  lemma GatekeeperAccountsFor(inv: Inventory, text: TextTest, p: Policy, record: BindingPolicy, prov: Provenance,
                              validated: Plan, props: Properties, plan: Plan)
    ensures AccountsFor(GatekeeperChecks(inv, text), p, record, prov, validated, props, plan)
  {
    if && Vetted(inv, Snapshot(p), record, prov, validated)
       && PlanAccepted(inv, Snapshot(p), record, prov, PlanOrigin.Engine, props, plan, true) {
      StaysWithin(inv, p, record, prov, validated, props, plan);
    }
  }

  lemma GatekeeperAccounts(inv: Inventory, text: TextTest)
    ensures Accounts(GatekeeperChecks(inv, text))
  {
    forall p, record, prov, validated, props, plan
      ensures AccountsFor(GatekeeperChecks(inv, text), p, record, prov, validated, props, plan)
    {
      GatekeeperAccountsFor(inv, text, p, record, prov, validated, props, plan);
    }
  }

  lemma GatekeeperIsCoherent(inv: Inventory, text: TextTest)
    ensures CleanIsEnough(GatekeeperChecks(inv, text))
  {
    var c := GatekeeperChecks(inv, text);
    forall p, record, prov, origin, props, plan, clean | c.plan(p, record, prov, origin, props, plan, clean)
      ensures c.plan(p, record, prov, origin, props, plan, true)
    {
      CleanIsWeakest(inv, Snapshot(p), record, prov, origin, props, plan, clean);
    }
  }

  /**
   * Execution safety, for every check of texts and every interleaving of hooks with policy and log-only changes: when
   * the execution boundary lets an enforcing statement's plan through, then under the one snapshot its own admission
   * took its text was accepted, private binds that refused nothing vetted what the unit carries, and the plan itself
   * was accepted, its tables as well as its functions; its scans stay within the vetted plan's, and its allowed record
   * is the last thing written.
   */
  lemma ExecutionSafety(inv: Inventory, text: TextTest, policy: Option<Policy>, logOnly: bool, events: seq<Event>,
                        b: Binding, j: Judgement)
    requires Legal(inv, Honest(GatekeeperChecks(inv, text)), Initial(policy, logOnly), events + [Binds(b, j)], false)
    requires LetsThrough(inv, Initial(policy, logOnly), events, b, j)
    ensures SafelyExecuted(GatekeeperChecks(inv, text), Run(inv, Initial(policy, logOnly), events + [Binds(b, j)]), b)
  {
    GatekeeperIsCoherent(inv, text);
    GatekeeperAccounts(inv, text);
    LetThroughIsSafe(GatekeeperChecks(inv, text), inv, policy, logOnly, events, b, j);
  }

  // ------------------------------------------------------- the tables of an executed plan

  /** Every table of the plan that is the caller's, by the text and the lookups of these binds, is allowed. */
  ghost predicate CallerTablesAllowed(p: Policy, record: BindingPolicy, h: seq<PrivateBinds.Happening>, plan: Plan) {
    forall node, t :: node in Nodes(plan) && TableOf(node) == [t] && PrivateBinds.Callers(record, h, EntryKey(t)) ==>
      TableAllowed(p, t.catalog, t.schemaPath, t.name, t.internal)
  }

  /** Binds whose every lookup passed led to the unit, and by them no table of the plan escapes the policy. */
  ghost predicate TablesAnswered(inv: Inventory, p: Policy, record: BindingPolicy, prov: Provenance, validated: Plan,
                                 plan: Plan)
  {
    exists v ::
      && VettedBy(inv, Snapshot(p), record, prov, validated, v)
      && StatementBinds.AllPassed(HistoryOf(inv, Snapshot(p), record, v))
      && CallerTablesAllowed(p, record, HistoryOf(inv, Snapshot(p), record, v), plan)
  }

  lemma VettedAnswers(inv: Inventory, p: Policy, record: BindingPolicy, prov: Provenance, validated: Plan,
                      props: Properties, plan: Plan)
    requires Vetted(inv, Snapshot(p), record, prov, validated)
    requires PlanAccepted(inv, Snapshot(p), record, prov, PlanOrigin.Engine, props, plan, true)
    ensures TablesAnswered(inv, p, record, prov, validated, plan)
  {
    var v :| VettedBy(inv, Snapshot(p), record, prov, validated, v);
    VettedLookupsPassed(inv, Snapshot(p), record, prov, validated, v);
    forall node, t | && node in Nodes(plan) && TableOf(node) == [t]
                     && PrivateBinds.Callers(record, HistoryOf(inv, Snapshot(p), record, v), EntryKey(t))
      ensures TableAllowed(p, t.catalog, t.schemaPath, t.name, t.internal)
    {
      VettedTablesAreAllowed(inv, Snapshot(p), record, prov, validated, v, props, plan, node, t);
    }
  }

  lemma CheckedAnswers(inv: Inventory, text: TextTest, p: Policy, unit: Unit, b: Binding, validated: Plan)
    requires PlanChecked(GatekeeperChecks(inv, text), p, unit, b, validated)
    ensures TablesAnswered(inv, p, unit.binding, unit.prov, validated, b.plan)
  {
    VettedAnswers(inv, p, unit.binding, unit.prov, validated, b.props, b.plan);
  }

  /**
   * In every run, a plan that is let through scans no table its policy refuses, unless a trusted definition was the
   * only one to reach it: the snapshot of its own admission allows every table that the caller's text names, that a
   * lookup attributed to the caller, or that no lookup of its private binds saw.
   */
  lemma ExecutedTablesAreAllowed(inv: Inventory, text: TextTest, policy: Option<Policy>, logOnly: bool,
                                 events: seq<Event>, b: Binding, j: Judgement)
    returns (validated: Plan)
    requires Legal(inv, Honest(GatekeeperChecks(inv, text)), Initial(policy, logOnly), events + [Binds(b, j)], false)
    requires LetsThrough(inv, Initial(policy, logOnly), events, b, j)
    ensures var l := Run(inv, Initial(policy, logOnly), events + [Binds(b, j)]).latch;
            && l.unit.Some?
            && TablesAnswered(inv, l.policy, l.unit.value.binding, l.unit.value.prov, validated, b.plan)
  {
    ExecutionSafety(inv, text, policy, logOnly, events, b, j);
    var c, w := GatekeeperChecks(inv, text), Run(inv, Initial(policy, logOnly), events + [Binds(b, j)]);
    validated :| PlanChecked(c, w.latch.policy, w.latch.unit.value, b, validated);
    CheckedAnswers(inv, text, w.latch.policy, w.latch.unit.value, b, validated);
  }

  // ------------------------------------------------------- wrappers

  /** The statement's record of an execution it allowed, and the plan that was accepted for it. */
  ghost predicate RanAccepted(c: Checks, win: seq<Entry>, id: nat, p: Policy) {
    && Record(Some(id), Enforce, AtExecution, Some(p), true) in win
    && exists unit, plan, props ::
         && PlanPassed(id, p, unit, plan, props) in win
         && c.plan(p, unit.binding, unit.prov, PlanOrigin.Engine, props, plan, true)
  }

  /** A nested plan the statement's own pre-screen accepted. */
  ghost predicate ScreenedAccepted(c: Checks, win: seq<Entry>, id: nat, p: Policy) {
    exists plan, props ::
      && Prescreened(Some(id), p, plan, props) in win
      && c.plan(p, NO_TEXT, UNATTRIBUTED, Prescreen, props, plan, true)
  }

  /** No plan check accepts a wrapper as a plan of its own. */
  ghost predicate RefusesWrappers(c: Checks) {
    forall p, record, prov, origin, props, plan, clean ::
      Wrapper(plan) ==> !c.plan(p, record, prov, origin, props, plan, clean)
  }

  lemma AcceptedWrapper(c: Checks, w: World, b: Binding, j: Judgement)
    requires Sound(w) && OrderlySound(w) && Orderly(w, Binds(b, j)) && Faithful(c.plan, w.engine, w.latch, b, j)
    requires RefusesWrappers(c) && w.latch.inStatement && !w.latch.logOnly && Wrapper(b.plan)
    requires PostBind(w.engine, w.latch, b, j).outcome == Returned
    ensures Current(w.engine, w.latch) && w.latch.admitted
    ensures b.plan.node.kind.ExecuteWrapper? ==>
            ExecutionRecorded(SinceAdmission(w.log), w.latch.statementId, w.latch.policy)
    ensures b.plan.node.kind.PrepareWrapper? ==> PrescreenedIn(SinceAdmission(w.log), w.latch)
  {
  }

  lemma WrappedIsAccepted(c: Checks, win: seq<Entry>, l: Latch)
    requires AllSincere(c, win)
    ensures ExecutionRecorded(win, l.statementId, l.policy) ==> RanAccepted(c, win, l.statementId, l.policy)
    ensures PrescreenedIn(win, l) ==> ScreenedAccepted(c, win, l.statementId, l.policy)
  {
    if ExecutionRecorded(win, l.statementId, l.policy) {
      var unit, plan, props :| PlanPassed(l.statementId, l.policy, unit, plan, props) in win;
      assert Sincere(c, PlanPassed(l.statementId, l.policy, unit, plan, props));
    }
    if PrescreenedIn(win, l) {
      var plan, props :| Prescreened(Some(l.statementId), l.policy, plan, props) in win;
      assert Sincere(c, Prescreened(Some(l.statementId), l.policy, plan, props));
    }
  }

  lemma GatekeeperRefusesWrappers(inv: Inventory, text: TextTest)
    ensures RefusesWrappers(GatekeeperChecks(inv, text))
  {
    forall plan: Plan | Wrapper(plan) ensures !OnlyReviewed(plan) {
    }
  }

  /** An accepted wrapper: its own statement accepted, under its own snapshot, the plan it wraps. */
  ghost predicate WrapperBacked(c: Checks, w: World, b: Binding) {
    var id, p, win := w.latch.statementId, w.latch.policy, SinceAdmission(w.log);
    && w.engine.active == Some(id) && win != [] && win[0] == Admission(id, Some(p), false)
    && (b.plan.node.kind.ExecuteWrapper? ==> RanAccepted(c, win, id, p))
    && (b.plan.node.kind.PrepareWrapper? ==> ScreenedAccepted(c, win, id, p))
  }

  lemma WrappersFollow(c: Checks, inv: Inventory, policy: Option<Policy>, logOnly: bool, events: seq<Event>, b: Binding,
                       j: Judgement)
    requires CleanIsEnough(c) && RefusesWrappers(c)
    requires Legal(inv, Honest(c), Initial(policy, logOnly), events + [Binds(b, j)], true)
    requires var w := Run(inv, Initial(policy, logOnly), events);
             w.latch.inStatement && !w.latch.logOnly && Wrapper(b.plan)
    requires Run(inv, Initial(policy, logOnly), events + [Binds(b, j)]).outcome == Returned
    ensures WrapperBacked(c, Run(inv, Initial(policy, logOnly), events), b)
  {
    var start := Initial(policy, logOnly);
    LastStep(inv, Honest(c), start, events, Binds(b, j), true);
    EveryStateIsSound(inv, Honest(c), policy, logOnly, events, true);
    EveryOrderlyStateIsSound(inv, Honest(c), policy, logOnly, events);
    EveryEntryIsSincere(c, inv, policy, logOnly, events, true);
    var w := Run(inv, start, events);
    AcceptedWrapper(c, w, b, j);
    WindowIsPartOfLog(w.log);
    WrappedIsAccepted(c, SinceAdmission(w.log), w.latch);
  }

  /**
   * While enforcing, a wrapper is accepted only over a plan its own statement accepted under its own snapshot: an
   * EXECUTE over one that was let through to run, a PREPARE over one that passed the pre-screen.
   */
  lemma WrappersRunNothingUndecided(inv: Inventory, text: TextTest, policy: Option<Policy>, logOnly: bool,
                                    events: seq<Event>, b: Binding, j: Judgement)
    requires Legal(inv, Honest(GatekeeperChecks(inv, text)), Initial(policy, logOnly), events + [Binds(b, j)], true)
    requires var w := Run(inv, Initial(policy, logOnly), events);
             w.latch.inStatement && !w.latch.logOnly && Wrapper(b.plan)
    requires Run(inv, Initial(policy, logOnly), events + [Binds(b, j)]).outcome == Returned
    ensures WrapperBacked(GatekeeperChecks(inv, text), Run(inv, Initial(policy, logOnly), events), b)
  {
    GatekeeperIsCoherent(inv, text);
    GatekeeperRefusesWrappers(inv, text);
    WrappersFollow(GatekeeperChecks(inv, text), inv, policy, logOnly, events, b, j);
  }
}
