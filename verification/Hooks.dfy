/** The engine's hooks end to end: each runs the checks it depends on and hands their verdicts to the latch. */
module Hooks {
  import opened Names
  import opened Policies
  import opened Origins
  import opened Plans
  import opened PlanCheck
  import opened PrivateBinds
  import opened TextChecks
  import opened StatementBinds
  import opened Enforcement
  import opened EnforcementStates

  /**
   * A statement as it reaches the hooks: what the parse for routing controls finds, the remote scope, what the parser
   * makes of its text, the session variables, and what the engine does in the private bind.
   */
  datatype Arrival = Arrival(
    routing: Routing, remoteScope: bool, source: Source, variables: set<string>, script: Script, described: bool)

  /** A bound plan as it reaches the hooks, with what the engine does in a private bind that parameters deferred. */
  datatype Arrived = Arrived(
    plan: Plan, props: Properties, preparing: bool, remoteScope: bool, script: Script, described: bool)

  /** A batch is decided statement by statement; the hooks never get a single unit out of one. */
  predicate BatchOfMany(source: Source) {
    source.Batch? && source.result.TextAllowed? ==> |source.result.units| != 1
  }

  // ------------------------------------------------------- what the checks answer

  /**
   * The answers an admission depends on, each under one policy: of a text and its record, of a parameter's fallback,
   * and of a statement's private bind from nothing: whether it passes, whether it breaks, what it leaves.
   */
  datatype Answers = Answers(
    text: TextTest,
    fallback: (Policy, BindingPolicy, set<string>) -> bool,
    passes: (Policy, BindingPolicy, Script) -> bool,
    breaks: (Policy, BindingPolicy, Script) -> bool,
    left: (Policy, BindingPolicy, Script) -> Provenance)

  function FromNothing(): Bind {
    Start(NO_PROVENANCE, NO_EVIDENCE)
  }

  ghost predicate PassesAlone(inv: Inventory, p: Policy, record: BindingPolicy, script: Script) {
    && Playable(inv, Snapshot(p), record, FromNothing(), script)
    && StatementPasses(inv, Snapshot(p), record, FromNothing(), script)
  }

  ghost predicate BreaksAlone(inv: Inventory, p: Policy, record: BindingPolicy, script: Script) {
    && Playable(inv, Snapshot(p), record, FromNothing(), script)
    && StatementBreaks(inv, Snapshot(p), record, FromNothing(), script)
  }

  ghost function LeftAlone(inv: Inventory, p: Policy, record: BindingPolicy, script: Script): Provenance {
    if PassesAlone(inv, p, record, script) then Left(inv, Snapshot(p), record, FromNothing(), script).prov
    else NO_PROVENANCE
  }

  /** Gatekeeper's own, around a check of texts. */
  ghost function GatekeeperAnswers(inv: Inventory, text: TextTest): Answers {
    Answers(
      text,
      (p: Policy, record: BindingPolicy, variables: set<string>) =>
        !FallbackRefused(inv, Snapshot(p), record, variables),
      (p: Policy, record: BindingPolicy, script: Script) => PassesAlone(inv, p, record, script),
      (p: Policy, record: BindingPolicy, script: Script) => BreaksAlone(inv, p, record, script),
      (p: Policy, record: BindingPolicy, script: Script) => LeftAlone(inv, p, record, script))
  }

  // ------------------------------------------------------- admission

  /** The answers about an admitted unit: its parameters' fallbacks, then its private bind unless they defer it. */
  ghost predicate UnitAnswered(n: Answers, p: Policy, binding: BindingPolicy, parameterized: bool, a: Arrival,
                               fallback: bool, auth: AuthOutcome)
  {
    && (fallback <==> n.fallback(p, binding, a.variables))
    && (if fallback && !parameterized then
          AuthDecided(a.remoteScope, n.passes(p, binding, a.script), n.breaks(p, binding, a.script),
                      n.left(p, binding, a.script), a.script, a.described, auth)
        else !auth.AuthPasses?)
  }

  /** The admission gets as far as the text. */
  predicate ReadsText(engine: EngineView, a: Arrival) {
    engine.policy.Some? && a.remoteScope && !(engine.logOnly && a.routing.Unroutable?)
  }

  /** The verdicts an admission acts on are the checks' answers, asked in its order. */
  ghost predicate Decides(n: Answers, engine: EngineView, a: Arrival, input: Admitting) {
    && input.routing == a.routing && input.remoteScope == a.remoteScope && input.variables == a.variables
    && (!ReadsText(engine, a) ==> !AdmitsUnit(input.text))
    && (ReadsText(engine, a) ==>
          var p := engine.policy.value;
          && (if a.source.Batch? then input.text == a.source.result
              else TextDecided(n.text(p), a.source, input.text))
          && (AdmitsUnit(input.text) ==>
                UnitAnswered(n, p, input.text.units[0].binding, input.text.units[0].parameterized, a, input.fallback,
                             input.auth)))
  }

  /** The engine can make this script for whatever record the text turns out to have. */
  ghost predicate PlayableFor(inv: Inventory, p: Policy, accepts: Acceptance, source: Source, script: Script) {
    forall record :: source.Statement? && accepts(source.ast, record) ==>
      Playable(inv, Snapshot(p), record, FromNothing(), script)
  }

  ghost predicate PlayableUnder(inv: Inventory, engine: EngineView, text: TextTest, a: Arrival) {
    engine.policy.Some? ==>
      PlayableFor(inv, engine.policy.value, text(engine.policy.value), a.source, a.script)
  }

  /** The permission a parameter's fallback needs, and the private bind unless parameters defer it. */
  method DecideUnit(inv: Inventory, p: Policy, unit: Unit, a: Arrival, ghost text: TextTest)
    returns (fallback: bool, auth: AuthOutcome)
    requires Playable(inv, Snapshot(p), unit.binding, FromNothing(), a.script)
    ensures UnitAnswered(GatekeeperAnswers(inv, text), p, unit.binding, unit.parameterized, a, fallback, auth)
  {
    fallback := !FallbackRefused(inv, Snapshot(p), unit.binding, a.variables);
    auth := AuthFails(false);
    if fallback && !unit.parameterized {
      auth := AuthorizeUnit(inv, Snapshot(p), unit.binding, NO_EVIDENCE, a.remoteScope, a.script, None, a.described);
    }
  }

  /** Remote scope, text, fallback and private bind, in the order the admission asks for them. */
  method DecideAdmission(inv: Inventory, engine: EngineView, a: Arrival) returns (input: Admitting)
    requires BatchOfMany(a.source) && PlayableUnder(inv, engine, SyntaxWalk(inv), a)
    ensures Decides(GatekeeperAnswers(inv, SyntaxWalk(inv)), engine, a, input)
  {
    input := Admitting(a.routing, a.remoteScope, TextUnreadable, a.variables, false, AuthFails(false));
    if !ReadsText(engine, a) {
      return;
    }
    var p := engine.policy.value;
    var text := CheckText(inv, Snapshot(p), a.source);
    input := input.(text := text);
    if AdmitsUnit(text) {
      var fallback, auth := DecideUnit(inv, p, text.units[0], a, SyntaxWalk(inv));
      input := input.(fallback := fallback, auth := auth);
    }
  }

  /** A statement begins: its verdicts are the checks', and the latch does with them what the hook does. */
  method QueryBegin(state: EnforcementState, engine: EngineView, a: Arrival)
    returns (outcome: Outcome, ghost input: Admitting)
    requires engine.active.Some? && BatchOfMany(a.source)
    requires PlayableUnder(state.inv, engine, SyntaxWalk(state.inv), a)
    modifies state
    ensures state.Valid() && Decides(GatekeeperAnswers(state.inv, SyntaxWalk(state.inv)), engine, a, input)
    ensures state.Did(old(state.log), BeginStatement(engine, input), outcome)
  {
    var verdicts := DecideAdmission(state.inv, engine, a);
    input := verdicts;
    outcome := state.Begin(engine, verdicts);
  }

  /** A later statement of a batch is announced only here, before anything of it is planned. */
  method CanRequestRebind(state: EnforcementState, engine: EngineView, a: Arrival)
    returns (outcome: Outcome, ghost input: Admitting)
    requires state.Valid() && BatchOfMany(a.source)
    requires PlayableUnder(state.inv, engine, SyntaxWalk(state.inv), a)
    modifies state
    ensures state.Valid() && Decides(GatekeeperAnswers(state.inv, SyntaxWalk(state.inv)), engine, a, input)
    ensures state.Did(old(state.log), Enforcement.CanRequestRebind(engine, old(state.View()), input), outcome)
  {
    var verdicts := DecideAdmission(state.inv, engine, a);
    input := verdicts;
    outcome := state.MayRequestRebind(engine, verdicts);
  }

  // ------------------------------------------------------- the verdicts are possible ones

  /** A bind that passes is one whose provenance the private bind vouches for. */
  ghost predicate Vouches(c: Checks, n: Answers) {
    && c.text == n.text && c.fallback == n.fallback
    && forall p, record, script :: VouchesFor(c, n, p, record, script)
  }

  ghost predicate VouchesFor(c: Checks, n: Answers, p: Policy, record: BindingPolicy, script: Script) {
    n.passes(p, record, script) && script.ending.Bound? ==>
      c.vetted(p, record, n.left(p, record, script), script.ending.plan)
  }

  lemma DecidedIsSound(c: Checks, n: Answers, engine: EngineView, a: Arrival, input: Admitting)
    requires Vouches(c, n) && BatchOfMany(a.source) && Decides(n, engine, a, input)
    ensures SoundAdmitting(c, engine, input)
  {
    if engine.policy.Some? && AdmitsUnit(input.text) {
      assert VouchesFor(c, n, engine.policy.value, input.text.units[0].binding, a.script);
    }
  }

  lemma AloneIsVetted(inv: Inventory, p: Policy, record: BindingPolicy, script: Script)
    requires PassesAlone(inv, p, record, script)
    ensures script.ending.Bound?
    ensures Vetted(inv, Snapshot(p), record, LeftAlone(inv, p, record, script), script.ending.plan)
  {
    assert VettedBy(inv, Snapshot(p), record, LeftAlone(inv, p, record, script), script.ending.plan,
                    Vetting(NO_EVIDENCE, script, None));
  }

  lemma GatekeeperVouches(inv: Inventory, text: TextTest)
    ensures Vouches(GatekeeperChecks(inv, text), GatekeeperAnswers(inv, text))
  {
    forall p, record, script
      ensures VouchesFor(GatekeeperChecks(inv, text), GatekeeperAnswers(inv, text), p, record, script)
    {
      GatekeeperVouchesFor(inv, text, p, record, script);
    }
  }

  lemma GatekeeperVouchesFor(inv: Inventory, text: TextTest, p: Policy, record: BindingPolicy, script: Script)
    ensures VouchesFor(GatekeeperChecks(inv, text), GatekeeperAnswers(inv, text), p, record, script)
  {
    if PassesAlone(inv, p, record, script) {
      AloneIsVetted(inv, p, record, script);
    }
  }

  /** What the hooks decide at an admission is what the theorems about runs assume of it. */
  lemma AdmissionIsPossible(inv: Inventory, text: TextTest, engine: EngineView, a: Arrival, input: Admitting)
    requires BatchOfMany(a.source) && Decides(GatekeeperAnswers(inv, text), engine, a, input)
    ensures SoundAdmitting(GatekeeperChecks(inv, text), engine, input)
  {
    GatekeeperVouches(inv, text);
    DecidedIsSound(GatekeeperChecks(inv, text), GatekeeperAnswers(inv, text), engine, a, input);
  }

  // ------------------------------------------------------- the execution boundary

  /** The plan is one the boundary must decide, and the unit's private bind was deferred to here. */
  predicate BindIsDue(engine: EngineView, l: Latch, a: Arrived) {
    && Current(engine, l) && !(l.logOnly && l.decided) && l.unit.Some? && !l.authorized
    && !(a.preparing && !l.executingPrepared) && !Wrapper(a.plan)
  }

  /** What the bind starts from: nothing learned, and whatever violations are on record. */
  function BindStart(l: Latch): Bind {
    Start(NO_PROVENANCE, NO_EVIDENCE.(violations := l.result.violations))
  }

  ghost predicate PlayableWhenDue(inv: Inventory, engine: EngineView, l: Latch, a: Arrived) {
    BindIsDue(engine, l, a) ==> Playable(inv, Snapshot(l.policy), l.unit.value.binding, BindStart(l), a.script)
  }

  /** A deferred private bind: made exactly where it is due, and ended as the engine's script makes it end. */
  ghost predicate Deferred(inv: Inventory, engine: EngineView, l: Latch, a: Arrived, auth: AuthOutcome)
    requires PlayableWhenDue(inv, engine, l, a)
  {
    if BindIsDue(engine, l, a) then
      Authorizes(inv, Snapshot(l.policy), l.unit.value.binding, BindStart(l), a.remoteScope, a.script, None,
                 a.described, auth)
    else !auth.AuthPasses?
  }

  method DecideDeferred(inv: Inventory, engine: EngineView, l: Latch, a: Arrived) returns (auth: AuthOutcome)
    requires PlayableWhenDue(inv, engine, l, a)
    ensures Deferred(inv, engine, l, a, auth)
  {
    auth := AuthFails(false);
    if BindIsDue(engine, l, a) {
      auth := AuthorizeUnit(inv, Snapshot(l.policy), l.unit.value.binding,
                            NO_EVIDENCE.(violations := l.result.violations), a.remoteScope, a.script, None,
                            a.described);
    }
  }

  /** A deferred bind that passed is one the theorems about runs assume. */
  lemma DeferredIsPossible(inv: Inventory, text: TextTest, engine: EngineView, l: Latch, a: Arrived, auth: AuthOutcome)
    requires PlayableWhenDue(inv, engine, l, a) && Deferred(inv, engine, l, a, auth) && l.unit.Some?
    ensures SoundAuth(GatekeeperChecks(inv, text), l.policy, l.unit.value.binding, auth)
  {
    if BindIsDue(engine, l, a) {
      PassedIsVetted(inv, Snapshot(l.policy), l.unit.value.binding, NO_EVIDENCE.(violations := l.result.violations),
                     a.remoteScope, a.script, None, a.described, auth);
    }
  }

  /** A statement is bound. Without a plan there is nothing to decide. */
  method PostBind(state: EnforcementState, engine: EngineView, arrived: Option<Arrived>)
    returns (outcome: Outcome, ghost auth: AuthOutcome, ghost j: Judgement)
    requires state.Valid()
    requires arrived.Some? ==> PlayableWhenDue(state.inv, engine, state.View(), arrived.value)
    modifies state
    ensures state.Valid()
    ensures arrived.None? ==>
            state.View() == old(state.View()) && state.log == old(state.log) && outcome == Returned
    ensures arrived.Some? ==>
            var b := Binding(arrived.value.plan, arrived.value.props, arrived.value.preparing, auth);
            && Deferred(state.inv, engine, old(state.View()), arrived.value, auth)
            && Faithful(PlanCheckOf(state.inv), engine, old(state.View()), b, j)
            && state.Did(old(state.log), Enforcement.PostBind(engine, old(state.View()), b, j), outcome)
  {
    auth, j := AuthFails(false), Judgement(Deny, {});
    if arrived.None? {
      return Returned, auth, j;
    }
    var a := arrived.value;
    var found := DecideDeferred(state.inv, engine, state.View(), a);
    auth := found;
    outcome, j := state.Bound(engine, Binding(a.plan, a.props, a.preparing, found));
  }
}
