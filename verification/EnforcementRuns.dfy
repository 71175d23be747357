/** Safety of the enforcement latch over every run: any interleaving of hooks with policy and log-only changes. */
module EnforcementRuns {
  import opened Names
  import opened Policies
  import opened Origins
  import opened Plans
  import opened PlanAuthorization
  import opened Lookups
  import opened TextChecks
  import opened StatementBinds
  import opened Enforcement

  // ------------------------------------------------------- runs

  /** A connection: what the engine shows, the latch, the history, and how the last hook ended. */
  datatype World = World(engine: EngineView, latch: Latch, log: seq<Entry>, nextId: nat, failed: bool, outcome: Outcome)

  datatype Event =
    | SetPolicy(policy: Option<Policy>)
    | SetLogOnly(value: bool)
    | QueryBegins(id: nat, input: Admitting)
    | NextStatement(id: nat)
    | AsksRebind(input: Admitting)
    | Binds(binding: Binding, judgement: Judgement)
    | BindsNothing
    | PlanningFails(described: bool)
    | PrepareEnds
    | Rebinds
    | ScansReplacement(path: NamePath, resolution: Resolution)
    | QueryEnds(error: Option<bool>)

  function Initial(policy: Option<Policy>, logOnly: bool): World {
    World(EngineView(None, logOnly, policy), CLEARED, [], 0, false, Returned)
  }

  /** The hook an event runs, on the engine's view at that moment. */
  function Hook(inv: Inventory, engine: EngineView, l: Latch, e: Event): Effect
    requires e.QueryBegins? ==> engine.active.Some?
  {
    match e
    case SetPolicy(_) => Effect(l, Returned, [])
    case SetLogOnly(_) => Effect(l, Returned, [])
    case NextStatement(_) => Effect(l, Returned, [])
    case QueryBegins(_, input) => BeginStatement(engine, input)
    case AsksRebind(input) => CanRequestRebind(engine, l, input)
    case Binds(binding, judgement) => PostBind(engine, l, binding, judgement)
    case BindsNothing => Effect(l, Returned, [])
    case PlanningFails(described) => OnPlanningError(engine, l, described)
    case PrepareEnds => OnFinalizePrepare(l)
    case Rebinds => ForceRebind(engine, l)
    case ScansReplacement(path, resolution) => ReplacementScan(inv, engine, l, path, resolution)
    case QueryEnds(error) => QueryEnd(engine, l, error)
  }

  function EngineAt(w: World, e: Event): EngineView {
    match e
    case SetPolicy(p) => w.engine.(policy := p)
    case SetLogOnly(b) => w.engine.(logOnly := b)
    case QueryBegins(id, _) => w.engine.(active := Some(id))
    case NextStatement(id) => w.engine.(active := Some(id))
    case QueryEnds(_) => w.engine.(active := None)
    case _ => w.engine
  }

  /** The attempt a throw ends is over: at the query's end, or when a Prepare() outside any statement reports. */
  predicate Ends(w: World, e: Event) {
    e.QueryEnds? || e.QueryBegins? || (!w.latch.inStatement && (e.PlanningFails? || e.PrepareEnds?))
  }

  function Next(inv: Inventory, w: World, e: Event): World {
    var engine := EngineAt(w, e);
    var effect := Hook(inv, engine, w.latch, e);
    World(engine, effect.latch, w.log + effect.trace,
          if e.QueryBegins? || e.NextStatement? then e.id + 1 else w.nextId,
          effect.outcome != Returned || (w.failed && !Ends(w, e)), effect.outcome)
  }

  /** Query ids are never reused. */
  predicate NewIds(w: World, e: Event) {
    e.QueryBegins? || e.NextStatement? ==> e.id >= w.nextId
  }

  /** What else is known of every event of a run, where it happens. */
  type Guard = (World, Event) -> bool

  /** The engine's order: a throw ends the attempt, and a statement is admitted before anything of it is planned. */
  predicate Orderly(w: World, e: Event) {
    && (w.failed ==> Ends(w, e) || e.SetPolicy? || e.SetLogOnly? || e.PlanningFails?)
    && (e.Binds? || e.ScansReplacement? || e.Rebinds? || e.PlanningFails? ==>
          w.latch.inStatement ==> Current(w.engine, w.latch))
    && (e.Rebinds? ==> w.latch.inStatement)
  }

  function Run(inv: Inventory, start: World, events: seq<Event>): World {
    if events == [] then start else Next(inv, Run(inv, start, events[..|events| - 1]), events[|events| - 1])
  }

  /** Every event of the run meets the guard where it happens and, in an orderly run, follows the engine's order. */
  ghost predicate Legal(inv: Inventory, guard: Guard, start: World, events: seq<Event>, orderly: bool) {
    if events == [] then true
    else
      var init, last := events[..|events| - 1], events[|events| - 1];
      var before := Run(inv, start, init);
      && Legal(inv, guard, start, init, orderly) && NewIds(before, last) && guard(before, last)
      && (orderly ==> Orderly(before, last))
  }

  // ------------------------------------------------------- windows of the history

  /** The entries since the last admission, that admission first. */
  function SinceAdmission(log: seq<Entry>): seq<Entry> {
    if log == [] then []
    else if log[|log| - 1].Admission? then [log[|log| - 1]]
    else
      var earlier := SinceAdmission(log[..|log| - 1]);
      if earlier == [] then [] else earlier + [log[|log| - 1]]
  }

  predicate NoAdmission(trace: seq<Entry>) {
    forall x :: x in trace ==> !x.Admission?
  }

  lemma {:induction false} WindowGrows(log: seq<Entry>, trace: seq<Entry>)
    requires NoAdmission(trace)
    ensures SinceAdmission(log + trace) == if SinceAdmission(log) == [] then [] else SinceAdmission(log) + trace
  {
    if trace == [] {
      assert log + trace == log;
      assert SinceAdmission(log) + trace == SinceAdmission(log);
    } else {
      var init, last := trace[..|trace| - 1], trace[|trace| - 1];
      assert (log + trace)[..|log + trace| - 1] == log + init;
      assert last in trace;
      WindowGrows(log, init);
      assert init + [last] == trace;
    }
  }

  lemma {:induction false} WindowOpens(log: seq<Entry>, trace: seq<Entry>)
    requires trace != [] && trace[0].Admission? && NoAdmission(trace[1..])
    ensures SinceAdmission(log + trace) == trace
  {
    assert log + trace == (log + [trace[0]]) + trace[1..];
    assert (log + [trace[0]])[..|log|] == log;
    WindowGrows(log + [trace[0]], trace[1..]);
    assert [trace[0]] + trace[1..] == trace;
  }

  // ------------------------------------------------------- what every state satisfies

  /** The policy an entry says was consulted for query `id`, if it says one. */
  predicate Consults(x: Entry, id: nat, p: Policy) {
    match x
    case Admission(i, snapshot, _) => i == id ==> snapshot == Some(p)
    case TextPassed(i, q, _) => i == id ==> q == p
    case Authorized(i, q, _, _) => i == id ==> q == p
    case PlanPassed(i, q, _, _, _) => i == id ==> q == p
    case Prescreened(query, q, _, _) => query == Some(id) ==> q == p
    case ReaderAsked(query, q) => query == Some(id) ==> q == p
    case Record(query, _, _, inForce, _) => query == Some(id) ==> inForce == Some(p)
  }

  predicate OneSnapshot(entries: seq<Entry>, id: nat, p: Policy) {
    forall x :: x in entries ==> Consults(x, id, p)
  }

  /** The text behind the latch's unit passed, with the record the unit carries. */
  ghost predicate TextIn(win: seq<Entry>, l: Latch) {
    l.unit.Some? && exists u ::
      TextPassed(l.statementId, l.policy, u) in win && u.text == l.unit.value.text && u.binding == l.unit.value.binding
  }

  ghost predicate AuthorizedIn(win: seq<Entry>, l: Latch) {
    l.unit.Some? && exists validated :: Authorized(l.statementId, l.policy, l.unit.value, validated) in win
  }

  ghost predicate PrescreenedIn(win: seq<Entry>, l: Latch) {
    exists plan, props :: Prescreened(Some(l.statementId), l.policy, plan, props) in win
  }

  /** Inside a statement, every flag is backed by an entry of the statement's own window. */
  ghost predicate Grounded(l: Latch, win: seq<Entry>) {
    && win != [] && win[0].Admission? && win[0].id == l.statementId && win[0].logOnly == l.logOnly
    && (l.admitted ==>
          && win[0].snapshot == Some(l.policy)
          && TextIn(win, l)
          && OneSnapshot(win, l.statementId, l.policy))
    && (l.authorized ==> AuthorizedIn(win, l))
    && (l.prescreened ==> PrescreenedIn(win, l))
  }

  predicate AdmittedOnce(log: seq<Entry>) {
    forall i, j :: 0 <= i < j < |log| && log[i].Admission? && log[j].Admission? ==> log[i].id != log[j].id
  }

  predicate AdmittedBelow(log: seq<Entry>, n: nat) {
    forall x :: x in log && x.Admission? ==> x.id < n
  }

  ghost predicate Sound(w: World) {
    && FlagsHold(w.latch)
    && (w.latch.inStatement ==> Grounded(w.latch, SinceAdmission(w.log)))
    && AdmittedOnce(w.log) && AdmittedBelow(w.log, w.nextId)
    && (w.engine.active.Some? ==> w.engine.active.value < w.nextId)
    && (w.engine.active.Some? && !Current(w.engine, w.latch) ==>
          forall x :: x in w.log && x.Admission? ==> x.id != w.engine.active.value)
  }

  // ------------------------------------------------------- preservation

  predicate SameText(l: Latch, l': Latch) {
    && l'.unit.Some? == l.unit.Some?
    && (l.unit.Some? ==>
          l'.unit.value.text == l.unit.value.text && l'.unit.value.binding == l.unit.value.binding)
  }

  /** A hook that neither admits nor ends a statement. */
  ghost predicate Continues(l: Latch, e: Effect) {
    var l' := e.latch;
    && NoAdmission(e.trace) && FlagsHold(l')
    && l'.statementId == l.statementId && l'.policy == l.policy && l'.logOnly == l.logOnly
    && l'.inStatement == l.inStatement && l'.admitted == l.admitted && SameText(l, l')
    && (l.admitted ==> OneSnapshot(e.trace, l.statementId, l.policy))
    && (l'.authorized ==> AuthorizedIn(e.trace, l') || (l.authorized && l'.unit == l.unit))
    && (l'.prescreened ==> PrescreenedIn(e.trace, l') || l.prescreened)
  }

  lemma ContinuesKeepsGround(l: Latch, win: seq<Entry>, e: Effect)
    requires l.inStatement && Grounded(l, win) && Continues(l, e)
    ensures Grounded(e.latch, win + e.trace)
  {
    var l', win' := e.latch, win + e.trace;
    assert win'[0] == win[0];
    if l.admitted {
      var u :| TextPassed(l.statementId, l.policy, u) in win && u.text == l.unit.value.text
               && u.binding == l.unit.value.binding;
      assert TextPassed(l'.statementId, l'.policy, u) in win';
    }
    if l'.authorized {
      var from := if AuthorizedIn(e.trace, l') then e.trace else win;
      var v :| Authorized(l'.statementId, l'.policy, l'.unit.value, v) in from;
      assert Authorized(l'.statementId, l'.policy, l'.unit.value, v) in win';
    }
    if l'.prescreened {
      var from := if PrescreenedIn(e.trace, l') then e.trace else win;
      var plan, props :| Prescreened(Some(l'.statementId), l'.policy, plan, props) in from;
      assert Prescreened(Some(l'.statementId), l'.policy, plan, props) in win';
    }
  }

  lemma ContinuesKeepsSound(inv: Inventory, w: World, e: Event)
    requires Sound(w) && NewIds(w, e)
    requires Continues(w.latch, Hook(inv, EngineAt(w, e), w.latch, e)) && !e.QueryEnds? && !e.QueryBegins?
    ensures Sound(Next(inv, w, e))
  {
    var effect := Hook(inv, EngineAt(w, e), w.latch, e);
    var w' := Next(inv, w, e);
    WindowGrows(w.log, effect.trace);
    if w.latch.inStatement {
      ContinuesKeepsGround(w.latch, SinceAdmission(w.log), effect);
    }
    forall i | |w.log| <= i < |w'.log| ensures !w'.log[i].Admission? {
      assert w'.log[i] in effect.trace;
    }
    forall x | x in w'.log && x.Admission? ensures x in w.log {
    }
  }

  lemma AuthorizeContinues(engine: EngineView, l: Latch, auth: AuthOutcome)
    requires FlagsHold(l) && l.admitted && !l.authorized
    ensures Continues(l, Authorize(engine, l, auth))
  {
    if auth.AuthPasses? {
      var unit := l.unit.value.(prov := auth.prov);
      assert Authorized(l.statementId, l.policy, unit, auth.validated) in Authorize(engine, l, auth).trace;
    }
  }

  /** Two hooks' work in one: what continues the first continues both. */
  lemma ContinuesOn(l: Latch, a: Effect, e: Effect)
    requires Continues(l, a) && Continues(a.latch, e)
    requires e.latch.authorized ==> AuthorizedIn(e.trace, e.latch) || e.latch.unit == a.latch.unit
    ensures Continues(l, e.After(a.trace))
  {
    var both, l' := e.After(a.trace), e.latch;
    if l'.authorized && (AuthorizedIn(e.trace, l') || AuthorizedIn(a.trace, a.latch)) {
      var from := if AuthorizedIn(e.trace, l') then e.trace else a.trace;
      var v :| Authorized(l'.statementId, l'.policy, l'.unit.value, v) in from;
      assert Authorized(l'.statementId, l'.policy, l'.unit.value, v) in both.trace;
    }
    if l'.prescreened && !l.prescreened {
      var from := if PrescreenedIn(e.trace, l') then e.trace else a.trace;
      var plan, props :| Prescreened(Some(l'.statementId), l'.policy, plan, props) in from;
      assert Prescreened(Some(l'.statementId), l'.policy, plan, props) in both.trace;
    }
  }

  lemma ConcludeContinues(engine: EngineView, l: Latch, b: Binding, j: Judgement)
    requires FlagsHold(l) && l.inStatement
    ensures Continues(l, Conclude(engine, l, b, j)) && Conclude(engine, l, b, j).latch.unit == l.unit
  {
  }

  lemma DecidePlanContinues(engine: EngineView, l: Latch, b: Binding, j: Judgement)
    requires FlagsHold(l) && l.inStatement
    ensures Continues(l, DecidePlan(engine, l, b, j))
  {
    if l.admitted {
      var a := if l.authorized then Effect(l, Returned, []) else Authorize(engine, l, b.auth);
      if !l.authorized {
        AuthorizeContinues(engine, l, b.auth);
      }
      if a.latch.authorized {
        ConcludeContinues(engine, a.latch, b, j);
        ContinuesOn(l, a, Conclude(engine, a.latch, b, j));
      }
    }
  }

  lemma PrescreenContinues(engine: EngineView, l: Latch, b: Binding, j: Judgement)
    requires FlagsHold(l) && Current(engine, l)
    ensures Continues(l, PrescreenInside(engine, l, b, j))
  {
    if l.admitted && j.verdict.Pass? {
      assert Prescreened(Some(l.statementId), l.policy, b.plan, b.props) in PrescreenInside(engine, l, b, j).trace;
    }
  }

  lemma PostBindContinues(engine: EngineView, l: Latch, b: Binding, j: Judgement)
    requires FlagsHold(l)
    ensures Continues(l, PostBind(engine, l, b, j))
  {
    if l.inStatement && Current(engine, l) && !(l.logOnly && l.decided) {
      if OnlyPrescreened(l, b) {
        PrescreenContinues(engine, l, b, j);
      } else if !Wrapper(b.plan) {
        DecidePlanContinues(engine, l, b, j);
      }
    }
  }

  /** Who is asked about a replacement, once the gate is shut: the admission's policy, or the setting as it stands. */
  lemma JudgeContinues(inv: Inventory, engine: EngineView, l: Latch, mode: Mode, p: Policy, path: NamePath,
                       resolution: Resolution)
    requires FlagsHold(l) && (l.admitted && Current(engine, l) ==> p == l.policy)
    ensures var judged := JudgeReplacement(inv, engine, l, mode, p, path, resolution);
            Continues(l, judged.After([ReaderAsked(engine.active, p)]))
  {
  }

  lemma GateContinues(inv: Inventory, engine: EngineView, l: Latch, path: NamePath, resolution: Resolution)
    requires FlagsHold(l)
    ensures Continues(l, ReplacementScan(inv, engine, l, path, resolution))
  {
    var gate := ReplacementGate(engine, l);
    var p := if AdmittedPolicy(engine, l).Some? then AdmittedPolicy(engine, l) else engine.policy;
    if p.Some? {
      JudgeContinues(inv, engine, l, if gate.GateLogOnly? then LogOnly else Enforce, p.value, path, resolution);
    }
  }

  /** Admission opens a window whose entries back everything the new latch claims. */
  lemma AdmissionIsGrounded(engine: EngineView, input: Admitting)
    requires engine.active.Some?
    ensures var e := BeginStatement(engine, input);
            && e.trace != [] && e.trace[0].Admission? && e.trace[0].id == engine.active.value
            && NoAdmission(e.trace[1..])
            && FlagsHold(e.latch) && Current(engine, e.latch) && Grounded(e.latch, e.trace)
  {
    if engine.policy.Some? && !ThrowsEarly(engine, input) {
      var l := Opened(engine, input);
      AdmitOpens(engine, l, input);
      var e := BeginStatement(engine, input);
      var admitted := Admit(engine, l, input);
      assert e.trace[1..] == admitted.trace;
      assert forall x :: x in admitted.trace ==> x in e.trace;
      if e.latch.admitted {
        var u :| TextPassed(l.statementId, l.policy, u) in admitted.trace && u.text == e.latch.unit.value.text
                 && u.binding == e.latch.unit.value.binding;
        assert TextPassed(l.statementId, l.policy, u) in e.trace;
      }
      if e.latch.authorized {
        var v :| Authorized(l.statementId, l.policy, e.latch.unit.value, v) in admitted.trace;
        assert Authorized(l.statementId, l.policy, e.latch.unit.value, v) in e.trace;
      }
    }
  }

  /** A fresh statement's effect: nothing claimed that its own entries do not back. */
  ghost predicate Opens(l: Latch, e: Effect) {
    && NoAdmission(e.trace) && FlagsHold(e.latch) && !e.latch.prescreened
    && e.latch.statementId == l.statementId && e.latch.policy == l.policy && e.latch.logOnly == l.logOnly
    && e.latch.inStatement
    && OneSnapshot(e.trace, l.statementId, l.policy)
    && (e.latch.admitted ==> TextIn(e.trace, e.latch))
    && (e.latch.authorized ==> AuthorizedIn(e.trace, e.latch))
  }

  predicate Fresh(engine: EngineView, l: Latch) {
    FlagsHold(l) && Current(engine, l) && !l.admitted && !l.authorized && !l.prescreened
  }

  lemma AdmitUnitOpens(engine: EngineView, l: Latch, unit: Unit, input: Admitting)
    requires Fresh(engine, l)
    ensures Opens(l, AdmitUnit(engine, l, unit, input))
  {
    var l' := l.(result := Decision(true, {}), admitted := true, unit := Some(unit));
    var after, e := AfterText(engine, l', unit.parameterized, input), AdmitUnit(engine, l, unit, input);
    AuthorizeContinues(engine, l', input.auth);
    assert Continues(l', after);
    assert e.trace[0] == TextPassed(l.statementId, l.policy, unit);
    assert forall x :: x in e.trace ==> x == e.trace[0] || x in after.trace;
    assert TextPassed(l.statementId, l.policy, unit) in e.trace;
    if e.latch.authorized {
      var v :| Authorized(l.statementId, l.policy, e.latch.unit.value, v) in after.trace;
      assert Authorized(l.statementId, l.policy, e.latch.unit.value, v) in e.trace;
    }
  }

  lemma AdmitOpens(engine: EngineView, l: Latch, input: Admitting)
    requires Fresh(engine, l)
    ensures Opens(l, Admit(engine, l, input))
  {
    if input.remoteScope && AdmitsUnit(input.text) {
      AdmitUnitOpens(engine, l, input.text.units[0], input);
    }
  }

  lemma AdmissionKeepsSound(inv: Inventory, w: World, e: Event, input: Admitting)
    requires Sound(w) && NewIds(w, e) && (e.QueryBegins? || e.AsksRebind?)
    requires var engine := EngineAt(w, e);
             && engine.active.Some? && Hook(inv, engine, w.latch, e) == BeginStatement(engine, input)
             && (e.AsksRebind? ==> !Current(engine, w.latch))
    ensures Sound(Next(inv, w, e))
  {
    var engine := EngineAt(w, e);
    var effect := BeginStatement(engine, input);
    AdmissionIsGrounded(engine, input);
    WindowOpens(w.log, effect.trace);
    forall x | x in w.log && x.Admission? ensures x.id != engine.active.value {
    }
    AdmittedOnceMore(w.log, effect.trace);
  }

  lemma AdmittedOnceMore(log: seq<Entry>, trace: seq<Entry>)
    requires AdmittedOnce(log) && trace != [] && trace[0].Admission? && NoAdmission(trace[1..])
    requires forall x :: x in log && x.Admission? ==> x.id != trace[0].id
    ensures AdmittedOnce(log + trace)
    ensures forall x :: x in log + trace && x.Admission? ==> x in log || x == trace[0]
  {
    var all := log + trace;
    forall i | |log| < i < |all| ensures !all[i].Admission? {
      assert all[i] == trace[1..][i - |log| - 1];
      assert all[i] in trace[1..];
    }
    forall x | x in all && x.Admission? ensures x in log || x == trace[0] {
      var i :| 0 <= i < |all| && all[i] == x;
    }
  }

  /** The hooks with no admission, no end and no plan. */
  lemma OthersContinue(inv: Inventory, engine: EngineView, l: Latch, e: Event)
    requires FlagsHold(l) && !e.QueryBegins? && !e.QueryEnds? && !e.Binds? && !e.ScansReplacement?
    requires e.AsksRebind? ==> !(l.inStatement && engine.active.Some? && !Current(engine, l))
    ensures Continues(l, Hook(inv, engine, l, e))
  {
  }

  lemma HookContinues(inv: Inventory, engine: EngineView, l: Latch, e: Event)
    requires FlagsHold(l) && !e.QueryBegins? && !e.QueryEnds?
    requires e.AsksRebind? ==> !(l.inStatement && engine.active.Some? && !Current(engine, l))
    ensures Continues(l, Hook(inv, engine, l, e))
  {
    if e.Binds? {
      PostBindContinues(engine, l, e.binding, e.judgement);
    } else if e.ScansReplacement? {
      GateContinues(inv, engine, l, e.path, e.resolution);
    } else {
      OthersContinue(inv, engine, l, e);
    }
  }

  predicate Admits(w: World, e: Event) {
    e.QueryBegins? || (e.AsksRebind? && w.latch.inStatement && w.engine.active.Some? && !Current(w.engine, w.latch))
  }

  lemma StepKeepsSound(inv: Inventory, w: World, e: Event)
    requires Sound(w) && NewIds(w, e)
    ensures Sound(Next(inv, w, e))
  {
    if Admits(w, e) {
      AdmissionKeepsSound(inv, w, e, e.input);
    } else if e.QueryEnds? {
      EndKeepsSound(inv, w, e);
    } else {
      HookContinues(inv, EngineAt(w, e), w.latch, e);
      ContinuesKeepsSound(inv, w, e);
    }
  }

  lemma EndKeepsSound(inv: Inventory, w: World, e: Event)
    requires Sound(w) && e.QueryEnds?
    ensures Sound(Next(inv, w, e))
  {
    var effect := Hook(inv, EngineAt(w, e), w.latch, e);
    var w' := Next(inv, w, e);
    forall i | |w.log| <= i < |w'.log| ensures !w'.log[i].Admission? {
      assert w'.log[i] in effect.trace;
    }
    forall x | x in w'.log && x.Admission? ensures x in w.log {
    }
  }

  /** The flags and their grounds hold in every state of every run, orderly or not. */
  lemma {:induction false} EveryStateIsSound(inv: Inventory, guard: Guard, policy: Option<Policy>, logOnly: bool,
                                             events: seq<Event>, orderly: bool)
    requires Legal(inv, guard, Initial(policy, logOnly), events, orderly)
    ensures Sound(Run(inv, Initial(policy, logOnly), events))
  {
    if events != [] {
      var init, last := events[..|events| - 1], events[|events| - 1];
      EveryStateIsSound(inv, guard, policy, logOnly, init, orderly);
      StepKeepsSound(inv, Run(inv, Initial(policy, logOnly), init), last);
    }
  }

  lemma LastStep(inv: Inventory, guard: Guard, start: World, events: seq<Event>, e: Event, orderly: bool)
    requires Legal(inv, guard, start, events + [e], orderly)
    ensures var w := Run(inv, start, events);
            && Legal(inv, guard, start, events, orderly) && NewIds(w, e) && guard(w, e) && (orderly ==> Orderly(w, e))
            && Run(inv, start, events + [e]) == Next(inv, w, e)
  {
    assert (events + [e])[..|events|] == events;
  }

  // ------------------------------------------------------- execution safety

  /** What a normal return of the execution boundary says about its own effect. */
  predicate Concluded(l: Latch, b: Binding, e: Effect) {
    && e.latch.authorized && e.latch.statementId == l.statementId && e.latch.policy == l.policy && e.latch.unit.Some?
    && |e.trace| >= 2
    && e.trace[|e.trace| - 2] == PlanPassed(l.statementId, l.policy, e.latch.unit.value, b.plan, b.props)
    && e.trace[|e.trace| - 1] == Record(Some(l.statementId), Enforce, AtExecution, Some(l.policy), true)
  }

  lemma DecidedPlanConcludes(engine: EngineView, l: Latch, b: Binding, j: Judgement)
    requires FlagsHold(l) && Current(engine, l) && !l.logOnly && DecidePlan(engine, l, b, j).outcome == Returned
    ensures j.verdict.Pass? && Concluded(l, b, DecidePlan(engine, l, b, j))
  {
  }

  lemma ReturnedConcludes(engine: EngineView, l: Latch, b: Binding, j: Judgement)
    requires FlagsHold(l) && l.inStatement && !l.logOnly && !OnlyPrescreened(l, b) && !Wrapper(b.plan)
    requires PostBind(engine, l, b, j).outcome == Returned
    ensures Current(engine, l) && j.verdict.Pass? && Concluded(l, b, PostBind(engine, l, b, j))
  {
    if Current(engine, l) {
      DecidedPlanConcludes(engine, l, b, j);
    }
  }

  lemma ConcludedIsRecorded(w: World, b: Binding, e: Effect, w': World)
    requires Concluded(w.latch, b, e) && Current(w.engine,
                                                 w.latch) && NoAdmission(e.trace) && SinceAdmission(w.log) != []
    requires w'.latch == e.latch && w'.log == w.log + e.trace
    ensures PlanPassed(w.latch.statementId, w.latch.policy, w'.latch.unit.value, b.plan,
                       b.props) in SinceAdmission(w'.log)
    ensures w'.log[|w'.log| - 1..] == [Record(Some(w.latch.statementId), Enforce, AtExecution, Some(w.latch.policy),
                                              true)]
  {
    WindowGrows(w.log, e.trace);
    var n := |e.trace|;
    assert e.trace[n - 2] in e.trace;
    assert w'.log[|w'.log| - 1..] == [e.trace[n - 1]];
  }

  lemma {:induction false} WindowIsPartOfLog(log: seq<Entry>)
    ensures forall x :: x in SinceAdmission(log) ==> x in log
  {
    if log != [] {
      WindowIsPartOfLog(log[..|log| - 1]);
    }
  }

  /** The gate's accessors answer only for the active statement, and with its own admission's snapshot. */
  lemma AccessorsAnswerForTheActiveStatement(inv: Inventory, guard: Guard, policy: Option<Policy>, logOnly: bool,
                                             events: seq<Event>, orderly: bool)
    requires Legal(inv, guard, Initial(policy, logOnly), events, orderly)
    ensures var w := Run(inv, Initial(policy, logOnly), events);
            && (AdmittedPolicy(w.engine, w.latch).Some? <==> AdmittedBinding(w.engine, w.latch).Some?)
            && (AdmittedPolicy(w.engine, w.latch).Some? ==>
                  && w.engine.active == Some(w.latch.statementId)
                  && SinceAdmission(w.log) != []
                  && SinceAdmission(w.log)[0] == Admission(w.latch.statementId, AdmittedPolicy(w.engine, w.latch),
                                                           w.latch.logOnly))
  {
    EveryStateIsSound(inv, guard, policy, logOnly, events, orderly);
  }

  // ------------------------------------------------------- orderly runs

  function Records(entries: seq<Entry>): nat {
    if entries == [] then 0 else Records(entries[..|entries| - 1]) + (if entries[|entries| - 1].Record? then 1 else 0)
  }

  lemma {:induction false} RecordsAppend(a: seq<Entry>, b: seq<Entry>)
    ensures Records(a + b) == Records(a) + Records(b)
  {
    if b == [] {
      assert a + b == a;
    } else {
      assert (a + b)[..|a + b| - 1] == a + b[..|b| - 1];
      RecordsAppend(a, b[..|b| - 1]);
    }
  }

  /** An allowed execution record of the statement, and the checked plan behind it. */
  ghost predicate ExecutionRecorded(win: seq<Entry>, id: nat, p: Policy) {
    && Record(Some(id), Enforce, AtExecution, Some(p), true) in win
    && exists unit, plan, props :: PlanPassed(id, p, unit, plan, props) in win
  }

  /** What holds besides in runs that follow the engine's order. */
  ghost predicate OrderlySound(w: World) {
    var l, win := w.latch, SinceAdmission(w.log);
    && (l.decided ==> l.inStatement) && (l.executingPrepared ==> l.inStatement)
    && (l.inStatement && l.logOnly ==> Records(win) == (if l.decided then 1 else 0))
    && (l.inStatement && !l.logOnly && l.decided && !w.failed ==>
          l.admitted && ExecutionRecorded(win, l.statementId, l.policy))
  }

  /** A hook inside a log-only statement writes a record exactly when it decides the statement, and never refuses. */
  predicate DecidesOnce(l: Latch, e: Effect) {
    && (l.decided ==> e.latch.decided)
    && Records(e.trace) == (if e.latch.decided && !l.decided then 1 else 0)
    && e.outcome != Refused
  }

  /** A hook inside an enforcing statement that returns has decided nothing, or an allowed execution. */
  ghost predicate DecidesAllowed(l: Latch, e: Effect) {
    e.outcome == Returned && e.latch.decided ==>
      l.decided || (e.latch.admitted && ExecutionRecorded(e.trace, l.statementId, l.policy))
  }

  lemma RecordsOfOne(x: Entry)
    ensures Records([x]) == if x.Record? then 1 else 0
  {
    assert [x][..0] == [];
    assert Records([]) == 0;
  }

  lemma RecordedOnce(engine: EngineView, l: Latch, boundary: Boundary, inForce: Option<Policy>)
    requires l.logOnly && !l.decided
    ensures DecidesOnce(l, RecordDecision(engine, l, boundary, inForce))
    ensures Records(RecordDecision(engine, l, boundary, inForce).trace) == 1
  {
    RecordsOfOne(Record(engine.active, LogOnly, boundary, inForce, l.result.allowed));
  }

  lemma AuthorizeDecidesOnce(engine: EngineView, l: Latch, auth: AuthOutcome)
    requires l.logOnly && !l.decided
    ensures DecidesOnce(l, Authorize(engine, l, auth))
  {
    match auth {
      case AuthPasses(prov, validated) =>
        if l.unit.Some? {
          RecordsOfOne(Authorized(l.statementId, l.policy, l.unit.value.(prov := prov), validated));
        }
      case AuthRefused(found) =>
        RecordedOnce(engine, l.(result := Decision(false, l.result.violations + found)), AtAuthorize, Some(l.policy));
      case AuthFails(described) => RecordedOnce(engine, l.(result := Denied(l.result)), AtAuthorize, Some(l.policy));
    }
  }

  lemma ConcludeDecidesOnce(engine: EngineView, l: Latch, b: Binding, j: Judgement)
    requires l.logOnly && !l.decided
    ensures DecidesOnce(l, Conclude(engine, l, b, j))
  {
    RecordedOnce(engine, l, AtExecution, Some(l.policy));
    RecordedOnce(engine, l.(result := Decision(false, j.left)), AtExecution, Some(l.policy));
    if l.unit.Some? {
      var passed := PlanPassed(l.statementId, l.policy, l.unit.value, b.plan, b.props);
      RecordsOfOne(passed);
      RecordsAppend([passed], RecordDecision(engine, l, AtExecution, Some(l.policy)).trace);
    }
  }

  lemma DecidePlanDecidesOnce(engine: EngineView, l: Latch, b: Binding, j: Judgement)
    requires FlagsHold(l) && l.logOnly && !l.decided
    ensures DecidesOnce(l, DecidePlan(engine, l, b, j))
  {
    if !l.admitted {
      RecordedOnce(engine, l.(result := NOT_ADMITTED), AtExecution, Some(l.policy));
    } else {
      var a := if l.authorized then Effect(l, Returned, []) else Authorize(engine, l, b.auth);
      AuthorizeDecidesOnce(engine, l, b.auth);
      if a.latch.authorized {
        assert !a.latch.decided;
        ConcludeDecidesOnce(engine, a.latch, b, j);
        RecordsAppend(a.trace, Conclude(engine, a.latch, b, j).trace);
      }
    }
  }

  lemma PostBindDecidesOnce(engine: EngineView, l: Latch, b: Binding, j: Judgement)
    requires FlagsHold(l) && Current(engine, l) && l.logOnly
    ensures DecidesOnce(l, PostBind(engine, l, b, j))
  {
    if !l.decided {
      RecordedOnce(engine, l.(result := NOT_ADMITTED), AtPrepare, Some(l.policy));
      RecordedOnce(engine, l.(result := NOT_ADMITTED), AtExecution, Some(l.policy));
      RecordedOnce(engine, l.(result := Decision(false, j.left)), AtPrepare, Some(l.policy));
      RecordsOfOne(Prescreened(engine.active, l.policy, b.plan, b.props));
      DecidePlanDecidesOnce(engine, l, b, j);
    }
  }

  lemma GateDecidesOnce(inv: Inventory, engine: EngineView, l: Latch, path: NamePath, resolution: Resolution)
    requires FlagsHold(l) && Current(engine, l) && l.logOnly
    ensures DecidesOnce(l, ReplacementScan(inv, engine, l, path, resolution))
  {
    if !l.decided {
      var p := if AdmittedPolicy(engine, l).Some? then AdmittedPolicy(engine, l) else engine.policy;
      var record := Record(engine.active, LogOnly, AtReplacement, p, false);
      RecordsOfOne(record);
      if p.Some? {
        RecordsOfOne(ReaderAsked(engine.active, p.value));
        RecordsAppend([ReaderAsked(engine.active, p.value)], [record]);
      }
    }
  }

  /** Inside a log-only statement, in the engine's order, no hook decides twice and none refuses. */
  lemma LogOnlyHook(inv: Inventory, w: World, e: Event)
    requires FlagsHold(w.latch) && w.latch.inStatement && w.latch.logOnly && Orderly(w, e) && !Admits(w, e)
             && !e.QueryEnds?
    ensures DecidesOnce(w.latch, Hook(inv, EngineAt(w, e), w.latch, e))
  {
    var l, engine := w.latch, w.engine;
    if e.Binds? {
      PostBindDecidesOnce(engine, l, e.binding, e.judgement);
    } else if e.ScansReplacement? {
      GateDecidesOnce(inv, engine, l, e.path, e.resolution);
    } else if !l.decided {
      RecordedOnce(engine, l.(result := Denied(l.result)), AtAuthorize, Some(l.policy));
      RecordedOnce(engine, l.(result := NOT_ADMITTED), AtBinding, Some(l.policy));
    }
  }

  /** Admission itself: at most one record, and no refusal under log-only; nothing allowed yet under enforcement. */
  ghost predicate AdmitsOnce(e: Effect) {
    && (e.latch.logOnly ==> Records(e.trace) == (if e.latch.decided then 1 else 0) && e.outcome != Refused)
    && (!e.latch.logOnly && e.latch.decided ==> e.outcome != Returned)
    && !e.latch.executingPrepared
  }

  lemma DenialAdmitsOnce(engine: EngineView, l: Latch, denial: Decision, inForce: Option<Policy>)
    requires !l.decided && !l.executingPrepared && !denial.allowed
    ensures AdmitsOnce(RecordDecision(engine, l.(result := denial), AtBinding, inForce))
  {
    if l.logOnly {
      RecordedOnce(engine, l.(result := denial), AtBinding, inForce);
    }
  }

  lemma AdmittedOnceEach(engine: EngineView, l: Latch, input: Admitting)
    requires !l.decided && !l.executingPrepared && !l.result.allowed
    ensures AdmitsOnce(Admit(engine, l, input)) && Admit(engine, l, input).latch.logOnly == l.logOnly
  {
    var inForce := Some(l.policy);
    if !input.remoteScope {
      DenialAdmitsOnce(engine, l, Decision(false, {UnsupportedStatement("remote SQL pushdown")}), inForce);
    } else {
      match input.text {
        case TextThrows(_) =>
        case TextUnreadable =>
          assert l.(result := l.result) == l;
          DenialAdmitsOnce(engine, l, l.result, inForce);
        case TextDenied(found) => DenialAdmitsOnce(engine, l, Decision(false, found), inForce);
        case TextAllowed(units) =>
          if |units| != 1 || units[0].pivotEnums != {} {
            DenialAdmitsOnce(engine, l, Decision(false, {UnsupportedStatement("unsupported statement")}), inForce);
          } else {
            AdmitUnitOnce(engine, l, units[0], input);
          }
      }
    }
  }

  lemma AdmitUnitOnce(engine: EngineView, l: Latch, unit: Unit, input: Admitting)
    requires !l.decided && !l.executingPrepared
    ensures AdmitsOnce(AdmitUnit(engine, l, unit, input)) && AdmitUnit(engine, l, unit,
                                                                       input).latch.logOnly == l.logOnly
  {
    var l' := l.(result := Decision(true, {}), admitted := true, unit := Some(unit));
    var after := AfterText(engine, l', unit.parameterized, input);
    RecordsOfOne(TextPassed(l.statementId, l.policy, unit));
    RecordsAppend([TextPassed(l.statementId, l.policy, unit)], after.trace);
    AfterTextOnce(engine, l', unit.parameterized, input);
  }

  lemma AfterTextOnce(engine: EngineView, l: Latch, parameterized: bool, input: Admitting)
    requires !l.decided && !l.executingPrepared
    ensures var e := AfterText(engine, l, parameterized, input); AdmitsOnce(e) && e.latch.logOnly == l.logOnly
  {
    if !input.fallback {
      DenialAdmitsOnce(engine, l, Decision(false, {UnsupportedStatement("session-variable fallback")}), Some(l.policy));
    } else if !parameterized {
      AuthorizeAdmitsOnce(engine, l, input.auth);
    }
  }

  lemma AuthorizeAdmitsOnce(engine: EngineView, l: Latch, auth: AuthOutcome)
    requires !l.decided && !l.executingPrepared
    ensures AdmitsOnce(Authorize(engine, l, auth)) && Authorize(engine, l, auth).latch.logOnly == l.logOnly
  {
    if l.logOnly {
      AuthorizeDecidesOnce(engine, l, auth);
    }
  }

  lemma BeginsOnce(engine: EngineView, input: Admitting)
    requires engine.active.Some?
    ensures AdmitsOnce(BeginStatement(engine, input))
  {
    var l := Opened(engine, input);
    var begun := [Admission(l.statementId, engine.policy, l.logOnly)];
    RecordsOfOne(begun[0]);
    if engine.policy.None? {
      RecordsAppend(begun, RecordDecision(engine, l, AtBinding, None).trace);
      if l.logOnly {
        RecordedOnce(engine, l, AtBinding, None);
      }
    } else {
      AdmittedOnceEach(engine, l, input);
      RecordsAppend(begun, Admit(engine, l, input).trace);
    }
  }

  /** Inside an enforcing statement, a hook that returns has decided nothing new, or an allowed execution. */
  lemma EnforcingHook(inv: Inventory, w: World, e: Event)
    requires FlagsHold(w.latch) && w.latch.inStatement && !w.latch.logOnly && Orderly(w, e) && !Admits(w, e)
             && !e.QueryEnds?
    ensures DecidesAllowed(w.latch, Hook(inv, EngineAt(w, e), w.latch, e))
  {
    var l := w.latch;
    if e.Binds? {
      EnforcingPostBind(w.engine, l, e.binding, e.judgement);
    }
  }

  lemma EnforcingPostBind(engine: EngineView, l: Latch, b: Binding, j: Judgement)
    requires FlagsHold(l) && Current(engine, l) && !l.logOnly
    ensures DecidesAllowed(l, PostBind(engine, l, b, j))
  {
    var e := PostBind(engine, l, b, j);
    if e.outcome == Returned && !OnlyPrescreened(l, b) && !Wrapper(b.plan) {
      ReturnedConcludes(engine, l, b, j);
      assert e.trace[|e.trace| - 2] in e.trace && e.trace[|e.trace| - 1] in e.trace;
    }
  }

  lemma ExecutionRecordedStays(win: seq<Entry>, more: seq<Entry>, id: nat, p: Policy)
    requires ExecutionRecorded(win, id, p) || ExecutionRecorded(more, id, p)
    ensures ExecutionRecorded(win + more, id, p)
  {
    var from := if ExecutionRecorded(win, id, p) then win else more;
    var unit, plan, props :| PlanPassed(id, p, unit, plan, props) in from;
    assert PlanPassed(id, p, unit, plan, props) in win + more;
  }

  /** A statement that goes on keeps what orderly runs guarantee. */
  lemma ContinuesOrderly(w: World, e: Effect, w': World)
    requires OrderlySound(w) && Continues(w.latch, e) && (w.latch.inStatement ==> SinceAdmission(w.log) != [])
    requires w'.latch == e.latch && w'.log == w.log + e.trace
    requires w.latch.inStatement && !w'.failed ==> e.outcome == Returned && !w.failed
    requires w.latch.inStatement && w.latch.logOnly ==> DecidesOnce(w.latch, e)
    requires w.latch.inStatement && !w.latch.logOnly ==> DecidesAllowed(w.latch, e)
    requires !w.latch.inStatement ==> !e.latch.decided && !e.latch.executingPrepared
    ensures OrderlySound(w')
  {
    var l := w.latch;
    WindowGrows(w.log, e.trace);
    RecordsAppend(SinceAdmission(w.log), e.trace);
    if l.inStatement && !l.logOnly && e.latch.decided && !w'.failed {
      ExecutionRecordedStays(SinceAdmission(w.log), e.trace, l.statementId, l.policy);
    }
  }

  lemma OutsideStaysUndecided(inv: Inventory, w: World, e: Event)
    requires !w.latch.inStatement && !w.latch.decided && !w.latch.executingPrepared && Orderly(w, e) && !Admits(w, e)
    ensures var effect := Hook(inv, EngineAt(w, e), w.latch,
                               e); !effect.latch.decided && !effect.latch.executingPrepared
  {
    match e {
      case ScansReplacement(_, _) =>
      case Binds(_, _) =>
      case _ =>
    }
  }

  lemma StepKeepsOrderly(inv: Inventory, w: World, e: Event)
    requires Sound(w) && OrderlySound(w) && NewIds(w, e) && Orderly(w, e)
    ensures OrderlySound(Next(inv, w, e))
  {
    var engine := EngineAt(w, e);
    if Admits(w, e) {
      BeginsOnce(engine, e.input);
      AdmissionIsGrounded(engine, e.input);
      WindowOpens(w.log, BeginStatement(engine, e.input).trace);
    } else if !e.QueryEnds? {
      HookContinues(inv, engine, w.latch, e);
      if !w.latch.inStatement {
        OutsideStaysUndecided(inv, w, e);
      } else if w.latch.logOnly {
        LogOnlyHook(inv, w, e);
      } else {
        EnforcingHook(inv, w, e);
      }
      ContinuesOrderly(w, Hook(inv, engine, w.latch, e), Next(inv, w, e));
    }
  }

  lemma {:induction false} EveryOrderlyStateIsSound(inv: Inventory, guard: Guard, policy: Option<Policy>,
                                                    logOnly: bool, events: seq<Event>)
    requires Legal(inv, guard, Initial(policy, logOnly), events, true)
    ensures OrderlySound(Run(inv, Initial(policy, logOnly), events))
  {
    if events != [] {
      var init, last := events[..|events| - 1], events[|events| - 1];
      EveryOrderlyStateIsSound(inv, guard, policy, logOnly, init);
      EveryStateIsSound(inv, guard, policy, logOnly, init, true);
      StepKeepsOrderly(inv, Run(inv, Initial(policy, logOnly), init), last);
    }
  }

  /** A log-only statement is recorded at most once between its admission and its end, and no decision refuses it. */
  lemma LogOnlyDecidesOnceAndRefusesNothing(inv: Inventory, guard: Guard, policy: Option<Policy>, logOnly: bool,
                                            events: seq<Event>, e: Event)
    requires Legal(inv, guard, Initial(policy, logOnly), events + [e], true)
    ensures var w, w' := Run(inv, Initial(policy, logOnly), events), Run(inv, Initial(policy, logOnly), events + [e]);
            && (w'.latch.inStatement && w'.latch.logOnly ==>
                  Records(SinceAdmission(w'.log)) <= 1 && w'.outcome != Refused)
            && (e.QueryEnds? ==> w'.outcome == Returned
                                 && (w.latch.inStatement && w.latch.logOnly ==> Records(SinceAdmission(w'.log)) <= 1))
  {
    var start := Initial(policy, logOnly);
    LastStep(inv, guard, start, events, e, true);
    EveryStateIsSound(inv, guard, policy, logOnly, events, true);
    EveryOrderlyStateIsSound(inv, guard, policy, logOnly, events);
    EveryOrderlyStateIsSound(inv, guard, policy, logOnly, events + [e]);
    OneLogOnlyStep(inv, Run(inv, start, events), e);
  }

  lemma OneLogOnlyStep(inv: Inventory, w: World, e: Event)
    requires Sound(w) && OrderlySound(w) && NewIds(w, e) && Orderly(w, e)
    ensures var w' := Next(inv, w, e);
            && (w'.latch.inStatement && w'.latch.logOnly ==> w'.outcome != Refused)
            && (e.QueryEnds? ==> w'.outcome == Returned
                                 && (w.latch.inStatement && w.latch.logOnly ==> Records(SinceAdmission(w'.log)) <= 1))
  {
    var engine := EngineAt(w, e);
    if Admits(w, e) {
      BeginsOnce(engine, e.input);
    } else if e.QueryEnds? {
      var effect := QueryEnd(engine, w.latch, e.error);
      WindowGrows(w.log, effect.trace);
      RecordsAppend(SinceAdmission(w.log), effect.trace);
      if effect.trace != [] {
        RecordsOfOne(effect.trace[0]);
      }
    } else {
      HookContinues(inv, engine, w.latch, e);
      if w.latch.inStatement && w.latch.logOnly {
        LogOnlyHook(inv, w, e);
      }
    }
  }

  // ------------------------------------------------------- plans of another statement

  /** The boundary's guard: a plan arrives while the latch still holds another statement's admission. */
  predicate Stale(w: World) {
    w.latch.inStatement && !Current(w.engine, w.latch)
  }

  /** Such a plan is refused exactly while enforcing; log-only lets it through. */
  lemma StalePlanIsRefusedIffEnforcing(inv: Inventory, w: World, b: Binding, j: Judgement)
    requires Stale(w)
    ensures Next(inv, w, Binds(b, j)).outcome == Refused <==> !w.latch.logOnly
    ensures Next(inv, w, Binds(b, j)).outcome == Returned <==> w.latch.logOnly
  {
  }

  /** Either way one more record is written, also for a statement that already has one. */
  lemma StalePlanIsAlwaysRecorded(inv: Inventory, w: World, b: Binding, j: Judgement)
    requires Stale(w) && SinceAdmission(w.log) != []
    ensures Records(SinceAdmission(Next(inv, w, Binds(b, j)).log)) == Records(SinceAdmission(w.log)) + 1
  {
    var record := Record(w.engine.active, ModeFor(w.latch.logOnly), AtExecution, Some(w.latch.policy), false);
    assert Next(inv, w, Binds(b, j)).log == w.log + [record];
    WindowGrows(w.log, [record]);
    RecordsOfOne(record);
    RecordsAppend(SinceAdmission(w.log), [record]);
  }
}
