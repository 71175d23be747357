/**
 * The enforcement latch as the mutable object the engine's hooks drive; each hook does exactly what its effect says.
 */
module EnforcementStates {
  import opened Names
  import opened Policies
  import opened Origins
  import opened Plans
  import opened PlanCheck
  import opened Lookups
  import opened TextChecks
  import opened StatementBinds
  import opened Enforcement

  /** One question to the plan check, with no evidence but the violations on record. */
  method JudgePlan(inv: Inventory, p: Policy, record: BindingPolicy, prov: Provenance, origin: PlanOrigin,
                   props: Properties, plan: Plan, violations: set<Violation>)
    returns (j: Judgement)
    ensures j.verdict.Pass? <==> PlanCheckOf(inv)(p, record, prov, origin, props, plan, violations == {})
  {
    var verdict, _, after := CheckPlan(inv, Snapshot(p), record, prov, origin, props, plan,
                                       NO_EVIDENCE.(violations := violations));
    j := Judgement(verdict, after.violations);
  }

  class EnforcementState {
    const inv: Inventory
    var statementId: nat
    var policy: Policy
    var result: Decision
    var logOnly: bool
    var inStatement: bool
    var decided: bool
    var prepareDecided: bool
    var admitted: bool
    var authorized: bool
    var executingPrepared: bool
    var prescreened: bool
    var unit: Option<Unit>
    ghost var log: seq<Entry>

    function View(): Latch
      reads this
    {
      Latch(statementId, policy, result, logOnly, inStatement, decided, prepareDecided, admitted, authorized,
            executingPrepared, prescreened, unit)
    }

    ghost predicate Valid()
      reads this
    {
      FlagsHold(View())
    }

    /** The latch moved from `before` as `e` says, and the hook ended the way `e` ends. */
    ghost predicate Did(before: seq<Entry>, e: Effect, outcome: Outcome)
      reads this
    {
      View() == e.latch && log == before + e.trace && outcome == e.outcome
    }

    constructor (inv: Inventory)
      ensures this.inv == inv && View() == CLEARED && log == [] && Valid()
    {
      this.inv := inv;
      statementId, policy, result, logOnly, inStatement := 0, DEFAULT_POLICY, UNDECIDED, false, false;
      decided, prepareDecided, admitted, authorized := false, false, false, false;
      executingPrepared, prescreened, unit, log := false, false, None, [];
    }

    method Reset()
      modifies this
      ensures View() == CLEARED && log == old(log)
    {
      statementId, policy, result, logOnly, inStatement := 0, DEFAULT_POLICY, UNDECIDED, false, false;
      decided, prepareDecided, admitted, authorized := false, false, false, false;
      executingPrepared, prescreened, unit := false, false, None;
    }

    /** Marks the statement decided, writes its record, and refuses it when it is denied and enforcing. */
    method RecordIt(engine: EngineView, boundary: Boundary, inForce: Option<Policy>) returns (outcome: Outcome)
      modifies this
      ensures Did(old(log), RecordDecision(engine, old(View()), boundary, inForce), outcome)
    {
      decided := true;
      log := log + [Record(engine.active, ModeFor(logOnly), boundary, inForce, result.allowed)];
      outcome := if !result.allowed && !logOnly then Refused else Returned;
    }

    method AuthorizeIt(engine: EngineView, auth: AuthOutcome) returns (outcome: Outcome)
      requires Valid() && admitted
      modifies this
      ensures Valid()
      ensures Did(old(log), Authorize(engine, old(View()), auth), outcome)
    {
      match auth
      case AuthRefused(found) =>
        result := Decision(false, result.violations + found);
        outcome := RecordIt(engine, AtAuthorize, Some(policy));
      case AuthFails(described) =>
        if !logOnly || !described {
          return Thrown;
        }
        result := Denied(result);
        outcome := RecordIt(engine, AtAuthorize, Some(policy));
      case AuthPasses(prov, validated) =>
        unit := Some(unit.value.(prov := prov));
        log := log + [Authorized(statementId, policy, unit.value, validated)];
        authorized := true;
        outcome := Returned;
    }

    /** Clears the latch and takes the new statement's snapshots. */
    method Open(engine: EngineView, input: Admitting)
      requires engine.active.Some?
      modifies this
      ensures View() == Opened(engine, input) && log == old(log) + [Admission(statementId, engine.policy, logOnly)]
    {
      Reset();
      inStatement := true;
      statementId := engine.active.value;
      logOnly := engine.logOnly && !input.routing.Control?;
      if engine.policy.Some? {
        policy := engine.policy.value;
      }
      log := log + [Admission(statementId, engine.policy, logOnly)];
    }

    method Begin(engine: EngineView, input: Admitting) returns (outcome: Outcome)
      requires engine.active.Some?
      modifies this
      ensures Valid()
      ensures Did(old(log), BeginStatement(engine, input), outcome)
    {
      if engine.logOnly && input.routing.Unroutable? {
        outcome := AbandonIt(engine);
      } else {
        outcome := ProceedIt(engine, input);
      }
    }

    method AbandonIt(engine: EngineView) returns (outcome: Outcome)
      requires engine.active.Some?
      modifies this
      ensures Valid()
      ensures Did(old(log), Abandon(engine), outcome)
    {
      Reset();
      inStatement, statementId := true, engine.active.value;
      log := log + [Admission(statementId, None, false)];
      outcome := Thrown;
    }

    method ProceedIt(engine: EngineView, input: Admitting) returns (outcome: Outcome)
      requires engine.active.Some?
      modifies this
      ensures Valid()
      ensures Did(old(log), Proceed(engine, input), outcome)
    {
      Open(engine, input);
      if engine.policy.None? {
        outcome := RecordIt(engine, AtBinding, None);
      } else {
        outcome := AdmitIt(engine, input);
      }
    }

    method AdmitIt(engine: EngineView, input: Admitting) returns (outcome: Outcome)
      requires Valid() && inStatement && !admitted
      modifies this
      ensures Valid()
      ensures Did(old(log), Admit(engine, old(View()), input), outcome)
    {
      if !input.remoteScope {
        result := Decision(false, {UnsupportedStatement("remote SQL pushdown")});
        outcome := RecordIt(engine, AtBinding, Some(policy));
        return;
      }
      match input.text
      case TextThrows(_) =>
        outcome := Thrown;
      case TextUnreadable =>
        outcome := RecordIt(engine, AtBinding, Some(policy));
      case TextDenied(found) =>
        result := Decision(false, found);
        outcome := RecordIt(engine, AtBinding, Some(policy));
      case TextAllowed(units) =>
        if |units| != 1 || units[0].pivotEnums != {} {
          result := Decision(false, {UnsupportedStatement("unsupported statement")});
          outcome := RecordIt(engine, AtBinding, Some(policy));
        } else {
          outcome := AdmitUnitIt(engine, units[0], input);
        }
    }

    method AdmitUnitIt(engine: EngineView, admitted_: Unit, input: Admitting) returns (outcome: Outcome)
      requires Valid() && inStatement && !admitted
      modifies this
      ensures Valid()
      ensures Did(old(log), AdmitUnit(engine, old(View()), admitted_, input), outcome)
    {
      result := Decision(true, {});
      admitted := true;
      unit := Some(admitted_);
      log := log + [TextPassed(statementId, policy, admitted_)];
      outcome := AfterTextIt(engine, admitted_.parameterized, input);
    }

    method AfterTextIt(engine: EngineView, parameterized: bool, input: Admitting) returns (outcome: Outcome)
      requires Valid() && admitted
      modifies this
      ensures Valid()
      ensures Did(old(log), AfterText(engine, old(View()), parameterized, input), outcome)
    {
      if !input.fallback {
        result := Decision(false, {UnsupportedStatement("session-variable fallback")});
        outcome := RecordIt(engine, AtBinding, Some(policy));
      } else if !parameterized {
        outcome := AuthorizeIt(engine, input.auth);
      } else {
        outcome := Returned;
      }
    }

    method MayRequestRebind(engine: EngineView, input: Admitting) returns (outcome: Outcome)
      requires Valid()
      modifies this
      ensures Valid()
      ensures Did(old(log), CanRequestRebind(engine, old(View()), input), outcome)
    {
      if inStatement && engine.active.Some? && engine.active != Some(statementId) {
        outcome := Begin(engine, input);
      } else {
        outcome := Returned;
      }
    }

    method EndQuery(engine: EngineView, error: Option<bool>) returns (outcome: Outcome)
      requires Valid()
      modifies this
      ensures Valid()
      ensures Did(old(log), QueryEnd(engine, old(View()), error), outcome)
    {
      outcome := Returned;
      if inStatement && logOnly && !decided && error == Some(true) {
        result := Denied(result);
        outcome := RecordIt(engine, AtAuthorize, Some(policy));
      }
      Reset();
    }

    method PlanningFailed(engine: EngineView, described: bool) returns (outcome: Outcome)
      requires Valid()
      modifies this
      ensures Valid()
      ensures Did(old(log), OnPlanningError(engine, old(View()), described), outcome)
    {
      outcome := Returned;
      if !inStatement {
        prepareDecided := false;
      } else if logOnly && !decided && described {
        result := Denied(result);
        outcome := RecordIt(engine, AtAuthorize, Some(policy));
      }
    }

    method PrepareFinalized() returns (outcome: Outcome)
      requires Valid()
      modifies this
      ensures Valid()
      ensures Did(old(log), OnFinalizePrepare(old(View())), outcome)
    {
      if !inStatement {
        prepareDecided := false;
      }
      outcome := Returned;
    }

    method RebindForced(engine: EngineView) returns (outcome: Outcome)
      requires Valid()
      modifies this
      ensures Valid()
      ensures Did(old(log), ForceRebind(engine, old(View())), outcome)
    {
      outcome := Returned;
      if !admitted && !decided {
        result := NOT_ADMITTED;
        outcome := RecordIt(engine, AtBinding, Some(policy));
        if outcome != Returned {
          return;
        }
      }
      executingPrepared := true;
    }

    /** The replacement scan outside a private bind: gate, policy in force, verdict on the reader, record. */
    method Replace(engine: EngineView, path: NamePath, resolution: Resolution) returns (outcome: Outcome)
      requires Valid()
      modifies this
      ensures Valid()
      ensures Did(old(log), ReplacementScan(inv, engine, old(View()), path, resolution), outcome)
    {
      var gate := ReplacementGate(engine, View());
      if gate.GateOpen? {
        return Returned;
      }
      var mode := if gate.GateLogOnly? then LogOnly else Enforce;
      var inForce := AdmittedPolicy(engine, View());
      if inForce.None? {
        inForce := engine.policy;
      }
      outcome := Consult(engine, mode, inForce, path, resolution);
    }

    method Consult(engine: EngineView, mode: Mode, inForce: Option<Policy>, path: NamePath, resolution: Resolution)
      returns (outcome: Outcome)
      requires Valid()
      modifies this
      ensures Valid()
      ensures Did(old(log), UnderPolicy(inv, engine, old(View()), mode, inForce, path, resolution), outcome)
    {
      if inForce.None? {
        outcome := GateDecides(engine, mode, None);
      } else {
        log := log + [ReaderAsked(engine.active, inForce.value)];
        outcome := Judge(engine, mode, inForce.value, path, resolution);
      }
    }

    method Judge(engine: EngineView, mode: Mode, inForce: Policy, path: NamePath,
                 resolution: Resolution) returns (outcome: Outcome)
      requires Valid()
      modifies this
      ensures Valid()
      ensures Did(old(log), JudgeReplacement(inv, engine, old(View()), mode, inForce, path, resolution), outcome)
    {
      if resolution.Unclaimed? {
        outcome := if mode.LogOnly? then Returned else Thrown;
      } else if resolution.Unsupported? || ReaderRefused(inv, inForce, AdmittedBinding(engine, View()), path,
                                                         resolution.entry) {
        outcome := GateDecides(engine, mode, Some(inForce));
      } else {
        outcome := Returned;
      }
    }

    method GateDecides(engine: EngineView, mode: Mode, inForce: Option<Policy>) returns (outcome: Outcome)
      requires Valid()
      modifies this
      ensures Valid()
      ensures Did(old(log), GateRecord(engine, old(View()), mode, inForce), outcome)
    {
      if inStatement {
        decided := true;
      } else {
        prepareDecided := true;
      }
      log := log + [Record(engine.active, mode, AtReplacement, inForce, false)];
      outcome := if mode.Enforce? then Refused else Returned;
    }

    /** The execution boundary, asking the plan check itself; the judgement it got is the one its effect is about. */
    method Bound(engine: EngineView, b: Binding) returns (outcome: Outcome, ghost j: Judgement)
      requires Valid()
      modifies this
      ensures Valid()
      ensures Faithful(PlanCheckOf(inv), engine, old(View()), b, j)
      ensures Did(old(log), PostBind(engine, old(View()), b, j), outcome)
    {
      j := Judgement(Deny, {});
      if !inStatement {
        outcome, j := PrescreenOutsideIt(engine, b);
      } else if engine.active != Some(statementId) {
        result := NOT_ADMITTED;
        outcome := RecordIt(engine, AtExecution, Some(policy));
      } else if logOnly && decided {
        outcome := Returned;
      } else {
        outcome, j := BoundInside(engine, b);
      }
    }

    method BoundInside(engine: EngineView, b: Binding) returns (outcome: Outcome, ghost j: Judgement)
      requires Valid() && Current(engine, View())
      modifies this
      ensures Valid()
      ensures Faithful(PlanCheckOf(inv), engine, old(View()), b, j)
      ensures Did(old(log), PostBindInside(engine, old(View()), b, j), outcome)
    {
      j := Judgement(Deny, {});
      if b.preparing && !executingPrepared {
        outcome, j := PrescreenInsideIt(engine, b);
      } else if Wrapper(b.plan) {
        var prepare := b.plan.node.kind.PrepareWrapper?;
        if if prepare then prescreened else decided && result.allowed {
          return Returned, j;
        }
        result := NOT_ADMITTED;
        outcome := RecordIt(engine, if prepare then AtPrepare else AtExecution, Some(policy));
      } else {
        outcome, j := DecideIt(engine, b);
      }
    }

    method PrescreenOutsideIt(engine: EngineView, b: Binding) returns (outcome: Outcome, ghost j: Judgement)
      requires Valid() && !inStatement
      modifies this
      ensures Valid()
      ensures Faithful(PlanCheckOf(inv), engine, old(View()), b, j)
      ensures Did(old(log), PrescreenOutside(engine, old(View()), b, j), outcome)
    {
      j := Judgement(Deny, {});
      var mode := ModeFor(engine.logOnly);
      if prepareDecided {
        prepareDecided := false;
        return Returned, j;
      }
      if engine.policy.None? {
        log := log + [Record(engine.active, mode, AtPrepare, None, false)];
        return OutcomeOf(mode, false), j;
      }
      var judged := JudgePlan(inv, engine.policy.value, NO_TEXT, UNATTRIBUTED, Prescreen, b.props, b.plan, {});
      j := judged;
      match judged.verdict
      case Pass =>
        log := log + [Prescreened(engine.active, engine.policy.value, b.plan, b.props)];
        outcome := Returned;
      case Deny =>
        log := log + [Record(engine.active, mode, AtPrepare, engine.policy, false)];
        outcome := OutcomeOf(mode, false);
      case Broken =>
        outcome := Thrown;
    }

    method PrescreenInsideIt(engine: EngineView, b: Binding) returns (outcome: Outcome, ghost j: Judgement)
      requires Valid() && inStatement && OnlyPrescreened(View(), b)
      modifies this
      ensures Valid()
      ensures Faithful(PlanCheckOf(inv), engine, old(View()), b, j)
      ensures Did(old(log), PrescreenInside(engine, old(View()), b, j), outcome)
    {
      j := Judgement(Deny, {});
      if !admitted {
        result := NOT_ADMITTED;
        outcome := RecordIt(engine, AtPrepare, Some(policy));
        return;
      }
      var judged := JudgePlan(inv, policy, NO_TEXT, UNATTRIBUTED, Prescreen, b.props, b.plan, result.violations);
      j := judged;
      match judged.verdict
      case Pass =>
        prescreened := true;
        log := log + [Prescreened(engine.active, policy, b.plan, b.props)];
        outcome := Returned;
      case Deny =>
        result := Decision(false, judged.left);
        outcome := RecordIt(engine, AtPrepare, Some(policy));
      case Broken =>
        outcome := Thrown;
    }

    method DecideIt(engine: EngineView, b: Binding) returns (outcome: Outcome, ghost j: Judgement)
      requires Valid() && inStatement && !OnlyPrescreened(View(), b)
      modifies this
      ensures Valid()
      ensures Faithful(PlanCheckOf(inv), engine, old(View()), b, j)
      ensures Did(old(log), DecidePlan(engine, old(View()), b, j), outcome)
    {
      j := Judgement(Deny, {});
      if !admitted {
        result := NOT_ADMITTED;
        outcome := RecordIt(engine, AtExecution, Some(policy));
        return;
      }
      if !authorized {
        outcome := AuthorizeIt(engine, b.auth);
        if !authorized {
          return;
        }
      }
      outcome, j := ConcludeIt(engine, b);
    }

    /** The plan check of an authorized statement, and its one record. */
    method ConcludeIt(engine: EngineView, b: Binding) returns (outcome: Outcome, ghost j: Judgement)
      requires Valid() && unit.Some?
      modifies this
      ensures Valid()
      ensures j.verdict.Pass? <==>
              PlanCheckOf(inv)(old(policy), old(unit).value.binding, old(unit).value.prov, PlanOrigin.Engine, b.props,
                               b.plan, old(result).violations == {})
      ensures Did(old(log), Conclude(engine, old(View()), b, j), outcome)
    {
      var judged := JudgePlan(inv, policy, unit.value.binding, unit.value.prov, PlanOrigin.Engine, b.props, b.plan,
                              result.violations);
      j := judged;
      match judged.verdict
      case Pass =>
        log := log + [PlanPassed(statementId, policy, unit.value, b.plan, b.props)];
        outcome := RecordIt(engine, AtExecution, Some(policy));
      case Deny =>
        result := Decision(false, judged.left);
        outcome := RecordIt(engine, AtExecution, Some(policy));
      case Broken =>
        outcome := Thrown;
    }
  }
}
