/** Authorizing one admitted statement: parameter fallbacks, the private bind, its plan, and the replacements in it. */
module StatementBinds {
  import opened Names
  import opened Policies
  import opened TablePolicy
  import opened Origins
  import opened Plans
  import opened PlanAuthorization
  import opened PlanCheck
  import opened Lookups
  import opened PrivateBinds
  import Trees

  // ------------------------------------------------------- parameters

  const GET_VARIABLE := Identity("system", ["main"], "getvariable", "scalar", Some(true))

  /** A parameter with no value of its own would read a session variable, which needs permission in both layers. */
  predicate FallbackRefused(inv: Inventory, layers: Layers, binding: BindingPolicy, variables: set<string>) {
    && (exists name :: name in binding.callerParameters && name in variables)
    && (!FunctionAllowed(inv, layers.ceiling, GET_VARIABLE) || !FunctionAllowed(inv, layers.policy, GET_VARIABLE))
  }

  function WithFallback(binding: BindingPolicy, variables: set<string>, e: Evidence): Evidence {
    if binding.callerParameters.Keys * variables == {} then e else WithFunction(e, GET_VARIABLE, true)
  }

  // ------------------------------------------------------- the engine's part of a bind

  /**
   * How the engine's binder ended: with an error, or with a plan, whether its parameters settled, and the replacements
   * it made.
   */
  datatype Ending = EngineFails | Bound(plan: Plan, props: Properties, settled: bool, replaced: set<string>)

  /**
   * What the engine does while Gatekeeper binds: the variables a parameter would fall back to, the collation functions
   * it finds (nothing when one is unknown), the copies, lookups and replacements of its binders, and its end.
   */
  datatype Script = Script(
    variables: set<string>, collations: Option<map<string, bool>>, events: seq<Event>, ending: Ending)

  /** An event of a bind whose root binder is number `base`. */
  predicate InBind(e: Event, base: nat) {
    match e
    case Inherit(i) => base <= i
    case Retrieve(i, _, _, _) => base <= i
    case Replace(_, _, _) => true
    case _ => false
  }

  /** The engine can have made this script from `b` on. */
  ghost predicate Playable(inv: Inventory, layers: Layers, binding: BindingPolicy, b: Bind, script: Script) {
    && (forall i :: 0 <= i < |script.events| ==> InBind(script.events[i], |b.binders|))
    && (script.collations.Some? ==> Run(inv, layers, binding, b, BindEvents(binding, b, script)).Some?)
  }

  /** A bind from its start up to its plan. */
  function BindEvents(binding: BindingPolicy, b: Bind, script: Script): seq<Event>
    requires script.collations.Some?
  {
    [Root(script.collations.value, WithFallback(binding, script.variables, b.evidence))] + script.events
  }

  /** The binds with this one's lookups added. */
  ghost function Played(inv: Inventory, layers: Layers, binding: BindingPolicy, b: Bind, script: Script): Bind
    requires script.collations.Some? && Playable(inv, layers, binding, b, script)
  {
    Run(inv, layers, binding, b, BindEvents(binding, b, script)).value
  }

  // ------------------------------------------------------- playing it on callback objects

  /** The objects of a bind in progress stand for its binders. */
  ghost predicate Mirrors(bind: PrivateBind, callbacks: seq<LookupCallback>, base: nat, b: Bind)
    reads bind, callbacks
  {
    && bind.prov == b.prov && bind.evidence == b.evidence && |b.binders| == base + |callbacks|
    && (forall i, j :: 0 <= i < j < |callbacks| ==> callbacks[i] != callbacks[j])
    && forall i :: 0 <= i < |callbacks| ==>
         callbacks[i].bind == bind && Binder(callbacks[i].trusted, callbacks[i].armed) == b.binders[base + i]
  }

  method PlayInherit(bind: PrivateBind, callbacks: seq<LookupCallback>, base: nat, source: nat, ghost b: Bind)
    returns (more: seq<LookupCallback>)
    requires Mirrors(bind, callbacks, base, b) && base <= source < base + |callbacks|
    modifies callbacks[source - base]
    ensures Mirrors(bind, more, base, Inherited(b, source))
    ensures |more| == |callbacks| + 1 && fresh(more[|callbacks|])
    ensures forall i :: 0 <= i < |callbacks| ==> more[i] == callbacks[i]
  {
    var child := new LookupCallback.Copy(callbacks[source - base]);
    more := callbacks + [child];
  }

  method PlayRetrieve(bind: PrivateBind, callbacks: seq<LookupCallback>, base: nat, e: Event, ghost b: Bind)
    returns (verdict: Verdict)
    requires Mirrors(bind, callbacks, base, b) && e.Retrieve? && base <= e.binder < base + |callbacks|
    modifies callbacks[e.binder - base], bind
    ensures var after := Retrieved(bind.inv, bind.layers, bind.binding, b, e.binder, e.entry, e.catalog, e.targets);
            Mirrors(bind, callbacks, base, after) && verdict == after.verdict
  {
    verdict := callbacks[e.binder - base].Lookup(e.entry, e.catalog, e.targets);
  }

  method PlayReplace(bind: PrivateBind, callbacks: seq<LookupCallback>, base: nat, e: Event, admitted: set<string>,
                     ghost b: Bind)
    returns (verdict: Verdict, more: set<string>)
    requires Mirrors(bind, callbacks, base, b) && e.Replace? && admitted == b.admitted
    modifies bind`prov, bind`evidence
    ensures var after := Replaced(bind.inv, bind.layers, bind.binding, b, e.path, e.table, e.resolution);
            Mirrors(bind, callbacks, base, after) && verdict == after.verdict && more == after.admitted
  {
    var s := Substitute(bind.inv, bind.layers, bind.binding, e.path, e.resolution, bind.prov, bind.evidence);
    verdict, bind.prov, bind.evidence := s.verdict, s.prov, s.evidence;
    more := if verdict.Pass? then admitted + {Lower(e.table)} else admitted;
  }

  method PlayEvent(bind: PrivateBind, callbacks: seq<LookupCallback>, base: nat, e: Event, admitted: set<string>,
                   ghost b: Bind)
    returns (verdict: Verdict, callbacks': seq<LookupCallback>, admitted': set<string>)
    requires Mirrors(bind, callbacks, base, b) && admitted == b.admitted
    requires InBind(e, base) && PrivateBinds.Possible(bind.binding, b, e)
    modifies bind, callbacks
    ensures var after := PrivateBinds.Step(bind.inv, bind.layers, bind.binding, b, e);
            Mirrors(bind, callbacks', base, after) && verdict == after.verdict && admitted' == after.admitted
    ensures |callbacks| <= |callbacks'| && forall i :: 0 <= i < |callbacks| ==> callbacks'[i] == callbacks[i]
    ensures forall i :: |callbacks| <= i < |callbacks'| ==> fresh(callbacks'[i])
  {
    verdict, callbacks', admitted' := Pass, callbacks, admitted;
    if e.Inherit? {
      callbacks' := PlayInherit(bind, callbacks, base, e.source, b);
    } else if e.Retrieve? {
      verdict := PlayRetrieve(bind, callbacks, base, e, b);
    } else {
      verdict, admitted' := PlayReplace(bind, callbacks, base, e, admitted, b);
    }
  }

  /** Runs the lookups of one bind, each on the callback of the binder that makes it. */
  method PlayEvents(bind: PrivateBind, root: LookupCallback, base: nat, events: seq<Event>, ghost b: Bind)
    returns (verdict: Verdict, admitted: set<string>)
    requires Mirrors(bind, [root], base, b) && b.verdict.Pass? && b.admitted == {}
    requires forall i :: 0 <= i < |events| ==> InBind(events[i], base)
    requires Run(bind.inv, bind.layers, bind.binding, b, events).Some?
    modifies bind, root
    ensures var after := Run(bind.inv, bind.layers, bind.binding, b, events).value;
            && bind.prov == after.prov && bind.evidence == after.evidence
            && verdict == after.verdict && admitted == after.admitted
  {
    var callbacks := [root];
    verdict, admitted := Pass, {};
    ghost var now := b;
    for n := 0 to |events|
      invariant Reached(bind.inv, bind.layers, bind.binding, b, events, n, now)
      invariant Mirrors(bind, callbacks, base, now) && verdict == now.verdict && admitted == now.admitted
      invariant callbacks != [] && callbacks[0] == root && forall i :: 1 <= i < |callbacks| ==> fresh(callbacks[i])
    {
      ReachedNext(bind.inv, bind.layers, bind.binding, b, events, n, now);
      ghost var before := now;
      now := PrivateBinds.Step(bind.inv, bind.layers, bind.binding, before, events[n]);
      verdict, callbacks, admitted := PlayEvent(bind, callbacks, base, events[n], admitted, before);
    }
    assert events[..|events|] == events;
  }

  /** A bind from its root binder to its last lookup. */
  method PlayLookups(inv: Inventory, layers: Layers, binding: BindingPolicy, prov: Provenance, noted: Evidence,
                     collations: map<string, bool>, events: seq<Event>, base: nat, ghost b: Bind)
    returns (g: Progress, admitted: set<string>)
    requires b.prov == prov && |b.binders| == base
    requires forall i :: 0 <= i < |events| ==> InBind(events[i], base)
    requires Run(inv, layers, binding, b, [Root(collations, noted)] + events).Some?
    ensures var after := Run(inv, layers, binding, b, [Root(collations, noted)] + events).value;
            g == Progress(after.verdict, after.prov, after.evidence) && admitted == after.admitted
  {
    var bind := new PrivateBind(inv, layers, binding, WithCollations(prov, collations), noted);
    var root := new LookupCallback(bind);
    RootFirst(inv, layers, binding, b, collations, noted, events);
    var verdict;
    verdict, admitted := PlayEvents(bind, root, base, events, RootedAt(b, collations, noted));
    g := Progress(verdict, bind.prov, bind.evidence);
  }

  /** The first `n` events lead to `now`, and all of them are possible. */
  ghost predicate Reached(inv: Inventory, layers: Layers, binding: BindingPolicy, start: Bind, events: seq<Event>,
                          n: nat, now: Bind)
  {
    && n <= |events| && Run(inv, layers, binding, start, events).Some?
    && Run(inv, layers, binding, start, events[..n]) == Some(now)
  }

  lemma ReachedNext(inv: Inventory, layers: Layers, binding: BindingPolicy, start: Bind, events: seq<Event>, n: nat,
                    now: Bind)
    requires Reached(inv, layers, binding, start, events, n, now) && n < |events|
    ensures PrivateBinds.Possible(binding, now, events[n])
    ensures Reached(inv, layers, binding, start, events, n + 1,
                    PrivateBinds.Step(inv, layers, binding, now, events[n]))
  {
    RunNext(inv, layers, binding, start, events, n, now);
  }

  /** A bind is its root, and then its events. */
  lemma RootFirst(inv: Inventory, layers: Layers, binding: BindingPolicy, b: Bind, collations: map<string, bool>,
                  noted: Evidence, events: seq<Event>)
    requires Run(inv, layers, binding, b, [Root(collations, noted)] + events).Some?
    ensures Run(inv, layers, binding, b, [Root(collations, noted)] + events)
         == Run(inv, layers, binding, RootedAt(b, collations, noted), events)
  {
    var all := [Root(collations, noted)] + events;
    assert all[..0] == [] && all[0] == Root(collations, noted) && all[..1] == [Root(collations, noted)];
    RunNext(inv, layers, binding, b, all, 0, b);
    RunAppend(inv, layers, binding, b, [Root(collations, noted)], events);
  }

  lemma {:induction false} RunPrefix(inv: Inventory, layers: Layers, binding: BindingPolicy, start: Bind,
                                     events: seq<Event>, n: nat)
    requires Run(inv, layers, binding, start, events).Some? && n <= |events|
    ensures Run(inv, layers, binding, start, events[..n]).Some?
    decreases |events|
  {
    if n < |events| {
      var init := events[..|events| - 1];
      assert init[..n] == events[..n];
      RunPrefix(inv, layers, binding, start, init, n);
    } else {
      assert events[..n] == events;
    }
  }

  lemma RunNext(inv: Inventory, layers: Layers, binding: BindingPolicy, start: Bind, events: seq<Event>, n: nat,
                b: Bind)
    requires Run(inv, layers, binding, start, events).Some? && n < |events|
    requires Run(inv, layers, binding, start, events[..n]) == Some(b)
    ensures PrivateBinds.Possible(binding, b, events[n])
    ensures Run(inv, layers, binding, start, events[..n + 1])
         == Some(PrivateBinds.Step(inv, layers, binding, b, events[n]))
  {
    RunPrefix(inv, layers, binding, start, events, n + 1);
    assert events[..n + 1][..n] == events[..n];
  }

  // ------------------------------------------------------- authorizing a statement

  /** The whole private authorization of one statement passes: nothing along the way is refused or fails. */
  ghost predicate StatementPasses(inv: Inventory, layers: Layers, binding: BindingPolicy, b: Bind, script: Script)
    requires Playable(inv, layers, binding, b, script)
  {
    && !FallbackRefused(inv, layers, binding, script.variables) && script.collations.Some?
    && var played := Played(inv, layers, binding, b, script);
       && played.verdict.Pass? && script.ending.Bound? && script.ending.settled
       && played.evidence.violations == {}
       && PlanAccepted(inv, layers, binding, played.prov, Private, script.ending.props, script.ending.plan, true)
       && AllAdmitted(played.admitted, script.ending.replaced)
  }

  predicate AllAdmitted(admitted: set<string>, replaced: set<string>) {
    forall path :: path in replaced ==> Lower(path) in admitted
  }

  /** It ends in an engine error instead, with nothing refused before. */
  ghost predicate StatementBreaks(inv: Inventory, layers: Layers, binding: BindingPolicy, b: Bind, script: Script)
    requires Playable(inv, layers, binding, b, script)
  {
    && !FallbackRefused(inv, layers, binding, script.variables)
    && (script.collations.Some? ==>
          var played := Played(inv, layers, binding, b, script);
          played.verdict.Broken? || (played.verdict.Pass? && EndBreaks(inv, layers, binding, played, script.ending)))
  }

  /** A bind whose lookups all passed ends in an error: the binder's, an unsettled parameter, or the plan walk's. */
  ghost predicate EndBreaks(inv: Inventory, layers: Layers, binding: BindingPolicy, played: Bind, ending: Ending) {
    ending.Bound? && ending.settled ==>
      PlanBreaks(inv, layers, binding, played.prov, Private, ending.props, ending.plan,
                 played.evidence.violations == {})
  }

  /** The binds once a statement passed: its lookups, then the tallies and the evidence of its plan. */
  ghost function Left(inv: Inventory, layers: Layers, binding: BindingPolicy, b: Bind, script: Script): Bind
    requires Playable(inv, layers, binding, b, script) && script.collations.Some? && script.ending.Bound?
  {
    Checked(binding, Played(inv, layers, binding, b, script), script.ending.plan)
  }

  ghost function Checked(binding: BindingPolicy, played: Bind, plan: Plan): Bind {
    Stored(played, TallyOf(plan).tables, TallyOf(plan).sources,
           PlanEvidence(binding, played.prov, Private, plan, played.evidence))
  }

  /** Binds one statement privately and checks its plan: check.cpp's AuthorizeStatement. */
  method AuthorizeStatement(inv: Inventory, layers: Layers, binding: BindingPolicy, prov: Provenance,
                            evidence: Evidence, script: Script, base: nat, ghost b: Bind)
    returns (g: Progress)
    requires b.prov == prov && b.evidence == evidence && |b.binders| == base
    requires Playable(inv, layers, binding, b, script)
    ensures g.verdict.Pass? <==> StatementPasses(inv, layers, binding, b, script)
    ensures g.verdict.Broken? <==> StatementBreaks(inv, layers, binding, b, script)
    ensures g.verdict.Pass? ==>
            var after := Left(inv, layers, binding, b, script); g.prov == after.prov && g.evidence == after.evidence
    ensures g.verdict.Deny? ==> g.evidence.violations != {}
  {
    if FallbackRefused(inv, layers, binding, script.variables) {
      g := Progress(Deny, prov,
                    evidence.(violations := evidence.violations + {FunctionNotAllowed(GET_VARIABLE.Key())}));
      return;
    }
    if script.collations.None? {
      g := Progress(Broken, prov, evidence);
      return;
    }
    var admitted;
    g, admitted := PlayLookups(inv, layers, binding, prov, WithFallback(binding, script.variables, evidence),
                               script.collations.value, script.events, base, b);
    if !g.verdict.Pass? {
      RefusalLeavesViolation(inv, layers, binding, b, BindEvents(binding, b, script));
      return;
    }
    g := EndBind(inv, layers, binding, g, script.ending, admitted, Played(inv, layers, binding, b, script));
  }

  /** The end of a bind: the binder's own error, parameters that did not settle, or the plan's check. */
  method EndBind(inv: Inventory, layers: Layers, binding: BindingPolicy, before: Progress, ending: Ending,
                 admitted: set<string>, ghost played: Bind)
    returns (g: Progress)
    requires before.verdict.Pass? && before.prov == played.prov && before.evidence == played.evidence
    ensures g.verdict.Pass? <==>
            && ending.Bound? && ending.settled && before.evidence.violations == {}
            && PlanAccepted(inv, layers, binding, before.prov, Private, ending.props, ending.plan, true)
            && AllAdmitted(admitted, ending.replaced)
    ensures g.verdict.Broken? <==> EndBreaks(inv, layers, binding, played, ending)
    ensures g.verdict.Pass? ==>
            g.prov == Checked(binding, played, ending.plan).prov
            && g.evidence == Checked(binding, played, ending.plan).evidence
    ensures g.verdict.Deny? ==> g.evidence.violations != {}
  {
    if !ending.Bound? || !ending.settled {
      return before.(verdict := Broken);
    }
    g := CheckBound(inv, layers, binding, before, ending, admitted);
  }

  /** The plan check and the backstop that every replacement was admitted. */
  method CheckBound(inv: Inventory, layers: Layers, binding: BindingPolicy, before: Progress, ending: Ending,
                    admitted: set<string>)
    returns (g: Progress)
    requires ending.Bound? && before.verdict.Pass?
    ensures g.verdict.Pass? <==>
            && before.evidence.violations == {} && AllAdmitted(admitted, ending.replaced)
            && PlanAccepted(inv, layers, binding, before.prov, Private, ending.props, ending.plan, true)
    ensures g.verdict.Broken? <==>
            PlanBreaks(inv, layers, binding, before.prov, Private, ending.props, ending.plan,
                       before.evidence.violations == {})
    ensures g.verdict.Pass? ==>
            && g.prov == before.prov.(validatedScans := TallyOf(ending.plan).tables,
                                      validatedFunctionScans := TallyOf(ending.plan).sources)
            && g.evidence == PlanEvidence(binding, before.prov, Private, ending.plan, before.evidence)
    ensures g.verdict.Deny? ==> g.evidence.violations != {}
  {
    var verdict, prov, evidence :=
      CheckPlan(inv, layers, binding, before.prov, Private, ending.props, ending.plan, before.evidence);
    g := Progress(verdict, prov, evidence);
    if verdict.Pass? && !AllAdmitted(admitted, ending.replaced) {
      g := g.Refuse(UnsupportedStatement("replacement scan was not authorized"));
    }
    if g.verdict.Pass? && evidence.violations != {} {
      g := g.(verdict := Deny);
    }
  }

  // ------------------------------------------------------- authorizing a unit

  /** What the private bind came to: passed with a provenance and a validated plan, refused, or an engine error. */
  datatype AuthOutcome =
    | AuthPasses(prov: Provenance, validated: Plan)
    | AuthRefused(found: set<Violation>)
    | AuthFails(described: bool)

  /** The engine can have made these scripts: a dynamic PIVOT's second one continues what the first left. */
  ghost predicate UnitPlayable(inv: Inventory, layers: Layers, binding: BindingPolicy, b: Bind, small: Script,
                               large: Option<Script>)
  {
    && Playable(inv, layers, binding, b, small)
    && (large.Some? && StatementPasses(inv, layers, binding, b, small) ==>
          Playable(inv, layers, binding, Left(inv, layers, binding, b, small), large.value))
  }

  /** Every shape of the unit passes, the second over what the first left. */
  ghost predicate UnitPasses(inv: Inventory, layers: Layers, binding: BindingPolicy, b: Bind, small: Script,
                             large: Option<Script>)
    requires UnitPlayable(inv, layers, binding, b, small, large)
  {
    && StatementPasses(inv, layers, binding, b, small)
    && (large.Some? ==> StatementPasses(inv, layers, binding, Left(inv, layers, binding, b, small), large.value))
  }

  ghost predicate UnitBreaks(inv: Inventory, layers: Layers, binding: BindingPolicy, b: Bind, small: Script,
                             large: Option<Script>)
    requires UnitPlayable(inv, layers, binding, b, small, large)
  {
    || StatementBreaks(inv, layers, binding, b, small)
    || (&& large.Some? && StatementPasses(inv, layers, binding, b, small)
        && StatementBreaks(inv, layers, binding, Left(inv, layers, binding, b, small), large.value))
  }

  /** The binds once every shape passed. */
  ghost function UnitLeft(inv: Inventory, layers: Layers, binding: BindingPolicy, b: Bind, small: Script,
                          large: Option<Script>): Bind
    requires UnitPlayable(inv, layers, binding, b, small, large) && UnitPasses(inv, layers, binding, b, small, large)
  {
    var first := Left(inv, layers, binding, b, small);
    if large.None? then first else Left(inv, layers, binding, first, large.value)
  }

  /** The script bound last: its plan is the one whose scans are on record. */
  function LastOf(small: Script, large: Option<Script>): Script {
    if large.None? then small else large.value
  }

  /** How an authorization must end, by whether its binds pass or break and what the last of them left. */
  predicate AuthDecided(remoteScope: bool, passes: bool, breaks: bool, left: Provenance, last: Script, described: bool,
                        r: AuthOutcome)
  {
    && (r.AuthPasses? <==> remoteScope && passes)
    && (r.AuthPasses? ==> last.ending.Bound? && r == AuthPasses(left, last.ending.plan))
    && (r.AuthFails? <==> remoteScope && !passes && breaks) && (r.AuthFails? ==> r.described == described)
    && (r.AuthRefused? ==> r.found != {})
  }

  ghost predicate Authorizes(inv: Inventory, layers: Layers, binding: BindingPolicy, b: Bind, remoteScope: bool,
                             small: Script, large: Option<Script>, described: bool, r: AuthOutcome)
    requires UnitPlayable(inv, layers, binding, b, small, large)
  {
    var passes := UnitPasses(inv, layers, binding, b, small, large);
    AuthDecided(remoteScope, passes, UnitBreaks(inv, layers, binding, b, small, large),
                if passes then UnitLeft(inv, layers, binding, b, small, large).prov else NO_PROVENANCE,
                LastOf(small, large), described, r)
  }

  /**
   * Authorizes an admitted unit from scratch: the remote scope, then its bind, or the binds of both shapes of a dynamic
   * PIVOT over one provenance.
   */
  method AuthorizeUnit(inv: Inventory, layers: Layers, binding: BindingPolicy, evidence: Evidence, remoteScope: bool,
                       small: Script, large: Option<Script>, described: bool)
    returns (r: AuthOutcome)
    requires UnitPlayable(inv, layers, binding, Start(NO_PROVENANCE, evidence), small, large)
    ensures Authorizes(inv, layers, binding, Start(NO_PROVENANCE, evidence), remoteScope, small, large, described, r)
  {
    if !remoteScope {
      return AuthRefused(evidence.violations + {UnsupportedStatement("remote SQL pushdown")});
    }
    ghost var start := Start(NO_PROVENANCE, evidence);
    var g := AuthorizeStatement(inv, layers, binding, NO_PROVENANCE, evidence, small, 0, start);
    if g.verdict.Pass? && large.Some? {
      CopiesCount(inv, layers, binding, start, small);
      g := AuthorizeStatement(inv, layers, binding, g.prov, g.evidence, large.value, 1 + Copies(small.events),
                              Left(inv, layers, binding, start, small));
    }
    match g.verdict
    case Pass => r := AuthPasses(g.prov, LastOf(small, large).ending.plan);
    case Deny => r := AuthRefused(g.evidence.violations);
    case Broken => r := AuthFails(described);
  }

  /** How many binders a script creates besides its root. */
  function Copies(events: seq<Event>): nat {
    if events == [] then 0
    else Copies(events[..|events| - 1]) + if events[|events| - 1].Inherit? then 1 else 0
  }

  lemma {:induction false} CopiesOf(inv: Inventory, layers: Layers, binding: BindingPolicy, b: Bind, events: seq<Event>,
                                    base: nat)
    requires Run(inv, layers, binding, b, events).Some?
    requires forall i :: 0 <= i < |events| ==> InBind(events[i], base)
    ensures |Run(inv, layers, binding, b, events).value.binders| == |b.binders| + Copies(events)
  {
    if events != [] {
      CopiesOf(inv, layers, binding, b, events[..|events| - 1], base);
    }
  }

  lemma CopiesCount(inv: Inventory, layers: Layers, binding: BindingPolicy, b: Bind, script: Script)
    requires Playable(inv, layers, binding, b, script) && script.collations.Some?
    ensures |Played(inv, layers, binding, b, script).binders| == |b.binders| + 1 + Copies(script.events)
  {
    var root := Root(script.collations.value, WithFallback(binding, script.variables, b.evidence));
    RootFirst(inv, layers, binding, b, root.collations, root.noted, script.events);
    CopiesOf(inv, layers, binding, RootedAt(b, root.collations, root.noted), script.events, |b.binders|);
  }

  // ------------------------------------------------------- what a unit that passed vouches for

  /** Where a provenance comes from: the evidence on record, and what the engine did in each bind. */
  datatype Vetting = Vetting(evidence: Evidence, small: Script, large: Option<Script>)

  /** Starting from nothing, these binds passed, ended with this provenance, and validated this plan. */
  ghost predicate VettedBy(inv: Inventory, layers: Layers, binding: BindingPolicy, prov: Provenance, validated: Plan,
                           v: Vetting)
  {
    var start := Start(NO_PROVENANCE, v.evidence);
    && UnitPlayable(inv, layers, binding, start, v.small, v.large)
    && UnitPasses(inv, layers, binding, start, v.small, v.large)
    && UnitLeft(inv, layers, binding, start, v.small, v.large).prov == prov
    && LastOf(v.small, v.large).ending.plan == validated
  }

  /** Private binds that refused nothing learned `prov`, and the last of them validated `validated`. */
  ghost predicate Vetted(inv: Inventory, layers: Layers, binding: BindingPolicy, prov: Provenance, validated: Plan) {
    exists v :: VettedBy(inv, layers, binding, prov, validated, v)
  }

  lemma PassedIsVetted(inv: Inventory, layers: Layers, binding: BindingPolicy, evidence: Evidence, remoteScope: bool,
                       small: Script, large: Option<Script>, described: bool, r: AuthOutcome)
    requires UnitPlayable(inv, layers, binding, Start(NO_PROVENANCE, evidence), small, large)
    requires Authorizes(inv, layers, binding, Start(NO_PROVENANCE, evidence), remoteScope, small, large, described, r)
    ensures r.AuthPasses? ==> Vetted(inv, layers, binding, r.prov, r.validated)
  {
    if r.AuthPasses? {
      assert VettedBy(inv, layers, binding, r.prov, r.validated, Vetting(evidence, small, large));
    }
  }

  /** What one bind that passed says of the provenance it leaves. */
  lemma LeftIsTallied(inv: Inventory, layers: Layers, binding: BindingPolicy, b: Bind, script: Script)
    requires Playable(inv, layers, binding, b, script) && StatementPasses(inv, layers, binding, b, script)
    ensures var before := Played(inv, layers, binding, b, script).prov;
            var after := Left(inv, layers, binding, b, script).prov;
            && after == before.(validatedScans := after.validatedScans,
                                validatedFunctionScans := after.validatedFunctionScans)
            && PlanAccepted(inv, layers, binding, before, Private, script.ending.props, script.ending.plan, true)
            && Tallies(after.validatedScans, TableScans(script.ending.plan))
            && Tallies(after.validatedFunctionScans, SourceScans(script.ending.plan))
  {
    PrivateBooks(script.ending.plan);
  }

  /** The scans on record in a vetted provenance are those of the validated plan. */
  lemma VettedIsTallied(inv: Inventory, layers: Layers, binding: BindingPolicy, prov: Provenance, validated: Plan,
                        v: Vetting)
    returns (before: Provenance)
    requires VettedBy(inv, layers, binding, prov, validated, v)
    ensures prov == before.(validatedScans := prov.validatedScans,
                            validatedFunctionScans := prov.validatedFunctionScans)
    ensures PlanAccepted(inv, layers, binding, before, Private, LastOf(v.small, v.large).ending.props, validated, true)
    ensures Tallies(prov.validatedScans, TableScans(validated))
    ensures Tallies(prov.validatedFunctionScans, SourceScans(validated))
  {
    var start := Start(NO_PROVENANCE, v.evidence);
    var b := if v.large.None? then start else Left(inv, layers, binding, start, v.small);
    LeftIsTallied(inv, layers, binding, b, LastOf(v.small, v.large));
    before := Played(inv, layers, binding, b, LastOf(v.small, v.large)).prov;
  }

  // ------------------------------------------------------- no lookup behind it was refused

  ghost predicate AllPassed(h: seq<Happening>) {
    forall i :: 0 <= i < |h| && h[i].Looked? ==> h[i].passed
  }

  lemma {:induction false} LookupsPassed(inv: Inventory, layers: Layers, binding: BindingPolicy, b: Bind,
                                         events: seq<Event>, base: nat)
    requires AllPassed(b.history) && Run(inv, layers, binding, b, events).Some?
    requires forall i :: 0 <= i < |events| ==> InBind(events[i], base)
    requires Run(inv, layers, binding, b, events).value.verdict.Pass?
    ensures AllPassed(Run(inv, layers, binding, b, events).value.history)
  {
    if events != [] {
      var init, last := events[..|events| - 1], events[|events| - 1];
      var before := Run(inv, layers, binding, b, init).value;
      assert InBind(last, base) && before.verdict.Pass?;
      LookupsPassed(inv, layers, binding, b, init, base);
    }
  }

  lemma PlayedPassed(inv: Inventory, layers: Layers, binding: BindingPolicy, b: Bind, script: Script)
    requires Playable(inv, layers, binding, b, script) && StatementPasses(inv, layers, binding, b, script)
    requires AllPassed(b.history)
    ensures AllPassed(Left(inv, layers, binding, b, script).history)
  {
    var root := Root(script.collations.value, WithFallback(binding, script.variables, b.evidence));
    RootFirst(inv, layers, binding, b, root.collations, root.noted, script.events);
    LookupsPassed(inv, layers, binding, RootedAt(b, root.collations, root.noted), script.events, |b.binders|);
  }

  /** The happenings of the binds behind a provenance. */
  ghost function HistoryOf(inv: Inventory, layers: Layers, binding: BindingPolicy, v: Vetting): seq<Happening>
    requires UnitPlayable(inv, layers, binding, Start(NO_PROVENANCE, v.evidence), v.small, v.large)
    requires UnitPasses(inv, layers, binding, Start(NO_PROVENANCE, v.evidence), v.small, v.large)
  {
    UnitLeft(inv, layers, binding, Start(NO_PROVENANCE, v.evidence), v.small, v.large).history
  }

  /** Behind a vetted provenance there is no lookup that was refused or failed, in any of its binds. */
  lemma VettedLookupsPassed(inv: Inventory, layers: Layers, binding: BindingPolicy, prov: Provenance, validated: Plan,
                            v: Vetting)
    requires VettedBy(inv, layers, binding, prov, validated, v)
    ensures AllPassed(HistoryOf(inv, layers, binding, v))
  {
    var start := Start(NO_PROVENANCE, v.evidence);
    PlayedPassed(inv, layers, binding, start, v.small);
    if v.large.Some? {
      PlayedPassed(inv, layers, binding, Left(inv, layers, binding, start, v.small), v.large.value);
    }
  }

  // ------------------------------------------------------- what vetting means for tables

  /** A bind that passed, as events. */
  function EventsOf(binding: BindingPolicy, b: Bind, script: Script, after: Bind): seq<Event>
    requires script.collations.Some?
  {
    BindEvents(binding, b, script)
    + [Store(after.prov.validatedScans, after.prov.validatedFunctionScans, after.evidence)]
  }

  lemma LeftIsRun(inv: Inventory, layers: Layers, binding: BindingPolicy, b: Bind, script: Script)
    requires Playable(inv, layers, binding, b, script) && StatementPasses(inv, layers, binding, b, script)
    ensures var after := Left(inv, layers, binding, b, script);
            Run(inv, layers, binding, b, EventsOf(binding, b, script, after)) == Some(after)
  {
    var after := Left(inv, layers, binding, b, script);
    RunStores(inv, layers, binding, b, BindEvents(binding, b, script), Played(inv, layers, binding, b, script),
              after.prov.validatedScans, after.prov.validatedFunctionScans, after.evidence);
  }

  lemma RunStores(inv: Inventory, layers: Layers, binding: BindingPolicy, b: Bind, events: seq<Event>, played: Bind,
                  tables: map<Table, nat>, sources: map<string, nat>, evidence: Evidence)
    requires Run(inv, layers, binding, b, events) == Some(played) && played.verdict.Pass?
    ensures Run(inv, layers, binding, b, events + [Store(tables, sources, evidence)])
         == Some(Stored(played, tables, sources, evidence))
  {
    var all := events + [Store(tables, sources, evidence)];
    assert all[..|all| - 1] == events;
  }

  /** The events of all binds behind a vetted provenance. */
  lemma VettedIsRun(inv: Inventory, layers: Layers, binding: BindingPolicy, prov: Provenance, validated: Plan,
                    v: Vetting)
    returns (events: seq<Event>)
    requires VettedBy(inv, layers, binding, prov, validated, v)
    ensures var start := Start(NO_PROVENANCE, v.evidence);
            Run(inv, layers, binding, start, events)
            == Some(UnitLeft(inv, layers, binding, start, v.small, v.large))
  {
    var start := Start(NO_PROVENANCE, v.evidence);
    var first := Left(inv, layers, binding, start, v.small);
    LeftIsRun(inv, layers, binding, start, v.small);
    events := EventsOf(binding, start, v.small, first);
    if v.large.Some? {
      var second := Left(inv, layers, binding, first, v.large.value);
      LeftIsRun(inv, layers, binding, first, v.large.value);
      RunAppend(inv, layers, binding, start, events, EventsOf(binding, first, v.large.value, second));
      events := events + EventsOf(binding, first, v.large.value, second);
    }
  }

  /**
   * Every table of a plan accepted against a vetted provenance is allowed by both layers, unless a trusted definition
   * was the only one to reach it: nothing the caller's text names, no lookup attributed to the caller, and nothing the
   * binds never looked up escapes table policy. So was every entry of it that a lookup attributed to the caller.
   */
  lemma VettedTablesAreAllowed(inv: Inventory, layers: Layers, binding: BindingPolicy, prov: Provenance,
                               validated: Plan, v: Vetting, props: Properties, plan: Plan, node: OpNode, t: TableEntry)
    requires VettedBy(inv, layers, binding, prov, validated, v)
    requires PlanAccepted(inv, layers, binding, prov, PlanOrigin.Engine, props, plan, true)
    requires node in Trees.Nodes(plan) && TableOf(node) == [t]
    requires Callers(binding, HistoryOf(inv, layers, binding, v), EntryKey(t))
    ensures TableAllowed(layers.ceiling, t.catalog, t.schemaPath, t.name, t.internal)
    ensures TableAllowed(layers.policy, t.catalog, t.schemaPath, t.name, t.internal)
    ensures var h := HistoryOf(inv, layers, binding, v);
            forall i :: 0 <= i < |h| && Sighting(h[i], EntryKey(t), true) ==> Allowed(layers, h[i].entry)
  {
    var events := VettedIsRun(inv, layers, binding, prov, validated, v);
    VettedLookupsPassed(inv, layers, binding, prov, validated, v);
    CallerTablesPassBothLayers(inv, layers, binding, Start(NO_PROVENANCE, v.evidence), events, PlanOrigin.Engine, props,
                               plan, true, node, t);
  }
}
