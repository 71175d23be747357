/** Private binds: catalog-lookup callbacks, trust handed on by copying, and what a chain of binds learns. */
module PrivateBinds {
  import opened Names
  import opened Policies
  import opened TablePolicy
  import opened Origins
  import opened Plans
  import opened PlanAuthorization
  import opened PlanCheck
  import opened Lookups
  import Trees

  // ------------------------------------------------------- the callback object

  /** What every callback of one private bind shares. */
  class PrivateBind {
    const inv: Inventory
    const layers: Layers
    const binding: BindingPolicy
    var prov: Provenance
    var evidence: Evidence

    constructor (inv: Inventory, layers: Layers, binding: BindingPolicy, prov: Provenance, evidence: Evidence)
      ensures this.inv == inv && this.layers == layers && this.binding == binding
      ensures this.prov == prov && this.evidence == evidence
    {
      this.inv, this.layers, this.binding, this.prov, this.evidence := inv, layers, binding, prov, evidence;
    }
  }

  /** One binder's callback. */
  class LookupCallback {
    const bind: PrivateBind
    const trusted: bool
    var armed: bool

    constructor (bind: PrivateBind)
      ensures this.bind == bind && !trusted && !armed
    {
      this.bind, trusted, armed := bind, false, false;
    }

    /** DuckDB copies a binder's callback into each child binder; the copy consumes the source's arming. */
    constructor Copy(other: LookupCallback)
      modifies other`armed
      ensures bind == other.bind && !armed && !other.armed
      ensures trusted == (other.trusted || old(other.armed))
    {
      bind, trusted, armed := other.bind, other.trusted || other.armed, false;
      new;
      other.armed := false;
    }

    /** What the callback does with an entry: decide, learn, record, and arm itself for a trusted body. */
    method Lookup(entry: CatalogEntry, catalog: SystemCatalog, targets: seq<string>) returns (verdict: Verdict)
      modifies this`armed, bind`prov, bind`evidence
      ensures var g := Look(bind.inv, bind.layers, bind.binding, trusted, entry, catalog, targets, old(bind.prov),
                            old(bind.evidence));
              var attributed := LookupIsCallers(bind.binding, old(bind.prov), trusted, entry);
              && verdict == g.verdict && bind.prov == g.prov && bind.evidence == g.evidence
              && armed == (old(armed) || (verdict.Pass? && Arms(trusted, attributed, entry)))
    {
      var attributable := LookupIsCallers(bind.binding, bind.prov, trusted, entry);
      var g := Progress(Pass, bind.prov, bind.evidence);
      if entry.Object() {
        g := LookObject(bind.layers, attributable, entry, g);
      } else if entry.Function() {
        g := LookKnown(bind.inv, bind.layers, bind.binding, attributable, entry, catalog, targets, g);
        if g.verdict.Pass? {
          g := LearnMacro(bind.inv, bind.layers, trusted, attributable, entry, catalog, targets, g);
        }
      }
      verdict, bind.prov, bind.evidence := g.verdict, g.prov, g.evidence;
      if verdict.Pass? && Arms(trusted, attributable, entry) {
        armed := true;
      }
    }
  }

  // ------------------------------------------------------- the binds of one statement

  datatype Binder = Binder(trusted: bool, armed: bool)

  /**
   * What happened, in order: a bind began with its root binder, a callback was copied into a new binder, an entry was
   * retrieved and attributed, or something that touches neither binders nor objects.
   */
  datatype Happening =
    | Rooted(child: nat)
    | Copied(source: nat, child: nat)
    | Looked(binder: nat, entry: CatalogEntry, trusted: bool, attributed: bool, arms: bool, passed: bool)
    | Aside

  /** The binds so far: what they learned, their binders, how the last lookup ended, the replacements admitted. */
  datatype Bind = Bind(
    prov: Provenance, evidence: Evidence, binders: seq<Binder>, verdict: Verdict, history: seq<Happening>,
    admitted: set<string>)

  /**
   * One step of a statement's private binds. `Root` starts a bind with the collation functions its text chooses and
   * what its parameters put on record; `Store` is the private plan check at a bind's end. A dynamic PIVOT is bound
   * twice over one provenance.
   */
  datatype Event =
    | Root(collations: map<string, bool>, noted: Evidence)
    | Inherit(source: nat)
    | Retrieve(binder: nat, entry: CatalogEntry, catalog: SystemCatalog, targets: seq<string>)
    | Replace(path: NamePath, table: string, resolution: Resolution)
    | Store(tables: map<Table, nat>, sources: map<string, nat>, evidence: Evidence)

  function Start(prov: Provenance, evidence: Evidence): Bind {
    Bind(prov, evidence, [], Pass, [], {})
  }

  function CollationKey(name: string): FunctionGrant {
    FunctionGrant("system", ["main"], name, "scalar")
  }

  /** The collation functions the caller's COLLATE selects, with their entries' own origin. */
  function WithCollations(prov: Provenance, collations: map<string, bool>): Provenance {
    var entries := map name | name in collations :: CollationKey(name) := Some(collations[name]);
    prov.(collationFunctions := prov.collationFunctions + collations.Keys,
          functionEntries := entries + prov.functionEntries)
  }

  function RootedAt(b: Bind, collations: map<string, bool>, noted: Evidence): Bind {
    Bind(WithCollations(b.prov, collations), noted, b.binders + [Binder(false, false)], Pass,
         b.history + [Rooted(|b.binders|)], {})
  }

  function Inherited(b: Bind, source: nat): Bind
    requires source < |b.binders|
  {
    var from := b.binders[source];
    b.(binders := b.binders[source := from.(armed := false)] + [Binder(from.trusted || from.armed, false)],
       history := b.history + [Copied(source, |b.binders|)])
  }

  function Retrieved(inv: Inventory, layers: Layers, binding: BindingPolicy, b: Bind, i: nat, entry: CatalogEntry,
                     catalog: SystemCatalog, targets: seq<string>): Bind
    requires i < |b.binders|
  {
    var self := b.binders[i];
    var attributed := LookupIsCallers(binding, b.prov, self.trusted, entry);
    var g := Look(inv, layers, binding, self.trusted, entry, catalog, targets, b.prov, b.evidence);
    var arms := g.verdict.Pass? && Arms(self.trusted, attributed, entry);
    Bind(g.prov, g.evidence, b.binders[i := self.(armed := self.armed || arms)], g.verdict,
         b.history + [Looked(i, entry, self.trusted, attributed, arms, g.verdict.Pass?)], b.admitted)
  }

  function Replaced(inv: Inventory, layers: Layers, binding: BindingPolicy, b: Bind, path: NamePath, table: string,
                    resolution: Resolution): Bind
  {
    var g := Substitute(inv, layers, binding, path, resolution, b.prov, b.evidence);
    Bind(g.prov, g.evidence, b.binders, g.verdict, b.history + [Aside],
         if g.verdict.Pass? then b.admitted + {Lower(table)} else b.admitted)
  }

  function Stored(b: Bind, tables: map<Table, nat>, sources: map<string, nat>, evidence: Evidence): Bind {
    b.(prov := b.prov.(validatedScans := tables, validatedFunctionScans := sources), evidence := evidence,
       history := b.history + [Aside])
  }

  predicate Enumerates(names: seq<string>, all: set<string>) {
    (forall name :: name in names ==> name in all) && forall name :: name in all ==> name in names
  }

  /** A bind stops at its first refusal or error; only another bind can follow. */
  predicate Possible(binding: BindingPolicy, b: Bind, e: Event) {
    match e
    case Root(collations, _) => binding.callerCollationNames == {} ==> collations == map[]
    case Inherit(i) => b.verdict.Pass? && i < |b.binders|
    case Retrieve(i, entry, _, targets) =>
      && b.verdict.Pass? && i < |b.binders|
      && var trusted := b.binders[i].trusted;
         Enumerates(targets, TargetsToResolve(binding, trusted, LookupIsCallers(binding, b.prov, trusted, entry),
                                              entry))
    case Replace(_, _, _) => b.verdict.Pass?
    case Store(_, _, _) => b.verdict.Pass?
  }

  function Step(inv: Inventory, layers: Layers, binding: BindingPolicy, b: Bind, e: Event): Bind
    requires Possible(binding, b, e)
  {
    match e
    case Root(collations, noted) => RootedAt(b, collations, noted)
    case Inherit(i) => Inherited(b, i)
    case Retrieve(i, entry, catalog, targets) => Retrieved(inv, layers, binding, b, i, entry, catalog, targets)
    case Replace(path, table, resolution) => Replaced(inv, layers, binding, b, path, table, resolution)
    case Store(tables, sources, evidence) => Stored(b, tables, sources, evidence)
  }

  /** The binds after a sequence of events, or nothing when the engine could not have made it. */
  function Run(inv: Inventory, layers: Layers, binding: BindingPolicy, start: Bind, events: seq<Event>): Option<Bind> {
    if events == [] then Some(start)
    else
      var b := Run(inv, layers, binding, start, events[..|events| - 1]);
      if b.Some? && Possible(binding, b.value, events[|events| - 1])
      then Some(Step(inv, layers, binding, b.value, events[|events| - 1])) else None
  }

  lemma {:induction false} RunAppend(inv: Inventory, layers: Layers, binding: BindingPolicy, start: Bind, a: seq<Event>,
                                     b: seq<Event>)
    requires Run(inv, layers, binding, start, a).Some?
    ensures Run(inv, layers, binding, start, a + b)
         == Run(inv, layers, binding, Run(inv, layers, binding, start, a).value, b)
  {
    if b == [] {
      assert a + b == a;
    } else {
      var init, last := b[..|b| - 1], b[|b| - 1];
      assert (a + b)[..|a + b| - 1] == a + init && (a + b)[|a + b| - 1] == last;
      RunAppend(inv, layers, binding, start, a, init);
    }
  }

  // ------------------------------------------------------- trust

  /** Read off the history: an arming lookup by `b` that no later copy has consumed. */
  predicate ArmedAfter(h: seq<Happening>, b: nat) {
    if h == [] then false
    else
      match h[|h| - 1]
      case Copied(source, _) => source != b && ArmedAfter(h[..|h| - 1], b)
      case Looked(i, _, _, _, arms, _) => (i == b && arms) || ArmedAfter(h[..|h| - 1], b)
      case _ => ArmedAfter(h[..|h| - 1], b)
  }

  /** `b` is `a` or was copied, over any number of generations, from it. */
  predicate Descends(h: seq<Happening>, a: nat, b: nat) {
    if a == b then true
    else if h == [] then false
    else
      var last := h[|h| - 1];
      if last.Copied? && last.child == b then Descends(h[..|h| - 1], a, last.source) else Descends(h[..|h| - 1], a, b)
  }

  /** The copy at `i` was made while its source was armed. */
  predicate Licensed(h: seq<Happening>, i: nat)
    requires i < |h|
  {
    h[i].Copied? && ArmedAfter(h[..i], h[i].source)
  }

  ghost predicate DescendsFromLicensed(h: seq<Happening>, b: nat) {
    exists i: nat :: i < |h| && Licensed(h, i) && Descends(h, h[i].child, b)
  }

  /** Binders are numbered as they are created, over all binds of the statement. */
  ghost predicate Numbered(h: seq<Happening>, n: nat) {
    if h == [] then n == 0
    else
      match h[|h| - 1]
      case Rooted(child) => n > 0 && child == n - 1 && Numbered(h[..|h| - 1], n - 1)
      case Copied(source, child) => n > 1 && child == n - 1 && source < child && Numbered(h[..|h| - 1], n - 1)
      case Looked(i, _, _, _, _, _) => i < n && Numbered(h[..|h| - 1], n)
      case Aside => Numbered(h[..|h| - 1], n)
  }

  /** How many binders there were before the last happening. */
  function Before(last: Happening, n: nat): nat {
    if (last.Copied? || last.Rooted?) && n > 0 then n - 1 else n
  }

  lemma {:induction false} DescentGoesUp(h: seq<Happening>, n: nat, a: nat, b: nat)
    requires Numbered(h, n) && Descends(h, a, b)
    ensures a <= b
  {
    if a != b {
      var last := h[|h| - 1];
      DescentGoesUp(h[..|h| - 1], Before(last, n), a, if last.Copied? && last.child == b then last.source else b);
    }
  }

  lemma LicensedPrefix(h: seq<Happening>, x: Happening, i: nat)
    requires i < |h|
    ensures Licensed(h + [x], i) == Licensed(h, i) && (h + [x])[i] == h[i]
  {
    assert (h + [x])[..i] == h[..i];
  }

  /** Only a copy changes anybody's descent. */
  lemma OthersKeepDescent(h: seq<Happening>, x: Happening, b: nat)
    requires !x.Copied?
    ensures DescendsFromLicensed(h + [x], b) == DescendsFromLicensed(h, b)
  {
    var h' := h + [x];
    assert h'[..|h|] == h;
    forall i: nat | i < |h| ensures Licensed(h', i) == Licensed(h, i) && h'[i] == h[i] {
      LicensedPrefix(h, x, i);
    }
    assert forall a :: Descends(h', a, b) == Descends(h, a, b);
  }

  /**
   * A copy changes no existing binder's descent; the child descends from a license iff its source does or it is one.
   */
  lemma CopyExtendsDescent(h: seq<Happening>, n: nat, source: nat, b: nat)
    requires Numbered(h, n) && source < n && b <= n
    ensures var h' := h + [Copied(source, n)];
            DescendsFromLicensed(h', b) <==>
            if b == n then ArmedAfter(h, source) || DescendsFromLicensed(h, source) else DescendsFromLicensed(h, b)
  {
    var x := Copied(source, n);
    var h' := h + [x];
    assert h'[..|h|] == h;
    forall i: nat | i < |h| ensures Licensed(h', i) == Licensed(h, i) && h'[i] == h[i] {
      LicensedPrefix(h, x, i);
    }
    forall i: nat | i < |h| && h[i].Copied? ensures h[i].child < n {
      ChildrenNumbered(h, n, i);
    }
    assert Licensed(h', |h|) == ArmedAfter(h, source);
    if b == n {
      assert forall a :: a != n ==> Descends(h', a, n) == Descends(h, a, source);
      assert Descends(h', n, n);
      if i: nat :| i < |h| && Licensed(h, i) && Descends(h, h[i].child, source) {
        assert Licensed(h', i) && Descends(h', h'[i].child, n);
      }
      if ArmedAfter(h, source) {
        assert Licensed(h', |h|) && Descends(h', h'[|h|].child, n);
      }
    } else {
      assert forall a :: Descends(h', a, b) == Descends(h, a, b);
      if Descends(h', n, b) {
        DescentGoesUp(h, n, n, b);
      }
      if i: nat :| i < |h| && Licensed(h, i) && Descends(h, h[i].child, b) {
        assert Licensed(h', i) && Descends(h', h'[i].child, b);
      }
    }
  }

  lemma {:induction false} ChildrenNumbered(h: seq<Happening>, n: nat, i: nat)
    requires Numbered(h, n) && i < |h| && h[i].Copied?
    ensures h[i].child < n
  {
    var last := h[|h| - 1];
    if i < |h| - 1 {
      ChildrenNumbered(h[..|h| - 1], Before(last, n), i);
    }
  }

  ghost predicate TrustFollowsHistory(b: Bind) {
    && Numbered(b.history, |b.binders|)
    && forall i :: 0 <= i < |b.binders| ==>
         && (b.binders[i].trusted <==> DescendsFromLicensed(b.history, i))
         && (b.binders[i].armed <==> ArmedAfter(b.history, i))
         && (b.binders[i].armed ==> !b.binders[i].trusted)
  }

  lemma NewBinderUnarmed(h: seq<Happening>, n: nat)
    requires Numbered(h, n)
    ensures forall b :: b >= n ==> !ArmedAfter(h, b)
  {
    if h != [] {
      var last := h[|h| - 1];
      NewBinderUnarmed(h[..|h| - 1], Before(last, n));
    }
  }

  lemma InheritKeepsTrust(b: Bind, source: nat)
    requires TrustFollowsHistory(b) && source < |b.binders|
    ensures TrustFollowsHistory(Inherited(b, source))
  {
    var b' := Inherited(b, source);
    var n := |b.binders|;
    assert b'.history[..|b.history|] == b.history;
    NewBinderUnarmed(b.history, n);
    forall i | 0 <= i < |b'.binders|
      ensures b'.binders[i].trusted <==> DescendsFromLicensed(b'.history, i)
      ensures b'.binders[i].armed <==> ArmedAfter(b'.history, i)
      ensures b'.binders[i].armed ==> !b'.binders[i].trusted
    {
      CopyExtendsDescent(b.history, n, source, i);
      assert i < n ==> b'.binders[i].trusted == b.binders[i].trusted;
    }
  }

  /** A binder that does not exist yet descends from none but itself. */
  lemma {:induction false} NewBinderHasNoAncestor(h: seq<Happening>, n: nat, a: nat, b: nat)
    requires Numbered(h, n) && n <= b && Descends(h, a, b)
    ensures a == b
  {
    if h != [] && a != b {
      NewBinderHasNoAncestor(h[..|h| - 1], Before(h[|h| - 1], n), a, b);
    }
  }

  lemma RootKeepsTrust(b: Bind, collations: map<string, bool>, noted: Evidence)
    requires TrustFollowsHistory(b)
    ensures TrustFollowsHistory(RootedAt(b, collations, noted))
  {
    var b', n := RootedAt(b, collations, noted), |b.binders|;
    assert b'.history[..|b.history|] == b.history;
    NewBinderUnarmed(b.history, n);
    forall i | 0 <= i < |b'.binders|
      ensures b'.binders[i].trusted <==> DescendsFromLicensed(b'.history, i)
      ensures b'.binders[i].armed <==> ArmedAfter(b'.history, i)
      ensures b'.binders[i].armed ==> !b'.binders[i].trusted
    {
      OthersKeepDescent(b.history, Rooted(n), i);
      if i == n && DescendsFromLicensed(b.history, n) {
        var k: nat :| k < |b.history| && Licensed(b.history, k) && Descends(b.history, b.history[k].child, n);
        NewBinderHasNoAncestor(b.history, n, b.history[k].child, n);
        ChildrenNumbered(b.history, n, k);
      }
    }
  }

  /** A happening that creates no binder, and arms at most the one that looked. */
  lemma OthersKeepTrust(b: Bind, b': Bind, x: Happening)
    requires TrustFollowsHistory(b) && b'.history == b.history + [x] && |b'.binders| == |b.binders|
    requires x.Aside? || (x.Looked? && x.binder < |b.binders| && (x.arms ==> !b.binders[x.binder].trusted))
    requires forall i :: 0 <= i < |b.binders| ==>
               && b'.binders[i].trusted == b.binders[i].trusted
               && b'.binders[i].armed == (b.binders[i].armed || (x.Looked? && x.binder == i && x.arms))
    ensures TrustFollowsHistory(b')
  {
    assert b'.history[..|b.history|] == b.history;
    forall i | 0 <= i < |b'.binders|
      ensures b'.binders[i].trusted <==> DescendsFromLicensed(b'.history, i)
      ensures b'.binders[i].armed <==> ArmedAfter(b'.history, i)
      ensures b'.binders[i].armed ==> !b'.binders[i].trusted
    {
      OthersKeepDescent(b.history, x, i);
    }
  }

  lemma StepKeepsTrust(inv: Inventory, layers: Layers, binding: BindingPolicy, b: Bind, e: Event)
    requires TrustFollowsHistory(b) && Possible(binding, b, e)
    ensures TrustFollowsHistory(Step(inv, layers, binding, b, e))
  {
    var b' := Step(inv, layers, binding, b, e);
    match e {
      case Root(collations, noted) => RootKeepsTrust(b, collations, noted);
      case Inherit(i) => InheritKeepsTrust(b, i);
      case _ => OthersKeepTrust(b, b', b'.history[|b.history|]);
    }
  }

  ghost predicate Fresh(b: Bind) {
    b.binders == [] && b.history == []
  }

  /**
   * Trust, for every sequence of binds, copies and lookups: a binder is trusted iff it descends from a copy made while
   * its source was armed, and an armed binder is untrusted.
   */
  lemma {:induction false} TrustIsLicensedDescent(inv: Inventory, layers: Layers, binding: BindingPolicy, start: Bind,
                                                  events: seq<Event>)
    requires Fresh(start) && Run(inv, layers, binding, start, events).Some?
    ensures TrustFollowsHistory(Run(inv, layers, binding, start, events).value)
  {
    if events != [] {
      var init, last := events[..|events| - 1], events[|events| - 1];
      TrustIsLicensedDescent(inv, layers, binding, start, init);
      StepKeepsTrust(inv, layers, binding, Run(inv, layers, binding, start, init).value, last);
    }
  }

  /** The newest binder descends from another only by the copy that made it. */
  lemma NewestIsCopied(h: seq<Happening>, n: nat, b: nat, c: nat)
    requires Numbered(h, n) && h != [] && Descends(h, b, c) && b != c && c < n
    requires !(h[|h| - 1].Copied? && h[|h| - 1].child == c)
    ensures c < Before(h[|h| - 1], n) && Descends(h[..|h| - 1], b, c)
  {
    if c >= Before(h[|h| - 1], n) {
      NewBinderHasNoAncestor(h[..|h| - 1], Before(h[|h| - 1], n), b, c);
    }
  }

  /** Descent is transitive, so trust reaches every later generation. */
  lemma {:induction false} DescentComposes(h: seq<Happening>, n: nat, a: nat, b: nat, c: nat)
    requires Numbered(h, n) && Descends(h, a, b) && Descends(h, b, c) && c < n
    ensures Descends(h, a, c)
  {
    if b != c && a != b {
      var last := h[|h| - 1];
      var init := h[..|h| - 1];
      if last.Copied? && last.child == c {
        if last.child != b {
          DescentComposes(init, n - 1, a, b, last.source);
        }
      } else {
        DescentGoesUp(h, n, b, c);
        NewestIsCopied(h, n, b, c);
        DescentComposes(init, Before(last, n), a, b, c);
      }
    }
  }

  lemma TrustIsInherited(b: Bind, parent: nat, child: nat)
    requires TrustFollowsHistory(b) && parent < |b.binders| && child < |b.binders|
    requires b.binders[parent].trusted && Descends(b.history, parent, child)
    ensures b.binders[child].trusted
  {
    var i: nat :| i < |b.history| && Licensed(b.history, i) && Descends(b.history, b.history[i].child, parent);
    DescentComposes(b.history, |b.binders|, b.history[i].child, parent, child);
  }

  function ArmingLookups(h: seq<Happening>, b: nat): nat {
    if h == [] then 0
    else ArmingLookups(h[..|h| - 1],
                       b) + (if h[|h| - 1].Looked? && h[|h| - 1].binder == b && h[|h| - 1].arms then 1 else 0)
  }

  function LicensedCopies(h: seq<Happening>, b: nat): nat {
    if h == [] then 0
    else LicensedCopies(h[..|h| - 1], b)
         + (if Licensed(h, |h| - 1) && h[|h| - 1].source == b then 1 else 0)
  }

  /** Each arming lookup licenses at most one trusted child. */
  lemma {:induction false} OneChildPerArming(h: seq<Happening>, b: nat)
    ensures LicensedCopies(h, b) + (if ArmedAfter(h, b) then 1 else 0) <= ArmingLookups(h, b)
  {
    if h != [] {
      OneChildPerArming(h[..|h| - 1], b);
    }
  }

  // ------------------------------------------------------- objects

  predicate Sighting(x: Happening, key: Table, attributed: bool) {
    x.Looked? && x.entry.Object() && x.entry.Key() == key && x.attributed == attributed
  }

  ghost predicate Seen(h: seq<Happening>, key: Table, attributed: bool) {
    exists i :: 0 <= i < |h| && Sighting(h[i], key, attributed)
  }

  predicate Allowed(layers: Layers, entry: CatalogEntry) {
    && TableAllowed(layers.ceiling, entry.catalog, entry.schemaPath, entry.name, entry.internal)
    && TableAllowed(layers.policy, entry.catalog, entry.schemaPath, entry.name, entry.internal)
  }

  /** What the text check hands to a statement's first private bind. */
  predicate Clean(prov: Provenance) {
    prov.callerObjects == {} && prov.trustedObjects == {} && prov.trustedTableNames == {} && !prov.unattributed
  }

  /** The happening taught the table references of a trusted scalar macro. */
  predicate Taught(x: Happening) {
    x.Looked? && x.passed && Teaches(x.trusted, x.entry) && (!x.entry.internal || !x.attributed)
  }

  /** The table references learned from the definitions of trusted scalar macros. */
  function MacroTables(h: seq<Happening>): set<NamePath> {
    if h == [] then {}
    else MacroTables(h[..|h| - 1]) + (if Taught(h[|h| - 1]) then h[|h| - 1].entry.bodyTables else {})
  }

  /** An attributed object that passed was allowed by both layers; no policy was asked about any other. */
  predicate Judged(layers: Layers, x: Happening) {
    x.Looked? && x.entry.Object() && x.attributed && x.passed ==> Allowed(layers, x.entry)
  }

  /** The rule that attributed a retrieved object, in terms of what had happened before. */
  predicate Attributed(binding: BindingPolicy, before: seq<Happening>, x: Happening) {
    x.Looked? && x.entry.Object() ==>
      (x.attributed <==> || CallerNamesObject(binding, x.entry.Key())
                         || (!x.trusted && !NamesObject(MacroTables(before), x.entry.Key())))
  }

  ghost predicate ObjectsFollowHistory(layers: Layers, binding: BindingPolicy, b: Bind) {
    && !b.prov.unattributed
    && (forall key :: key in b.prov.callerObjects <==> Seen(b.history, key, true))
    && (forall key :: key in b.prov.trustedObjects <==> Seen(b.history, key, false))
    && b.prov.trustedTableNames == MacroTables(b.history)
    && (forall i :: 0 <= i < |b.history| ==> Judged(layers, b.history[i]))
    && (forall i :: 0 <= i < |b.history| ==> Attributed(binding, b.history[..i], b.history[i]))
  }

  lemma SeenStep(h: seq<Happening>, x: Happening, key: Table, attributed: bool)
    ensures Seen(h + [x], key, attributed) <==> Seen(h, key, attributed) || Sighting(x, key, attributed)
  {
    var h' := h + [x];
    assert h'[|h|] == x && forall i :: 0 <= i < |h| ==> h'[i] == h[i];
    if i :| 0 <= i < |h| && Sighting(h[i], key, attributed) {
      assert Sighting(h'[i], key, attributed);
    }
    if Sighting(x, key, attributed) {
      assert Sighting(h'[|h|], key, attributed);
    }
  }

  /** What a happening does to the objects on record. */
  predicate Moves(prov: Provenance, prov': Provenance, x: Happening) {
    && prov'.unattributed == prov.unattributed
    && prov'.callerObjects == prov.callerObjects
                              + (if x.Looked? && x.entry.Object() && x.attributed then {x.entry.Key()} else {})
    && prov'.trustedObjects == prov.trustedObjects
                               + (if x.Looked? && x.entry.Object() && !x.attributed then {x.entry.Key()} else {})
    && prov'.trustedTableNames == prov.trustedTableNames + (if Taught(x) then x.entry.bodyTables else {})
  }

  /** One more happening, appended to a history that already follows the rules. */
  lemma ObjectsStep(layers: Layers, binding: BindingPolicy, b: Bind, b': Bind, x: Happening)
    requires ObjectsFollowHistory(layers, binding, b) && b'.history == b.history + [x]
    requires Moves(b.prov, b'.prov, x) && Judged(layers, x) && Attributed(binding, b.history, x)
    ensures ObjectsFollowHistory(layers, binding, b')
  {
    assert b'.history[..|b.history|] == b.history;
    forall key, attributed
      ensures Seen(b'.history, key, attributed) <==> Seen(b.history, key, attributed) || Sighting(x, key, attributed)
    {
      SeenStep(b.history, x, key, attributed);
    }
    forall i | 0 <= i < |b'.history| ensures Attributed(binding, b'.history[..i], b'.history[i]) {
      assert b'.history[..i] == b.history[..i];
    }
  }

  // ------------------------------------------------------- what one lookup moves

  /** Two provenances with the same objects and the same trusted table references. */
  predicate SameObjects(a: Provenance, b: Provenance) {
    && a.unattributed == b.unattributed && a.callerObjects == b.callerObjects && a.trustedObjects == b.trustedObjects
    && a.trustedTableNames == b.trustedTableNames
  }

  lemma TargetKeepsObjects(catalog: SystemCatalog, id: Identity, allowed: bool, expanded: bool, g: Progress)
    ensures SameObjects(g.prov, LearnTarget(catalog, id, allowed, expanded, g).prov)
  {
  }

  lemma {:induction false} TargetsKeepObjects(inv: Inventory, layers: Layers, catalog: SystemCatalog,
                                              names: seq<string>,
                                              expanded: bool, g: Progress)
    ensures SameObjects(g.prov, AuthorizeTargets(inv, layers, catalog, names, expanded, g).prov)
    decreases names
  {
    if names != [] {
      var first := AuthorizeTarget(inv, layers, catalog, names[0], expanded, g);
      assert SameObjects(g.prov, first.prov) by {
        if names[0] in catalog.aggregates {
          var id := SystemAggregate(names[0], catalog.aggregates[names[0]]);
          TargetKeepsObjects(catalog, id, true, expanded, g);
          TargetKeepsObjects(catalog, id, false, expanded, g);
        }
      }
      TargetsKeepObjects(inv, layers, catalog, names[1..], expanded, first);
    }
  }

  lemma DispatchKeepsObjects(inv: Inventory, layers: Layers, binding: BindingPolicy, entry: CatalogEntry,
                             attributable: bool, catalog: SystemCatalog, targets: seq<string>, g: Progress)
    ensures SameObjects(g.prov, AuthorizeDispatch(inv, layers, binding, entry, attributable, catalog, targets, g).prov)
  {
    TargetsKeepObjects(inv, layers, catalog, targets, false, g);
  }

  lemma KnownKeepsObjects(inv: Inventory, layers: Layers, binding: BindingPolicy, attributable: bool,
                          entry: CatalogEntry, catalog: SystemCatalog, targets: seq<string>, g: Progress)
    ensures SameObjects(g.prov, LookKnown(inv, layers, binding, attributable, entry, catalog, targets, g).prov)
  {
    var recorded := LookEntry(inv, layers, binding, attributable, entry, g);
    assert SameObjects(g.prov, recorded.prov);
    DispatchKeepsObjects(inv, layers, binding, entry, attributable, catalog, targets, recorded);
  }

  lemma MacroMoves(inv: Inventory, layers: Layers, trusted: bool, attributable: bool, entry: CatalogEntry,
                   catalog: SystemCatalog, targets: seq<string>, g: Progress)
    requires g.verdict.Pass?
    ensures var g' := LearnMacro(inv, layers, trusted, attributable, entry, catalog, targets, g);
            if Teaches(trusted, entry) && (!entry.internal || !attributable)
            then g'.verdict.Pass? && g'.prov == g.prov.(trustedNames := g'.prov.trustedNames,
                                                       trustedTableNames := g.prov.trustedTableNames + entry.bodyTables)
            else SameObjects(g.prov, g'.prov)
  {
    if Teaches(trusted, entry) && entry.internal && attributable {
      TargetsKeepObjects(inv, layers, catalog, targets, true,
                         g.(prov := g.prov.(callerExpansions := g.prov.callerExpansions + entry.bodyNames)));
    }
  }

  lemma FunctionMoves(inv: Inventory, layers: Layers, binding: BindingPolicy, b: Bind, k: nat, entry: CatalogEntry,
                      catalog: SystemCatalog, targets: seq<string>)
    requires k < |b.binders| && entry.Function()
    ensures var b' := Retrieved(inv, layers, binding, b, k, entry, catalog, targets);
            Moves(b.prov, b'.prov, b'.history[|b.history|])
  {
    var trusted := b.binders[k].trusted;
    var attributed := LookupIsCallers(binding, b.prov, trusted, entry);
    var g := Progress(Pass, b.prov, b.evidence);
    var known := LookKnown(inv, layers, binding, attributed, entry, catalog, targets, g);
    KnownKeepsObjects(inv, layers, binding, attributed, entry, catalog, targets, g);
    if known.verdict.Pass? {
      MacroMoves(inv, layers, trusted, attributed, entry, catalog, targets, known);
    }
  }

  lemma ObjectMoves(inv: Inventory, layers: Layers, binding: BindingPolicy, b: Bind, k: nat, entry: CatalogEntry,
                    catalog: SystemCatalog, targets: seq<string>)
    requires k < |b.binders| && !entry.Function()
    ensures var b' := Retrieved(inv, layers, binding, b, k, entry, catalog, targets);
            var x := b'.history[|b.history|];
            Moves(b.prov, b'.prov, x) && Judged(layers, x)
  {
    var attributed := LookupIsCallers(binding, b.prov, b.binders[k].trusted, entry);
    if entry.Object() {
      ObjectLearned(layers, attributed, entry, Progress(Pass, b.prov, b.evidence));
    }
  }

  /** Looking at an object records it on its side, and passes the caller's only if both layers allow it. */
  lemma ObjectLearned(layers: Layers, attributed: bool, entry: CatalogEntry, g: Progress)
    requires entry.Object()
    ensures var g' := LookObject(layers, attributed, entry, g);
            && g'.prov == LearnObject(g.prov, entry.Key(), attributed)
            && (g'.verdict.Pass? && attributed ==> Allowed(layers, entry))
  {
    TableVerdict(layers, entry.AsTable(), attributed, g.evidence);
  }

  lemma RetrieveKeepsObjects(inv: Inventory, layers: Layers, binding: BindingPolicy, b: Bind, k: nat,
                             entry: CatalogEntry, catalog: SystemCatalog, targets: seq<string>)
    requires ObjectsFollowHistory(layers, binding, b) && k < |b.binders|
    ensures ObjectsFollowHistory(layers, binding, Retrieved(inv, layers, binding, b, k, entry, catalog, targets))
  {
    var b' := Retrieved(inv, layers, binding, b, k, entry, catalog, targets);
    if entry.Function() {
      FunctionMoves(inv, layers, binding, b, k, entry, catalog, targets);
    } else {
      ObjectMoves(inv, layers, binding, b, k, entry, catalog, targets);
    }
    ObjectsStep(layers, binding, b, b', b'.history[|b.history|]);
  }

  lemma StepKeepsObjects(inv: Inventory, layers: Layers, binding: BindingPolicy, b: Bind, e: Event)
    requires ObjectsFollowHistory(layers, binding, b) && Possible(binding, b, e)
    ensures ObjectsFollowHistory(layers, binding, Step(inv, layers, binding, b, e))
  {
    match e {
      case Retrieve(i, entry, catalog, targets) =>
        RetrieveKeepsObjects(inv, layers, binding, b, i, entry, catalog, targets);
      case Root(collations, noted) =>
        ObjectsStep(layers, binding, b, RootedAt(b, collations, noted), Rooted(|b.binders|));
      case Inherit(i) => ObjectsStep(layers, binding, b, Inherited(b, i), Copied(i, |b.binders|));
      case Replace(path, table, resolution) =>
        ReplacementKeepsObjects(inv, layers, binding, path, resolution, b.prov, b.evidence);
        ObjectsStep(layers, binding, b, Replaced(inv, layers, binding, b, path, table, resolution), Aside);
      case Store(tables, sources, evidence) =>
        ObjectsStep(layers, binding, b, Stored(b, tables, sources, evidence), Aside);
    }
  }

  lemma ReplacementKeepsObjects(inv: Inventory, layers: Layers, binding: BindingPolicy, path: NamePath,
                                resolution: Resolution, prov: Provenance, evidence: Evidence)
    ensures SameObjects(prov, Substitute(inv, layers, binding, path, resolution, prov, evidence).prov)
  {
    if resolution.Reader? {
      ReaderKeepsObjects(resolution.entry, true, CallerWrote(Some(binding), path), Progress(Pass, prov, evidence));
      ReaderKeepsObjects(resolution.entry, false, CallerWrote(Some(binding), path), Progress(Pass, prov, evidence));
    }
  }

  lemma ReaderKeepsObjects(entry: CatalogEntry, refused: bool, caller: bool, g: Progress)
    ensures SameObjects(g.prov, LearnReader(entry, refused, caller, g).prov)
  {
  }

  /** What the binds of a statement know of objects is exactly what their lookups saw, over any chain of binds. */
  lemma {:induction false} ObjectsFollowEveryBind(inv: Inventory, layers: Layers, binding: BindingPolicy, start: Bind,
                                                  events: seq<Event>)
    requires Fresh(start) && Clean(start.prov) && Run(inv, layers, binding, start, events).Some?
    ensures ObjectsFollowHistory(layers, binding, Run(inv, layers, binding, start, events).value)
  {
    if events != [] {
      var init, last := events[..|events| - 1], events[|events| - 1];
      ObjectsFollowEveryBind(inv, layers, binding, start, init);
      StepKeepsObjects(inv, layers, binding, Run(inv, layers, binding, start, init).value, last);
    }
  }

  /**
   * Plan-time attribution, for every chain of binds: an object is the caller's iff the caller's text names it, some
   * lookup of it in any of the binds was attributed to the caller, or none of them looked it up at all.
   */
  lemma AttributionAgrees(inv: Inventory, layers: Layers, binding: BindingPolicy, start: Bind, events: seq<Event>,
                          key: Table)
    requires Fresh(start) && Clean(start.prov) && Run(inv, layers, binding, start, events).Some?
    ensures var b := Run(inv, layers, binding, start, events).value;
            ObjectAttributable(b.prov, binding, key) <==>
            || CallerNamesObject(binding, key) || Seen(b.history, key, true)
            || (!Seen(b.history, key, true) && !Seen(b.history, key, false))
  {
    ObjectsFollowEveryBind(inv, layers, binding, start, events);
  }

  /** The caller's, by what its text says and what the binds saw. */
  ghost predicate Callers(binding: BindingPolicy, h: seq<Happening>, key: Table) {
    CallerNamesObject(binding, key) || Seen(h, key, true) || !Seen(h, key, false)
  }

  /**
   * Every table of an accepted plan that is the caller's is allowed by both layers, and so was every entry of it that a
   * lookup attributed to the caller and passed.
   */
  lemma CallerTablesPassBothLayers(inv: Inventory, layers: Layers, binding: BindingPolicy, start: Bind,
                                   events: seq<Event>, origin: PlanOrigin, props: Properties, plan: Plan, clean: bool,
                                   node: OpNode, t: TableEntry)
    requires Fresh(start) && Clean(start.prov) && Run(inv, layers, binding, start, events).Some?
    requires var b := Run(inv, layers, binding, start, events).value;
             && Callers(binding, b.history, EntryKey(t)) && !origin.Prescreen?
             && PlanAccepted(inv, layers, binding, b.prov, origin, props, plan, clean)
    requires node in Trees.Nodes(plan) && TableOf(node) == [t]
    ensures TableAllowed(layers.ceiling, t.catalog, t.schemaPath, t.name, t.internal)
    ensures TableAllowed(layers.policy, t.catalog, t.schemaPath, t.name, t.internal)
    ensures var b := Run(inv, layers, binding, start, events).value;
            forall i :: 0 <= i < |b.history| && Sighting(b.history[i], EntryKey(t), true) && b.history[i].passed ==>
              Allowed(layers, b.history[i].entry)
  {
    var b := Run(inv, layers, binding, start, events).value;
    AttributionAgrees(inv, layers, binding, start, events, EntryKey(t));
    ObjectsFollowEveryBind(inv, layers, binding, start, events);
    assert ObjectAttributable(b.prov, binding, EntryKey(t));
    assert ScanPasses(layers, binding, b.prov, node, clean);
    forall i | 0 <= i < |b.history| && Sighting(b.history[i], EntryKey(t), true) && b.history[i].passed
      ensures Allowed(layers, b.history[i].entry)
    {
      assert Judged(layers, b.history[i]);
    }
  }

  // ------------------------------------------------------- a denial always shows

  predicate Shows(g: Progress) {
    g.verdict.Deny? ==> g.evidence.violations != {}
  }

  lemma TargetShows(catalog: SystemCatalog, id: Identity, allowed: bool, expanded: bool, g: Progress)
    requires Shows(g)
    ensures Shows(LearnTarget(catalog, id, allowed, expanded, g))
  {
  }

  lemma {:induction false} TargetsShow(inv: Inventory, layers: Layers, catalog: SystemCatalog, names: seq<string>,
                                       expanded: bool, g: Progress)
    requires Shows(g)
    ensures Shows(AuthorizeTargets(inv, layers, catalog, names, expanded, g))
    decreases names
  {
    if names != [] {
      var first := AuthorizeTarget(inv, layers, catalog, names[0], expanded, g);
      assert Shows(first) by {
        if names[0] in catalog.aggregates {
          var id := SystemAggregate(names[0], catalog.aggregates[names[0]]);
          TargetShows(catalog, id, true, expanded, g);
          TargetShows(catalog, id, false, expanded, g);
        }
      }
      TargetsShow(inv, layers, catalog, names[1..], expanded, first);
    }
  }

  lemma KnownShows(inv: Inventory, layers: Layers, binding: BindingPolicy, attributable: bool, entry: CatalogEntry,
                   catalog: SystemCatalog, targets: seq<string>, g: Progress)
    requires Shows(g)
    ensures Shows(LookKnown(inv, layers, binding, attributable, entry, catalog, targets, g))
  {
    var recorded := LookEntry(inv, layers, binding, attributable, entry, g);
    assert Shows(recorded);
    TargetsShow(inv, layers, catalog, targets, false, recorded);
    assert Shows(AuthorizeDispatch(inv, layers, binding, entry, attributable, catalog, targets, recorded));
  }

  lemma LookShows(inv: Inventory, layers: Layers, binding: BindingPolicy, trusted: bool, entry: CatalogEntry,
                  catalog: SystemCatalog, targets: seq<string>, prov: Provenance, evidence: Evidence)
    ensures Shows(Look(inv, layers, binding, trusted, entry, catalog, targets, prov, evidence))
  {
    var attributable := LookupIsCallers(binding, prov, trusted, entry);
    var g := Progress(Pass, prov, evidence);
    if entry.Object() {
      TableVerdict(layers, entry.AsTable(), attributable, evidence);
    } else if entry.Function() {
      KnownShows(inv, layers, binding, attributable, entry, catalog, targets, g);
      var known := LookKnown(inv, layers, binding, attributable, entry, catalog, targets, g);
      TargetsShow(inv, layers, catalog, targets, true,
                  known.(prov := known.prov.(callerExpansions := known.prov.callerExpansions + entry.bodyNames)));
    }
  }

  /** A bind that was refused has a violation on record to be refused for. */
  lemma RefusalLeavesViolation(inv: Inventory, layers: Layers, binding: BindingPolicy, start: Bind, events: seq<Event>)
    requires events != [] && Run(inv, layers, binding, start, events).Some?
    ensures var b := Run(inv, layers, binding, start, events).value; b.verdict.Deny? ==> b.evidence.violations != {}
  {
    var before := Run(inv, layers, binding, start, events[..|events| - 1]).value;
    match events[|events| - 1] {
      case Retrieve(i, entry, catalog, targets) =>
        LookShows(inv, layers, binding, before.binders[i].trusted, entry, catalog, targets, before.prov,
                  before.evidence);
      case _ =>
    }
  }
}
