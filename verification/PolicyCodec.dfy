/** Policy options and the canonical policy value: decoding, applying, writing and reading back. */
module PolicyCodec {
  import opened Names
  import opened Policies

  // ------------------------------------------------------- typed values

  datatype Type =
    | Boolean
    | Text
    | OtherType(code: nat)
    | ListType(element: Type)
    | StructType(fields: seq<(string, Type)>)

  /** An engine value. NULL carries its type, a list its element type, a struct its field names. */
  datatype Value =
    | Null(type_: Type)
    | Bool(b: bool)
    | Str(text: string)
    | List(element: Type, items: seq<Value>)
    | Struct(fields: seq<(string, Value)>)

  function TypeOf(v: Value): Type {
    match v
    case Null(t) => t
    case Bool(_) => Boolean
    case Str(_) => Text
    case List(t, _) => ListType(t)
    case Struct(fields) => StructType(seq(|fields|, i requires 0 <= i < |fields| => (fields[i].0, TypeOf(fields[i].1))))
  }

  /** The engine's own invariant: list items have the declared element type, at every depth. */
  predicate WellTyped(v: Value) {
    match v
    case List(t, items) => forall i :: 0 <= i < |items| ==> TypeOf(items[i]) == t && WellTyped(items[i])
    case Struct(fields) => forall i :: 0 <= i < |fields| ==> WellTyped(fields[i].1)
    case _ => true
  }

  function FieldNames(t: Type): seq<string>
    requires t.StructType?
  {
    seq(|t.fields|, i requires 0 <= i < |t.fields| => t.fields[i].0)
  }

  // ------------------------------------------------------- one rule

  datatype RawRule = RawRule(catalog: string, path: NamePath, leaf: string, kind: string)

  function Leaf(functions: bool): string {
    if functions then "name" else "table"
  }

  predicate Distinct(names: seq<string>) {
    forall i, j :: 0 <= i < j < |names| ==> names[i] != names[j]
  }

  /** The declared fields of a rule list: known, distinct, with a schema path and a leaf. */
  predicate RuleFields(functions: bool, keys: seq<string>) {
    && Distinct(keys)
    && (forall k :: k in keys ==>
          k == "catalog" || k == "schema_path" || k == Leaf(functions) || (functions && k == "type"))
    && "schema_path" in keys && Leaf(functions) in keys
  }

  predicate PathPart(v: Value) {
    v.Str? && v.text != "" && NulFree(v.text)
  }

  function SchemaPath(v: Value): Option<NamePath> {
    if v.List? && v.items != [] && forall i :: 0 <= i < |v.items| ==> PathPart(v.items[i])
    then Some(seq(|v.items|, i requires 0 <= i < |v.items| => Lower(v.items[i].text)))
    else None
  }

  function DecodeField(functions: bool, key: string, v: Value, r: RawRule): Option<RawRule> {
    if key == "schema_path" then
      var path := SchemaPath(v);
      if path.None? then None else Some(r.(path := path.value))
    else if v.Null? && (key == "catalog" || (functions && key == "type")) then Some(r)
    else if !PathPart(v) then None
    else if key == "catalog" then Some(r.(catalog := Lower(v.text)))
    else if key == Leaf(functions) then Some(r.(leaf := Lower(v.text)))
    else if functions && key == "type" then
      if Lower(v.text) in KINDS then Some(r.(kind := Lower(v.text))) else None
    else Some(r)
  }

  function DecodeFields(functions: bool, fields: seq<(string, Value)>): Option<RawRule> {
    if fields == [] then Some(RawRule("", [], "", ""))
    else
      var r := DecodeFields(functions, fields[..|fields| - 1]);
      var (key, v) := fields[|fields| - 1];
      if r.None? then None else DecodeField(functions, key, v, r.value)
  }

  function DecodeRule(functions: bool, entry: Value): Option<RawRule> {
    if entry.Struct? then DecodeFields(functions, entry.fields) else None
  }

  predicate Decodes(functions: bool, items: seq<Value>) {
    forall i :: 0 <= i < |items| ==> DecodeRule(functions, items[i]).Some?
  }

  function Grant(r: RawRule): FunctionGrant {
    FunctionGrant(r.catalog, r.path, r.leaf, r.kind)
  }

  function TableRule(r: RawRule): Table {
    Table(r.catalog, r.path, r.leaf)
  }

  function Grants(items: seq<Value>): set<FunctionGrant>
    requires Decodes(true, items)
  {
    set i | 0 <= i < |items| :: Grant(DecodeRule(true, items[i]).value)
  }

  function Tables(items: seq<Value>): set<Table>
    requires Decodes(false, items)
  {
    set i | 0 <= i < |items| :: TableRule(DecodeRule(false, items[i]).value)
  }

  // ------------------------------------------------------- one option

  datatype Setting =
    | SetDefaults(on: bool)
    | SetAllowedFunctions(grants: set<FunctionGrant>)
    | SetBlockedFunctions(grants: set<FunctionGrant>)
    | SetAllowedTables(tables: set<Table>)
    | SetBlockedTables(tables: set<Table>)

  const OPTION_NAMES: set<string> :=
    {"use_default_functions", "allowed_functions", "blocked_functions", "allowed_tables", "blocked_tables"}

  predicate FunctionOption(name: string) {
    name == "allowed_functions" || name == "blocked_functions"
  }

  /** The shape a rule list must have: a list, of structs with the rule's fields or of nothing but NULLs. */
  predicate RuleList(functions: bool, v: Value) {
    && v.List?
    && (if v.element.StructType? then RuleFields(functions, FieldNames(v.element))
        else !(functions && v.element == Text) && forall i :: 0 <= i < |v.items| ==> v.items[i].Null?)
  }

  function DecodeOption(name: string, v: Value): Option<Setting> {
    if name !in OPTION_NAMES then None
    else if name == "use_default_functions" then if v.Bool? then Some(SetDefaults(v.b)) else None
    else if !RuleList(FunctionOption(name), v) || !Decodes(FunctionOption(name), v.items) then None
    else if name == "allowed_functions" then Some(SetAllowedFunctions(Grants(v.items)))
    else if name == "blocked_functions" then Some(SetBlockedFunctions(Grants(v.items)))
    else if name == "allowed_tables" then Some(SetAllowedTables(Tables(v.items)))
    else Some(SetBlockedTables(Tables(v.items)))
  }

  function ApplySetting(p: Policy, s: Setting): Policy {
    match s
    case SetDefaults(on) => p.(defaults := on)
    case SetAllowedFunctions(g) => p.(allowedFunctions := g)
    case SetBlockedFunctions(g) => p.(blockedFunctions := g)
    case SetAllowedTables(t) => p.(tables := true, allowedTables := t)
    case SetBlockedTables(t) => p.(blockedTables := t)
  }

  // ------------------------------------------------------- all options

  type Options = seq<(string, Value)>

  predicate Named(options: Options, name: string) {
    exists i :: 0 <= i < |options| && options[i].0 == name
  }

  /** The options in order, each once; nothing when one is repeated or does not decode. */
  function Apply(p: Policy, options: Options): Option<Policy> {
    if options == [] then Some(p)
    else
      var init, (name, v) := options[..|options| - 1], options[|options| - 1];
      var q := Apply(p, init);
      if q.None? || Named(init, name) || DecodeOption(name, v).None? then None
      else Some(ApplySetting(q.value, DecodeOption(name, v).value))
  }

  lemma {:induction false} FailureSticks(p: Policy, options: Options, n: nat)
    requires n <= |options| && Apply(p, options[..n]).None?
    ensures Apply(p, options).None?
    decreases |options|
  {
    if n < |options| {
      assert options[..|options| - 1][..n] == options[..n];
      FailureSticks(p, options[..|options| - 1], n);
    } else {
      assert options[..n] == options;
    }
  }

  method ApplyOptions(p: Policy, options: Options) returns (r: Option<Policy>)
    ensures r == Apply(p, options)
  {
    var seen: set<string> := {};
    var policy := p;
    for i := 0 to |options|
      invariant Apply(p, options[..i]) == Some(policy)
      invariant forall name :: name in seen <==> Named(options[..i], name)
    {
      var (name, v) := options[i];
      assert options[..i + 1][..i] == options[..i];
      var setting := DecodeOption(name, v);
      if name in seen || setting.None? {
        FailureSticks(p, options, i + 1);
        return None;
      }
      NamedStep(options, i);
      seen := seen + {name};
      policy := ApplySetting(policy, setting.value);
    }
    assert options[..|options|] == options;
    r := Some(policy);
  }

  lemma NamedStep(options: Options, i: nat)
    requires i < |options|
    ensures forall name :: Named(options[..i + 1], name) <==> Named(options[..i], name) || name == options[i].0
  {
    var short, long := options[..i], options[..i + 1];
    assert long[i] == options[i];
    forall name ensures Named(long, name) <==> Named(short, name) || name == options[i].0 {
      if k :| 0 <= k < |short| && short[k].0 == name {
        assert long[k].0 == name;
      }
    }
  }

  // ------------------------------------------------------- order does not matter

  ghost predicate AllDecode(options: Options) {
    forall o :: o in options ==> DecodeOption(o.0, o.1).Some?
  }

  ghost predicate Once(options: Options) {
    forall i, j :: 0 <= i < j < |options| ==> options[i].0 != options[j].0
  }

  ghost predicate Sets(options: Options, s: Setting) {
    exists o :: o in options && DecodeOption(o.0, o.1) == Some(s)
  }

  /** The policy field a setting writes. */
  datatype Slot = Defaults | AllowedFunctions | BlockedFunctions | AllowedTables | BlockedTables

  function SlotOf(s: Setting): Slot {
    match s
    case SetDefaults(_) => Defaults
    case SetAllowedFunctions(_) => AllowedFunctions
    case SetBlockedFunctions(_) => BlockedFunctions
    case SetAllowedTables(_) => AllowedTables
    case SetBlockedTables(_) => BlockedTables
  }

  function NameOf(slot: Slot): string {
    match slot
    case Defaults => "use_default_functions"
    case AllowedFunctions => "allowed_functions"
    case BlockedFunctions => "blocked_functions"
    case AllowedTables => "allowed_tables"
    case BlockedTables => "blocked_tables"
  }

  ghost predicate Same(slot: Slot, p: Policy, q: Policy) {
    match slot
    case Defaults => p.defaults == q.defaults
    case AllowedFunctions => p.allowedFunctions == q.allowedFunctions
    case BlockedFunctions => p.blockedFunctions == q.blockedFunctions
    case AllowedTables => p.tables == q.tables && p.allowedTables == q.allowedTables
    case BlockedTables => p.blockedTables == q.blockedTables
  }

  /** Each field of the result is what the one option that sets it says, or what it was. */
  ghost predicate Result(p: Policy, options: Options, q: Policy) {
    && (forall s: Setting :: Sets(options, s) ==> ApplySetting(q, s) == q)
    && (forall slot: Slot :: !Named(options, NameOf(slot)) ==> Same(slot, p, q))
  }

  lemma SettingOfName(name: string, v: Value)
    requires DecodeOption(name, v).Some?
    ensures NameOf(SlotOf(DecodeOption(name, v).value)) == name
  {
  }

  lemma SetsIsNamed(options: Options, s: Setting)
    requires Sets(options, s)
    ensures Named(options, NameOf(SlotOf(s)))
  {
    var o :| o in options && DecodeOption(o.0, o.1) == Some(s);
    SettingOfName(o.0, o.1);
    var i :| 0 <= i < |options| && options[i] == o;
  }

  lemma NamedIsSet(options: Options, name: string)
    requires Named(options, name) && AllDecode(options)
    ensures exists s: Setting :: NameOf(SlotOf(s)) == name && Sets(options, s)
  {
    var i :| 0 <= i < |options| && options[i].0 == name;
    assert options[i] in options;
    SettingOfName(name, options[i].1);
    assert Sets(options, DecodeOption(name, options[i].1).value);
  }

  lemma SetsStep(init: Options, o: (string, Value), s: Setting)
    ensures Sets(init + [o], s) <==> Sets(init, s) || DecodeOption(o.0, o.1) == Some(s)
  {
    var all := init + [o];
    if x :| x in init && DecodeOption(x.0, x.1) == Some(s) {
      assert x in all;
    }
    assert o in all;
  }

  lemma ResultStep(p: Policy, init: Options, q: Policy, o: (string, Value))
    requires Result(p, init, q) && !Named(init, o.0) && DecodeOption(o.0, o.1).Some?
    ensures Result(p, init + [o], ApplySetting(q, DecodeOption(o.0, o.1).value))
  {
    var all, s := init + [o], DecodeOption(o.0, o.1).value;
    SettingOfName(o.0, o.1);
    assert all[..|init|] == init && all[..|init| + 1] == all;
    NamedStep(all, |init|);
    forall x: Setting | Sets(all, x) ensures x == s || (Sets(init, x) && SlotOf(x) != SlotOf(s)) {
      SetsStep(init, o, x);
      if Sets(init, x) {
        SetsIsNamed(init, x);
      }
    }
    SettingStep(p, init, q, all, s);
  }

  lemma SettingStep(p: Policy, init: Options, q: Policy, all: Options, s: Setting)
    requires Result(p, init, q)
    requires forall x: Setting :: Sets(all, x) ==> x == s || (Sets(init, x) && SlotOf(x) != SlotOf(s))
    requires forall name :: Named(all, name) <==> Named(init, name) || name == NameOf(SlotOf(s))
    ensures Result(p, all, ApplySetting(q, s))
  {
    forall x: Setting | Sets(all, x) ensures ApplySetting(ApplySetting(q, s), x) == ApplySetting(q, s) {
      Absorbs(q, s, x);
    }
    forall slot: Slot | !Named(all, NameOf(slot)) ensures Same(slot, p, ApplySetting(q, s)) {
      assert slot != SlotOf(s) && Same(slot, p, q);
      Spares(q, s, slot);
    }
  }

  lemma Absorbs(q: Policy, s: Setting, x: Setting)
    requires x == s || (ApplySetting(q, x) == q && SlotOf(x) != SlotOf(s))
    ensures ApplySetting(ApplySetting(q, s), x) == ApplySetting(q, s)
  {
  }

  lemma Spares(q: Policy, s: Setting, slot: Slot)
    requires slot != SlotOf(s)
    ensures Same(slot, q, ApplySetting(q, s))
  {
  }

  /**
   * Applying options succeeds exactly when each is given once and decodes, and the result is then determined field by
   * field.
   */
  lemma {:induction false} ApplyMeans(p: Policy, options: Options)
    ensures Apply(p, options).Some? <==> Once(options) && AllDecode(options)
    ensures Apply(p, options).Some? ==> Result(p, options, Apply(p, options).value)
  {
    if options != [] {
      var n := |options| - 1;
      var init, o := options[..n], options[n];
      ApplyMeans(p, init);
      assert options == init + [o];
      OnceStep(init, o);
      assert forall x :: x in options <==> x in init || x == o;
      if Apply(p, options).Some? {
        ResultStep(p, init, Apply(p, init).value, o);
      }
    }
  }

  lemma OnceStep(init: Options, o: (string, Value))
    ensures Once(init + [o]) <==> Once(init) && !Named(init, o.0)
  {
    var all := init + [o];
    if Once(all) {
      forall i, j | 0 <= i < j < |init| ensures init[i].0 != init[j].0 {
        assert all[i].0 != all[j].0;
      }
      forall i | 0 <= i < |init| ensures init[i].0 != o.0 {
        assert all[i].0 != all[|init|].0;
      }
    }
  }

  lemma ResultIsUnique(p: Policy, a: Options, b: Options, q: Policy, q': Policy)
    requires Result(p, a, q) && Result(p, b, q') && AllDecode(a)
    requires forall o :: o in a <==> o in b
    ensures q == q'
  {
    forall slot: Slot ensures Same(slot, q, q') {
      SlotIsUnique(p, a, b, q, q', slot);
    }
    EverySlotSame(q, q');
  }

  lemma SlotIsUnique(p: Policy, a: Options, b: Options, q: Policy, q': Policy, slot: Slot)
    requires Result(p, a, q) && Result(p, b, q') && AllDecode(a)
    requires forall o :: o in a <==> o in b
    ensures Same(slot, q, q')
  {
    SameNames(a, b, NameOf(slot));
    if Named(a, NameOf(slot)) {
      NamedIsSet(a, NameOf(slot));
      var s: Setting :| NameOf(SlotOf(s)) == NameOf(slot) && Sets(a, s);
      SlotNamesDiffer(SlotOf(s), slot);
      assert Sets(b, s);
      SettledAlike(q, q', s);
    }
  }

  lemma SettledAlike(q: Policy, q': Policy, s: Setting)
    requires ApplySetting(q, s) == q && ApplySetting(q', s) == q'
    ensures Same(SlotOf(s), q, q')
  {
  }

  lemma EverySlotSame(q: Policy, q': Policy)
    requires forall slot: Slot :: Same(slot, q, q')
    ensures q == q'
  {
    assert Same(Defaults, q, q') && Same(AllowedFunctions, q, q') && Same(BlockedFunctions, q, q');
    assert Same(AllowedTables, q, q') && Same(BlockedTables, q, q');
  }

  lemma SlotNamesDiffer(a: Slot, b: Slot)
    requires NameOf(a) == NameOf(b)
    ensures a == b
  {
    var (x, y) := (NameOf(a), NameOf(b));
    assert |x| == |y| && x[0] == y[0] && x[|x| - 1] == y[|x| - 1] && x[8] == y[8];
  }

  lemma SameNames(a: Options, b: Options, name: string)
    requires forall o :: o in a <==> o in b
    ensures Named(a, name) <==> Named(b, name)
  {
    if i :| 0 <= i < |a| && a[i].0 == name {
      assert a[i] in b;
      var j :| 0 <= j < |b| && b[j] == a[i];
    }
    if i :| 0 <= i < |b| && b[i].0 == name {
      assert b[i] in a;
      var j :| 0 <= j < |a| && a[j] == b[i];
    }
  }

  lemma {:induction false} OncePermutes(a: Options, b: Options)
    requires multiset(a) == multiset(b) && Once(a)
    ensures Once(b)
    decreases |b|
  {
    if b != [] {
      var n := |b| - 1;
      var init, o := b[..n], b[n];
      assert b == init + [o];
      assert o in multiset(a);
      var k :| 0 <= k < |a| && a[k] == o;
      var rest := a[..k] + a[k + 1..];
      WithoutOne(a, k, init);
      OncePermutes(rest, init);
      assert !Named(init, o.0) by {
        forall i | 0 <= i < |init| ensures init[i].0 != o.0 {
          assert init[i] in multiset(rest);
          var j :| 0 <= j < |rest| && rest[j] == init[i];
        }
      }
      OnceStep(init, o);
    }
  }

  lemma WithoutOne(a: Options, k: nat, init: Options)
    requires k < |a| && Once(a) && multiset(a) == multiset(init + [a[k]])
    ensures var rest := a[..k] + a[k + 1..];
            multiset(rest) == multiset(init) && Once(rest) && forall o :: o in rest ==> o.0 != a[k].0
  {
    Removed(a, k, init);
    assert Once(a[..k] + a[k + 1..]);
  }

  lemma Removed<T>(a: seq<T>, k: nat, init: seq<T>)
    requires k < |a| && multiset(a) == multiset(init + [a[k]])
    ensures multiset(a[..k] + a[k + 1..]) == multiset(init)
  {
    assert a == a[..k] + [a[k]] + a[k + 1..];
    assert multiset(a[..k] + a[k + 1..]) == multiset(a) - multiset{a[k]};
    assert multiset(init) == multiset(init + [a[k]]) - multiset{a[k]};
  }

  /** Under every permutation, the same options succeed or fail alike and give the same policy. */
  lemma OrderDoesNotMatter(p: Policy, a: Options, b: Options)
    requires multiset(a) == multiset(b)
    ensures Apply(p, a) == Apply(p, b)
  {
    ApplyMeans(p, a);
    ApplyMeans(p, b);
    assert forall o :: o in a <==> o in multiset(a);
    assert forall o :: o in b <==> o in multiset(b);
    if Once(a) {
      OncePermutes(a, b);
    }
    if Once(b) {
      OncePermutes(b, a);
    }
    if Apply(p, a).Some? {
      ResultIsUnique(p, a, b, Apply(p, a).value, Apply(p, b).value);
    }
  }

  // ------------------------------------------------------- decoded rules are well formed

  lemma LowerIsPlain(v: Value)
    requires PathPart(v)
    ensures Plain(Lower(v.text))
  {
    LowerIdempotent(v.text);
  }

  function KeysOf(fields: seq<(string, Value)>): seq<string> {
    seq(|fields|, i requires 0 <= i < |fields| => fields[i].0)
  }

  /** What the fields read so far have established about the rule. */
  predicate Settled(functions: bool, keys: seq<string>, r: RawRule) {
    && (r.catalog == "" || Plain(r.catalog)) && (r.kind == "" || r.kind in KINDS)
    && ("schema_path" in keys ==> PlainPath(r.path))
    && (Leaf(functions) in keys ==> Plain(r.leaf))
  }

  lemma PathIsPlain(v: Value)
    requires SchemaPath(v).Some?
    ensures PlainPath(SchemaPath(v).value)
  {
    forall i | 0 <= i < |v.items| ensures Plain(Lower(v.items[i].text)) {
      LowerIsPlain(v.items[i]);
    }
  }

  lemma {:induction false} FieldsSettle(functions: bool, fields: seq<(string, Value)>)
    requires DecodeFields(functions, fields).Some?
    ensures Settled(functions, KeysOf(fields), DecodeFields(functions, fields).value)
  {
    if fields != [] {
      var n := |fields| - 1;
      var (key, v) := fields[n];
      FieldsSettle(functions, fields[..n]);
      assert KeysOf(fields) == KeysOf(fields[..n]) + [key];
      if key == "schema_path" {
        PathIsPlain(v);
      } else if PathPart(v) {
        LowerIsPlain(v);
      }
    }
  }

  lemma RuleIsWellFormed(functions: bool, element: Type, entry: Value)
    requires element.StructType? && RuleFields(functions, FieldNames(element))
    requires TypeOf(entry) == element && DecodeRule(functions, entry).Some?
    ensures functions ==> WellFormedGrant(Grant(DecodeRule(functions, entry).value))
    ensures !functions ==> WellFormedTable(TableRule(DecodeRule(functions, entry).value))
  {
    assert KeysOf(entry.fields) == FieldNames(element);
    FieldsSettle(functions, entry.fields);
  }

  ghost predicate WellFormedSetting(s: Setting) {
    match s
    case SetDefaults(_) => true
    case SetAllowedFunctions(g) => forall x :: x in g ==> WellFormedGrant(x)
    case SetBlockedFunctions(g) => forall x :: x in g ==> WellFormedGrant(x)
    case SetAllowedTables(t) => forall x :: x in t ==> WellFormedTable(x)
    case SetBlockedTables(t) => forall x :: x in t ==> WellFormedTable(x)
  }

  lemma RulesAreWellFormed(functions: bool, v: Value)
    requires WellTyped(v) && RuleList(functions, v) && Decodes(functions, v.items)
    ensures functions ==> forall g :: g in Grants(v.items) ==> WellFormedGrant(g)
    ensures !functions ==> forall t :: t in Tables(v.items) ==> WellFormedTable(t)
  {
    forall i | 0 <= i < |v.items|
      ensures functions ==> WellFormedGrant(Grant(DecodeRule(functions, v.items[i]).value))
      ensures !functions ==> WellFormedTable(TableRule(DecodeRule(functions, v.items[i]).value))
    {
      RuleIsWellFormed(functions, v.element, v.items[i]);
    }
  }

  lemma DecodedIsWellFormed(name: string, v: Value)
    requires WellTyped(v) && DecodeOption(name, v).Some?
    ensures WellFormedSetting(DecodeOption(name, v).value)
  {
    if name != "use_default_functions" {
      RulesAreWellFormed(FunctionOption(name), v);
    }
  }

  ghost predicate AllWellTyped(options: Options) {
    forall i :: 0 <= i < |options| ==> WellTyped(options[i].1)
  }

  /** Options never leave a well-formed policy ill formed. */
  lemma {:induction false} OptionsKeepWellFormed(p: Policy, options: Options)
    requires WellFormedPolicy(p) && AllWellTyped(options) && Apply(p, options).Some?
    ensures WellFormedPolicy(Apply(p, options).value)
  {
    if options != [] {
      var n := |options| - 1;
      OptionsKeepWellFormed(p, options[..n]);
      DecodedIsWellFormed(options[n].0, options[n].1);
    }
  }

  // ------------------------------------------------------- the canonical value

  const FUNCTION_RULE_TYPE := StructType(
    [("catalog", Text), ("schema_path", ListType(Text)), ("name", Text), ("type", Text)])

  const TABLE_RULE_TYPE := StructType([("catalog", Text), ("schema_path", ListType(Text)), ("table", Text)])

  const CANONICAL_TYPE := StructType([
    ("use_default_functions", Boolean),
    ("allowed_functions", ListType(FUNCTION_RULE_TYPE)), ("blocked_functions", ListType(FUNCTION_RULE_TYPE)),
    ("allowed_tables", ListType(TABLE_RULE_TYPE)), ("blocked_tables", ListType(TABLE_RULE_TYPE)),
    ("restrict_tables", Boolean)])

  function PathValue(path: NamePath): Value {
    List(Text, seq(|path|, i requires 0 <= i < |path| => Str(path[i])))
  }

  function GrantValue(g: FunctionGrant): Value {
    Struct([("catalog", Str(g.catalog)), ("schema_path", PathValue(g.schemaPath)), ("name", Str(g.name)),
            ("type", Str(g.kind))])
  }

  function TableValue(t: Table): Value {
    Struct([("catalog", Str(t.catalog)), ("schema_path", PathValue(t.schemaPath)), ("table", Str(t.table))])
  }

  function GrantList(rules: seq<FunctionGrant>): Value {
    List(FUNCTION_RULE_TYPE, seq(|rules|, i requires 0 <= i < |rules| => GrantValue(rules[i])))
  }

  function TableList(rules: seq<Table>): Value {
    List(TABLE_RULE_TYPE, seq(|rules|, i requires 0 <= i < |rules| => TableValue(rules[i])))
  }

  function CanonicalValue(defaults: bool, allowed: seq<FunctionGrant>, blocked: seq<FunctionGrant>,
                          allowedTables: seq<Table>, blockedTables: seq<Table>, restrict: bool): Value
  {
    Struct([("use_default_functions", Bool(defaults)),
            ("allowed_functions", GrantList(allowed)), ("blocked_functions", GrantList(blocked)),
            ("allowed_tables", TableList(allowedTables)), ("blocked_tables", TableList(blockedTables)),
            ("restrict_tables", Bool(restrict))])
  }

  ghost function Members<T>(s: seq<T>): set<T> {
    set x | x in s
  }

  /** `v` is a canonical value of `p`: each set is written as a list, in any order. */
  ghost predicate Writes(v: Value, p: Policy) {
    exists a, b, t, u ::
      && v == CanonicalValue(p.defaults, a, b, t, u, p.tables)
      && Members(a) == p.allowedFunctions && Members(b) == p.blockedFunctions
      && Members(t) == p.allowedTables && Members(u) == p.blockedTables
  }

  method Listed<T(==)>(s: set<T>) returns (items: seq<T>)
    ensures Members(items) == s && |items| == |s|
  {
    items := [];
    var rest := s;
    while rest != {}
      invariant rest <= s && Members(items) == s - rest && |items| + |rest| == |s|
      decreases rest
    {
      var x :| x in rest;
      assert Members(items + [x]) == Members(items) + {x};
      items := items + [x];
      rest := rest - {x};
    }
  }

  method PolicyValue(p: Policy) returns (v: Value)
    ensures Writes(v, p)
  {
    var a := Listed(p.allowedFunctions);
    var b := Listed(p.blockedFunctions);
    var t := Listed(p.allowedTables);
    var u := Listed(p.blockedTables);
    v := CanonicalValue(p.defaults, a, b, t, u, p.tables);
  }

  // ------------------------------------------------------- reading it back

  function Restore(functions: bool, field: (string, Value)): (string, Value) {
    if field.1 == Str("") && (field.0 == "catalog" || (functions && field.0 == "type")) then (field.0, Null(Text))
    else field
  }

  predicate NullFree(entry: Value) {
    entry.Struct? && forall i :: 0 <= i < |entry.fields| ==> !entry.fields[i].1.Null?
  }

  function RestoreEntry(functions: bool, entry: Value): Value
    requires entry.Struct?
  {
    Struct(seq(|entry.fields|, i requires 0 <= i < |entry.fields| => Restore(functions, entry.fields[i])))
  }

  /** A canonical rule list as request decoding spells it; nothing when any NULL is inside. */
  function CanonicalIdentities(functions: bool, v: Value): Option<Value> {
    if v.List? && forall i :: 0 <= i < |v.items| ==> NullFree(v.items[i])
    then Some(List(v.element, seq(|v.items|, i requires 0 <= i < |v.items| => RestoreEntry(functions, v.items[i]))))
    else None
  }

  predicate RuleOption(name: string) {
    FunctionOption(name) || name == "allowed_tables" || name == "blocked_tables"
  }

  function ReadField(name: string, v: Value): Option<Value> {
    if v.Null? then None
    else if RuleOption(name) then CanonicalIdentities(FunctionOption(name), v)
    else Some(v)
  }

  predicate Readable(fields: seq<(string, Value)>) {
    forall i :: 0 <= i < |fields| ==> ReadField(fields[i].0, fields[i].1).Some?
  }

  function ReadOptions(fields: seq<(string, Value)>): Options
    requires Readable(fields)
  {
    seq(|fields|, i requires 0 <= i < |fields| => (fields[i].0, ReadField(fields[i].0, fields[i].1).value))
  }

  predicate Canonical(v: Value) {
    v.Struct? && TypeOf(v) == CANONICAL_TYPE
  }

  lemma CanonicalShape(v: Value)
    requires Canonical(v)
    ensures |v.fields| == 6 && KeysOf(v.fields) == FieldNames(CANONICAL_TYPE)
    ensures forall i :: 0 <= i < 6 ==> TypeOf(v.fields[i].1) == CANONICAL_TYPE.fields[i].1
  {
    var t := TypeOf(v).fields;
    forall i | 0 <= i < 6 ensures t[i] == (v.fields[i].0, TypeOf(v.fields[i].1)) {
    }
    assert KeysOf(v.fields) == FieldNames(CANONICAL_TYPE);
  }

  lemma TablesFlagIsLast(v: Value)
    requires Canonical(v)
    ensures |v.fields| == 6 && forall i :: 0 <= i < 6 ==> (v.fields[i].0 == "restrict_tables" <==> i == 5)
  {
    CanonicalShape(v);
    forall i | 0 <= i < 6 ensures v.fields[i].0 == "restrict_tables" <==> i == 5 {
      assert v.fields[i].0 == KeysOf(v.fields)[i] == FieldNames(CANONICAL_TYPE)[i];
    }
  }

  /** The policy a stored value means; nothing when it is not a canonical value. */
  function ReadPolicy(v: Value): Option<Policy> {
    if !Canonical(v) then None
    else
      CanonicalShape(v);
      if !Readable(v.fields) then None
      else
        var p := Apply(DEFAULT_POLICY, ReadOptions(v.fields[..5]));
        var tables := v.fields[5].1 == Bool(true);
        if p.None? || (!tables && p.value.allowedTables != {}) then None
        else Some(p.value.(tables := tables))
  }

  /** What has been read after `i` fields: the options among them, and the flag that comes last. */
  ghost predicate ReadUpTo(fields: seq<(string, Value)>, i: nat, options: Options, tables: bool) {
    && |fields| == 6 && i <= 6 && Readable(fields[..i])
    && options == ReadOptions(fields[..i][..if i == 6 then 5 else i])
    && tables == (i == 6 && fields[5].1 == Bool(true))
  }

  lemma ReadNext(fields: seq<(string, Value)>, i: nat, options: Options, tables: bool)
    requires ReadUpTo(fields, i, options, tables) && i < 6 && ReadField(fields[i].0, fields[i].1).Some?
    ensures i < 5 ==>
            ReadUpTo(fields, i + 1, options + [(fields[i].0, ReadField(fields[i].0, fields[i].1).value)], tables)
    ensures i == 5 ==> ReadUpTo(fields, 6, options, fields[5].1 == Bool(true))
  {
    var shorter, longer := fields[..i], fields[..i + 1];
    assert longer == shorter + [fields[i]] && shorter[..i] == shorter;
    if i == 5 {
      assert longer[..5] == shorter;
    } else {
      assert longer[..i + 1] == longer;
    }
  }

  /** Reads the fields one by one, as they are stored. */
  method ReadFields(fields: seq<(string, Value)>) returns (ok: bool, options: Options, tables: bool)
    requires |fields| == 6 && forall i :: 0 <= i < 6 ==> (fields[i].0 == "restrict_tables" <==> i == 5)
    ensures ok <==> Readable(fields)
    ensures ok ==> options == ReadOptions(fields[..5]) && tables == (fields[5].1 == Bool(true))
  {
    options, tables := [], false;
    for i := 0 to |fields|
      invariant ReadUpTo(fields, i, options, tables)
    {
      var (name, value) := fields[i];
      var restored := ReadField(name, value);
      if restored.None? {
        return false, options, tables;
      }
      ReadNext(fields, i, options, tables);
      if name == "restrict_tables" {
        tables := value == Bool(true);
      } else {
        options := options + [(name, restored.value)];
      }
    }
    assert fields[..6] == fields;
    ok := true;
  }

  method ReadStored(v: Value) returns (r: Option<Policy>)
    ensures r == ReadPolicy(v)
  {
    if !Canonical(v) {
      return None;
    }
    TablesFlagIsLast(v);
    var ok, options, tables := ReadFields(v.fields);
    if !ok {
      return None;
    }
    var p := ApplyOptions(DEFAULT_POLICY, options);
    if p.None? || (!tables && p.value.allowedTables != {}) {
      return None;
    }
    r := Some(p.value.(tables := tables));
  }

  lemma RestoreKeepsTypes(functions: bool, v: Value)
    requires v.List? && WellTyped(v) && CanonicalIdentities(functions, v).Some?
    ensures WellTyped(CanonicalIdentities(functions, v).value)
  {
    var items := CanonicalIdentities(functions, v).value.items;
    forall i | 0 <= i < |items| ensures TypeOf(items[i]) == v.element && WellTyped(items[i]) {
      assert TypeOf(items[i]) == TypeOf(v.items[i]);
    }
  }

  /** Every policy read from a stored value is well formed. */
  lemma ReadIsWellFormed(v: Value)
    requires WellTyped(v) && ReadPolicy(v).Some?
    ensures WellFormedPolicy(ReadPolicy(v).value)
  {
    CanonicalShape(v);
    var options := ReadOptions(v.fields[..5]);
    forall i | 0 <= i < |options| ensures WellTyped(options[i].1) {
      var (name, value) := v.fields[i];
      if RuleOption(name) {
        RestoreKeepsTypes(FunctionOption(name), value);
      }
    }
    OptionsKeepWellFormed(DEFAULT_POLICY, options);
  }

  // ------------------------------------------------------- what is written reads back

  lemma PlainIsItsFold(s: string)
    requires Plain(s)
    ensures PathPart(Str(s)) && Lower(s) == s
  {
  }

  lemma PathReadsBack(path: NamePath)
    requires PlainPath(path)
    ensures SchemaPath(PathValue(path)) == Some(path)
  {
    var v := PathValue(path);
    forall i | 0 <= i < |path| ensures PathPart(v.items[i]) && Lower(v.items[i].text) == path[i] {
      PlainIsItsFold(path[i]);
    }
    assert SchemaPath(v).value == path;
  }

  lemma DecodeLast(functions: bool, fields: seq<(string, Value)>, o: (string, Value), r: RawRule)
    requires DecodeFields(functions, fields) == Some(r)
    ensures DecodeFields(functions, fields + [o]) == DecodeField(functions, o.0, o.1, r)
  {
    assert (fields + [o])[..|fields|] == fields;
  }

  lemma PrefixReadsBack(functions: bool, catalog: string, path: NamePath, leaf: string)
    requires (catalog == "" || Plain(catalog)) && PlainPath(path) && Plain(leaf)
    ensures DecodeFields(functions, [Restore(functions, ("catalog", Str(catalog))), ("schema_path", PathValue(path)),
                                     (Leaf(functions), Str(leaf))]) == Some(RawRule(catalog, path, leaf, ""))
  {
    var c := Restore(functions, ("catalog", Str(catalog)));
    var s, n := ("schema_path", PathValue(path)), (Leaf(functions), Str(leaf));
    if catalog != "" {
      PlainIsItsFold(catalog);
    }
    PathReadsBack(path);
    PlainIsItsFold(leaf);
    var r0 := RawRule("", [], "", "");
    DecodeLast(functions, [], c, r0);
    assert [] + [c] == [c];
    DecodeLast(functions, [c], s, r0.(catalog := catalog));
    assert [c] + [s] == [c, s];
    DecodeLast(functions, [c, s], n, r0.(catalog := catalog, path := path));
    assert [c, s] + [n] == [c, s, n];
  }

  lemma TableReadsBack(t: Table)
    requires WellFormedTable(t)
    ensures DecodeRule(false, RestoreEntry(false, TableValue(t))) == Some(RawRule(t.catalog, t.schemaPath, t.table, ""))
  {
    PrefixReadsBack(false, t.catalog, t.schemaPath, t.table);
    assert RestoreEntry(false, TableValue(t)).fields
        == [Restore(false, ("catalog", Str(t.catalog))), ("schema_path", PathValue(t.schemaPath)),
            (Leaf(false), Str(t.table))];
  }

  lemma KindReadsBack(kind: string, r: RawRule)
    requires kind == "" || kind in KINDS
    requires r.kind == ""
    ensures var k := Restore(true, ("type", Str(kind))); DecodeField(true, k.0, k.1, r) == Some(r.(kind := kind))
  {
    if kind != "" {
      assert Lower(kind) == kind && NulFree(kind);
    }
  }

  lemma GrantReadsBack(g: FunctionGrant)
    requires WellFormedGrant(g)
    ensures DecodeRule(true, RestoreEntry(true, GrantValue(g)))
         == Some(RawRule(g.catalog, g.schemaPath, g.name, g.kind))
  {
    PrefixReadsBack(true, g.catalog, g.schemaPath, g.name);
    KindReadsBack(g.kind, RawRule(g.catalog, g.schemaPath, g.name, ""));
    var front := [Restore(true, ("catalog", Str(g.catalog))), ("schema_path", PathValue(g.schemaPath)),
                  (Leaf(true), Str(g.name))];
    DecodeLast(true, front, Restore(true, ("type", Str(g.kind))), RawRule(g.catalog, g.schemaPath, g.name, ""));
    assert RestoreEntry(true, GrantValue(g)).fields == front + [Restore(true, ("type", Str(g.kind)))];
  }

  function FunctionSetting(name: string, rules: set<FunctionGrant>): Setting {
    if name == "allowed_functions" then SetAllowedFunctions(rules) else SetBlockedFunctions(rules)
  }

  function TableSetting(name: string, rules: set<Table>): Setting {
    if name == "allowed_tables" then SetAllowedTables(rules) else SetBlockedTables(rules)
  }

  lemma GrantListReadsBack(name: string, rules: seq<FunctionGrant>)
    requires FunctionOption(name) && forall i :: 0 <= i < |rules| ==> WellFormedGrant(rules[i])
    ensures var v := ReadField(name, GrantList(rules));
            v.Some? && DecodeOption(name, v.value) == Some(FunctionSetting(name, Members(rules)))
  {
    var v := CanonicalIdentities(true, GrantList(rules)).value;
    forall i | 0 <= i < |rules| ensures DecodeRule(true, v.items[i]).Some?
      && Grant(DecodeRule(true, v.items[i]).value) == rules[i] {
      GrantReadsBack(rules[i]);
    }
    assert FieldNames(FUNCTION_RULE_TYPE) == ["catalog", "schema_path", "name", "type"];
    GrantsAre(v.items, rules);
  }

  lemma GrantsAre(items: seq<Value>, rules: seq<FunctionGrant>)
    requires |items| == |rules|
    requires forall i :: 0 <= i < |rules| ==>
      DecodeRule(true, items[i]).Some? && Grant(DecodeRule(true, items[i]).value) == rules[i]
    ensures Decodes(true, items) && Grants(items) == Members(rules)
  {
    forall g | g in Members(rules) ensures g in Grants(items) {
      var i :| 0 <= i < |rules| && rules[i] == g;
      assert Grant(DecodeRule(true, items[i]).value) == g;
    }
  }

  lemma TableListReadsBack(name: string, rules: seq<Table>)
    requires name == "allowed_tables" || name == "blocked_tables"
    requires forall i :: 0 <= i < |rules| ==> WellFormedTable(rules[i])
    ensures var v := ReadField(name, TableList(rules));
            v.Some? && DecodeOption(name, v.value) == Some(TableSetting(name, Members(rules)))
  {
    var v := CanonicalIdentities(false, TableList(rules)).value;
    forall i | 0 <= i < |rules|
      ensures DecodeRule(false, v.items[i]).Some? && TableRule(DecodeRule(false, v.items[i]).value) == rules[i]
    {
      TableReadsBack(rules[i]);
    }
    assert FieldNames(TABLE_RULE_TYPE) == ["catalog", "schema_path", "table"];
    TablesAre(v.items, rules);
  }

  lemma TablesAre(items: seq<Value>, rules: seq<Table>)
    requires |items| == |rules|
    requires forall i :: 0 <= i < |rules| ==>
      DecodeRule(false, items[i]).Some? && TableRule(DecodeRule(false, items[i]).value) == rules[i]
    ensures Decodes(false, items) && Tables(items) == Members(rules)
  {
    forall t | t in Members(rules) ensures t in Tables(items) {
      var i :| 0 <= i < |rules| && rules[i] == t;
      assert TableRule(DecodeRule(false, items[i]).value) == t;
    }
  }

  function SettingAt(q: Policy, i: nat): Setting
    requires i < 5
  {
    match i
    case 0 => SetDefaults(q.defaults)
    case 1 => SetAllowedFunctions(q.allowedFunctions)
    case 2 => SetBlockedFunctions(q.blockedFunctions)
    case 3 => SetAllowedTables(q.allowedTables)
    case _ => SetBlockedTables(q.blockedTables)
  }

  /** Five options, one a field, set every field. */
  lemma {:induction false} EveryFieldIsSet(options: Options, q: Policy)
    requires |options| == 5 && q.tables
    requires forall i :: 0 <= i < 5 ==> DecodeOption(options[i].0, options[i].1) == Some(SettingAt(q, i))
    ensures Apply(DEFAULT_POLICY, options) == Some(q)
  {
    ApplyMeans(DEFAULT_POLICY, options);
    forall i, j | 0 <= i < j < 5 ensures options[i].0 != options[j].0 {
      SettingOfName(options[i].0, options[i].1);
      SettingOfName(options[j].0, options[j].1);
      assert SlotOf(SettingAt(q, i)) != SlotOf(SettingAt(q, j));
    }
    forall o | o in options ensures DecodeOption(o.0, o.1).Some? {
      var i :| 0 <= i < 5 && options[i] == o;
    }
    forall i | 0 <= i < 5 ensures Sets(options, SettingAt(q, i)) {
      assert options[i] in options;
    }
    Determined(Apply(DEFAULT_POLICY, options).value, q);
  }

  lemma Determined(r: Policy, q: Policy)
    requires q.tables && forall i :: 0 <= i < 5 ==> ApplySetting(r, SettingAt(q, i)) == r
    ensures r == q
  {
    assert ApplySetting(r, SettingAt(q, 0)) == r && ApplySetting(r, SettingAt(q, 1)) == r;
    assert ApplySetting(r, SettingAt(q, 2)) == r && ApplySetting(r, SettingAt(q, 3)) == r;
    assert ApplySetting(r, SettingAt(q, 4)) == r;
  }

  lemma PathIsWellTyped(path: NamePath)
    ensures WellTyped(PathValue(path)) && TypeOf(PathValue(path)) == ListType(Text)
  {
  }

  lemma GrantListIsWellTyped(rules: seq<FunctionGrant>)
    ensures WellTyped(GrantList(rules)) && TypeOf(GrantList(rules)) == ListType(FUNCTION_RULE_TYPE)
  {
    forall i | 0 <= i < |rules| ensures WellTyped(GrantValue(rules[i]))
      && TypeOf(GrantValue(rules[i])) == FUNCTION_RULE_TYPE {
      PathIsWellTyped(rules[i].schemaPath);
      assert TypeOf(GrantValue(rules[i])).fields == FUNCTION_RULE_TYPE.fields;
    }
  }

  lemma TableListIsWellTyped(rules: seq<Table>)
    ensures WellTyped(TableList(rules)) && TypeOf(TableList(rules)) == ListType(TABLE_RULE_TYPE)
  {
    forall i | 0 <= i < |rules| ensures WellTyped(TableValue(rules[i]))
      && TypeOf(TableValue(rules[i])) == TABLE_RULE_TYPE {
      PathIsWellTyped(rules[i].schemaPath);
      assert TypeOf(TableValue(rules[i])).fields == TABLE_RULE_TYPE.fields;
    }
  }

  lemma WrittenIsWellTyped(d: bool, a: seq<FunctionGrant>, b: seq<FunctionGrant>, t: seq<Table>, u: seq<Table>, r: bool)
    ensures WellTyped(CanonicalValue(d, a, b, t, u, r)) && Canonical(CanonicalValue(d, a, b, t, u, r))
  {
    GrantListIsWellTyped(a);
    GrantListIsWellTyped(b);
    TableListIsWellTyped(t);
    TableListIsWellTyped(u);
    assert TypeOf(CanonicalValue(d, a, b, t, u, r)).fields == CANONICAL_TYPE.fields;
  }

  lemma WrittenOption(p: Policy, v: Value, a: seq<FunctionGrant>, b: seq<FunctionGrant>, t: seq<Table>, u: seq<Table>,
                      i: nat)
    requires WellFormedPolicy(p) && v == CanonicalValue(p.defaults, a, b, t, u, p.tables) && i < 5
    requires Members(a) == p.allowedFunctions && Members(b) == p.blockedFunctions
    requires Members(t) == p.allowedTables && Members(u) == p.blockedTables
    ensures var (name, stored) := v.fields[i];
            ReadField(name, stored).Some? && DecodeOption(name, ReadField(name, stored).value) == Some(SettingAt(p, i))
  {
    match i
    case 0 =>
    case 1 =>
      assert forall k :: 0 <= k < |a| ==> a[k] in Members(a);
      GrantListReadsBack("allowed_functions", a);
    case 2 =>
      assert forall k :: 0 <= k < |b| ==> b[k] in Members(b);
      GrantListReadsBack("blocked_functions", b);
    case 3 =>
      assert forall k :: 0 <= k < |t| ==> t[k] in Members(t);
      TableListReadsBack("allowed_tables", t);
    case _ =>
      assert forall k :: 0 <= k < |u| ==> u[k] in Members(u);
      TableListReadsBack("blocked_tables", u);
  }

  lemma SettingsDetermineReading(v: Value, p: Policy)
    requires WellFormedPolicy(p) && Canonical(v) && |v.fields| == 6 && v.fields[5] == ("restrict_tables",
                                                                                       Bool(p.tables))
    requires forall i :: 0 <= i < 5 ==>
      && ReadField(v.fields[i].0, v.fields[i].1).Some?
      && DecodeOption(v.fields[i].0, ReadField(v.fields[i].0, v.fields[i].1).value) == Some(SettingAt(p, i))
    ensures ReadPolicy(v) == Some(p)
  {
    assert ReadField(v.fields[5].0, v.fields[5].1).Some?;
    assert Readable(v.fields);
    var options := ReadOptions(v.fields[..5]);
    var q := p.(tables := true);
    forall i | 0 <= i < 5 ensures DecodeOption(options[i].0, options[i].1) == Some(SettingAt(q, i)) {
      assert SettingAt(q, i) == SettingAt(p, i);
    }
    EveryFieldIsSet(options, q);
  }

  /** A written policy reads back as itself exactly when it is well formed, in whatever order its sets were written. */
  lemma RoundTrip(p: Policy, v: Value)
    requires Writes(v, p)
    ensures ReadPolicy(v) == Some(p) <==> WellFormedPolicy(p)
  {
    var a, b, t, u :|
      && v == CanonicalValue(p.defaults, a, b, t, u, p.tables)
      && Members(a) == p.allowedFunctions && Members(b) == p.blockedFunctions
      && Members(t) == p.allowedTables && Members(u) == p.blockedTables;
    WrittenIsWellTyped(p.defaults, a, b, t, u, p.tables);
    if WellFormedPolicy(p) {
      forall i | 0 <= i < 5
        ensures ReadField(v.fields[i].0, v.fields[i].1).Some?
             && DecodeOption(v.fields[i].0, ReadField(v.fields[i].0, v.fields[i].1).value) == Some(SettingAt(p, i))
      {
        WrittenOption(p, v, a, b, t, u, i);
      }
      SettingsDetermineReading(v, p);
    }
    if ReadPolicy(v) == Some(p) {
      ReadIsWellFormed(v);
    }
  }

  /** Whatever value a policy was read from, writing it and reading it again changes nothing. */
  lemma CanonicalizationIsIdempotent(stored: Value, p: Policy, written: Value)
    requires WellTyped(stored) && ReadPolicy(stored) == Some(p) && Writes(written, p)
    ensures ReadPolicy(written) == Some(p)
  {
    ReadIsWellFormed(stored);
    RoundTrip(p, written);
  }
}
