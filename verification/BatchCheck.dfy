/** A dynamic PIVOT checked as a whole: all texts first, then the binds, against one statement at a time. */
module BatchCheck {

  /** The statements the parser rewrites a dynamic PIVOT into, each with its own text. */
  datatype Statement = EnumStatement(name: string,
                                     sql: string) | SelectStatement(sql: string) | OtherStatement(sql: string)

  /** The text boundary on one statement: a parser error, a denial, or the admitted unit. */
  datatype TextResult<U> = TextThrows(error: string) | TextDenies(reason: string) | TextAdmits(unit: U)

  datatype BindResult = Binds | BindFails(error: string)

  /** An admitted unit with the enum types created before it in the batch. */
  datatype Planned<U> = Planned(unit: U, enums: set<string>)

  datatype Verdict = Allowed | DeniedText(reason: string) | FailedBind(error: string) | ThrownText(error: string)

  datatype Texts<U> = Texts(verdict: Verdict, units: seq<Planned<U>>)

  predicate Supported(batch: seq<Statement>) {
    && |batch| >= 2 && batch[|batch| - 1].SelectStatement?
    && forall i :: 0 <= i < |batch| - 1 ==> batch[i].EnumStatement?
  }

  const UNSUPPORTED: string := "unsupported statement"

  /** The enum types a run of statements creates. */
  function EnumsOf(batch: seq<Statement>): set<string> {
    set i | 0 <= i < |batch| && batch[i].EnumStatement? :: batch[i].name
  }

  // ------------------------------------------------------- the engine's order

  /** Text and bind of each statement in turn, from statement `i` on: what running the batch would meet first. */
  function Interleaved<U>(batch: seq<Statement>, text: Statement -> TextResult<U>, bind: (U, set<string>) -> BindResult,
                          i: nat): Verdict
    requires i <= |batch|
    decreases |batch| - i
  {
    if i == |batch| then Allowed
    else
      match text(batch[i])
      case TextThrows(e) => ThrownText(e)
      case TextDenies(r) => DeniedText(r)
      case TextAdmits(unit) =>
        match bind(unit, EnumsOf(batch[..i]))
        case BindFails(e) => FailedBind(e)
        case Binds => Interleaved(batch, text, bind, i + 1)
  }

  // ------------------------------------------------------- the check's order

  /** Statement `n` is the first whose text is not admitted; `n` is the length when all are. */
  ghost predicate FirstUnadmitted<U>(batch: seq<Statement>, text: Statement -> TextResult<U>, n: nat) {
    && n <= |batch| && (forall i :: 0 <= i < n ==> text(batch[i]).TextAdmits?)
    && (n < |batch| ==> !text(batch[n]).TextAdmits?)
  }

  /** The units admitted ahead of statement `n`, each with exactly the enum names created before it. */
  ghost predicate PlannedUpTo<U>(batch: seq<Statement>, text: Statement -> TextResult<U>, n: nat,
                                 units: seq<Planned<U>>) {
    && |units| == n <= |batch|
    && forall i :: 0 <= i < n ==> text(batch[i]) == TextAdmits(units[i].unit) && units[i].enums == EnumsOf(batch[..i])
  }

  function TextVerdict<U>(batch: seq<Statement>, text: Statement -> TextResult<U>, n: nat): Verdict {
    if n >= |batch| then Allowed
    else
      match text(batch[n])
      case TextThrows(e) => ThrownText(e)
      case TextDenies(r) => DeniedText(r)
      case TextAdmits(_) => Allowed
  }

  method CheckBatchText<U>(batch: seq<Statement>, text: Statement -> TextResult<U>) returns (r: Texts<U>, ghost n: nat)
    ensures !Supported(batch) ==> r == Texts(DeniedText(UNSUPPORTED), [])
    ensures Supported(batch) ==> FirstUnadmitted(batch, text, n) && PlannedUpTo(batch, text, n, r.units)
                                 && r.verdict == TextVerdict(batch, text, n)
  {
    n := 0;
    if !Supported(batch) {
      return Texts(DeniedText(UNSUPPORTED), []), n;
    }
    var units: seq<Planned<U>> := [];
    var enums := {};
    for i := 0 to |batch|
      invariant PlannedUpTo(batch, text, i, units) && enums == EnumsOf(batch[..i])
    {
      n := i;
      match text(batch[i])
      case TextThrows(e) => return Texts(ThrownText(e), units), n;
      case TextDenies(reason) => return Texts(DeniedText(reason), units), n;
      case TextAdmits(unit) =>
        units := units + [Planned(unit, enums)];
        EnumsStep(batch, i);
        if batch[i].EnumStatement? {
          enums := enums + {batch[i].name};
        }
    }
    return Texts(Allowed, units), |batch|;
  }

  lemma EnumsStep(batch: seq<Statement>, i: nat)
    requires i < |batch|
    ensures EnumsOf(batch[..i + 1]) == EnumsOf(batch[..i]) + (if batch[i].EnumStatement? then {batch[i].name} else {})
  {
    var short, long := batch[..i], batch[..i + 1];
    forall x | x in EnumsOf(short) ensures x in EnumsOf(long) {
      var k :| 0 <= k < |short| && short[k].EnumStatement? && short[k].name == x;
      assert long[k] == short[k];
    }
    if batch[i].EnumStatement? {
      assert long[i] == batch[i];
    }
  }

  /** The first bind among `units` from `i` on that fails. */
  function FirstBindFailure<U>(units: seq<Planned<U>>, bind: (U, set<string>) -> BindResult, i: nat): Verdict
    requires i <= |units|
    decreases |units| - i
  {
    if i == |units| then Allowed
    else
      match bind(units[i].unit, units[i].enums)
      case BindFails(e) => FailedBind(e)
      case Binds => FirstBindFailure(units, bind, i + 1)
  }

  /** Check: a throwing text ends everything; else the admitted units bind first and only then is a denial reported. */
  function Split<U>(texts: Texts<U>, bind: (U, set<string>) -> BindResult): Verdict {
    if texts.verdict.ThrownText? then texts.verdict
    else
      var bound := FirstBindFailure(texts.units, bind, 0);
      if bound.FailedBind? then bound else texts.verdict
  }

  method Check<U>(batch: seq<Statement>, text: Statement -> TextResult<U>, bind: (U, set<string>) -> BindResult)
    returns (verdict: Verdict, ghost n: nat)
    ensures !Supported(batch) ==> verdict == DeniedText(UNSUPPORTED)
    ensures Supported(batch) ==> FirstUnadmitted(batch, text, n)
    ensures Supported(batch) ==>
            (verdict == Interleaved(batch, text, bind, 0) <==>
             || TextDoesNotThrow(batch, text, n) || NoBindFails(batch, text, bind, n))
  {
    var texts;
    texts, n := CheckBatchText(batch, text);
    verdict := texts.verdict;
    if !verdict.ThrownText? {
      var i := 0;
      while i < |texts.units|
        invariant i <= |texts.units| && FirstBindFailure(texts.units, bind, 0) == FirstBindFailure(texts.units, bind, i)
        invariant verdict == texts.verdict
      {
        var bound := bind(texts.units[i].unit, texts.units[i].enums);
        if bound.BindFails? {
          verdict := FailedBind(bound.error);
          break;
        }
        i := i + 1;
      }
    }
    assert verdict == Split(texts, bind);
    if Supported(batch) {
      SplitAgrees(batch, text, bind, n, texts);
    }
  }

  predicate TextDoesNotThrow<U>(batch: seq<Statement>, text: Statement -> TextResult<U>, n: nat) {
    n < |batch| ==> !text(batch[n]).TextThrows?
  }

  ghost predicate NoBindFails<U>(batch: seq<Statement>, text: Statement -> TextResult<U>,
                                 bind: (U, set<string>) -> BindResult, n: nat)
  {
    forall i :: 0 <= i < n && i < |batch| && text(batch[i]).TextAdmits? ==>
      bind(text(batch[i]).unit, EnumsOf(batch[..i])).Binds?
  }

  /** Interleaving meets the first failing bind of the admitted prefix, and otherwise the first unadmitted text. */
  lemma {:induction false} InterleavedIsFirst<U>(batch: seq<Statement>, text: Statement -> TextResult<U>,
                                                 bind: (U, set<string>) -> BindResult, n: nat,
                                                 units: seq<Planned<U>>, i: nat)
    requires FirstUnadmitted(batch, text, n) && PlannedUpTo(batch, text, n, units) && i <= n
    ensures Interleaved(batch, text, bind, i) ==
            var bound := FirstBindFailure(units, bind, i);
            if bound.FailedBind? then bound else TextVerdict(batch, text, n)
    ensures FirstBindFailure(units, bind, i).FailedBind? || FirstBindFailure(units, bind, i).Allowed?
    ensures FirstBindFailure(units, bind, i).Allowed? <==>
            forall k :: i <= k < n ==> bind(units[k].unit, units[k].enums).Binds?
    decreases n - i
  {
    if i < n {
      InterleavedIsFirst(batch, text, bind, n, units, i + 1);
    }
  }

  /** Splitting the phases reports the interleaved verdict unless an unparsable text hides an earlier failing bind. */
  lemma SplitAgrees<U>(batch: seq<Statement>, text: Statement -> TextResult<U>, bind: (U, set<string>) -> BindResult,
                       n: nat,
                       texts: Texts<U>)
    requires FirstUnadmitted(batch, text, n) && PlannedUpTo(batch, text, n, texts.units)
    requires texts.verdict == TextVerdict(batch, text, n)
    ensures Split(texts, bind) == Interleaved(batch, text, bind, 0) <==>
            TextDoesNotThrow(batch, text, n) || NoBindFails(batch, text, bind, n)
  {
    InterleavedIsFirst(batch, text, bind, n, texts.units, 0);
  }

  /** Two statements, the first failing to bind and the second failing to parse: the split check reports the second. */
  lemma UnparsableTextHidesAnEarlierFailure()
    ensures var batch := [EnumStatement("__pivot_enum", "e"), SelectStatement("s")];
            var text := (t: Statement) => if t.EnumStatement? then TextAdmits(0) else TextThrows("parser");
            var bind := (u: int, enums: set<string>) => BindFails("binder");
            && Supported(batch) && Interleaved(batch, text, bind, 0) == FailedBind("binder")
            && Split(Texts(TextVerdict(batch, text, 1), [Planned(0, {})]), bind) == ThrownText("parser")
            && PlannedUpTo(batch, text, 1, [Planned(0, {})])
  {
    var batch := [EnumStatement("__pivot_enum", "e"), SelectStatement("s")];
    assert batch[0] == EnumStatement("__pivot_enum", "e") && EnumsOf(batch[..0]) == {};
  }
}
