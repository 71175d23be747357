/** The two side scans of the syntax walk: is an expression a literal form, and does it refer to rows? */
module AstLiterals {
  import opened Names
  import opened Jsons
  import opened Trees
  import opened Unfolding
  import opened Scans

  // ------------------------------------------------------- reading a call

  /** The components of a written name, folded; nothing when a qualified name is malformed. */
  function WrittenPath(j: Json, call: bool): Option<NamePath> {
    var qualified := Get(j, "qualified_name");
    if qualified != Missing then
      var parts := Get(qualified, "path");
      if parts.Arr? && parts.items != [] && forall i :: 0 <= i < |parts.items| ==> parts.items[i].Str?
      then Some(FoldPath(seq(|parts.items|, i requires 0 <= i < |parts.items| => Text(parts.items[i]))))
      else None
    else
      var catalog := Field(j, if call then "catalog" else "catalog_name");
      var schema := Field(j, if call then "schema" else "schema_name");
      var leaf := Field(j, if call then "function_name" else "table_name");
      Some(FoldPath((if catalog != "" then [catalog, schema] else if schema != "" then [schema] else []) + [leaf]))
  }

  /** The argument expressions of a call, in call order: plain children, then named pairs. */
  function Arguments(call: Json): (r: seq<Json>)
    ensures forall i :: 0 <= i < |r| ==> Weight(r[i]) < Weight(call)
  {
    var named := Items(Get(call, "arguments"));
    Items(Get(call, "children")) + seq(|named|, i requires 0 <= i < |named| => Get(named[i], "expression"))
  }

  // ------------------------------------------------------- literal forms

  predicate BuiltinPath(path: NamePath, name: string) {
    path == [name] || path == ["main", name] || path == ["system", "main", name] || path == ["system", "", name]
  }

  /** Which forms a context admits: list and struct constructors, and the names of a PIVOT list. */
  datatype Forms = Forms(containers: bool, pivotNames: bool)

  function InspectContainer(e: Json, name: string, call: bool): (r: Step<Json>)
    ensures r.Goes? ==> forall i :: 0 <= i < |r.next| ==> Weight(r.next[i]) < Weight(e)
  {
    var early: set<string> := if call then {} else {"list_value"};
    var late: set<string> := if call then {name} else {"list_value"};
    if Get(e, "filter") != Missing || Items(Get(Get(e, "order_bys"), "orders")) != [] then Refuses(early)
    else
      var path := WrittenPath(e, true);
      if call && path.None? then Halts
      else if call && !BuiltinPath(path.value, name) then Refuses(late)
      else if !Get(e, "children").Arr? && !Get(e, "arguments").Arr? then Refuses(late)
      else Goes(late, Arguments(e))
  }

  function InspectLiteral(forms: Forms, e: Json): (r: Step<Json>)
    ensures r.Goes? ==> forall i :: 0 <= i < |r.next| ==> Weight(r.next[i]) < Weight(e)
  {
    var kind := Field(e, "class");
    var name := Lower(Field(e, "function_name"));
    if kind == "CONSTANT" || kind == "PARAMETER" then Goes({}, [])
    else if forms.pivotNames && kind == "COLUMN_REF" && |Items(Get(e, "column_names"))| == 1 then Goes({}, [])
    else if kind == "CAST" then Goes({}, [Get(e, "child")])
    else if forms.containers && kind == "OPERATOR" && Field(e, "type") == "ARRAY_CONSTRUCTOR" then
      InspectContainer(e, name, false)
    else if forms.containers && kind == "FUNCTION"
            && (name == "list_value" || name == "struct_pack" || (forms.pivotNames && name == "row")) then
      InspectContainer(e, name, true)
    else Refuses({})
  }

  function LiteralStep(forms: Forms): (r: Json -> Step<Json>)
    ensures Shrinks(Pushes(r), Weight)
  {
    e => InspectLiteral(forms, e)
  }

  function LiteralScan(forms: Forms, budget: nat, e: Json): Scan {
    ScanFrom(LiteralStep(forms), Weight, budget, e)
  }

  function LiteralTree(forms: Forms, e: Json): Tree<Json> {
    Unfold(Pushes(LiteralStep(forms)), Weight, e)
  }

  method BindLiteral(forms: Forms, budget: nat, value: Json) returns (r: Scan)
    ensures r == LiteralScan(forms, budget, value)
    ensures r.ending == Finished <==> Everywhere(Passes(LiteralStep(forms)), LiteralTree(forms, value))
                                      && Size(LiteralTree(forms, value)) <= budget
  {
    FinishesIffEverywhere(LiteralStep(forms), Weight, budget, value);
    r := ScanStack(LiteralStep(forms), Weight, budget, value);
  }

  // ------------------------------------------------------- row references

  predicate RowReference(e: Json) {
    !e.Arr? && (Field(e, "class") == "COLUMN_REF" || Field(e, "class") == "SUBQUERY")
  }

  function Present(e: Json, keys: seq<string>): (r: seq<Json>)
    ensures forall i :: 0 <= i < |r| ==> Weight(r[i]) < Weight(e)
  {
    if keys == [] then []
    else
      var last := Get(e, keys[|keys| - 1]);
      Present(e, keys[..|keys| - 1]) + if last == Missing then [] else [last]
  }

  function Operands(e: Json): (r: seq<Json>)
    ensures forall i :: 0 <= i < |r| ==> Weight(r[i]) < Weight(e)
  {
    var kind := Field(e, "class");
    if e.Arr? then Items(e)
    else if kind == "CONSTANT" || kind == "TYPE" || kind == "LAMBDA" then []
    else
      Present(e, ["children", "arguments", "expression", "child", "left", "right", "input", "lower", "upper",
                  "else_expr",
                  "case_checks", "when_expr", "then_expr"])
  }

  /** A row reference ends the scan; everything else is descended into. */
  function ReferenceStep(): (r: Json -> Step<Json>)
    ensures Shrinks(Pushes(r), Weight)
  {
    e => if RowReference(e) then Halts else Goes({}, Operands(e))
  }

  predicate RuntimeReference(budget: nat, e: Json) {
    ScanFrom(ReferenceStep(), Weight, budget, e).ending == Halted
  }

  function OperandTree(e: Json): Tree<Json> {
    Unfold(Pushes(ReferenceStep()), Weight, e)
  }

  method HasRuntimeReference(budget: nat, value: Json) returns (r: bool)
    ensures r == RuntimeReference(budget, value)
    ensures Size(OperandTree(value)) <= budget ==>
              (r <==> exists e :: e in Nodes(OperandTree(value)) && RowReference(e))
  {
    if Size(OperandTree(value)) <= budget {
      ReferenceFound(budget, value);
    }
    var scan := ScanStack(ReferenceStep(), Weight, budget, value);
    r := scan.ending == Halted;
  }

  /** Within the node limit, the scan finds a row reference exactly when there is one. */
  lemma ReferenceFound(budget: nat, e: Json)
    requires Size(OperandTree(e)) <= budget
    ensures RuntimeReference(budget, e) <==> exists x :: x in Nodes(OperandTree(e)) && RowReference(x)
  {
    var step := ReferenceStep();
    var order := Order(Pushes(step), Weight, [e]);
    OrderOfOne(Pushes(step), Weight, e);
    HaltedMeans(step, budget, order);
    assert forall x :: x in order <==> x in multiset(order);
  }
}
