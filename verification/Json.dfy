/** A parsed JSON document, read the way the walk reads it: absent members are a value too. */
module Jsons {
  import opened Names

  /** `Missing` is what looking up an absent member gives. A number records its value when it is an unsigned integer. */
  datatype Json =
    | Missing
    | Null
    | Bool(b: bool)
    | Number(unsigned: Option<nat>)
    | Str(text: string)
    | Arr(items: seq<Json>)
    | Obj(fields: seq<Member>)

  datatype Member = Member(key: string, value: Json)

  function Weight(j: Json): nat
    decreases j, 0
  {
    match j
    case Missing => 0
    case Arr(items) => 1 + WeighItems(items)
    case Obj(fields) => 1 + WeighFields(fields)
    case _ => 1
  }

  function WeighItems(items: seq<Json>): nat
    decreases items
  {
    if items == [] then 0 else WeighItems(items[..|items| - 1]) + Weight(items[|items| - 1])
  }

  function WeighFields(fields: seq<Member>): nat
    decreases fields
  {
    if fields == [] then 0 else WeighFields(fields[..|fields| - 1]) + Weight(fields[|fields| - 1].value)
  }

  lemma {:induction false} ItemWeight(items: seq<Json>, i: nat)
    requires i < |items|
    ensures Weight(items[i]) <= WeighItems(items)
    decreases items
  {
    if i < |items| - 1 {
      ItemWeight(items[..|items| - 1], i);
    }
  }

  lemma {:induction false} FieldWeight(fields: seq<Member>, i: nat)
    requires i < |fields|
    ensures Weight(fields[i].value) <= WeighFields(fields)
    decreases fields
  {
    if i < |fields| - 1 {
      FieldWeight(fields[..|fields| - 1], i);
    }
  }

  function FirstNamed(fields: seq<Member>, key: string): (r: Json)
    ensures Weight(r) <= WeighFields(fields)
  {
    if fields == [] then Missing
    else
      var earlier := FirstNamed(fields[..|fields| - 1], key);
      if earlier == Missing && fields[|fields| - 1].key == key then fields[|fields| - 1].value else earlier
  }

  /** A member of an object; `Missing` when there is none or the value is no object. */
  function Get(j: Json, key: string): (r: Json)
    ensures Weight(r) <= Weight(j) && (r != Missing ==> j.Obj? && Weight(r) < Weight(j))
    ensures j != Missing ==> Weight(r) < Weight(j)
  {
    if j.Obj? then FirstNamed(j.fields, key) else Missing
  }

  function Items(j: Json): (r: seq<Json>)
    ensures forall i :: 0 <= i < |r| ==> Weight(r[i]) < Weight(j)
  {
    if j.Arr? then
      assert forall i :: 0 <= i < |j.items| ==> Weight(j.items[i]) < Weight(j) by {
        forall i | 0 <= i < |j.items| ensures Weight(j.items[i]) < Weight(j) {
          ItemWeight(j.items, i);
        }
      }
      j.items
    else []
  }

  function Text(j: Json): string {
    if j.Str? then j.text else ""
  }

  function Field(j: Json, key: string): string {
    Text(Get(j, key))
  }

  const SIGN_BIT: nat := 0x8000_0000_0000_0000

  /** The node's offset in the caller's text, as a signed 64-bit number; negative when none was recorded. */
  function Position(j: Json): int {
    match Get(j, "query_location")
    case Number(Some(n)) => if n % (2 * SIGN_BIT) < SIGN_BIT then n % (2 * SIGN_BIT)
      else n % (2 * SIGN_BIT) - 2 * SIGN_BIT
    case _ => -1
  }
}
