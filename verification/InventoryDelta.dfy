/** Function inventories as multisets of rows: grouped deltas, patching, and staged reconstruction. */
module InventoryDelta {
  import opened Names

  /** A captured function signature: its qualified identity and everything else the row carries. */
  datatype Row = Row(catalog: string, schemaPath: seq<string>, name: string, kind: string, rest: string)

  datatype Key = Key(catalog: string, schemaPath: seq<string>, name: string, kind: string)

  function KeyOf(r: Row): Key {
    Key(r.catalog, r.schemaPath, r.name, r.kind)
  }

  /** A total order. */
  datatype Order<!T(!new)> = Order(atMost: (T, T) -> bool)
  {
    ghost predicate Valid() {
      && (forall a, b :: atMost(a, b) || atMost(b, a))
      && (forall a, b :: atMost(a, b) && atMost(b, a) ==> a == b)
      && (forall a, b, c :: atMost(a, b) && atMost(b, c) ==> atMost(a, c))
    }

    ghost predicate Less(a: T, b: T) {
      a != b && atMost(a, b)
    }
  }

  /** The rows' canonical text and back, and the order texts are sorted by. */
  datatype Codec = Codec(encode: Row -> string, decode: string -> Row, order: Order<string>)
  {
    ghost predicate Valid() {
      order.Valid() && forall r :: decode(encode(r)) == r
    }

    ghost predicate AtMost(a: Row, b: Row) {
      order.atMost(encode(a), encode(b))
    }
  }

  // ------------------------------------------------------- the orders rows and identities are sorted by

  predicate LexAtMost<T(==, !new)>(order: Order<T>, a: seq<T>, b: seq<T>) {
    if a == [] then true
    else if b == [] then false
    else if a[0] == b[0] then LexAtMost(order, a[1..], b[1..])
    else order.atMost(a[0], b[0])
  }

  function Lexicographic<T(==, !new)>(order: Order<T>): Order<seq<T>> {
    Order((a: seq<T>, b: seq<T>) => LexAtMost(order, a, b))
  }

  /** Texts by their characters, first difference first. */
  function TextOrder(): Order<string> {
    Lexicographic(Order((a: char, b: char) => a <= b))
  }

  /** Identities as tuples of texts, the schema path a tuple of its own. */
  predicate KeyAtMost(text: Order<string>, path: Order<seq<string>>, a: Key, b: Key) {
    if a.catalog != b.catalog then text.atMost(a.catalog, b.catalog)
    else if a.schemaPath != b.schemaPath then path.atMost(a.schemaPath, b.schemaPath)
    else if a.name != b.name then text.atMost(a.name, b.name)
    else text.atMost(a.kind, b.kind)
  }

  function TupleOrder(text: Order<string>, path: Order<seq<string>>): Order<Key> {
    Order((a: Key, b: Key) => KeyAtMost(text, path, a, b))
  }

  function KeyOrder(): Order<Key> {
    TupleOrder(TextOrder(), Lexicographic(TextOrder()))
  }

  lemma {:induction false} LexIsTotal<T(!new)>(order: Order<T>, a: seq<T>, b: seq<T>)
    requires order.Valid()
    ensures LexAtMost(order, a, b) || LexAtMost(order, b, a)
    ensures LexAtMost(order, a, b) && LexAtMost(order, b, a) ==> a == b
  {
    if a != [] && b != [] && a[0] == b[0] {
      LexIsTotal(order, a[1..], b[1..]);
      assert a == [a[0]] + a[1..] && b == [b[0]] + b[1..];
    }
  }

  lemma {:induction false} LexIsTransitive<T(!new)>(order: Order<T>, a: seq<T>, b: seq<T>, c: seq<T>)
    requires order.Valid() && LexAtMost(order, a, b) && LexAtMost(order, b, c)
    ensures LexAtMost(order, a, c)
  {
    if a != [] && a[0] == b[0] && b[0] == c[0] {
      LexIsTransitive(order, a[1..], b[1..], c[1..]);
    }
  }

  lemma LexIsOrder<T(!new)>(order: Order<T>)
    requires order.Valid()
    ensures Lexicographic(order).Valid()
  {
    var lex := Lexicographic(order);
    forall a, b ensures lex.atMost(a, b) || lex.atMost(b, a)
      ensures lex.atMost(a, b) && lex.atMost(b, a) ==> a == b
    {
      LexIsTotal(order, a, b);
    }
    forall a, b, c | lex.atMost(a, b) && lex.atMost(b, c) ensures lex.atMost(a, c) {
      LexIsTransitive(order, a, b, c);
    }
  }

  lemma TupleIsOrder(text: Order<string>, path: Order<seq<string>>)
    requires text.Valid() && path.Valid()
    ensures TupleOrder(text, path).Valid()
  {
    var order := TupleOrder(text, path);
    forall a, b
      ensures order.atMost(a, b) || order.atMost(b, a)
      ensures order.atMost(a, b) && order.atMost(b, a) ==> a == b
    {
      assert KeyAtMost(text, path, a, b) || KeyAtMost(text, path, b, a);
    }
    forall a, b, c | order.atMost(a, b) && order.atMost(b, c) ensures order.atMost(a, c) {
      assert KeyAtMost(text, path, a, c);
    }
  }

  /** The orders the scripts sort by are total. */
  lemma SortingOrdersAreTotal()
    ensures TextOrder().Valid() && KeyOrder().Valid()
  {
    LexIsOrder(Order((a: char, b: char) => a <= b));
    LexIsOrder(TextOrder());
    TupleIsOrder(TextOrder(), Lexicographic(TextOrder()));
  }

  datatype Group = Group(before: seq<Row>, after: seq<Row>)

  datatype Delta = Delta(added: seq<Row>, removed: seq<Row>, changed: seq<Group>)

  ghost predicate Sorted(codec: Codec, rows: seq<Row>) {
    forall i, j :: 0 <= i < j < |rows| ==> codec.AtMost(rows[i], rows[j])
  }

  lemma LastIsGreatest(codec: Codec, a: seq<Row>, row: Row)
    requires codec.Valid() && Sorted(codec, a) && row in multiset(a)
    ensures codec.AtMost(row, a[|a| - 1])
  {
    assert row in a;
    var i :| 0 <= i < |a| && a[i] == row;
  }

  lemma WithoutLast(a: seq<Row>)
    requires a != []
    ensures multiset(a[..|a| - 1]) == multiset(a) - multiset{a[|a| - 1]} && a[|a| - 1] in multiset(a)
    ensures a == a[..|a| - 1] + [a[|a| - 1]]
  {
    assert a == a[..|a| - 1] + [a[|a| - 1]];
  }

  /** A multiset of rows has one sorted listing. */
  lemma {:induction false} SortedIsUnique(codec: Codec, a: seq<Row>, b: seq<Row>)
    requires codec.Valid() && Sorted(codec, a) && Sorted(codec, b) && multiset(a) == multiset(b)
    ensures a == b
  {
    if a == [] || b == [] {
      assert |multiset(a)| == |multiset(b)|;
    } else {
      LastsAgree(codec, a, b);
      WithoutLast(a);
      WithoutLast(b);
      assert Sorted(codec, a[..|a| - 1]) && Sorted(codec, b[..|b| - 1]);
      SortedIsUnique(codec, a[..|a| - 1], b[..|b| - 1]);
    }
  }

  lemma LastsAgree(codec: Codec, a: seq<Row>, b: seq<Row>)
    requires codec.Valid() && Sorted(codec, a) && Sorted(codec, b) && multiset(a) == multiset(b) && a != [] && b != []
    ensures a[|a| - 1] == b[|b| - 1]
  {
    var x, y := a[|a| - 1], b[|b| - 1];
    assert x in multiset(b) && y in multiset(a);
    LastIsGreatest(codec, a, y);
    LastIsGreatest(codec, b, x);
    SameTextSameRow(codec, x, y);
  }

  lemma SameTextSameRow(codec: Codec, x: Row, y: Row)
    requires codec.Valid() && codec.encode(x) == codec.encode(y)
    ensures x == y
  {
    assert codec.decode(codec.encode(x)) == codec.decode(codec.encode(y));
  }

  // ------------------------------------------------------- counters

  function Count(counter: map<string, nat>, text: string): nat {
    if text in counter then counter[text] else 0
  }

  /** A counter keyed by row text that counts the rows of `m`. */
  ghost predicate Counts(codec: Codec, counter: map<string, nat>, m: multiset<Row>) {
    && (forall r :: Count(counter, codec.encode(r)) == m[r])
    && (forall t :: t in counter ==> codec.encode(codec.decode(t)) == t)
  }

  lemma CountStep(codec: Codec, counter: map<string, nat>, m: multiset<Row>, row: Row, m': multiset<Row>)
    requires codec.Valid() && Counts(codec, counter, m)
    requires forall r :: r != row ==> m'[r] == m[r]
    ensures Counts(codec, counter[codec.encode(row) := m'[row]], m')
  {
    var counter' := counter[codec.encode(row) := m'[row]];
    forall r ensures Count(counter', codec.encode(r)) == m'[r] {
      if r != row {
        assert codec.decode(codec.encode(r)) != codec.decode(codec.encode(row));
        assert Count(counter, codec.encode(r)) == m[r];
      }
    }
  }

  method Tally(codec: Codec, rows: seq<Row>) returns (counter: map<string, nat>)
    requires codec.Valid()
    ensures Counts(codec, counter, multiset(rows))
  {
    counter := map[];
    for i := 0 to |rows|
      invariant Counts(codec, counter, multiset(rows[..i]))
    {
      counter := AddOne(codec, counter, rows[i], multiset(rows[..i]));
      assert rows[..i + 1] == rows[..i] + [rows[i]];
    }
    assert rows[..|rows|] == rows;
  }

  method AddOne(codec: Codec, counter: map<string, nat>, row: Row, ghost m: multiset<Row>)
    returns (counter': map<string, nat>)
    requires codec.Valid() && Counts(codec, counter, m)
    ensures Counts(codec, counter', m + multiset{row})
  {
    CountStep(codec, counter, m, row, m + multiset{row});
    counter' := counter[codec.encode(row) := Count(counter, codec.encode(row)) + 1];
  }

  // ------------------------------------------------------- listing a counter in text order

  method SortedTexts(order: Order<string>, texts: set<string>) returns (s: seq<string>)
    requires order.Valid()
    ensures forall t :: t in s <==> t in texts
    ensures forall i, j :: 0 <= i < j < |s| ==> order.Less(s[i], s[j])
  {
    s := [];
    var left := texts;
    while left != {}
      invariant forall t :: t in texts <==> t in s || t in left
      invariant forall i, j :: 0 <= i < j < |s| ==> order.Less(s[i], s[j])
      invariant forall i, t :: 0 <= i < |s| && t in left ==> order.Less(s[i], t)
      decreases left
    {
      var least := Least(order, left);
      s := s + [least];
      left := left - {least};
    }
  }

  lemma HasMember<T>(all: set<T>)
    requires all != {}
    ensures exists x :: x in all
  {
    assert (forall x :: x !in all) ==> all == {};
  }

  /** The first of `all` in the order. */
  method Least<T(==, !new)>(order: Order<T>, all: set<T>) returns (least: T)
    requires order.Valid() && all != {}
    ensures least in all && forall x :: x in all && x != least ==> order.Less(least, x)
  {
    HasMember(all);
    least :| least in all;
    var left := all - {least};
    while left != {}
      invariant least in all && left <= all
      invariant forall x :: x in all ==> x in left || order.atMost(least, x)
      decreases left
    {
      HasMember(left);
      var x :| x in left;
      if order.atMost(x, least) {
        least := x;
      }
      left := left - {x};
    }
  }

  function Repeated(row: Row, n: nat): (r: seq<Row>)
    ensures |r| == n && forall i :: 0 <= i < n ==> r[i] == row
    ensures forall x :: multiset(r)[x] == if x == row then n else 0
  {
    if n == 0 then [] else
      var r := Repeated(row, n - 1);
      assert multiset(r + [row]) == multiset(r) + multiset{row};
      r + [row]
  }

  /** The counter's rows, duplicates included, in text order. */
  method Listed(codec: Codec, counter: map<string, nat>, ghost m: multiset<Row>) returns (rows: seq<Row>)
    requires codec.Valid() && Counts(codec, counter, m)
    ensures Sorted(codec, rows) && multiset(rows) == m
  {
    var texts := SortedTexts(codec.order, counter.Keys);
    rows := [];
    for i := 0 to |texts|
      invariant Sorted(codec, rows)
      invariant forall k :: 0 <= k < |rows| ==> codec.encode(rows[k]) in texts[..i]
      invariant forall r :: multiset(rows)[r] == if codec.encode(r) in texts[..i] then m[r] else 0
    {
      var t := texts[i];
      assert t in texts;
      var row := codec.decode(t);
      var block := Repeated(row, counter[t]);
      OneMoreText(codec, texts, i, rows, block, row, m);
      rows := rows + block;
    }
    assert texts[..|texts|] == texts;
    forall r ensures multiset(rows)[r] == m[r] {
      if codec.encode(r) !in texts {
        assert Count(counter, codec.encode(r)) == m[r];
      }
    }
  }

  lemma OneMoreText(codec: Codec, texts: seq<string>, i: nat, rows: seq<Row>, block: seq<Row>, row: Row,
                    m: multiset<Row>)
    requires codec.Valid() && i < |texts| && codec.encode(row) == texts[i]
    requires forall a, b :: 0 <= a < b < |texts| ==> codec.order.Less(texts[a], texts[b])
    requires Sorted(codec, rows) && forall k :: 0 <= k < |rows| ==> codec.encode(rows[k]) in texts[..i]
    requires forall r :: multiset(rows)[r] == if codec.encode(r) in texts[..i] then m[r] else 0
    requires (forall k :: 0 <= k < |block| ==> block[k] == row)
             && forall x :: multiset(block)[x] == if x == row then m[row] else 0
    ensures Sorted(codec, rows + block)
    ensures forall k :: 0 <= k < |rows + block| ==> codec.encode((rows + block)[k]) in texts[..i + 1]
    ensures forall r :: multiset(rows + block)[r] == if codec.encode(r) in texts[..i + 1] then m[r] else 0
  {
    assert texts[..i + 1] == texts[..i] + [texts[i]];
    assert texts[i] !in texts[..i];
    forall k | 0 <= k < |rows| ensures codec.order.Less(codec.encode(rows[k]), texts[i]) {
      assert codec.encode(rows[k]) in texts[..i];
    }
    forall r ensures multiset(rows + block)[r] == if codec.encode(r) in texts[..i + 1] then m[r] else 0 {
      assert multiset(rows + block)[r] == multiset(rows)[r] + multiset(block)[r];
      if codec.encode(r) == texts[i] {
        assert r == codec.decode(codec.encode(r)) == row;
      }
    }
  }

  // ------------------------------------------------------- patching

  function Befores(groups: seq<Group>): seq<Row> {
    if groups == [] then [] else Befores(groups[..|groups| - 1]) + groups[|groups| - 1].before
  }

  function Afters(groups: seq<Group>): seq<Row> {
    if groups == [] then [] else Afters(groups[..|groups| - 1]) + groups[|groups| - 1].after
  }

  function Removed(delta: Delta): seq<Row> {
    delta.removed + Befores(delta.changed)
  }

  function Added(delta: Delta): seq<Row> {
    delta.added + Afters(delta.changed)
  }

  /** A delta fits a listing when it removes no signature more often than the listing holds it. */
  ghost predicate Fits(before: seq<Row>, delta: Delta) {
    multiset(Removed(delta)) <= multiset(before)
  }

  /** A sorted listing takes one more row. */
  lemma {:induction false} InsertOne(codec: Codec, rows: seq<Row>, row: Row) returns (r: seq<Row>)
    requires codec.Valid() && Sorted(codec, rows)
    ensures Sorted(codec, r) && multiset(r) == multiset(rows) + multiset{row}
  {
    if rows == [] || codec.AtMost(rows[|rows| - 1], row) {
      AllBelowLast(codec, rows, row);
      SortedAppend(codec, rows, row);
      r := rows + [row];
    } else {
      var n := |rows| - 1;
      assert rows == rows[..n] + [rows[n]];
      var init := InsertOne(codec, rows[..n], row);
      AllBelow(codec, rows, row, init);
      SortedAppend(codec, init, rows[n]);
      r := init + [rows[n]];
    }
  }

  lemma SortedAppend(codec: Codec, rows: seq<Row>, last: Row)
    requires Sorted(codec, rows) && forall i :: 0 <= i < |rows| ==> codec.AtMost(rows[i], last)
    ensures Sorted(codec, rows + [last])
  {
  }

  lemma AllBelow(codec: Codec, rows: seq<Row>, row: Row, init: seq<Row>)
    requires codec.Valid() && rows != [] && Sorted(codec, rows) && codec.AtMost(row, rows[|rows| - 1])
    requires multiset(init) == multiset(rows[..|rows| - 1]) + multiset{row}
    ensures forall i :: 0 <= i < |init| ==> codec.AtMost(init[i], rows[|rows| - 1])
  {
    forall i | 0 <= i < |init| ensures codec.AtMost(init[i], rows[|rows| - 1]) {
      assert init[i] in multiset(init);
      if init[i] != row {
        assert init[i] in rows[..|rows| - 1];
      }
    }
  }

  lemma AllBelowLast(codec: Codec, rows: seq<Row>, row: Row)
    requires codec.Valid() && Sorted(codec, rows) && (rows != [] ==> codec.AtMost(rows[|rows| - 1], row))
    ensures forall i :: 0 <= i < |rows| ==> codec.AtMost(rows[i], row)
  {
    forall i | 0 <= i < |rows| ensures codec.AtMost(rows[i], row) {
      assert i < |rows| - 1 ==> codec.AtMost(rows[i], rows[|rows| - 1]);
    }
  }

  lemma {:induction false} ListingExists(codec: Codec, m: multiset<Row>) returns (r: seq<Row>)
    requires codec.Valid()
    ensures Sorted(codec, r) && multiset(r) == m
    decreases |m|
  {
    if m == multiset{} {
      r := [];
    } else {
      var row :| row in m;
      var rest := ListingExists(codec, m - multiset{row});
      r := InsertOne(codec, rest, row);
      assert m == m - multiset{row} + multiset{row};
    }
  }

  ghost predicate Lists(codec: Codec, m: multiset<Row>, rows: seq<Row>) {
    Sorted(codec, rows) && multiset(rows) == m
  }

  /** The one listing of a multiset of rows in text order. */
  ghost function Listing(codec: Codec, m: multiset<Row>): (r: seq<Row>)
    requires codec.Valid()
    ensures Lists(codec, m, r)
  {
    assert exists r :: Lists(codec, m, r) by {
      var r := ListingExists(codec, m);
      assert Lists(codec, m, r);
    }
    var r :| Lists(codec, m, r);
    r
  }

  /** Multiset subtraction then addition, listed in text order; nothing when a removed signature is missing. */
  ghost function Patched(codec: Codec, before: seq<Row>, delta: Delta): Option<seq<Row>>
    requires codec.Valid()
  {
    if Fits(before, delta)
    then Some(Listing(codec, multiset(before) - multiset(Removed(delta)) + multiset(Added(delta)))) else None
  }

  method ApplyDelta(codec: Codec, before: seq<Row>, delta: Delta) returns (r: Option<seq<Row>>)
    requires codec.Valid()
    ensures r == Patched(codec, before, delta)
  {
    var counter: map<string, nat> := Tally(codec, before);
    ghost var m := multiset(before);
    var ok;
    ok, counter := SubtractAll(codec, counter, Removed(delta), m);
    if !ok {
      return None;
    }
    counter := AddAll(codec, counter, Added(delta), m - multiset(Removed(delta)));
    ghost var patched := m - multiset(Removed(delta)) + multiset(Added(delta));
    var rows := Listed(codec, counter, patched);
    SortedIsUnique(codec, rows, Listing(codec, patched));
    r := Some(rows);
  }

  method SubtractAll(codec: Codec, counter: map<string, nat>, removed: seq<Row>, ghost m: multiset<Row>)
    returns (ok: bool, left: map<string, nat>)
    requires codec.Valid() && Counts(codec, counter, m)
    ensures ok <==> multiset(removed) <= m
    ensures ok ==> Counts(codec, left, m - multiset(removed))
  {
    left := counter;
    for i := 0 to |removed|
      invariant Subtracted(codec, left, m, removed[..i])
    {
      ok, left := SubtractOne(codec, left, removed, i, m);
      if !ok {
        return;
      }
    }
    assert removed[..|removed|] == removed;
    ok := true;
  }

  /** The counter once the rows of `removed` were taken away, none of them missing. */
  ghost predicate Subtracted(codec: Codec, counter: map<string, nat>, m: multiset<Row>, removed: seq<Row>) {
    multiset(removed) <= m && Counts(codec, counter, m - multiset(removed))
  }

  method SubtractOne(codec: Codec, counter: map<string, nat>, removed: seq<Row>, i: nat, ghost m: multiset<Row>)
    returns (ok: bool, left: map<string, nat>)
    requires codec.Valid() && i < |removed| && Subtracted(codec, counter, m, removed[..i])
    ensures ok ==> Subtracted(codec, left, m, removed[..i + 1])
    ensures !ok ==> !(multiset(removed) <= m)
  {
    left := counter;
    ghost var was := m - multiset(removed[..i]);
    assert Count(left, codec.encode(removed[i])) == was[removed[i]];
    if Count(left, codec.encode(removed[i])) == 0 {
      MissingSignature(removed, i, m);
      return false, left;
    }
    OneMoreRemoved(removed, i, m);
    left := RemoveOne(codec, left, removed[i], was);
    ok := true;
  }

  method AddAll(codec: Codec, counter: map<string, nat>, added: seq<Row>, ghost m: multiset<Row>)
    returns (more: map<string, nat>)
    requires codec.Valid() && Counts(codec, counter, m)
    ensures Counts(codec, more, m + multiset(added))
  {
    more := counter;
    for i := 0 to |added|
      invariant Counts(codec, more, m + multiset(added[..i]))
    {
      assert added[..i + 1] == added[..i] + [added[i]];
      more := AddOne(codec, more, added[i], m + multiset(added[..i]));
      assert m + multiset(added[..i]) + multiset{added[i]} == m + multiset(added[..i + 1]);
    }
    assert added[..|added|] == added;
  }

  method RemoveOne(codec: Codec, counter: map<string, nat>, row: Row, ghost m: multiset<Row>)
    returns (counter': map<string, nat>)
    requires codec.Valid() && Counts(codec, counter, m) && m[row] > 0
    ensures Counts(codec, counter', m - multiset{row})
  {
    assert Count(counter, codec.encode(row)) == m[row];
    CountStep(codec, counter, m, row, m - multiset{row});
    counter' := counter[codec.encode(row) := Count(counter, codec.encode(row)) - 1];
  }

  lemma OneMoreRemoved(removed: seq<Row>, i: nat, m: multiset<Row>)
    requires i < |removed| && multiset(removed[..i]) <= m && (m - multiset(removed[..i]))[removed[i]] > 0
    ensures multiset(removed[..i + 1]) <= m
    ensures m - multiset(removed[..i]) - multiset{removed[i]} == m - multiset(removed[..i + 1])
  {
    assert removed[..i + 1] == removed[..i] + [removed[i]];
  }

  lemma MissingSignature(removed: seq<Row>, i: nat, m: multiset<Row>)
    requires i < |removed| && multiset(removed[..i]) <= m && (m - multiset(removed[..i]))[removed[i]] == 0
    ensures !(multiset(removed) <= m)
  {
    var x := removed[i];
    assert removed == removed[..i] + [x] + removed[i + 1..];
    assert multiset(removed)[x] >= multiset(removed[..i])[x] + 1;
  }

  // ------------------------------------------------------- diffing

  /** `rows` are the rows of `m` with identity `k`. */
  ghost predicate IsGroup(m: multiset<Row>, k: Key, rows: seq<Row>) {
    forall r :: multiset(rows)[r] == if KeyOf(r) == k then m[r] else 0
  }

  /** The dictionary of groups: one entry per identity that occurs. */
  ghost predicate Gathered(m: multiset<Row>, g: map<Key, seq<Row>>) {
    && (forall r :: r in m ==> KeyOf(r) in g)
    && (forall k :: k in g ==> g[k] != [] && IsGroup(m, k, g[k]))
  }

  /** Rows grouped by exact qualified identity, each group sorted. */
  ghost predicate Grouped(compact: Codec, m: multiset<Row>, g: map<Key, seq<Row>>) {
    Gathered(m, g) && forall k :: k in g ==> Sorted(compact, g[k])
  }

  lemma GroupGrows(m: multiset<Row>, rows: seq<Row>, row: Row)
    requires IsGroup(m, KeyOf(row), rows)
    ensures IsGroup(m + multiset{row}, KeyOf(row), rows + [row])
  {
    forall r ensures multiset(rows + [row])[r] == if KeyOf(r) == KeyOf(row) then (m + multiset{row})[r] else 0 {
      assert multiset(rows + [row])[r] == multiset(rows)[r] + multiset{row}[r];
    }
  }

  lemma GroupStays(m: multiset<Row>, k: Key, rows: seq<Row>, row: Row)
    requires IsGroup(m, k, rows) && k != KeyOf(row)
    ensures IsGroup(m + multiset{row}, k, rows)
  {
    forall r ensures multiset(rows)[r] == if KeyOf(r) == k then (m + multiset{row})[r] else 0 {
    }
  }

  lemma NoGroup(m: multiset<Row>, g: map<Key, seq<Row>>, k: Key)
    requires Gathered(m, g) && k !in g
    ensures IsGroup(m, k, [])
  {
    forall r: Row ensures KeyOf(r) == k ==> m[r] == 0 {
      if KeyOf(r) == k {
        assert r !in m;
      }
    }
  }

  function GroupAt(g: map<Key, seq<Row>>, k: Key): seq<Row> {
    if k in g then g[k] else []
  }

  lemma GatherOne(m: multiset<Row>, g: map<Key, seq<Row>>, row: Row)
    requires Gathered(m, g)
    ensures Gathered(m + multiset{row}, g[KeyOf(row) := GroupAt(g, KeyOf(row)) + [row]])
  {
    var k := KeyOf(row);
    if k !in g {
      NoGroup(m, g, k);
    }
    GroupGrows(m, GroupAt(g, k), row);
    forall x | x in g && x != k ensures IsGroup(m + multiset{row}, x, g[x]) {
      GroupStays(m, x, g[x], row);
    }
    Regathered(m + multiset{row}, g, k, GroupAt(g, k) + [row]);
  }

  lemma Regathered(m: multiset<Row>, g: map<Key, seq<Row>>, k: Key, group: seq<Row>)
    requires group != [] && IsGroup(m, k, group)
    requires forall r :: r in m ==> KeyOf(r) in g || KeyOf(r) == k
    requires forall x :: x in g && x != k ==> g[x] != [] && IsGroup(m, x, g[x])
    ensures Gathered(m, g[k := group])
  {
  }

  lemma GatherNext(rows: seq<Row>, i: nat, g: map<Key, seq<Row>>)
    requires i < |rows| && Gathered(multiset(rows[..i]), g)
    ensures Gathered(multiset(rows[..i + 1]), g[KeyOf(rows[i]) := GroupAt(g, KeyOf(rows[i])) + [rows[i]]])
  {
    assert rows[..i + 1] == rows[..i] + [rows[i]];
    GatherOne(multiset(rows[..i]), g, rows[i]);
  }

  method Groups(compact: Codec, rows: seq<Row>) returns (g: map<Key, seq<Row>>)
    requires compact.Valid()
    ensures Grouped(compact, multiset(rows), g)
  {
    var gathered: map<Key, seq<Row>> := map[];
    for i := 0 to |rows|
      invariant Gathered(multiset(rows[..i]), gathered)
    {
      GatherNext(rows, i, gathered);
      gathered := gathered[KeyOf(rows[i]) := GroupAt(gathered, KeyOf(rows[i])) + [rows[i]]];
    }
    assert rows[..|rows|] == rows;
    g := SortGroups(compact, gathered, multiset(rows));
  }

  method SortGroups(compact: Codec, gathered: map<Key, seq<Row>>, ghost m: multiset<Row>)
    returns (g: map<Key, seq<Row>>)
    requires compact.Valid() && Gathered(m, gathered)
    ensures Grouped(compact, m, g)
  {
    g := map[];
    var left := gathered.Keys;
    while left != {}
      invariant left <= gathered.Keys && g.Keys == gathered.Keys - left
      invariant forall k :: k in g ==> g[k] != [] && IsGroup(m, k, g[k]) && Sorted(compact, g[k])
      decreases left
    {
      var k :| k in left;
      var sorted := SortGroup(compact, gathered[k], m, k);
      g := g[k := sorted];
      left := left - {k};
    }
  }

  method SortGroup(compact: Codec, rows: seq<Row>, ghost m: multiset<Row>, ghost k: Key) returns (sorted: seq<Row>)
    requires compact.Valid() && rows != [] && IsGroup(m, k, rows)
    ensures sorted != [] && IsGroup(m, k, sorted) && Sorted(compact, sorted)
  {
    var counter := Tally(compact, rows);
    sorted := Listed(compact, counter, multiset(rows));
    assert rows[0] in multiset(sorted);
  }

  /** `rows` are the rows of `m` whose identity is in `keys`, no others and none missing. */
  ghost predicate Selects(rows: seq<Row>, m: multiset<Row>, keys: set<Key>) {
    forall r :: multiset(rows)[r] == if KeyOf(r) in keys then m[r] else 0
  }

  lemma SelectMore(compact: Codec, m: multiset<Row>, g: map<Key, seq<Row>>, rows: seq<Row>, done: set<Key>, k: Key)
    requires Grouped(compact, m, g) && Selects(rows, m, done) && k in g && k !in done
    ensures Selects(rows + g[k], m, done + {k})
  {
    forall r ensures multiset(rows + g[k])[r] == if KeyOf(r) in done + {k} then m[r] else 0 {
      assert IsGroup(m, k, g[k]);
      assert multiset(rows + g[k])[r] == multiset(rows)[r] + multiset(g[k])[r];
    }
  }

  /** Rows as a delta lists them: identities in order, the overloads of each in text order. */
  ghost predicate InOrder(order: Order<Key>, compact: Codec, rows: seq<Row>) {
    forall i, j :: 0 <= i < j < |rows| ==>
      || order.Less(KeyOf(rows[i]), KeyOf(rows[j]))
      || (KeyOf(rows[i]) == KeyOf(rows[j]) && compact.AtMost(rows[i], rows[j]))
  }

  ghost predicate RanksBelow(order: Order<Key>, rows: seq<Row>, k: Key) {
    forall i :: 0 <= i < |rows| ==> order.Less(KeyOf(rows[i]), k)
  }

  lemma OneMoreGroup(order: Order<Key>, compact: Codec, m: multiset<Row>, g: map<Key, seq<Row>>, rows: seq<Row>, k: Key)
    requires order.Valid()
    requires Grouped(compact, m, g) && k in g && InOrder(order, compact, rows) && RanksBelow(order, rows, k)
    ensures InOrder(order, compact, rows + g[k])
    ensures forall x :: order.Less(k, x) ==> RanksBelow(order, rows + g[k], x)
  {
    forall i | 0 <= i < |g[k]| ensures KeyOf(g[k][i]) == k {
      assert IsGroup(m, k, g[k]);
      assert g[k][i] in multiset(g[k]);
    }
  }

  /** The groups outside `left` are listed, in order, and every group in `left` comes later. */
  ghost predicate FlatSoFar(order: Order<Key>, compact: Codec, m: multiset<Row>, keys: set<Key>, left: set<Key>,
                            rows: seq<Row>)
  {
    && left <= keys && Selects(rows, m, keys - left) && InOrder(order, compact, rows)
    && forall k :: k in left ==> RanksBelow(order, rows, k)
  }

  lemma FlatStep(order: Order<Key>, compact: Codec, m: multiset<Row>, g: map<Key, seq<Row>>, keys: set<Key>,
                 left: set<Key>, rows: seq<Row>, k: Key)
    requires order.Valid() && Grouped(compact, m, g) && keys <= g.Keys && FlatSoFar(order, compact, m, keys, left, rows)
    requires k in left && forall x :: x in left && x != k ==> order.Less(k, x)
    ensures FlatSoFar(order, compact, m, keys, left - {k}, rows + g[k])
  {
    SelectMore(compact, m, g, rows, keys - left, k);
    OneMoreGroup(order, compact, m, g, rows, k);
    assert keys - left + {k} == keys - (left - {k});
  }

  method Flattened(order: Order<Key>, compact: Codec, ghost m: multiset<Row>, g: map<Key, seq<Row>>, keys: set<Key>)
    returns (rows: seq<Row>)
    requires order.Valid() && Grouped(compact, m, g) && keys <= g.Keys
    ensures Selects(rows, m, keys) && InOrder(order, compact, rows)
  {
    rows := [];
    var left := keys;
    FlatStart(order, compact, m, keys);
    while left != {}
      invariant FlatSoFar(order, compact, m, keys, left, rows)
      decreases left
    {
      var k := Least(order, left);
      FlatStep(order, compact, m, g, keys, left, rows, k);
      rows := rows + g[k];
      left := left - {k};
    }
    assert keys - left == keys;
  }

  lemma FlatStart(order: Order<Key>, compact: Codec, m: multiset<Row>, keys: set<Key>)
    ensures FlatSoFar(order, compact, m, keys, keys, [])
  {
    assert keys - keys == {};
  }

  predicate Changed(old_: map<Key, seq<Row>>, new_: map<Key, seq<Row>>, k: Key) {
    k in old_ && k in new_ && old_[k] != new_[k]
  }

  /** A changed group: all rows of one identity on either side, not the same ones, each side in text order. */
  ghost predicate WholeGroup(compact: Codec, b: multiset<Row>, a: multiset<Row>, k: Key, group: Group) {
    && group.before != [] && group.after != [] && group.before != group.after
    && IsGroup(b, k, group.before) && IsGroup(a, k, group.after)
    && Sorted(compact, group.before) && Sorted(compact, group.after)
  }

  /** The changed groups are those of `keys`, one each, in their order. */
  ghost predicate GroupsInOrder(order: Order<Key>, compact: Codec, b: multiset<Row>, a: multiset<Row>, keys: seq<Key>,
                                groups: seq<Group>)
  {
    && |keys| == |groups|
    && (forall i :: 0 <= i < |groups| ==> WholeGroup(compact, b, a, keys[i], groups[i]))
    && (forall i, j :: 0 <= i < j < |keys| ==> order.Less(keys[i], keys[j]))
  }

  /** The complete before and after listings of every identity whose overloads differ. */
  method ChangedGroups(order: Order<Key>, compact: Codec, ghost b: multiset<Row>, ghost a: multiset<Row>,
                       old_: map<Key, seq<Row>>, new_: map<Key, seq<Row>>)
    returns (groups: seq<Group>, ghost differ: set<Key>, ghost keys: seq<Key>)
    requires order.Valid() && Grouped(compact, b, old_) && Grouped(compact, a, new_)
    ensures forall k :: k in differ <==> Changed(old_, new_, k)
    ensures Selects(Befores(groups), b, differ) && Selects(Afters(groups), a, differ)
    ensures GroupsInOrder(order, compact, b, a, keys, groups)
  {
    groups, differ, keys := [], {}, [];
    var left := old_.Keys * new_.Keys;
    while left != {}
      invariant left <= old_.Keys * new_.Keys
      invariant forall k :: k in differ <==> Changed(old_, new_, k) && k !in left
      invariant Selects(Befores(groups), b, differ) && Selects(Afters(groups), a, differ)
      invariant GroupsInOrder(order, compact, b, a, keys, groups) && KeysBelow(order, keys, left)
      decreases left
    {
      var k := Least(order, left);
      if old_[k] != new_[k] {
        GroupAdded(compact, b, a, old_, new_, groups, differ, k);
        StillInOrder(order, compact, b, a, keys, groups, Group(old_[k], new_[k]), left, k);
        groups, differ, keys := groups + [Group(old_[k], new_[k])], differ + {k}, keys + [k];
      }
      left := left - {k};
    }
  }

  ghost predicate KeysBelow(order: Order<Key>, keys: seq<Key>, left: set<Key>) {
    forall i, k :: 0 <= i < |keys| && k in left ==> order.Less(keys[i], k)
  }

  lemma StillInOrder(order: Order<Key>, compact: Codec, b: multiset<Row>, a: multiset<Row>, keys: seq<Key>,
                     groups: seq<Group>, group: Group, left: set<Key>, k: Key)
    requires GroupsInOrder(order, compact, b, a, keys, groups) && KeysBelow(order, keys, left) && k in left
    requires WholeGroup(compact, b, a, k, group)
    requires forall x :: x in left && x != k ==> order.Less(k, x)
    ensures GroupsInOrder(order, compact, b, a, keys + [k], groups + [group])
    ensures KeysBelow(order, keys + [k], left - {k})
  {
  }

  lemma GroupAdded(compact: Codec, b: multiset<Row>, a: multiset<Row>, old_: map<Key, seq<Row>>,
                   new_: map<Key, seq<Row>>, groups: seq<Group>, keys: set<Key>, k: Key)
    requires Grouped(compact, b, old_) && Grouped(compact, a, new_) && k in old_ && k in new_ && k !in keys
    requires Selects(Befores(groups), b, keys) && Selects(Afters(groups), a, keys)
    ensures var more := groups + [Group(old_[k], new_[k])];
            Selects(Befores(more), b, keys + {k}) && Selects(Afters(more), a, keys + {k})
  {
    SelectMore(compact, b, old_, Befores(groups), keys, k);
    SelectMore(compact, a, new_, Afters(groups), keys, k);
    assert (groups + [Group(old_[k], new_[k])])[..|groups|] == groups;
  }

  /** What a delta between two inventories is: whole groups, and only those that appear, vanish or differ. */
  ghost predicate DeltaBetween(b: multiset<Row>, a: multiset<Row>, delta: Delta) {
    exists gone, came, differ ::
      && Selects(delta.removed, b, gone) && Selects(delta.added, a, came)
      && Selects(Befores(delta.changed), b, differ) && Selects(Afters(delta.changed), a, differ)
      && Partition(b, a, gone, came, differ)
  }

  ghost predicate Partition(b: multiset<Row>, a: multiset<Row>, gone: set<Key>, came: set<Key>, differ: set<Key>) {
    && (forall r :: r in a ==> KeyOf(r) !in gone) && (forall r :: r in b ==> KeyOf(r) !in came)
    && gone !! came !! differ
    && (forall r :: KeyOf(r) !in gone && KeyOf(r) !in came && KeyOf(r) !in differ ==> b[r] == a[r])
    && (forall k :: k in differ ==> exists r :: KeyOf(r) == k && b[r] != a[r])
  }

  method FunctionDelta(order: Order<Key>, compact: Codec, before: seq<Row>, after: seq<Row>) returns (delta: Delta)
    requires order.Valid() && compact.Valid()
    ensures DeltaBetween(multiset(before), multiset(after), delta)
    ensures InOrder(order, compact, delta.added) && InOrder(order, compact, delta.removed)
    ensures exists keys :: GroupsInOrder(order, compact, multiset(before), multiset(after), keys, delta.changed)
  {
    ghost var b, a := multiset(before), multiset(after);
    var old_ := Groups(compact, before);
    var new_ := Groups(compact, after);
    var added := Flattened(order, compact, a, new_, new_.Keys - old_.Keys);
    var removed := Flattened(order, compact, b, old_, old_.Keys - new_.Keys);
    var changed, differ, keys := ChangedGroups(order, compact, b, a, old_, new_);
    GroupsPartition(compact, b, a, old_, new_, differ);
    delta := Delta(added, removed, changed);
    DeltaAssembles(b, a, delta, old_.Keys - new_.Keys, new_.Keys - old_.Keys, differ);
  }

  lemma DeltaAssembles(b: multiset<Row>, a: multiset<Row>, delta: Delta, gone: set<Key>, came: set<Key>,
                       differ: set<Key>)
    requires Selects(delta.removed, b, gone) && Selects(delta.added, a, came)
    requires Selects(Befores(delta.changed), b, differ) && Selects(Afters(delta.changed), a, differ)
    requires Partition(b, a, gone, came, differ)
    ensures DeltaBetween(b, a, delta)
  {
  }

  lemma SameGroups(compact: Codec, b: multiset<Row>, a: multiset<Row>, old_: map<Key, seq<Row>>, new_: map<Key,
                   seq<Row>>, k: Key)
    requires compact.Valid() && Grouped(compact, b, old_) && Grouped(compact, a, new_) && k in old_ && k in new_
    requires forall r :: KeyOf(r) == k ==> b[r] == a[r]
    ensures old_[k] == new_[k]
  {
    forall r ensures multiset(old_[k])[r] == multiset(new_[k])[r] {
      assert IsGroup(b, k, old_[k]) && IsGroup(a, k, new_[k]);
      if KeyOf(r) == k {
        assert b[r] == a[r];
      }
    }
    assert multiset(old_[k]) == multiset(new_[k]);
    SortedIsUnique(compact, old_[k], new_[k]);
  }

  lemma GroupsPartition(compact: Codec, b: multiset<Row>, a: multiset<Row>, old_: map<Key, seq<Row>>,
                        new_: map<Key, seq<Row>>, differ: set<Key>)
    requires compact.Valid() && Grouped(compact, b, old_) && Grouped(compact, a, new_)
    requires forall k :: k in differ <==> Changed(old_, new_, k)
    ensures Partition(b, a, old_.Keys - new_.Keys, new_.Keys - old_.Keys, differ)
  {
    forall r | KeyOf(r) !in old_.Keys - new_.Keys && KeyOf(r) !in new_.Keys - old_.Keys && KeyOf(r) !in differ
      ensures b[r] == a[r]
    {
      var k := KeyOf(r);
      if k in old_ {
        assert IsGroup(b, k, old_[k]) && IsGroup(a, k, new_[k]);
        assert multiset(old_[k])[r] == b[r] && multiset(new_[k])[r] == a[r];
      }
    }
    forall k | k in differ ensures exists r :: KeyOf(r) == k && b[r] != a[r] {
      if forall r :: KeyOf(r) == k ==> b[r] == a[r] {
        SameGroups(compact, b, a, old_, new_, k);
        assert false;
      }
    }
  }

  // ------------------------------------------------------- round trip and stages

  /** Patching an inventory with its delta never underflows and gives the other inventory back. */
  lemma RoundTrip(before: seq<Row>, after: seq<Row>, delta: Delta)
    requires DeltaBetween(multiset(before), multiset(after), delta)
    ensures Fits(before, delta)
    ensures multiset(before) - multiset(Removed(delta)) + multiset(Added(delta)) == multiset(after)
  {
    var b, a := multiset(before), multiset(after);
    var gone, came, differ :|
      && Selects(delta.removed, b, gone) && Selects(delta.added, a, came)
      && Selects(Befores(delta.changed), b, differ) && Selects(Afters(delta.changed), a, differ)
      && Partition(b, a, gone, came, differ);
    forall r
      ensures multiset(Removed(delta))[r] <= b[r]
      ensures b[r] - multiset(Removed(delta))[r] + multiset(Added(delta))[r] == a[r]
    {
      RoundTripAt(b, a, delta, gone, came, differ, r);
    }
    Balanced(b, a, multiset(Removed(delta)), multiset(Added(delta)));
  }

  lemma Balanced(b: multiset<Row>, a: multiset<Row>, removed: multiset<Row>, added: multiset<Row>)
    requires forall r: Row :: removed[r] <= b[r] && b[r] - removed[r] + added[r] == a[r]
    ensures removed <= b && b - removed + added == a
  {
  }

  /** The count of one row through a patch, by the group its identity falls in. */
  lemma RoundTripAt(b: multiset<Row>, a: multiset<Row>, delta: Delta, gone: set<Key>, came: set<Key>, differ: set<Key>,
                    r: Row)
    requires Selects(delta.removed, b, gone) && Selects(delta.added, a, came)
    requires Selects(Befores(delta.changed), b, differ) && Selects(Afters(delta.changed), a, differ)
    requires Partition(b, a, gone, came, differ)
    ensures multiset(Removed(delta))[r] <= b[r]
    ensures b[r] - multiset(Removed(delta))[r] + multiset(Added(delta))[r] == a[r]
  {
    assert multiset(Removed(delta))[r] == multiset(delta.removed)[r] + multiset(Befores(delta.changed))[r];
    assert multiset(Added(delta))[r] == multiset(delta.added)[r] + multiset(Afters(delta.changed))[r];
  }

  // ------------------------------------------------------- capture and reconstruction

  /** A listing as every capture writes it: sorted by the same text that patching sorts by. */
  method CaptureFunctions(codec: Codec, signatures: seq<Row>) returns (rows: seq<Row>)
    requires codec.Valid()
    ensures Sorted(codec, rows) && multiset(rows) == multiset(signatures)
  {
    var counter := Tally(codec, signatures);
    rows := Listed(codec, counter, multiset(signatures));
  }

  /** A recorded stage: the hash of its listing, and the delta against the stage before it for all but the first. */
  datatype Stage = Stage(delta: Option<Delta>, hash: int)

  /** What a capture of the catalogs in `live` records: the base, a stage per catalog, and the first-to-last delta. */
  datatype Capture = Capture(base: seq<Row>, stages: seq<Stage>, whole: Delta)

  /** `snapshots` are the sorted listings of the live catalogs, and the capture is theirs. */
  ghost predicate Captured(codec: Codec, digest: seq<Row> -> int, live: seq<seq<Row>>, snapshots: seq<seq<Row>>,
                           c: Capture)
  {
    && Recorded(codec, digest, live, snapshots, c.stages) && |c.stages| == |live| && c.base == snapshots[0]
    && DeltaBetween(multiset(c.base), multiset(snapshots[|live| - 1]), c.whole)
  }

  ghost predicate StageOf(digest: seq<Row> -> int, snapshots: seq<seq<Row>>, i: nat, stage: Stage)
    requires i < |snapshots|
  {
    && stage.hash == digest(snapshots[i])
    && (if i == 0 then stage.delta.None?
        else stage.delta.Some?
             && DeltaBetween(multiset(snapshots[i - 1]), multiset(snapshots[i]), stage.delta.value))
  }

  /** What a capture holds once its first `n` catalogs were listed. */
  ghost predicate Recorded(codec: Codec, digest: seq<Row> -> int, live: seq<seq<Row>>, snapshots: seq<seq<Row>>,
                           stages: seq<Stage>)
  {
    && |snapshots| == |stages| && 1 <= |stages| <= |live|
    && (forall i :: 0 <= i < |snapshots| ==> Sorted(codec, snapshots[i]) && multiset(snapshots[i]) == multiset(live[i]))
    && (forall i :: 0 <= i < |stages| ==> StageOf(digest, snapshots, i, stages[i]))
  }

  lemma RecordedStep(codec: Codec, digest: seq<Row> -> int, live: seq<seq<Row>>, snapshots: seq<seq<Row>>,
                     stages: seq<Stage>, after: seq<Row>, delta: Delta)
    requires Recorded(codec, digest, live, snapshots, stages) && |stages| < |live|
    requires Sorted(codec, after) && multiset(after) == multiset(live[|stages|])
    requires DeltaBetween(multiset(snapshots[|stages| - 1]), multiset(after), delta)
    ensures Recorded(codec, digest, live, snapshots + [after], stages + [Stage(Some(delta), digest(after))])
  {
    var longer, more := snapshots + [after], stages + [Stage(Some(delta), digest(after))];
    forall i | 0 <= i < |more| ensures StageOf(digest, longer, i, more[i]) {
      if i < |stages| {
        StageStays(digest, snapshots, after, i, stages[i]);
      } else {
        assert longer[i - 1] == snapshots[i - 1];
      }
    }
  }

  lemma StageStays(digest: seq<Row> -> int, snapshots: seq<seq<Row>>, after: seq<Row>, i: nat, stage: Stage)
    requires i < |snapshots| && StageOf(digest, snapshots, i, stage)
    ensures StageOf(digest, snapshots + [after], i, stage)
  {
    var longer := snapshots + [after];
    assert longer[i] == snapshots[i] && (i > 0 ==> longer[i - 1] == snapshots[i - 1]);
  }

  /** The producer: a listing per load stage, its hash, and its delta against the stage before it. */
  method CaptureStages(order: Order<Key>, codec: Codec, compact: Codec, digest: seq<Row> -> int, live: seq<seq<Row>>)
    returns (c: Capture, ghost snapshots: seq<seq<Row>>)
    requires order.Valid() && codec.Valid() && compact.Valid() && live != []
    ensures Captured(codec, digest, live, snapshots, c)
  {
    var before := CaptureFunctions(codec, live[0]);
    var stages := [Stage(None, digest(before))];
    var previous := before;
    snapshots := [before];
    while |stages| < |live|
      invariant Recorded(codec, digest, live, snapshots, stages)
      invariant snapshots[0] == before && previous == snapshots[|stages| - 1]
      decreases |live| - |stages|
    {
      var after := CaptureFunctions(codec, live[|stages|]);
      var delta := FunctionDelta(order, compact, previous, after);
      RecordedStep(codec, digest, live, snapshots, stages, after, delta);
      stages := stages + [Stage(Some(delta), digest(after))];
      snapshots, previous := snapshots + [after], after;
    }
    var whole := FunctionDelta(order, compact, before, previous);
    c := Capture(before, stages, whole);
  }

  /** The rows of a stage: the base itself for the first, the patched rows of the stage before for every other. */
  ghost function Advanced(codec: Codec, first: bool, rows: seq<Row>, stage: Stage): Option<seq<Row>>
    requires codec.Valid()
  {
    if first != stage.delta.None? then None
    else if first then Some(rows)
    else Patched(codec, rows, stage.delta.value)
  }

  /** A sequence of steps from `start`, each result kept; nothing when a step gives nothing. */
  ghost function Fold<L, S>(step: (bool, L, S) -> Option<L>, start: L, stages: seq<S>): (r: Option<seq<L>>)
    ensures r.Some? ==> |r.value| == |stages|
  {
    if stages == [] then Some([])
    else
      var n := |stages| - 1;
      var earlier := Fold(step, start, stages[..n]);
      if earlier.None? then None
      else
        var next := step(n == 0, if n == 0 then start else earlier.value[n - 1], stages[n]);
        if next.None? then None else Some(earlier.value + [next.value])
  }

  lemma {:induction false} FoldFails<L, S>(step: (bool, L, S) -> Option<L>, start: L, stages: seq<S>, n: nat)
    requires n <= |stages| && Fold(step, start, stages[..n]).None?
    ensures Fold(step, start, stages).None?
    decreases |stages|
  {
    if n == |stages| {
      assert stages[..n] == stages;
    } else {
      assert stages[..|stages| - 1][..n] == stages[..n];
      FoldFails(step, start, stages[..|stages| - 1], n);
    }
  }

  lemma FoldStep<L, S>(step: (bool, L, S) -> Option<L>, start: L, stages: seq<S>, i: nat, results: seq<L>)
    requires i < |stages| && Fold(step, start, stages[..i]) == Some(results)
    ensures var next := step(i == 0, if i == 0 then start else results[i - 1], stages[i]);
            if next.None? then Fold(step, start, stages).None?
            else Fold(step, start, stages[..i + 1]) == Some(results + [next.value])
  {
    var longer := stages[..i + 1];
    assert longer[..|longer| - 1] == stages[..i] && longer[|longer| - 1] == stages[i];
    var next := step(i == 0, if i == 0 then start else results[i - 1], stages[i]);
    assert Fold(step, start, longer) == if next.None? then None else Some(results + [next.value]);
    if next.None? {
      FoldFails(step, start, stages, i + 1);
    }
  }

  lemma {:induction false} FoldFollows<L, S>(step: (bool, L, S) -> Option<L>, stages: seq<S>, results: seq<L>, n: nat)
    requires |results| == |stages| && 0 < |stages| && n <= |stages|
    requires forall i :: 0 <= i < |stages| ==> StepLeads(step, stages, results, i)
    ensures Fold(step, results[0], stages[..n]) == Some(results[..n])
  {
    if n > 0 {
      var i := n - 1;
      FoldFollows(step, stages, results, i);
      assert stages[..n][..i] == stages[..i] && StepLeads(step, stages, results, i);
      assert results[..i] + [results[i]] == results[..n];
    }
  }

  ghost predicate StepLeads<L, S>(step: (bool, L, S) -> Option<L>, stages: seq<S>, results: seq<L>, i: nat)
    requires i < |stages| == |results|
  {
    step(i == 0, results[if i == 0 then 0 else i - 1], stages[i]) == Some(results[i])
  }

  /** The rows of a stage, when they exist and carry its hash. */
  ghost function Checked(codec: Codec, digest: seq<Row> -> int, first: bool, rows: seq<Row>,
                         stage: Stage): Option<seq<Row>>
    requires codec.Valid()
  {
    var next := Advanced(codec, first, rows, stage);
    if next.None? || digest(next.value) != stage.hash then None else next
  }

  ghost function CheckedStep(codec: Codec, digest: seq<Row> -> int): (bool, seq<Row>, Stage) -> Option<seq<Row>>
    requires codec.Valid()
  {
    (first: bool, rows: seq<Row>, stage: Stage) => Checked(codec, digest, first, rows, stage)
  }

  method Advance(codec: Codec, digest: seq<Row> -> int, ghost step: (bool, seq<Row>, Stage) -> Option<seq<Row>>,
                 first: bool, rows: seq<Row>, stage: Stage)
    returns (r: Option<seq<Row>>)
    requires codec.Valid() && step == CheckedStep(codec, digest)
    ensures r == step(first, rows, stage)
  {
    r := None;
    if first == stage.delta.None? {
      if first {
        r := Some(rows);
      } else {
        r := ApplyDelta(codec, rows, stage.delta.value);
      }
    }
    if r.Some? && digest(r.value) != stage.hash {
      r := None;
    }
  }

  /** What reconstruction makes of a record: the folded listings, when they end where the first-to-last delta leads. */
  ghost function Rebuilt(codec: Codec, digest: seq<Row> -> int, c: Capture): Option<seq<seq<Row>>>
    requires codec.Valid()
  {
    Ended(codec, c, Fold(CheckedStep(codec, digest), c.base, c.stages))
  }

  ghost function Ended(codec: Codec, c: Capture, listings: Option<seq<seq<Row>>>): Option<seq<seq<Row>>>
    requires codec.Valid()
  {
    if listings.None? || |listings.value| < 2 then listings
    else if Patched(codec, c.base, c.whole) == Some(listings.value[|listings.value| - 1]) then listings
    else None
  }

  /** The consumer: folds the stage deltas onto the base, checks every hash, then the one first-to-last delta. */
  method Reconstruct(codec: Codec, digest: seq<Row> -> int, c: Capture) returns (r: Option<seq<seq<Row>>>)
    requires codec.Valid()
    ensures r == Rebuilt(codec, digest, c)
  {
    r := ReadStages(codec, digest, CheckedStep(codec, digest), c);
    if r.Some? && |r.value| >= 2 {
      var direct := ApplyDelta(codec, c.base, c.whole);
      if direct != Some(r.value[|r.value| - 1]) {
        r := None;
      }
    }
  }

  method ReadStages(codec: Codec, digest: seq<Row> -> int, ghost step: (bool, seq<Row>, Stage) -> Option<seq<Row>>,
                    c: Capture)
    returns (r: Option<seq<seq<Row>>>)
    requires codec.Valid() && step == CheckedStep(codec, digest)
    ensures r == Fold(step, c.base, c.stages)
  {
    var rows := c.base;
    var listings: seq<seq<Row>> := [];
    for i := 0 to |c.stages|
      invariant Fold(step, c.base, c.stages[..i]) == Some(listings)
      invariant rows == if i == 0 then c.base else listings[i - 1]
    {
      FoldStep(step, c.base, c.stages, i, listings);
      var next := Advance(codec, digest, step, i == 0, rows, c.stages[i]);
      if next.None? {
        return None;
      }
      rows := next.value;
      listings := listings + [rows];
    }
    assert c.stages[..|c.stages|] == c.stages;
    r := Some(listings);
  }

  /** A delta that leads to a sorted listing patches to exactly that listing. */
  lemma PatchLeads(codec: Codec, rows: seq<Row>, target: seq<Row>, delta: Delta)
    requires codec.Valid() && Sorted(codec, target) && DeltaBetween(multiset(rows), multiset(target), delta)
    ensures Patched(codec, rows, delta) == Some(target)
  {
    RoundTrip(rows, target, delta);
    SortedIsUnique(codec, Listing(codec, multiset(target)), target);
  }

  lemma StageReplays(codec: Codec, digest: seq<Row> -> int, live: seq<seq<Row>>, snapshots: seq<seq<Row>>,
                     stages: seq<Stage>, i: nat)
    requires codec.Valid() && Recorded(codec, digest, live, snapshots, stages) && i < |stages|
    ensures StepLeads(CheckedStep(codec, digest), stages, snapshots, i)
  {
    assert StageOf(digest, snapshots, i, stages[i]);
    if i > 0 {
      PatchLeads(codec, snapshots[i - 1], snapshots[i], stages[i].delta.value);
    }
  }

  lemma StagesReplay(codec: Codec, digest: seq<Row> -> int, live: seq<seq<Row>>, snapshots: seq<seq<Row>>,
                     stages: seq<Stage>)
    requires codec.Valid() && Recorded(codec, digest, live, snapshots, stages)
    ensures Fold(CheckedStep(codec, digest), snapshots[0], stages) == Some(snapshots)
  {
    var n := |stages|;
    forall i | 0 <= i < n ensures StepLeads(CheckedStep(codec, digest), stages, snapshots, i) {
      StageReplays(codec, digest, live, snapshots, stages, i);
    }
    FoldFollows(CheckedStep(codec, digest), stages, snapshots, n);
    assert stages[..n] == stages && snapshots[..n] == snapshots;
  }

  /**
   * Capture and reconstruction are inverse: whatever catalogs were captured, no patch underflows, every hash and the
   * first-to-last delta check, and the listings come back exactly as captured.
   */
  lemma ReconstructionInvertsCapture(codec: Codec, digest: seq<Row> -> int, live: seq<seq<Row>>,
                                     snapshots: seq<seq<Row>>, c: Capture)
    requires codec.Valid() && Captured(codec, digest, live, snapshots, c)
    ensures Rebuilt(codec, digest, c) == Some(snapshots)
  {
    StagesReplay(codec, digest, live, snapshots, c.stages);
    PatchLeads(codec, c.base, snapshots[|c.stages| - 1], c.whole);
  }

  // ------------------------------------------------------- unions

  function Max(a: nat, b: nat): nat {
    if a > b then a else b
  }

  /** The most copies of a row any one listing holds. */
  function MostCopies(snapshots: seq<seq<Row>>, r: Row): nat {
    if snapshots == [] then 0
    else Max(MostCopies(snapshots[..|snapshots| - 1], r), multiset(snapshots[|snapshots| - 1])[r])
  }

  function EitherCounter(a: map<string, nat>, b: map<string, nat>): map<string, nat> {
    map t | t in a.Keys + b.Keys :: Max(Count(a, t), Count(b, t))
  }

  ghost predicate CountsMost(codec: Codec, counter: map<string, nat>, snapshots: seq<seq<Row>>) {
    && (forall r :: Count(counter, codec.encode(r)) == MostCopies(snapshots, r))
    && (forall t :: t in counter ==> codec.encode(codec.decode(t)) == t)
  }

  lemma {:induction false} MostIsReached(snapshots: seq<seq<Row>>, r: Row)
    ensures forall i :: 0 <= i < |snapshots| ==> multiset(snapshots[i])[r] <= MostCopies(snapshots, r)
    ensures MostCopies(snapshots, r) > 0 ==>
            exists i :: 0 <= i < |snapshots| && multiset(snapshots[i])[r] == MostCopies(snapshots, r)
  {
    if snapshots != [] {
      var n := |snapshots| - 1;
      MostIsReached(snapshots[..n], r);
      if MostCopies(snapshots, r) > multiset(snapshots[n])[r] {
        var i :| 0 <= i < n && multiset(snapshots[..n][i])[r] == MostCopies(snapshots[..n], r);
        assert snapshots[i] == snapshots[..n][i];
      }
    }
  }

  /**
   * The multiset union of independent setups: every listing fits in it, and no row occurs more often than in some one
   * of them.
   */
  method UnionSnapshot(codec: Codec, snapshots: seq<seq<Row>>) returns (rows: seq<Row>)
    requires codec.Valid()
    ensures Sorted(codec, rows) && forall r :: multiset(rows)[r] == MostCopies(snapshots, r)
  {
    var counter: map<string, nat> := map[];
    for i := 0 to |snapshots|
      invariant CountsMost(codec, counter, snapshots[..i])
    {
      var tally := Tally(codec, snapshots[i]);
      assert snapshots[..i + 1][..i] == snapshots[..i];
      counter := EitherCounter(counter, tally);
    }
    assert snapshots[..|snapshots|] == snapshots;
    ghost var m := Summed(codec, counter);
    rows := Listed(codec, counter, m);
  }

  /** Every counter over row texts counts some multiset. */
  ghost function Summed(codec: Codec, counter: map<string, nat>): (m: multiset<Row>)
    requires codec.Valid() && forall t :: t in counter ==> codec.encode(codec.decode(t)) == t
    ensures Counts(codec, counter, m)
    decreases |counter|
  {
    if counter.Keys == {} then multiset{}
    else
      HasMember(counter.Keys);
      var t :| t in counter.Keys;
      var rest := counter - {t};
      assert rest.Keys == counter.Keys - {t};
      var m := Summed(codec, rest);
      var row := codec.decode(t);
      SummedStep(codec, counter, rest, t, m);
      m[row := counter[t]]
  }

  lemma SummedStep(codec: Codec, counter: map<string, nat>, rest: map<string, nat>, t: string, m: multiset<Row>)
    requires codec.Valid() && t in counter && rest == counter - {t} && codec.encode(codec.decode(t)) == t
    requires (forall x :: x in counter ==> codec.encode(codec.decode(x)) == x) && Counts(codec, rest, m)
    ensures Counts(codec, counter, m[codec.decode(t) := counter[t]])
  {
    CountStep(codec, rest, m, codec.decode(t), m[codec.decode(t) := counter[t]]);
    assert counter == rest[t := counter[t]];
  }
}
