/** Dynamic PIVOT: the placeholder values that make one private bind per plan shape enough, in 64-bit arithmetic. */
module PivotShape {

  const MODULUS: int := 0x1_0000_0000_0000_0000

  /** The engine's idx_t. */
  newtype Index = x: int | 0 <= x < 0x1_0000_0000_0000_0000

  /** A PIVOT column: the enum that lists its values, or the values themselves. */
  datatype PivotColumn = PivotColumn(pivotEnum: string, entries: seq<string>)

  /** idx_t addition. */
  function WrapAdd(a: Index, b: Index): Index {
    ((a as int + b as int) % MODULUS) as Index
  }

  predicate Dynamic(c: PivotColumn, enums: set<string>) {
    c.pivotEnum != "" && c.pivotEnum in enums
  }

  /** The number of values a column contributes; a column with neither entries nor an enum contributes nothing. */
  function Values(c: PivotColumn, enumSize: string -> nat): nat {
    if c.entries != [] then |c.entries| else if c.pivotEnum != "" then enumSize(c.pivotEnum) else 1
  }

  /** The PIVOT's total as the engine computes it: the product over its columns. */
  function Total(columns: seq<PivotColumn>, enumSize: string -> nat): nat {
    if columns == [] then 1 else Total(columns[..|columns| - 1], enumSize) * Values(columns[|columns| - 1], enumSize)
  }

  /** The part of the total that does not depend on the data. */
  function StaticTotal(columns: seq<PivotColumn>, enums: set<string>, enumSize: string -> nat): nat {
    if columns == [] then 1
    else
      var c := columns[|columns| - 1];
      StaticTotal(columns[..|columns| - 1], enums, enumSize) * (if Dynamic(c, enums) then 1 else Values(c, enumSize))
  }

  function DynamicTotal(columns: seq<PivotColumn>, enums: set<string>, enumSize: string -> nat): nat {
    if columns == [] then 1
    else
      var c := columns[|columns| - 1];
      DynamicTotal(columns[..|columns| - 1], enums, enumSize) * (if Dynamic(c, enums) then Values(c, enumSize) else 1)
  }

  predicate AnyDynamic(columns: seq<PivotColumn>, enums: set<string>) {
    exists i :: 0 <= i < |columns| && Dynamic(columns[i], enums)
  }

  /** The parser leaves the IN list of a dynamic column empty. */
  predicate ParserShape(columns: seq<PivotColumn>, enums: set<string>) {
    forall i :: 0 <= i < |columns| && Dynamic(columns[i], enums) ==> columns[i].entries == []
  }

  /** The engine plans filtered aggregates up to the threshold and a LIST aggregate above it. */
  predicate ListShape(total: nat, threshold: nat) {
    total > threshold
  }

  // ------------------------------------------------------- arithmetic

  lemma DivisionBound(limit: nat, fixed: nat, values: nat)
    requires fixed > 0
    ensures values > limit / fixed <==> fixed * values > limit
  {
    var q := limit / fixed;
    assert limit == fixed * q + limit % fixed;
    if values > q {
      assert fixed * values >= fixed * (q + 1) by {
        MulMonotone(fixed, q + 1, values);
      }
    } else {
      MulMonotone(fixed, values, q);
    }
  }

  lemma MulRearranges(a: nat, b: nat, c: nat)
    ensures (a * b) * c == (a * c) * b && (a * b) * c == a * (b * c)
  {
  }

  lemma MulMonotone(a: nat, b: nat, c: nat)
    requires b <= c
    ensures a * b <= a * c
  {
    assert a * c == a * b + a * (c - b);
  }

  function Saturated(product: nat, limit: nat): nat {
    if product > limit then limit else product
  }

  /** Saturating step by step keeps the saturation of the exact product. */
  lemma SaturationStep(product: nat, limit: nat, values: nat)
    requires limit > 0
    ensures Saturated(product * values, limit) == Saturated(Saturated(product, limit) * values, limit)
  {
    if product > limit && values > 0 {
      MulMonotone(product, 1, values);
      MulMonotone(limit, 1, values);
    }
  }

  // ------------------------------------------------------- the chosen count

  /** The fewest values past the threshold, when the total they give stays under the limit; else one. */
  function Chosen(fixed: nat, threshold: nat, limit: nat): nat {
    if fixed > 0 && fixed <= threshold && fixed * (threshold / fixed + 1) < limit then threshold / fixed + 1 else 1
  }

  /** The chosen count is least, and one is kept exactly when no count is both past the threshold and legal. */
  lemma ChosenIsLeast(fixed: nat, threshold: nat, limit: nat)
    requires 0 < fixed <= threshold
    ensures var n := Chosen(fixed, threshold, limit);
            && (n > 1 ==> threshold < fixed * n < limit && forall m: nat :: m < n ==> fixed * m <= threshold)
            && (n == 1 <==> !exists m: nat :: threshold < fixed * m < limit)
  {
    var least := threshold / fixed + 1;
    DivisionBound(threshold, fixed, least);
    assert least > 1 by {
      DivisionBound(threshold, fixed, 1);
    }
    forall m: nat ensures fixed * m > threshold <==> m >= least {
      DivisionBound(threshold, fixed, m);
    }
    forall m: nat | m >= least ensures fixed * m >= fixed * least {
      MulMonotone(fixed, least, m);
    }
  }

  /** The 64-bit computation: saturated static total, a wrapping candidate, and two divisions in place of products. */
  method ChooseCount(fixed: Index, threshold: Index, limit: Index, large: bool,
                     ghost product: nat) returns (count: Index)
    requires limit > 0 ==> fixed as int == Saturated(product, limit as int)
    ensures count as int == if large then Chosen(product, threshold as int, limit as int) else 1
  {
    count := 1;
    if large && fixed > 0 && fixed <= threshold && limit > 0 {
      count := Candidate(fixed, threshold, limit);
      CandidateAgrees(fixed as int, threshold as int, limit as int, product);
    } else if large {
      NoCandidate(fixed as int, threshold as int, limit as int, product);
    }
  }

  method Candidate(fixed: Index, threshold: Index, limit: Index) returns (count: Index)
    requires fixed > 0 && limit > 0
    ensures var candidate := (threshold as int / fixed as int + 1) % MODULUS;
            count as int == if candidate > 0 && candidate <= (limit as int - 1) / fixed as int then candidate else 1
  {
    var candidate := WrapAdd(threshold / fixed, 1);
    count := if candidate > 0 && candidate <= (limit - 1) / fixed then candidate else 1;
  }

  lemma NoCandidate(fixed: nat, threshold: nat, limit: nat, product: nat)
    requires limit > 0 ==> fixed == Saturated(product, limit)
    requires fixed == 0 || fixed > threshold || limit == 0
    ensures Chosen(product, threshold, limit) == 1
  {
    if limit == 0 && 0 < product {
      assert product * (threshold / product + 1) >= 0;
    }
  }

  lemma QuotientBelow(n: nat, d: nat)
    requires d > 0
    ensures n / d <= n
  {
    DivisionBound(n, d, n + 1);
    MulMonotone(n + 1, 1, d);
    MulCommutes(n + 1, d);
  }

  lemma MulCommutes(a: nat, b: nat)
    ensures a * b == b * a
  {
  }

  /** A saturated product leaves no legal count, and the exact one would not either. */
  lemma SaturatedKeepsOne(threshold: nat, limit: nat, product: nat)
    requires 0 < limit < product
    ensures (limit - 1) / limit == 0 && Chosen(product, threshold, limit) == 1
  {
    DivisionBound(limit - 1, limit, 1);
    if product <= threshold {
      MulMonotone(product, 1, threshold / product + 1);
    }
  }

  lemma ExactCandidateAgrees(fixed: nat, threshold: nat, limit: nat)
    requires 0 < fixed <= threshold < MODULUS && 0 < limit < MODULUS
    ensures var least := threshold / fixed + 1;
            && least <= MODULUS
            && (least < MODULUS ==>
                  Chosen(fixed, threshold, limit) == if least <= (limit - 1) / fixed then least else 1)
            && (least == MODULUS ==> Chosen(fixed, threshold, limit) == 1)
  {
    var least := threshold / fixed + 1;
    QuotientBelow(threshold, fixed);
    DivisionBound(limit - 1, fixed, least);
    if least == MODULUS {
      MulMonotone(least, 1, fixed);
      MulCommutes(least, fixed);
    }
  }

  lemma CandidateAgrees(fixed: nat, threshold: nat, limit: nat, product: nat)
    requires 0 < fixed <= threshold < MODULUS && 0 < limit < MODULUS && fixed == Saturated(product, limit)
    ensures var candidate := (threshold / fixed + 1) % MODULUS;
            Chosen(product, threshold,
                   limit) == if candidate > 0 && candidate <= (limit - 1) / fixed then candidate else 1
  {
    if product > limit {
      SaturatedKeepsOne(threshold, limit, product);
    } else {
      ExactCandidateAgrees(fixed, threshold, limit);
    }
  }

  // ------------------------------------------------------- substitution

  function Decimal(n: nat): string {
    var digit := ["0", "1", "2", "3", "4", "5", "6", "7", "8", "9"][n % 10];
    if n < 10 then digit else Decimal(n / 10) + digit
  }

  function Placeholders(n: nat): (r: seq<string>)
    ensures |r| == n
  {
    seq(n, i requires 0 <= i < n => Decimal(i))
  }

  function Filled(c: PivotColumn, n: nat): PivotColumn {
    PivotColumn("", c.entries + Placeholders(n))
  }

  /** The columns with placeholder values: `count` for the first dynamic column, one for each other. */
  function Substituted(columns: seq<PivotColumn>, enums: set<string>, count: nat): (r: seq<PivotColumn>)
    ensures |r| == |columns|
  {
    if columns == [] then []
    else
      var c := columns[|columns| - 1];
      var init := columns[..|columns| - 1];
      var n := if AnyDynamic(init, enums) then 1 else count;
      Substituted(init, enums, count) + [if Dynamic(c, enums) then Filled(c, n) else c]
  }

  lemma {:induction false} SubstitutedAt(columns: seq<PivotColumn>, enums: set<string>, count: nat, i: nat)
    requires i < |columns|
    ensures Substituted(columns, enums, count)[i] ==
            if !Dynamic(columns[i], enums) then columns[i]
            else Filled(columns[i], if AnyDynamic(columns[..i], enums) then 1 else count)
  {
    var init := columns[..|columns| - 1];
    if i < |init| {
      SubstitutedAt(init, enums, count, i);
      assert init[..i] == columns[..i];
    }
  }

  /** The engine's total of the substituted PIVOT is the static total times the count. */
  lemma {:induction false} SubstitutedTotal(columns: seq<PivotColumn>, enums: set<string>, count: nat,
                                            enumSize: string -> nat)
    requires ParserShape(columns, enums) && count > 0
    ensures Total(Substituted(columns, enums, count), enumSize) ==
            StaticTotal(columns, enums, enumSize) * (if AnyDynamic(columns, enums) then count else 1)
  {
    if columns != [] {
      var c, init := columns[|columns| - 1], columns[..|columns| - 1];
      SubstitutedTotal(init, enums, count, enumSize);
      var s := Substituted(columns, enums, count);
      assert s[..|s| - 1] == Substituted(init, enums, count);
      assert columns == init + [c];
      assert AnyDynamic(columns, enums) <==> AnyDynamic(init, enums) || Dynamic(c, enums) by {
        AnyDynamicStep(init, c, enums);
      }
      var a, f := StaticTotal(init, enums, enumSize), if AnyDynamic(init, enums) then count else 1;
      if Dynamic(c, enums) {
        assert |Filled(c, if AnyDynamic(init, enums) then 1 else count).entries| == if AnyDynamic(init, enums) then 1
               else count;
        OneFactor(a, AnyDynamic(init, enums), count);
      } else {
        MulRearranges(a, f, Values(c, enumSize));
      }
    }
  }

  lemma OneFactor(a: nat, taken: bool, count: nat)
    ensures a * (if taken then count else 1) * (if taken then 1 else count) == a * count
  {
  }

  lemma AnyDynamicStep(init: seq<PivotColumn>, c: PivotColumn, enums: set<string>)
    ensures AnyDynamic(init + [c], enums) <==> AnyDynamic(init, enums) || Dynamic(c, enums)
  {
    var all := init + [c];
    if i :| 0 <= i < |init| && Dynamic(init[i], enums) {
      assert Dynamic(all[i], enums);
    }
    if Dynamic(c, enums) {
      assert Dynamic(all[|init|], enums);
    }
  }

  lemma {:induction false} TotalSplits(columns: seq<PivotColumn>, enums: set<string>, enumSize: string -> nat)
    ensures Total(columns, enumSize) == StaticTotal(columns, enums, enumSize) * DynamicTotal(columns, enums, enumSize)
  {
    if columns != [] {
      var c, init := columns[|columns| - 1], columns[..|columns| - 1];
      TotalSplits(init, enums, enumSize);
      var a, d, v := StaticTotal(init, enums, enumSize), DynamicTotal(init, enums, enumSize), Values(c, enumSize);
      MulRearranges(a, d, v);
    }
  }

  lemma ListsStep(columns: seq<PivotColumn>, i: nat, enums: set<string>, dynamic: seq<int>)
    requires i < |columns| && Lists(columns[..i], enums, dynamic)
    ensures Lists(columns[..i + 1], enums, if Dynamic(columns[i], enums) then dynamic + [i] else dynamic)
  {
    var now := if Dynamic(columns[i], enums) then dynamic + [i] else dynamic;
    forall n | 0 <= n < i + 1 && Dynamic(columns[..i + 1][n], enums) ensures n in now {
      if n < i {
        assert Dynamic(columns[..i][n], enums);
      }
    }
  }

  lemma StaticStep(columns: seq<PivotColumn>, i: nat, enums: set<string>, enumSize: string -> nat)
    requires i < |columns|
    ensures StaticTotal(columns[..i + 1], enums, enumSize) ==
            StaticTotal(columns[..i], enums, enumSize)
            * (if Dynamic(columns[i], enums) then 1 else Values(columns[i], enumSize))
  {
    assert columns[..i + 1][..i] == columns[..i];
  }

  /** Multiplies the static columns in 64 bits, saturating at the limit, and collects the dynamic ones. */
  method Measure(columns: array<PivotColumn>, enums: set<string>, hostSize: string -> Index, limit: Index)
    returns (fixed: Index, dynamic: seq<int>)
    requires forall i :: 0 <= i < columns.Length ==> |columns[i].entries| < MODULUS
    ensures limit > 0 ==> fixed as int == Saturated(StaticTotal(columns[..], enums, Widened(hostSize)), limit as int)
    ensures Lists(columns[..], enums, dynamic)
  {
    fixed, dynamic := 1, [];
    ghost var all := columns[..];
    ghost var product := 1;
    for i := 0 to columns.Length
      invariant product == StaticTotal(all[..i], enums, Widened(hostSize))
      invariant limit > 0 ==> fixed as int == Saturated(product, limit as int)
      invariant Lists(all[..i], enums, dynamic)
    {
      ListsStep(all, i, enums, dynamic);
      StaticStep(all, i, enums, Widened(hostSize));
      if Dynamic(columns[i], enums) {
        dynamic := dynamic + [i];
      } else {
        fixed := Include(columns[i], hostSize, fixed, limit, product);
        product := product * Values(columns[i], Widened(hostSize));
      }
    }
    assert all[..columns.Length] == all;
  }

  /** Multiplies a static column's values into the running product. */
  method Include(c: PivotColumn, hostSize: string -> Index, fixed: Index, limit: Index,
                 ghost product: nat) returns (r: Index)
    requires |c.entries| < MODULUS && (limit > 0 ==> fixed as int == Saturated(product, limit as int))
    ensures limit > 0 ==> r as int == Saturated(product * Values(c, Widened(hostSize)), limit as int)
  {
    r := fixed;
    if c.entries != [] {
      r := Multiply(fixed, |c.entries| as Index, limit, product);
    } else if c.pivotEnum != "" {
      r := Multiply(fixed, hostSize(c.pivotEnum), limit, product);
    }
  }

  function Widened(size: string -> Index): string -> nat {
    (name: string) => size(name) as nat
  }

  lemma MultiplyAgrees(fixed: nat, values: nat, limit: nat, product: nat)
    requires limit > 0 && fixed == Saturated(product, limit)
    ensures Saturated(product * values, limit) ==
            if fixed == 0 || values == 0 then 0 else if values > limit / fixed then limit else fixed * values
  {
    SaturationStep(product, limit, values);
    if fixed > 0 {
      DivisionBound(limit, fixed, values);
    }
  }

  method Multiply(fixed: Index, values: Index, limit: Index, ghost product: nat) returns (r: Index)
    requires limit > 0 ==> fixed as int == Saturated(product, limit as int)
    ensures limit > 0 ==> r as int == Saturated(product * values as int, limit as int)
  {
    if limit > 0 {
      MultiplyAgrees(fixed as int, values as int, limit as int, product);
    }
    if fixed == 0 || values == 0 {
      r := 0;
    } else if values > limit / fixed {
      r := limit;
    } else {
      DivisionBound(limit as int, fixed as int, values as int);
      r := fixed * values;
    }
  }

  /** How many values the substitution gives the first dynamic column. */
  function ValuesGiven(columns: seq<PivotColumn>, enums: set<string>, enumSize: string -> nat, threshold: nat,
                       limit: nat,
                       large: bool): nat
  {
    if large then Chosen(StaticTotal(columns, enums, enumSize), threshold, limit) else 1
  }

  /** The large substitution differs from the small one. */
  predicate Differs(columns: seq<PivotColumn>, enums: set<string>, enumSize: string -> nat, threshold: nat,
                    limit: nat) {
    AnyDynamic(columns, enums) && ValuesGiven(columns, enums, enumSize, threshold, limit, true) > 1
  }

  /** The same in the engine's own integers. */
  predicate Enlarges(columns: seq<PivotColumn>, enums: set<string>, hostSize: string -> Index, threshold: Index,
                     limit: Index)
  {
    Differs(columns, enums, Widened(hostSize), threshold as int, limit as int)
  }

  predicate Listable(columns: seq<PivotColumn>) {
    forall i :: 0 <= i < |columns| ==> |columns[i].entries| < MODULUS
  }

  /**
   * Rewrites every PIVOT of a statement in place, wherever in it they sit; returns whether the large shape differs from
   * the small one anywhere.
   */
  method SubstitutePivotEnums(pivots: seq<array<PivotColumn>>, enums: set<string>, hostSize: string -> Index,
                              threshold: Index, limit: Index, large: bool)
    returns (distinct: bool)
    requires forall i, j :: 0 <= i < j < |pivots| ==> pivots[i] != pivots[j]
    requires forall i :: 0 <= i < |pivots| ==> Listable(pivots[i][..])
    modifies set i | 0 <= i < |pivots| :: pivots[i]
    ensures forall i :: 0 <= i < |pivots| ==>
              var before := old(pivots[i][..]);
              pivots[i][..] == Substituted(before, enums, ValuesGiven(before, enums, Widened(hostSize),
                                                                      threshold as int,
                                                                      limit as int, large))
    ensures distinct <==>
            large && exists i :: 0 <= i < |pivots| && Enlarges(old(pivots[i][..]), enums, hostSize, threshold, limit)
  {
    distinct := false;
    for n := 0 to |pivots|
      invariant forall i :: n <= i < |pivots| ==> pivots[i][..] == old(pivots[i][..])
      invariant forall i :: 0 <= i < n ==>
                  var before := old(pivots[i][..]);
                  pivots[i][..] == Substituted(before, enums, ValuesGiven(before, enums, Widened(hostSize),
                                                                          threshold as int, limit as int, large))
      invariant distinct <==>
                large && exists i :: 0 <= i < n && Enlarges(old(pivots[i][..]), enums, hostSize, threshold, limit)
    {
      var here := SubstitutePivot(pivots[n], enums, hostSize, threshold, limit, large);
      distinct := distinct || here;
    }
  }

  /** Rewrites one PIVOT in place. */
  method SubstitutePivot(columns: array<PivotColumn>, enums: set<string>, hostSize: string -> Index, threshold: Index,
                         limit: Index, large: bool)
    returns (distinct: bool)
    requires Listable(columns[..])
    modifies columns
    ensures var before := old(columns[..]);
            && columns[..] == Substituted(before, enums, ValuesGiven(before, enums, Widened(hostSize), threshold as int,
                                                                     limit as int, large))
            && distinct == (large && Enlarges(before, enums, hostSize, threshold, limit))
  {
    assert forall i :: 0 <= i < columns.Length ==> columns[i] == columns[..][i];
    var fixed, dynamic := Measure(columns, enums, hostSize, limit);
    ghost var product := StaticTotal(columns[..], enums, Widened(hostSize));
    var count := ChooseCount(fixed, threshold, limit, large, product);
    distinct := dynamic != [] && count > 1;
    Fill(columns, enums, dynamic, count);
  }

  /** Gives the first dynamic column `first` placeholder values and every other one. */
  method Fill(columns: array<PivotColumn>, ghost enums: set<string>, dynamic: seq<int>, first: Index)
    requires Lists(columns[..], enums, dynamic)
    modifies columns
    ensures columns[..] == Substituted(old(columns[..]), enums, first as int)
    ensures dynamic != [] <==> AnyDynamic(old(columns[..]), enums)
  {
    ghost var before := columns[..];
    var count := first;
    for k := 0 to |dynamic|
      invariant count == if k == 0 then first else 1
      invariant forall m :: k <= m < |dynamic| ==> columns[dynamic[m]] == before[dynamic[m]]
      invariant forall m :: 0 <= m < k ==> columns[dynamic[m]] == Filled(before[dynamic[m]],
                                                                         if m == 0 then first as int else 1)
      invariant forall i :: 0 <= i < columns.Length && i !in dynamic ==> columns[i] == before[i]
    {
      columns[dynamic[k]] := Filled(columns[dynamic[k]], count as int);
      count := 1;
    }
    FilledIsSubstituted(before, enums, first as int, dynamic, columns[..]);
  }

  /** `dynamic` lists the positions of the dynamic columns of `before` in order. */
  ghost predicate Lists(before: seq<PivotColumn>, enums: set<string>, dynamic: seq<int>) {
    && (forall k :: 0 <= k < |dynamic| ==> 0 <= dynamic[k] < |before| && Dynamic(before[dynamic[k]], enums))
    && (forall k, m :: 0 <= k < m < |dynamic| ==> dynamic[k] < dynamic[m])
    && (forall i :: 0 <= i < |before| && Dynamic(before[i], enums) ==> i in dynamic)
  }

  lemma FirstListed(before: seq<PivotColumn>, enums: set<string>, dynamic: seq<int>, m: nat)
    requires Lists(before, enums, dynamic) && m < |dynamic|
    ensures AnyDynamic(before[..dynamic[m]], enums) <==> m > 0
  {
    var i := dynamic[m];
    if m > 0 {
      assert Dynamic(before[..i][dynamic[0]], enums);
    }
    if AnyDynamic(before[..i], enums) {
      var n :| 0 <= n < i && Dynamic(before[..i][n], enums);
      assert n in dynamic;
    }
  }

  lemma FilledIsSubstituted(before: seq<PivotColumn>, enums: set<string>, count: nat, dynamic: seq<int>,
                            after: seq<PivotColumn>)
    requires Lists(before, enums, dynamic) && |after| == |before|
    requires forall m :: 0 <= m < |dynamic| ==> after[dynamic[m]] == Filled(before[dynamic[m]],
                                                                            if m == 0 then count else 1)
    requires forall i :: 0 <= i < |before| && i !in dynamic ==> after[i] == before[i]
    ensures after == Substituted(before, enums, count)
    ensures dynamic != [] <==> AnyDynamic(before, enums)
  {
    forall i | 0 <= i < |before| ensures after[i] == Substituted(before, enums, count)[i] {
      SubstitutedAt(before, enums, count, i);
      if Dynamic(before[i], enums) {
        var m :| 0 <= m < |dynamic| && dynamic[m] == i;
        FirstListed(before, enums, dynamic, m);
      }
    }
    if dynamic != [] {
      assert Dynamic(before[dynamic[0]], enums);
    }
  }

  // ------------------------------------------------------- coverage

  /** The totals of the two substitutions the private bind is run on. */
  function SmallTotal(columns: seq<PivotColumn>, enums: set<string>, enumSize: string -> nat): nat {
    Total(Substituted(columns, enums, 1), enumSize)
  }

  function LargeTotal(columns: seq<PivotColumn>, enums: set<string>, enumSize: string -> nat, threshold: nat,
                      limit: nat): nat {
    Total(Substituted(columns, enums, Chosen(StaticTotal(columns, enums, enumSize), threshold, limit)), enumSize)
  }

  /** Whatever the data holds, a legal PIVOT has the shape of the small or of the large substitution. */
  lemma ShapesAreCovered(columns: seq<PivotColumn>, enums: set<string>, enumSize: string -> nat, threshold: nat,
                         limit: nat)
    requires ParserShape(columns, enums) && AnyDynamic(columns, enums) && DynamicTotal(columns, enums, enumSize) >= 1
    requires Total(columns, enumSize) < limit
    ensures var shape := ListShape(Total(columns, enumSize), threshold);
            || shape == ListShape(SmallTotal(columns, enums, enumSize), threshold)
            || shape == ListShape(LargeTotal(columns, enums, enumSize, threshold, limit), threshold)
  {
    var s, d := StaticTotal(columns, enums, enumSize), DynamicTotal(columns, enums, enumSize);
    TotalSplits(columns, enums, enumSize);
    MulMonotone(s, 1, d);
    SubstitutedTotal(columns, enums, 1, enumSize);
    var n := Chosen(s, threshold, limit);
    SubstitutedTotal(columns, enums, n, enumSize);
    if s * d > threshold && s <= threshold && s > 0 {
      ChosenIsLeast(s, threshold, limit);
      assert threshold < s * d < limit;
    }
  }

  /** An enum with no values empties the PIVOT; the substitutions still cover it exactly while the rest is small. */
  lemma EmptyEnumIsCoveredIffSmall(columns: seq<PivotColumn>, enums: set<string>, enumSize: string -> nat,
                                   threshold: nat, limit: nat)
    requires ParserShape(columns, enums) && AnyDynamic(columns, enums) && DynamicTotal(columns, enums, enumSize) == 0
    ensures var shape := ListShape(Total(columns, enumSize), threshold);
            (shape == ListShape(SmallTotal(columns, enums, enumSize), threshold)
             || shape == ListShape(LargeTotal(columns, enums, enumSize, threshold, limit), threshold))
            <==> StaticTotal(columns, enums, enumSize) <= threshold
  {
    var s := StaticTotal(columns, enums, enumSize);
    TotalSplits(columns, enums, enumSize);
    SubstitutedTotal(columns, enums, 1, enumSize);
    SubstitutedTotal(columns, enums, Chosen(s, threshold, limit), enumSize);
  }

  /** Where the large substitution gives one value, it is the small one. */
  lemma {:induction false} SameUnlessItDiffers(columns: seq<PivotColumn>, enums: set<string>, enumSize: string -> nat,
                                               threshold: nat, limit: nat)
    requires !Differs(columns, enums, enumSize, threshold, limit)
    ensures Substituted(columns, enums, ValuesGiven(columns, enums, enumSize, threshold, limit, true))
         == Substituted(columns, enums, 1)
  {
    var count := ValuesGiven(columns, enums, enumSize, threshold, limit, true);
    forall i | 0 <= i < |columns| ensures Substituted(columns, enums, count)[i] == Substituted(columns, enums, 1)[i] {
      SubstitutedAt(columns, enums, count, i);
      SubstitutedAt(columns, enums, 1, i);
    }
  }

  /** The data gives the PIVOT at least one value and a legal total. */
  predicate Populated(columns: seq<PivotColumn>, enums: set<string>, enumSize: string -> nat, limit: nat) {
    ParserShape(columns, enums) && DynamicTotal(columns, enums, enumSize) >= 1 && Total(columns, enumSize) < limit
  }

  /**
   * A whole statement: each of its dynamic PIVOTs has the shape it had in one of the two binds, and when no PIVOT
   * differs, so that the second bind is skipped, the first bind alone covers every one of them.
   */
  lemma EveryPivotIsCovered(pivots: seq<seq<PivotColumn>>, enums: set<string>, enumSize: string -> nat, threshold: nat,
                            limit: nat, i: nat)
    requires i < |pivots| && AnyDynamic(pivots[i], enums) && Populated(pivots[i], enums, enumSize, limit)
    ensures var shape := ListShape(Total(pivots[i], enumSize), threshold);
            var small := ListShape(SmallTotal(pivots[i], enums, enumSize), threshold);
            && (shape == small || shape == ListShape(LargeTotal(pivots[i], enums, enumSize, threshold, limit),
                                                     threshold))
            && ((forall k :: 0 <= k < |pivots| ==> !Differs(pivots[k], enums, enumSize, threshold,
                                                            limit)) ==> shape == small)
  {
    ShapesAreCovered(pivots[i], enums, enumSize, threshold, limit);
    if !Differs(pivots[i], enums, enumSize, threshold, limit) {
      SameUnlessItDiffers(pivots[i], enums, enumSize, threshold, limit);
    }
  }

  /** One dynamic column without values beside three listed ones, over a threshold of two: neither substitution fits. */
  lemma AnEmptyEnumCanEscape()
    ensures var columns := [PivotColumn("", ["a", "b", "c"]), PivotColumn("__pivot_enum", [])];
            var enums, size := {"__pivot_enum"}, (name: string) => 0 as nat;
            && ParserShape(columns, enums) && AnyDynamic(columns, enums) && !ListShape(Total(columns, size), 2)
            && ListShape(SmallTotal(columns, enums, size), 2) && ListShape(LargeTotal(columns, enums, size, 2, 100), 2)
  {
    var columns := [PivotColumn("", ["a", "b", "c"]), PivotColumn("__pivot_enum", [])];
    var enums, size := {"__pivot_enum"}, (name: string) => 0 as nat;
    var one := [columns[0]];
    assert columns[..1] == one && one[..0] == [];
    assert Dynamic(columns[1], enums);
    assert StaticTotal(one, enums, size) == StaticTotal([], enums, size) * 3;
    assert StaticTotal(columns, enums, size) == 3;
    assert DynamicTotal(columns, enums, size) == DynamicTotal(one, enums, size) * 0;
    EmptyEnumIsCoveredIffSmall(columns, enums, size, 2, 100);
    TotalSplits(columns, enums, size);
  }
}
