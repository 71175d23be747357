/** Identifier text as Gatekeeper compares it: ASCII case folding, component paths, optional values. */
module Names {

  datatype Option<+T> = None | Some(value: T)

  /** A schema path: identifier components, outermost first. */
  type NamePath = seq<string>

  const WILDCARD: string := "*"

  function LowerChar(c: char): char {
    if 'A' <= c <= 'Z' then (c as int + 32) as char else c
  }

  /** ASCII lower case; every other character is untouched. */
  function Lower(s: string): (r: string)
    ensures |r| == |s|
  {
    seq(|s|, i requires 0 <= i < |s| => LowerChar(s[i]))
  }

  function FoldPath(path: NamePath): (r: NamePath)
    ensures |r| == |path|
    ensures forall i :: 0 <= i < |path| ==> r[i] == Lower(path[i])
  {
    seq(|path|, i requires 0 <= i < |path| => Lower(path[i]))
  }

  predicate Folded(s: string) {
    Lower(s) == s
  }

  predicate FoldedPath(path: NamePath) {
    forall i :: 0 <= i < |path| ==> Folded(path[i])
  }

  predicate NonemptyParts(path: NamePath) {
    forall i :: 0 <= i < |path| ==> path[i] != ""
  }

  lemma LowerIdempotent(s: string)
    ensures Folded(Lower(s))
  {
    assert Lower(Lower(s)) == Lower(s);
  }

  lemma FoldPathIdempotent(path: NamePath)
    ensures FoldedPath(FoldPath(path))
    ensures FoldPath(FoldPath(path)) == FoldPath(path)
  {
    forall i | 0 <= i < |path| ensures Folded(FoldPath(path)[i]) {
      LowerIdempotent(path[i]);
    }
  }

  function Repeat(n: nat): (r: string)
    ensures |r| == n
    ensures Folded(r)
  {
    var r := seq(n, _ => 'a');
    assert Lower(r) == r;
    r
  }

  ghost function Longest(taken: set<string>): (n: nat)
    ensures forall s :: s in taken ==> |s| <= n
  {
    if taken == {} then 0
    else
      var s :| s in taken;
      var rest := Longest(taken - {s});
      assert forall t :: t in taken ==> t == s || t in taken - {s};
      if |s| > rest then |s| else rest
  }

  /** A folded, nonempty name longer than every member of `taken`, hence outside it. */
  ghost function Fresh(taken: set<string>): (r: string)
    ensures r !in taken && r != "" && Folded(r)
  {
    Repeat(Longest(taken) + 1)
  }
}
