/** The statement text of an audit record: bounded, NUL-free, and cut at a character boundary. */
module AuditText {

  newtype Byte = x: int | 0 <= x < 256

  /** Longest statement text a record carries, in bytes. */
  const MAX_LOGGED: nat := 65536

  /** U+FFFD, which stands in for a NUL byte. */
  const REPLACEMENT: seq<Byte> := [0xEF, 0xBF, 0xBD]

  function ImageOf(b: Byte): seq<Byte> {
    if b == 0 then REPLACEMENT else [b]
  }

  /** The text with every NUL replaced. */
  function Image(s: seq<Byte>): seq<Byte> {
    if s == [] then [] else Image(s[..|s| - 1]) + ImageOf(s[|s| - 1])
  }

  /** The bytes 10xxxxxx. */
  predicate Continuation(b: Byte) {
    0x80 <= b < 0xC0
  }

  // ------------------------------------------------------- what the record stores

  /** Where the copy stops: at the end, at the limit, or at a NUL whose replacement no longer fits. */
  predicate CopyStops(s: seq<Byte>, at: nat)
    requires at <= |s|
  {
    at == |s| || |Image(s[..at])| >= MAX_LOGGED || (s[at] == 0 && MAX_LOGGED - |Image(s[..at])| < 3)
  }

  function Cut(s: seq<Byte>, at: nat): (r: nat)
    requires at <= |s|
    ensures at <= r <= |s| && CopyStops(s, r)
    decreases |s| - at
  {
    if CopyStops(s, at) then at else Cut(s, at + 1)
  }

  function WithoutTail(t: seq<Byte>): seq<Byte> {
    if t != [] && Continuation(t[|t| - 1]) then WithoutTail(t[..|t| - 1]) else t
  }

  function WithoutPartial(t: seq<Byte>): seq<Byte> {
    var u := WithoutTail(t);
    if u == [] then [] else u[..|u| - 1]
  }

  function Logged(s: seq<Byte>): seq<Byte> {
    var at := Cut(s, 0);
    if at < |s| && Continuation(s[at]) then WithoutPartial(Image(s[..at])) else Image(s[..at])
  }

  /** One bounded pass over the bytes, then a backward trim of a partial character. */
  method StatementText(s: seq<Byte>) returns (text: seq<Byte>)
    ensures text == Logged(s)
  {
    text := [];
    var at := 0;
    while at < |s| && |text| < MAX_LOGGED
      invariant at <= |s| && text == Image(s[..at]) && Cut(s, at) == Cut(s, 0)
    {
      assert s[..at + 1][..at] == s[..at];
      if s[at] == 0 {
        if MAX_LOGGED - |text| < 3 {
          break;
        }
        text := text + REPLACEMENT;
      } else {
        text := text + [s[at]];
      }
      at := at + 1;
    }
    assert Cut(s, 0) == at;
    if at < |s| && Continuation(s[at]) {
      ghost var whole := text;
      while text != [] && Continuation(text[|text| - 1])
        invariant WithoutTail(text) == WithoutTail(whole)
      {
        text := text[..|text| - 1];
      }
      if text != [] {
        text := text[..|text| - 1];
      }
    }
  }

  // ------------------------------------------------------- arbitrary bytes

  lemma {:induction false} ImageAppend(a: seq<Byte>, b: seq<Byte>)
    ensures Image(a + b) == Image(a) + Image(b)
  {
    if b == [] {
      assert a + b == a;
    } else {
      assert (a + b)[..|a + b| - 1] == a + b[..|b| - 1];
      ImageAppend(a, b[..|b| - 1]);
    }
  }

  lemma {:induction false} ImageHasNoNul(s: seq<Byte>)
    ensures 0 !in Image(s)
  {
    if s != [] {
      ImageHasNoNul(s[..|s| - 1]);
    }
  }

  lemma {:induction false} TailOnlyShortens(t: seq<Byte>)
    ensures WithoutTail(t) <= t
  {
    if t != [] && Continuation(t[|t| - 1]) {
      TailOnlyShortens(t[..|t| - 1]);
    }
  }

  lemma {:induction false} CopyFits(s: seq<Byte>, at: nat)
    requires at <= |s| && |Image(s[..at])| <= MAX_LOGGED
    ensures |Image(s[..Cut(s, at)])| <= MAX_LOGGED
    decreases |s| - at
  {
    if !CopyStops(s, at) {
      assert s[..at + 1][..at] == s[..at];
      CopyFits(s, at + 1);
    }
  }

  lemma PartialOnlyShortens(t: seq<Byte>)
    ensures WithoutPartial(t) <= t
  {
    TailOnlyShortens(t);
  }

  lemma PrefixFacts(a: seq<Byte>, b: seq<Byte>, c: seq<Byte>)
    requires a <= b && 0 !in b + c
    ensures |a| <= |b| && a <= b + c && 0 !in a
  {
    forall i | 0 <= i < |a| ensures a[i] != 0 {
      assert (b + c)[i] in b + c;
    }
  }

  /** Whatever the bytes, the record holds a bounded, NUL-free prefix of the replaced text. */
  lemma {:induction false} LoggedIsBoundedPrefix(s: seq<Byte>)
    ensures |Logged(s)| <= MAX_LOGGED && 0 !in Logged(s) && Logged(s) <= Image(s)
  {
    var at := Cut(s, 0);
    CopyFits(s, 0);
    var t, rest := Image(s[..at]), Image(s[at..]);
    assert Image(s) == t + rest by {
      assert s == s[..at] + s[at..];
      ImageAppend(s[..at], s[at..]);
    }
    ImageHasNoNul(s);
    PartialOnlyShortens(t);
    PrefixFacts(Logged(s), t, rest);
  }

  // ------------------------------------------------------- UTF-8 (section 4 of RFC 3629)

  predicate Tail(b: Byte) {
    0x80 <= b <= 0xBF
  }

  /** One encoded character. */
  predicate IsChar(c: seq<Byte>) {
    || (|c| == 1 && c[0] <= 0x7F)
    || (|c| == 2 && 0xC2 <= c[0] <= 0xDF && Tail(c[1]))
    || (|c| == 3 && Tail(c[1]) && Tail(c[2])
        && (|| (c[0] == 0xE0 && c[1] >= 0xA0) || 0xE1 <= c[0] <= 0xEC || (c[0] == 0xED && c[1] <= 0x9F)
            || 0xEE <= c[0] <= 0xEF))
    || (|c| == 4 && Tail(c[1]) && Tail(c[2]) && Tail(c[3])
        && ((c[0] == 0xF0 && c[1] >= 0x90) || 0xF1 <= c[0] <= 0xF3 || (c[0] == 0xF4 && c[1] <= 0x8F)))
  }

  predicate Chars(cs: seq<seq<Byte>>) {
    forall i :: 0 <= i < |cs| ==> IsChar(cs[i])
  }

  function Bytes(cs: seq<seq<Byte>>): seq<Byte> {
    if cs == [] then [] else Bytes(cs[..|cs| - 1]) + cs[|cs| - 1]
  }

  ghost predicate WellFormed(s: seq<Byte>) {
    exists cs :: Chars(cs) && s == Bytes(cs)
  }

  /** Every byte position lies in one character. */
  lemma {:induction false} Locate(cs: seq<seq<Byte>>, at: nat) returns (k: nat, r: nat)
    requires Chars(cs) && at < |Bytes(cs)|
    ensures k < |cs| && r < |cs[k]| && at == |Bytes(cs[..k])| + r
    ensures Bytes(cs)[..at] == Bytes(cs[..k]) + cs[k][..r] && Bytes(cs)[at] == cs[k][r]
  {
    var n := |cs| - 1;
    var init := cs[..n];
    if at < |Bytes(init)| {
      k, r := Locate(init, at);
      assert init[..k] == cs[..k];
      assert Bytes(cs)[..at] == Bytes(init)[..at];
    } else {
      k, r := n, at - |Bytes(init)|;
    }
  }

  /** A character of several bytes has no NUL, so replacing changes nothing in it. */
  lemma {:induction false} ImageOfPlain(s: seq<Byte>)
    requires 0 !in s
    ensures Image(s) == s
  {
    if s != [] {
      assert s[|s| - 1] in s;
      ImageOfPlain(s[..|s| - 1]);
    }
  }

  /** Trimming removes exactly a lead byte and the continuation bytes after it. */
  lemma {:induction false} TrimsOneCharacter(whole: seq<Byte>, lead: Byte, tail: seq<Byte>)
    requires !Continuation(lead) && forall i :: 0 <= i < |tail| ==> Continuation(tail[i])
    ensures WithoutPartial(whole + [lead] + tail) == whole
  {
    var t := whole + [lead] + tail;
    if tail == [] {
      assert t == whole + [lead];
    } else {
      var shorter := tail[..|tail| - 1];
      assert t[..|t| - 1] == whole + [lead] + shorter;
      TrimsOneCharacter(whole, lead, shorter);
    }
  }

  lemma {:induction false} PartialCharacterIsTrimmed(cs: seq<seq<Byte>>, k: nat, r: nat)
    requires Chars(cs) && k < |cs| && 0 < r < |cs[k]|
    ensures Image(Bytes(cs[..k]) + cs[k][..r]) == Image(Bytes(cs[..k])) + cs[k][..r]
    ensures WithoutPartial(Image(Bytes(cs[..k])) + cs[k][..r]) == Image(Bytes(cs[..k]))
  {
    assert IsChar(cs[k]);
    PartOfCharacter(cs[k], r);
    ImageAppend(Bytes(cs[..k]), cs[k][..r]);
    ImageOfPlain(cs[k][..r]);
    TrimsPart(Image(Bytes(cs[..k])), cs[k], r);
  }

  lemma {:induction false} PartOfCharacter(c: seq<Byte>, r: nat)
    requires IsChar(c) && 0 < r < |c|
    ensures !Continuation(c[0]) && (forall i :: 1 <= i < r ==> Continuation(c[i])) && 0 !in c[..r]
  {
  }

  lemma {:induction false} TrimsPart(whole: seq<Byte>, c: seq<Byte>, r: nat)
    requires 0 < r <= |c| && !Continuation(c[0]) && forall i :: 1 <= i < r ==> Continuation(c[i])
    ensures WithoutPartial(whole + c[..r]) == whole
  {
    TrimsOneCharacter(whole, c[0], c[1..r]);
    assert whole + [c[0]] + c[1..r] == whole + c[..r];
  }

  /** The longest prefix of whole characters whose replaced text fits. */
  ghost predicate Longest(cs: seq<seq<Byte>>, k: nat) {
    && k <= |cs| && |Image(Bytes(cs[..k]))| <= MAX_LOGGED
    && (k < |cs| ==> |Image(Bytes(cs[..k + 1]))| > MAX_LOGGED)
  }

  lemma {:induction false} NextCharacter(cs: seq<seq<Byte>>, k: nat)
    requires k < |cs|
    ensures Bytes(cs[..k + 1]) == Bytes(cs[..k]) + cs[k]
    ensures Image(Bytes(cs[..k + 1])) == Image(Bytes(cs[..k])) + Image(cs[k])
  {
    assert cs[..k + 1][..k] == cs[..k];
    ImageAppend(Bytes(cs[..k]), cs[k]);
  }

  lemma {:induction false} LongerIsNoShorter(cs: seq<seq<Byte>>, j: nat, k: nat)
    requires j <= k <= |cs|
    ensures |Image(Bytes(cs[..j]))| <= |Image(Bytes(cs[..k]))|
  {
    if j < k {
      LongerIsNoShorter(cs, j, k - 1);
      NextCharacter(cs, k - 1);
      assert |Image(Bytes(cs[..k - 1]))| <= |Image(Bytes(cs[..k - 1 + 1]))|;
    }
  }

  lemma {:induction false} ImageNoShorter(s: seq<Byte>)
    ensures |s| <= |Image(s)|
  {
    if s != [] {
      ImageNoShorter(s[..|s| - 1]);
    }
  }

  lemma StoppedInsideCharacter(cs: seq<seq<Byte>>, k: nat, r: nat)
    requires Chars(cs) && k < |cs| && 0 < r < |cs[k]| && |Image(Bytes(cs[..k]) + cs[k][..r])| == MAX_LOGGED
    ensures Longest(cs, k)
  {
    PartialCharacterIsTrimmed(cs, k, r);
    NextCharacter(cs, k);
    ImageNoShorter(cs[k]);
  }

  lemma StoppedAtCharacter(cs: seq<seq<Byte>>, k: nat)
    requires Chars(cs) && k < |cs| && |Image(Bytes(cs[..k]))| <= MAX_LOGGED
    requires |Image(Bytes(cs[..k]))| >= MAX_LOGGED || (cs[k][0] == 0 && MAX_LOGGED - |Image(Bytes(cs[..k]))| < 3)
    ensures Longest(cs, k)
  {
    NextCharacter(cs, k);
    assert IsChar(cs[k]);
    ImageNoShorter(cs[k]);
    ImageOfChar(cs[k]);
  }

  /** For text that is UTF-8, the record is the replaced text of its longest whole-character prefix that fits. */
  lemma LoggedIsLongestPrefix(cs: seq<seq<Byte>>) returns (k: nat)
    requires Chars(cs)
    ensures Longest(cs, k) && Logged(Bytes(cs)) == Image(Bytes(cs[..k]))
    ensures forall j :: k < j <= |cs| ==> |Image(Bytes(cs[..j]))| > MAX_LOGGED
  {
    k := StopsAtLongest(cs);
    forall j | k < j <= |cs| ensures |Image(Bytes(cs[..j]))| > MAX_LOGGED {
      LongerIsNoShorter(cs, k + 1, j);
    }
  }

  lemma StopsAtLongest(cs: seq<seq<Byte>>) returns (k: nat)
    requires Chars(cs)
    ensures Longest(cs, k) && Logged(Bytes(cs)) == Image(Bytes(cs[..k]))
  {
    var s := Bytes(cs);
    var at := Cut(s, 0);
    CopyFits(s, 0);
    if at == |s| {
      k := |cs|;
      assert cs[..k] == cs && s[..at] == s;
    } else {
      k := StopsInside(cs);
    }
  }

  lemma StopsInside(cs: seq<seq<Byte>>) returns (k: nat)
    requires Chars(cs) && Cut(Bytes(cs), 0) < |Bytes(cs)|
    requires |Image(Bytes(cs)[..Cut(Bytes(cs), 0)])| <= MAX_LOGGED
    ensures Longest(cs, k) && Logged(Bytes(cs)) == Image(Bytes(cs[..k]))
  {
    var at := Cut(Bytes(cs), 0);
    var r;
    k, r := Locate(cs, at);
    if r > 0 {
      StopsWithin(cs, at, k, r);
    } else {
      assert Bytes(cs[..k]) + cs[k][..0] == Bytes(cs[..k]);
      StopsBetween(cs, at, k);
    }
  }

  /** The copy stopped within character `k`, which the trim then removes. */
  lemma StopsWithin(cs: seq<seq<Byte>>, at: nat, k: nat, r: nat)
    requires Chars(cs) && at == Cut(Bytes(cs), 0) < |Bytes(cs)| && |Image(Bytes(cs)[..at])| <= MAX_LOGGED
    requires k < |cs| && 0 < r < |cs[k]| && Bytes(cs)[at] == cs[k][r]
    requires Bytes(cs)[..at] == Bytes(cs[..k]) + cs[k][..r]
    ensures Longest(cs, k) && Logged(Bytes(cs)) == Image(Bytes(cs[..k]))
  {
    assert IsChar(cs[k]);
    InsideIsContinuation(cs[k], r);
    assert |Image(Bytes(cs)[..at])| == MAX_LOGGED;
    StoppedInsideCharacter(cs, k, r);
    PartialCharacterIsTrimmed(cs, k, r);
  }

  lemma InsideIsContinuation(c: seq<Byte>, r: nat)
    requires IsChar(c) && 0 < r < |c|
    ensures Continuation(c[r]) && c[r] != 0
  {
  }

  /** The copy stopped right before character `k`. */
  lemma StopsBetween(cs: seq<seq<Byte>>, at: nat, k: nat)
    requires Chars(cs) && at == Cut(Bytes(cs), 0) < |Bytes(cs)| && |Image(Bytes(cs)[..at])| <= MAX_LOGGED
    requires k < |cs| && cs[k] != [] && Bytes(cs)[at] == cs[k][0] && Bytes(cs)[..at] == Bytes(cs[..k])
    ensures Longest(cs, k) && Logged(Bytes(cs)) == Image(Bytes(cs[..k]))
  {
    assert IsChar(cs[k]);
    StoppedAtCharacter(cs, k);
  }

  lemma ImageOfChar(c: seq<Byte>)
    requires IsChar(c)
    ensures Image(c) == (if c == [0] then REPLACEMENT else c) && IsChar(Image(c))
  {
    if c == [0] {
      assert c[..0] == [];
      assert Image(c) == Image([]) + ImageOf(0);
      assert Image(c) == REPLACEMENT;
    } else {
      assert 0 !in c;
      ImageOfPlain(c);
    }
  }

  /** The replaced text, character by character. */
  function ImageChars(cs: seq<seq<Byte>>): seq<seq<Byte>> {
    if cs == [] then [] else ImageChars(cs[..|cs| - 1]) + [Image(cs[|cs| - 1])]
  }

  lemma {:induction false} ImageIsWellFormed(cs: seq<seq<Byte>>)
    requires Chars(cs)
    ensures Chars(ImageChars(cs)) && Image(Bytes(cs)) == Bytes(ImageChars(cs))
  {
    if cs != [] {
      var init, c := cs[..|cs| - 1], cs[|cs| - 1];
      assert Chars(init);
      ImageIsWellFormed(init);
      ImageAppend(Bytes(init), c);
      assert IsChar(c);
      ImageOfChar(c);
      OneMoreChar(ImageChars(init), Image(c));
    }
  }

  lemma OneMoreChar(cs: seq<seq<Byte>>, c: seq<Byte>)
    requires Chars(cs) && IsChar(c)
    ensures Chars(cs + [c]) && Bytes(cs + [c]) == Bytes(cs) + c
  {
    assert (cs + [c])[..|cs|] == cs;
  }

  /** Well-formed text stays well-formed. */
  lemma LoggedIsWellFormed(s: seq<Byte>)
    requires WellFormed(s)
    ensures WellFormed(Logged(s))
  {
    var cs :| Chars(cs) && s == Bytes(cs);
    var k := LoggedIsLongestPrefix(cs);
    ImageIsWellFormed(cs[..k]);
  }
}
