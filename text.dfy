/** The few Python string operations the evaluator relies on:
    `in`, `strip()`, `replace()`, `', '.join(...)`, slicing and list repr. */
module Text {

  predicate IsPrefix(p: string, s: string) {
    |p| <= |s| && s[..|p|] == p
  }

  /** `needle` occurs in `hay` starting at index `i`. */
  predicate OccursAt(hay: string, needle: string, i: int) {
    0 <= i && i + |needle| <= |hay| && hay[i..i + |needle|] == needle
  }

  /** Python's `needle in hay`, scanning from the left. */
  predicate Contains(hay: string, needle: string): (r: bool)
    ensures r ==> |needle| <= |hay|
    ensures |needle| == 0 ==> r
    decreases |hay|
  {
    IsPrefix(needle, hay) || (|hay| > 0 && Contains(hay[1..], needle))
  }

  lemma {:induction false} OccursImpliesContains(hay: string, needle: string, i: int)
    requires OccursAt(hay, needle, i)
    ensures Contains(hay, needle)
    decreases i
  {
    if i > 0 {
      assert hay[1..][i - 1..i - 1 + |needle|] == hay[i..i + |needle|];
      OccursImpliesContains(hay[1..], needle, i - 1);
    }
  }

  lemma {:induction false} ContainsImpliesOccurs(hay: string, needle: string) returns (i: int)
    requires Contains(hay, needle)
    ensures OccursAt(hay, needle, i)
    decreases |hay|
  {
    if IsPrefix(needle, hay) {
      i := 0;
    } else {
      var j := ContainsImpliesOccurs(hay[1..], needle);
      assert hay[j + 1..j + 1 + |needle|] == hay[1..][j..j + |needle|];
      i := j + 1;
    }
  }

  /** The scan agrees with the existence of an occurrence. */
  lemma ContainsIffOccurs(hay: string, needle: string)
    ensures Contains(hay, needle) <==> exists i :: OccursAt(hay, needle, i)
  {
    if Contains(hay, needle) {
      var i := ContainsImpliesOccurs(hay, needle);
    }
    forall i | OccursAt(hay, needle, i) ensures Contains(hay, needle) {
      OccursImpliesContains(hay, needle, i);
    }
  }

  /** Whatever contains `a + m + b` contains `m`. */
  lemma ContainsInfix(hay: string, a: string, m: string, b: string)
    requires Contains(hay, a + m + b)
    ensures Contains(hay, m)
  {
    var w := a + m + b;
    var i := ContainsImpliesOccurs(hay, w);
    forall k | 0 <= k < |m| ensures hay[i + |a| + k] == m[k] {
      assert hay[i + |a| + k] == hay[i..i + |w|][|a| + k] == w[|a| + k];
    }
    assert hay[i + |a|..i + |a| + |m|] == m;
    OccursImpliesContains(hay, m, i + |a|);
  }

  lemma ContainsItself(s: string)
    ensures Contains(s, s)
  {
    assert IsPrefix(s, s);
  }

  /** Appending text before keeps an occurrence. */
  lemma {:induction false} ContainsInSuffix(a: string, b: string, n: string)
    requires Contains(b, n)
    ensures Contains(a + b, n)
    decreases |a|
  {
    if a == [] {
      assert a + b == b;
    } else {
      assert (a + b)[1..] == a[1..] + b;
      ContainsInSuffix(a[1..], b, n);
    }
  }

  /** Appending text after keeps an occurrence. */
  lemma {:induction false} ContainsInPrefix(a: string, b: string, n: string)
    requires Contains(a, n)
    ensures Contains(a + b, n)
    decreases |a|
  {
    if IsPrefix(n, a) {
      assert (a + b)[..|n|] == a[..|n|];
    } else {
      assert (a + b)[1..] == a[1..] + b;
      ContainsInPrefix(a[1..], b, n);
    }
  }

  lemma ContainsEachInSuffix(a: string, b: string, items: seq<string>)
    requires forall k :: 0 <= k < |items| ==> Contains(b, items[k])
    ensures forall k :: 0 <= k < |items| ==> Contains(a + b, items[k])
  {
    forall k | 0 <= k < |items| ensures Contains(a + b, items[k]) {
      ContainsInSuffix(a, b, items[k]);
    }
  }

  lemma ContainsEachInPrefix(a: string, b: string, items: seq<string>)
    requires forall k :: 0 <= k < |items| ==> Contains(a, items[k])
    ensures forall k :: 0 <= k < |items| ==> Contains(a + b, items[k])
  {
    forall k | 0 <= k < |items| ensures Contains(a + b, items[k]) {
      ContainsInPrefix(a, b, items[k]);
    }
  }

  /** The characters for which Python's `str.isspace()` holds. */
  predicate IsSpace(c: char) {
    c == ' ' || ('\t' <= c <= '\r') || ('\U{1C}' <= c <= '\U{1F}')
    || c == '\U{85}' || c == '\U{A0}' || c == '\U{1680}'
    || ('\U{2000}' <= c <= '\U{200A}') || c == '\U{2028}' || c == '\U{2029}'
    || c == '\U{202F}' || c == '\U{205F}' || c == '\U{3000}'
  }

  predicate AllSpace(s: string) {
    forall i :: 0 <= i < |s| ==> IsSpace(s[i])
  }

  function TrimStart(s: string): (r: string)
    ensures |r| <= |s| && r == s[|s| - |r|..]
    ensures r != [] ==> !IsSpace(r[0])
    decreases |s|
  {
    if s != [] && IsSpace(s[0]) then TrimStart(s[1..]) else s
  }

  function TrimEnd(s: string): (r: string)
    ensures |r| <= |s| && r == s[..|r|]
    ensures r != [] ==> !IsSpace(r[|r| - 1])
    decreases |s|
  {
    if s != [] && IsSpace(s[|s| - 1]) then TrimEnd(s[..|s| - 1]) else s
  }

  /** Python's `s.strip()`. */
  function Strip(s: string): (r: string)
    ensures |r| <= |s|
    ensures r == [] <==> AllSpace(s)
    ensures r != [] ==> !IsSpace(r[0]) && !IsSpace(r[|r| - 1])
  {
    TrimStartEmpty(s);
    TrimEndEmpty(TrimStart(s));
    TrimEnd(TrimStart(s))
  }

  lemma {:induction false} TrimStartEmpty(s: string)
    ensures TrimStart(s) == [] <==> AllSpace(s)
    ensures TrimStart(s) != [] ==> !IsSpace(TrimStart(s)[0])
    decreases |s|
  {
    if s != [] && IsSpace(s[0]) {
      TrimStartEmpty(s[1..]);
      assert forall i :: 1 <= i < |s| ==> s[i] == s[1..][i - 1];
    }
  }

  lemma {:induction false} TrimEndEmpty(s: string)
    ensures TrimEnd(s) == [] <==> AllSpace(s)
    decreases |s|
  {
    if s != [] && IsSpace(s[|s| - 1]) {
      TrimEndEmpty(s[..|s| - 1]);
      assert forall i :: 0 <= i < |s| - 1 ==> s[i] == s[..|s| - 1][i];
    }
  }

  /** Python's `s[:n]`. */
  function Take(s: string, n: nat): (r: string)
    ensures |r| <= n && IsPrefix(r, s)
    ensures |s| <= n ==> r == s
  {
    if |s| <= n then s else s[..n]
  }

  /** Python's `sep.join(xs)`: every item appears in the joined text. */
  function Join(xs: seq<string>, sep: string): (r: string)
    ensures forall k :: 0 <= k < |xs| ==> Contains(r, xs[k])
    decreases |xs|
  {
    if |xs| == 0 then ""
    else if |xs| == 1 then
      ContainsItself(xs[0]);
      xs[0]
    else
      var rest := Join(xs[1..], sep);
      assert forall k :: 1 <= k < |xs| ==> xs[k] == xs[1..][k - 1];
      ContainsEachInSuffix(xs[0] + sep, rest, xs[1..]);
      ContainsItself(xs[0]);
      ContainsInPrefix(xs[0], sep + rest, xs[0]);
      assert xs[0] + sep + rest == xs[0] + (sep + rest);
      xs[0] + sep + rest
  }

  function QuoteAll(xs: seq<string>): (r: seq<string>)
    ensures |r| == |xs|
    ensures forall k :: 0 <= k < |xs| ==> r[k] == "'" + xs[k] + "'"
    decreases |xs|
  {
    if xs == [] then [] else ["'" + xs[0] + "'"] + QuoteAll(xs[1..])
  }

  /** `str()` of a Python list of strings, for strings that need no escaping. */
  function ListRepr(xs: seq<string>): (r: string)
    ensures |r| >= 2 && r[0] == '[' && r[|r| - 1] == ']'
    ensures xs == [] ==> r == "[]"
    ensures forall k :: 0 <= k < |xs| ==> Contains(r, "'" + xs[k] + "'")
  {
    var quoted := QuoteAll(xs);
    var body := Join(quoted, ", ");
    ContainsEachInSuffix("[", body, quoted);
    ContainsEachInPrefix("[" + body, "]", quoted);
    "[" + body + "]"
  }

  /** Python's `s.replace(p, q)`: every non-overlapping occurrence of `p`,
      from the left, is replaced by `q`. */
  function ReplaceAll(s: string, p: string, q: string): (r: string)
    requires |p| > 0
    ensures !Contains(s, p) ==> r == s
    decreases |s|
  {
    if |s| < |p| then s
    else if s[..|p|] == p then q + ReplaceAll(s[|p|..], p, q)
    else [s[0]] + ReplaceAll(s[1..], p, q)
  }

  /** Any occurrence of `p` leaves an occurrence of `q` behind. */
  lemma {:induction false} ReplaceAllIntroduces(s: string, p: string, q: string)
    requires |p| > 0 && Contains(s, p)
    ensures Contains(ReplaceAll(s, p, q), q)
    decreases |s|
  {
    var r := ReplaceAll(s, p, q);
    if s[..|p|] == p {
      assert IsPrefix(q, r);
    } else {
      assert Contains(s[1..], p);
      ReplaceAllIntroduces(s[1..], p, q);
      assert r[1..] == ReplaceAll(s[1..], p, q);
    }
  }
}
