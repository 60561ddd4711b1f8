/** String helpers standing in for the Foundation string operations the core calls. */
module Text {
  import opened Sorting

  /**
   * Foundation's `CharacterSet.whitespacesAndNewlines`: the Unicode space separators,
   * line and paragraph separators, the controls U+0009 to U+000D and U+0085.
   */
  predicate IsWhitespace(c: char) {
    || ('\t' <= c <= '\r')
    || c == ' ' || c == '\U{0085}' || c == '\U{00A0}' || c == '\U{1680}'
    || ('\U{2000}' <= c <= '\U{200A}')
    || c == '\U{2028}' || c == '\U{2029}' || c == '\U{202F}' || c == '\U{205F}' || c == '\U{3000}'
  }

  function TrimStart(s: string): (r: string)
    ensures |r| <= |s| && r == s[|s| - |r|..]
    ensures r == [] || !IsWhitespace(r[0])
    ensures forall i :: 0 <= i < |s| - |r| ==> IsWhitespace(s[i])
  {
    if s != [] && IsWhitespace(s[0]) then TrimStart(s[1..]) else s
  }

  function TrimEnd(s: string): (r: string)
    ensures |r| <= |s| && r == s[..|r|]
    ensures r == [] || !IsWhitespace(r[|r| - 1])
    ensures forall i :: |r| <= i < |s| ==> IsWhitespace(s[i])
  {
    if s != [] && IsWhitespace(s[|s| - 1]) then TrimEnd(s[..|s| - 1]) else s
  }

  /** `trimmingCharacters(in: .whitespacesAndNewlines)`. */
  function Trim(s: string): (r: string)
    ensures r == [] || (!IsWhitespace(r[0]) && !IsWhitespace(r[|r| - 1]))
    ensures HasInfix(s, r)
  {
    var t := TrimStart(s);
    var r := TrimEnd(t);
    var k := |s| - |t|;
    assert t == s[k..];
    assert r == t[..|r|];
    assert s[k..k + |r|] == s[k..][..|r|];
    HasInfixAt(s, r, k);
    r
  }

  /** A string that neither starts nor ends with whitespace is its own trimmed form. */
  lemma TrimUnpadded(s: string)
    requires s == [] || (!IsWhitespace(s[0]) && !IsWhitespace(s[|s| - 1]))
    ensures Trim(s) == s
  {
    assert TrimStart(s) == s;
  }

  /** Trimming an already trimmed string changes nothing. */
  lemma TrimIdempotent(s: string)
    ensures Trim(Trim(s)) == Trim(s)
  {
    var r := Trim(s);
    assert TrimStart(r) == r;
  }

  /** Whitespace around a string does not survive trimming. */
  lemma {:induction false} TrimIgnoresPadding(pre: string, s: string, post: string)
    requires forall i :: 0 <= i < |pre| ==> IsWhitespace(pre[i])
    requires forall i :: 0 <= i < |post| ==> IsWhitespace(post[i])
    ensures Trim(pre + s + post) == Trim(s)
  {
    TrimStartPadding(pre, s + post);
    assert pre + s + post == pre + (s + post);
    TrimStartPadding([], s + post);
    var t := TrimStart(s + post);
    var u := TrimStart(s);
    TrimStartSuffix(s, post);
    if t != [] || u != [] {
      TrimEndPadding(u, post);
    }
  }

  lemma {:induction false} TrimStartPadding(pre: string, s: string)
    requires forall i :: 0 <= i < |pre| ==> IsWhitespace(pre[i])
    ensures TrimStart(pre + s) == TrimStart(s)
  {
    if pre != [] {
      assert (pre + s)[1..] == pre[1..] + s;
      TrimStartPadding(pre[1..], s);
    } else {
      assert pre + s == s;
    }
  }

  lemma {:induction false} TrimStartSuffix(s: string, post: string)
    requires forall i :: 0 <= i < |post| ==> IsWhitespace(post[i])
    ensures TrimStart(s + post) == TrimStart(s) + post || (TrimStart(s) == [] && TrimStart(s + post) == [])
  {
    if s == [] {
      assert s + post == post;
      TrimStartPadding(post, []);
      assert post + [] == post;
    } else if IsWhitespace(s[0]) {
      assert (s + post)[1..] == s[1..] + post;
      TrimStartSuffix(s[1..], post);
    }
  }

  lemma {:induction false} TrimEndPadding(u: string, post: string)
    requires forall i :: 0 <= i < |post| ==> IsWhitespace(post[i])
    ensures TrimEnd(u + post) == TrimEnd(u)
    decreases |post|
  {
    if post != [] {
      var w := u + post;
      assert w[..|w| - 1] == u + post[..|post| - 1];
      TrimEndPadding(u, post[..|post| - 1]);
    } else {
      assert u + post == u;
    }
  }

  /** ASCII case mapping; a SHA-1 checksum is hexadecimal text. */
  function LowerChar(c: char): char {
    if 'A' <= c <= 'Z' then (c as int + 32) as char else c
  }

  /** `lowercased()`, restricted to the ASCII letters. */
  function Lowercased(s: string): (r: string)
    ensures |r| == |s|
    ensures forall i :: 0 <= i < |s| ==> r[i] == LowerChar(s[i])
  {
    seq(|s|, i requires 0 <= i < |s| => LowerChar(s[i]))
  }

  /** `joined(separator:)`. */
  function Join(parts: seq<string>, sep: string): string {
    if parts == [] then ""
    else if |parts| == 1 then parts[0]
    else parts[0] + sep + Join(parts[1..], sep)
  }

  function DigitChar(d: nat): char
    requires d < 10
  {
    "0123456789"[d]
  }

  function NatToString(n: nat): (r: string)
    ensures |r| > 0
    decreases n
  {
    if n < 10 then [DigitChar(n)] else NatToString(n / 10) + [DigitChar(n % 10)]
  }

  /** String interpolation of an `Int`. */
  function IntToString(i: int): string {
    if i < 0 then "-" + NatToString(-i) else NatToString(i)
  }

  /** `s.contains(sub)` for a string argument: `sub` occurs in `s` as a contiguous piece. */
  predicate HasInfix(s: string, sub: string)
    decreases |s|
  {
    sub <= s || (s != [] && HasInfix(s[1..], sub))
  }

  lemma {:induction false} HasInfixAt(s: string, sub: string, k: nat)
    requires k + |sub| <= |s| && s[k..k + |sub|] == sub
    ensures HasInfix(s, sub)
    decreases k
  {
    if k > 0 {
      assert s[1..][k - 1..k - 1 + |sub|] == s[k..k + |sub|];
      HasInfixAt(s[1..], sub, k - 1);
    } else {
      assert sub <= s;
    }
  }

  /**
   * Swift's `<=` on strings, taken as the lexicographic order of the characters' code points.
   */
  predicate LexLe(a: string, b: string)
    decreases |a|
  {
    a == [] || (b != [] && (a[0] < b[0] || (a[0] == b[0] && LexLe(a[1..], b[1..]))))
  }

  lemma {:induction false} LexLeTotal(a: string, b: string)
    ensures LexLe(a, b) || LexLe(b, a)
    decreases |a|
  {
    if a != [] && b != [] && a[0] == b[0] {
      LexLeTotal(a[1..], b[1..]);
    }
  }

  lemma {:induction false} LexLeTransitive(a: string, b: string, c: string)
    requires LexLe(a, b) && LexLe(b, c)
    ensures LexLe(a, c)
    decreases |a|
  {
    if a != [] && a[0] == b[0] && b[0] == c[0] {
      LexLeTransitive(a[1..], b[1..], c[1..]);
    }
  }

  lemma {:induction false} LexLeAntisymmetric(a: string, b: string)
    requires LexLe(a, b) && LexLe(b, a)
    ensures a == b
    decreases |a|
  {
    if a != [] {
      LexLeAntisymmetric(a[1..], b[1..]);
      assert a == [a[0]] + a[1..] && b == [b[0]] + b[1..];
    }
  }

  /** The string order is a total order, so sorting strings has exactly one outcome. */
  lemma LexLeTotalOrder()
    ensures TotalPreorder(LexLe) && Antisymmetric(LexLe)
  {
    forall a, b ensures LexLe(a, b) || LexLe(b, a) { LexLeTotal(a, b); }
    forall a, b, c | LexLe(a, b) && LexLe(b, c) ensures LexLe(a, c) { LexLeTransitive(a, b, c); }
    forall a, b | LexLe(a, b) && LexLe(b, a) ensures a == b { LexLeAntisymmetric(a, b); }
  }
}
