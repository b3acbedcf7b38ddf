/** String helpers with Python semantics: `str.isspace`, `str.strip`, the `in`
    operator on strings, and `str(n)` for a non-negative integer. */
module Text {

  /** The characters for which Python's `str.isspace()` is true. */
  predicate IsSpace(c: char)
  {
    || c == ' ' || c == '\t' || c == '\n' || c == '\r'
    || c == '\U{000B}' || c == '\U{000C}'
    || ('\U{001C}' <= c <= '\U{001F}')
    || c == '\U{0085}' || c == '\U{00A0}' || c == '\U{1680}'
    || ('\U{2000}' <= c <= '\U{200A}')
    || c == '\U{2028}' || c == '\U{2029}' || c == '\U{202F}'
    || c == '\U{205F}' || c == '\U{3000}'
  }

  predicate AllSpace(s: string)
  {
    forall i :: 0 <= i < |s| ==> IsSpace(s[i])
  }

  /** `s.lstrip()`: the longest suffix of `s` that does not start with whitespace. */
  function StripLeading(s: string): (r: string)
    ensures |r| <= |s| && r == s[|s| - |r|..]
    ensures AllSpace(s[..|s| - |r|])
    ensures |r| > 0 ==> !IsSpace(r[0])
  {
    if |s| > 0 && IsSpace(s[0]) then StripLeading(s[1..]) else s
  }

  /** `s.rstrip()`: the longest prefix of `s` that does not end with whitespace. */
  function StripTrailing(s: string): (r: string)
    ensures |r| <= |s| && r == s[..|r|]
    ensures AllSpace(s[|r|..])
    ensures |r| > 0 ==> !IsSpace(r[|r| - 1])
  {
    if |s| > 0 && IsSpace(s[|s| - 1]) then StripTrailing(s[..|s| - 1]) else s
  }

  /** `s` is `r` with whitespace-only padding of length `i` before it and
      whitespace-only padding after it. */
  predicate PaddedAt(s: string, r: string, i: int)
  {
    0 <= i && i + |r| <= |s| && s[i..i + |r|] == r && AllSpace(s[..i]) && AllSpace(s[i + |r|..])
  }

  /** `s.strip()`: whitespace removed from both ends. */
  function Strip(s: string): (r: string)
    ensures exists i :: 0 <= i <= |s| && PaddedAt(s, r, i)
    ensures |r| > 0 ==> !IsSpace(r[0]) && !IsSpace(r[|r| - 1])
  {
    var l := StripLeading(s);
    var r := StripTrailing(l);
    var i := |s| - |l|;
    assert s[i..i + |r|] == r by {
      assert r == s[i..][..|r|];
    }
    assert s[i + |r|..] == l[|r|..];
    assert PaddedAt(s, r, i);
    r
  }

  lemma {:induction false} StripLeadingPadded(w: string, y: string)
    requires AllSpace(w)
    requires |y| > 0 && !IsSpace(y[0])
    ensures StripLeading(w + y) == y
  {
    if |w| > 0 {
      assert (w + y)[1..] == w[1..] + y;
      StripLeadingPadded(w[1..], y);
    }
  }

  lemma {:induction false} StripTrailingPadded(y: string, w: string)
    requires AllSpace(w)
    requires |y| > 0 && !IsSpace(y[|y| - 1])
    ensures StripTrailing(y + w) == y
  {
    if |w| > 0 {
      assert (y + w)[..|y + w| - 1] == y + w[..|w| - 1];
      StripTrailingPadded(y, w[..|w| - 1]);
    } else {
      assert y + w == y;
    }
  }

  /** Stripping a padded string whose core neither starts nor ends with whitespace
      gives back exactly the core. */
  lemma StripPadded(w1: string, x: string, w2: string)
    requires AllSpace(w1) && AllSpace(w2)
    requires |x| > 0 && !IsSpace(x[0]) && !IsSpace(x[|x| - 1])
    ensures Strip(w1 + x + w2) == x
  {
    assert w1 + x + w2 == w1 + (x + w2);
    StripLeadingPadded(w1, x + w2);
    StripTrailingPadded(x, w2);
  }

  /** `sub` occurs in `s` starting at index `k`. */
  predicate OccursAt(s: string, sub: string, k: int)
  {
    0 <= k && k + |sub| <= |s| && s[k..k + |sub|] == sub
  }

  /** Python's `sub in s`. */
  predicate Contains(s: string, sub: string)
  {
    exists k :: 0 <= k <= |s| - |sub| && OccursAt(s, sub, k)
  }

  lemma ContainsSelf(s: string)
    ensures Contains(s, s)
  {
    assert s[0..|s|] == s;
    assert OccursAt(s, s, 0);
  }

  lemma ContainsAppend(s: string, sub: string, t: string)
    requires Contains(s, sub)
    ensures Contains(s + t, sub)
  {
    var k :| 0 <= k <= |s| - |sub| && OccursAt(s, sub, k);
    assert (s + t)[k..k + |sub|] == s[k..k + |sub|];
    assert OccursAt(s + t, sub, k);
  }

  lemma ContainsPrepend(t: string, s: string, sub: string)
    requires Contains(s, sub)
    ensures Contains(t + s, sub)
  {
    var k :| 0 <= k <= |s| - |sub| && OccursAt(s, sub, k);
    assert (t + s)[|t| + k..|t| + k + |sub|] == s[k..k + |sub|];
    assert OccursAt(t + s, sub, |t| + k);
  }

  lemma ContainsAllAppend(s: string, subs: seq<string>, t: string)
    requires forall i :: 0 <= i < |subs| ==> Contains(s, subs[i])
    ensures forall i :: 0 <= i < |subs| ==> Contains(s + t, subs[i])
  {
    forall i | 0 <= i < |subs|
      ensures Contains(s + t, subs[i])
    {
      ContainsAppend(s, subs[i], t);
    }
  }

  /** `s + t` contains `t` and everything `s` contains. */
  lemma ContainsGrow(s: string, subs: seq<string>, t: string)
    requires forall i :: 0 <= i < |subs| ==> Contains(s, subs[i])
    ensures forall i :: 0 <= i < |subs| ==> Contains(s + t, subs[i])
    ensures Contains(s + t, t)
  {
    ContainsAllAppend(s, subs, t);
    ContainsSelf(t);
    ContainsPrepend(s, t, t);
  }

  /** Python's `s.startswith(p)`. */
  predicate StartsWith(s: string, p: string)
  {
    |p| <= |s| && s[..|p|] == p
  }

  /** Python's `s.endswith(p)`. */
  predicate EndsWith(s: string, p: string)
  {
    |p| <= |s| && s[|s| - |p|..] == p
  }

  lemma FramedBy(a: string, m: string, b: string)
    ensures StartsWith(a + m + b, a) && EndsWith(a + m + b, b)
  {
    assert (a + m + b)[..|a|] == a;
    assert (a + m + b)[|a + m + b| - |b|..] == b;
  }

  function DigitChar(d: nat): (c: char)
    requires d < 10
    ensures '0' <= c <= '9'
  {
    "0123456789"[d]
  }

  /** `str(n)` for a non-negative integer: its decimal digits, without leading zeros. */
  function NatToString(n: nat): (r: string)
    ensures |r| > 0
    ensures forall i :: 0 <= i < |r| ==> '0' <= r[i] <= '9'
    ensures |r| > 1 ==> r[0] != '0'
  {
    if n < 10 then [DigitChar(n)] else NatToString(n / 10) + [DigitChar(n % 10)]
  }
}
