/** Small failure-carrying datatypes shared by every module of the model.
    `Result` carries the text of a Python exception (`str(e)`) on failure. */
module Basics {

  datatype Option<+T> = None | Some(value: T)

  datatype Result<+T> = Ok(value: T) | Err(message: string)

  /** The list `[0, 1, ..., n-1]` that `range(n)` walks. */
  function Range(n: nat): (r: seq<nat>)
    ensures |r| == n
    ensures forall i :: 0 <= i < n ==> r[i] == i
  {
    if n == 0 then [] else Range(n - 1) + [n - 1]
  }

  /** The list comprehension `[x for x in s if p(x)]`. */
  function Filter<T(!new)>(s: seq<T>, p: T -> bool): (r: seq<T>)
    ensures |r| <= |s|
    ensures forall x :: x in r <==> x in s && p(x)
  {
    if |s| == 0 then []
    else Filter(s[..|s| - 1], p) + (if p(s[|s| - 1]) then [s[|s| - 1]] else [])
  }

  /** Filtering one more element of a list. */
  lemma FilterSnoc<T(!new)>(s: seq<T>, p: T -> bool, i: nat)
    requires i < |s|
    ensures Filter(s[..i + 1], p) == Filter(s[..i], p) + (if p(s[i]) then [s[i]] else [])
  {
    assert s[..i + 1][..i] == s[..i];
  }

  /** Filtering a prefix gives a prefix of the filtered list. */
  lemma {:induction false} FilterPrefix<T(!new)>(s: seq<T>, p: T -> bool, k: nat)
    requires k <= |s|
    ensures |Filter(s[..k], p)| <= |Filter(s, p)|
    ensures Filter(s, p)[..|Filter(s[..k], p)|] == Filter(s[..k], p)
    decreases |s|
  {
    if k < |s| {
      assert s[..|s| - 1][..k] == s[..k];
      FilterPrefix(s[..|s| - 1], p, k);
    } else {
      assert s[..k] == s;
    }
  }

  /** Where a kept element lands: after every kept element before it. */
  lemma FilterPosition<T(!new)>(s: seq<T>, p: T -> bool, k: nat)
    requires k < |s| && p(s[k])
    ensures |Filter(s[..k], p)| < |Filter(s, p)|
    ensures Filter(s, p)[|Filter(s[..k], p)|] == s[k]
  {
    assert s[..k + 1][..k] == s[..k];
    FilterPrefix(s, p, k + 1);
  }

  /** A relation that holds between every earlier and later element still
      holds after filtering. */
  lemma {:induction false} FilterPairwise<T(!new)>(s: seq<T>, p: T -> bool, rel: (T, T) -> bool)
    requires forall a, b :: 0 <= a < b < |s| ==> rel(s[a], s[b])
    ensures forall a, b :: 0 <= a < b < |Filter(s, p)| ==> rel(Filter(s, p)[a], Filter(s, p)[b])
  {
    if |s| > 0 {
      var n := |s| - 1;
      var init := s[..n];
      assert forall a, b :: 0 <= a < b < |init| ==> rel(init[a], init[b]) by {
        assert forall a :: 0 <= a < |init| ==> init[a] == s[a];
      }
      FilterPairwise(init, p, rel);
      var r := Filter(s, p);
      var fi := Filter(init, p);
      if p(s[n]) {
        forall a, b | 0 <= a < b < |r|
          ensures rel(r[a], r[b])
        {
          if b < |fi| {
            assert r[a] == fi[a] && r[b] == fi[b];
          } else {
            assert r[a] == fi[a] && r[b] == s[n];
            assert fi[a] in init;
            var c :| 0 <= c < |init| && init[c] == fi[a];
            assert s[c] == fi[a];
          }
        }
      }
    }
  }

  /** Filtering twice by the same test is filtering once. */
  lemma {:induction false} FilterIdempotent<T(!new)>(s: seq<T>, p: T -> bool)
    ensures Filter(Filter(s, p), p) == Filter(s, p)
  {
    if |s| > 0 {
      var init := s[..|s| - 1];
      FilterIdempotent(init, p);
      var tail := if p(s[|s| - 1]) then [s[|s| - 1]] else [];
      FilterAppend(Filter(init, p), tail, p);
      FilterAll(tail, p);
    }
  }

  /** Filtering a list every element of which passes changes nothing. */
  lemma {:induction false} FilterAll<T(!new)>(s: seq<T>, p: T -> bool)
    requires forall i :: 0 <= i < |s| ==> p(s[i])
    ensures Filter(s, p) == s
  {
    if |s| > 0 {
      FilterAll(s[..|s| - 1], p);
    }
  }

  /** Filtering distributes over concatenation. */
  lemma {:induction false} FilterAppend<T(!new)>(a: seq<T>, b: seq<T>, p: T -> bool)
    ensures Filter(a + b, p) == Filter(a, p) + Filter(b, p)
    decreases |b|
  {
    if |b| > 0 {
      assert (a + b)[..|a + b| - 1] == a + b[..|b| - 1];
      FilterAppend(a, b[..|b| - 1], p);
    } else {
      assert a + b == a;
    }
  }

  /** Filtering a list no element of which passes leaves nothing. */
  lemma {:induction false} FilterNone<T(!new)>(s: seq<T>, p: T -> bool)
    requires forall i :: 0 <= i < |s| ==> !p(s[i])
    ensures Filter(s, p) == []
  {
    if |s| > 0 {
      FilterNone(s[..|s| - 1], p);
    }
  }
}
