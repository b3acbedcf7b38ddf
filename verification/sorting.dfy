/** Python's `list.sort(key=...)`: a stable sort by an integer key. The
    sorted list is characterised by where each element lands: element `i`
    of the input goes to position `Rank(s, key, i)`, the number of elements
    with a smaller key plus the number of earlier elements with the same
    key. A descending sort (`reverse=True`, which Python also keeps stable)
    is the same sort on the negated key. */
module Sorting {

  /** Number of elements of `s` whose key is below `k`. */
  function CountBelow<T>(s: seq<T>, key: T -> int, k: int): (n: nat)
    ensures n <= |s|
  {
    if |s| == 0 then 0
    else CountBelow(s[..|s| - 1], key, k) + (if key(s[|s| - 1]) < k then 1 else 0)
  }

  /** Number of elements of `s` whose key is `k`. */
  function CountEqual<T>(s: seq<T>, key: T -> int, k: int): (n: nat)
    ensures n <= |s|
  {
    if |s| == 0 then 0
    else CountEqual(s[..|s| - 1], key, k) + (if key(s[|s| - 1]) == k then 1 else 0)
  }

  /** Zero-based position of `s[i]` once `s` is stably sorted by `key`. */
  function Rank<T>(s: seq<T>, key: T -> int, i: nat): nat
    requires i < |s|
  {
    CountBelow(s, key, key(s[i])) + CountEqual(s[..i], key, key(s[i]))
  }

  predicate SortedBy<T>(s: seq<T>, key: T -> int)
  {
    forall a, b :: 0 <= a < b < |s| ==> key(s[a]) <= key(s[b])
  }

  lemma {:induction false} CountsBounded<T>(s: seq<T>, key: T -> int, k: int)
    ensures CountBelow(s, key, k) + CountEqual(s, key, k) <= |s|
  {
    if |s| > 0 {
      CountsBounded(s[..|s| - 1], key, k);
    }
  }

  /** Insertion sort. Because the prefix is already sorted, the elements
      whose key is at most that of the new element are exactly the first
      `CountBelow + CountEqual` ones, and the new element goes right after
      them, behind every equal key: that is what keeps the sort stable. */
  function SortBy<T>(s: seq<T>, key: T -> int): (r: seq<T>)
    ensures |r| == |s|
  {
    if |s| == 0 then []
    else
      var init := s[..|s| - 1];
      var x := s[|s| - 1];
      var sorted := SortBy(init, key);
      CountsBounded(init, key, key(x));
      var pos := CountBelow(init, key, key(x)) + CountEqual(init, key, key(x));
      sorted[..pos] + [x] + sorted[pos..]
  }

  lemma {:induction false} CountEqualPrefix<T>(s: seq<T>, key: T -> int, k: int, m: nat)
    requires m <= |s|
    ensures CountEqual(s[..m], key, k) <= CountEqual(s, key, k)
    decreases |s|
  {
    if m < |s| {
      assert s[..|s| - 1][..m] == s[..m];
      CountEqualPrefix(s[..|s| - 1], key, k, m);
    } else {
      assert s[..m] == s;
    }
  }

  /** Raising the bound can only add elements below it. */
  lemma {:induction false} CountMonotone<T>(s: seq<T>, key: T -> int, k1: int, k2: int)
    requires k1 < k2
    ensures CountBelow(s, key, k1) + CountEqual(s, key, k1) <= CountBelow(s, key, k2)
  {
    if |s| > 0 {
      CountMonotone(s[..|s| - 1], key, k1, k2);
    }
  }

  lemma CountSelf<T>(s: seq<T>, key: T -> int, i: nat)
    requires i < |s|
    ensures CountEqual(s[..i + 1], key, key(s[i])) == CountEqual(s[..i], key, key(s[i])) + 1
  {
    assert s[..i + 1][..i] == s[..i];
  }

  /** Ranks order elements by key, and equal keys by input position. */
  lemma RankOrder<T>(s: seq<T>, key: T -> int, i: nat, j: nat)
    requires i < |s| && j < |s|
    ensures key(s[i]) < key(s[j]) ==> Rank(s, key, i) < Rank(s, key, j)
    ensures key(s[i]) == key(s[j]) && i < j ==> Rank(s, key, i) < Rank(s, key, j)
  {
    var ki := key(s[i]);
    CountSelf(s, key, i);
    if ki < key(s[j]) {
      CountEqualPrefix(s, key, ki, i + 1);
      CountMonotone(s, key, ki, key(s[j]));
    } else if ki == key(s[j]) && i < j {
      CountEqualPrefix(s[..j], key, ki, i + 1);
      assert s[..j][..i + 1] == s[..i + 1];
    }
  }

  /** How appending `x` moves the rank of an earlier element. */
  lemma RankAppend<T>(s: seq<T>, key: T -> int, i: nat)
    requires i < |s| - 1
    ensures Rank(s, key, i) == Rank(s[..|s| - 1], key, i) + (if key(s[|s| - 1]) < key(s[i]) then 1 else 0)
  {
    assert s[..|s| - 1][..i] == s[..i];
  }

  /** Some input element is ranked at output position `a`. */
  predicate Filled<T>(s: seq<T>, key: T -> int, a: nat)
  {
    exists i :: 0 <= i < |s| && Rank(s, key, i) == a
  }

  /** The stable-sort characterisation: element `i` of the input sits at
      position `Rank(s, key, i)` of the output. */
  lemma {:induction false} SortByPlaces<T>(s: seq<T>, key: T -> int)
    ensures forall i :: 0 <= i < |s| ==> Rank(s, key, i) < |s| && SortBy(s, key)[Rank(s, key, i)] == s[i]
  {
    if |s| > 0 {
      SortByPlaces(s[..|s| - 1], key);
      PlaceLast(s, key);
      forall i | 0 <= i < |s| - 1
        ensures Rank(s, key, i) < |s| && SortBy(s, key)[Rank(s, key, i)] == s[i]
      {
        PlaceEarlier(s, key, i);
      }
    }
  }

  /** The newly inserted element lands at its rank. */
  lemma PlaceLast<T>(s: seq<T>, key: T -> int)
    requires |s| > 0
    ensures Rank(s, key, |s| - 1) < |s| && SortBy(s, key)[Rank(s, key, |s| - 1)] == s[|s| - 1]
  {
    var n := |s| - 1;
    var pos := SortByStep(s, key);
    assert Rank(s, key, n) == pos by {
      assert s[..n] == s[..|s| - 1];
    }
    InsertAtPos(SortBy(s[..n], key), s[n], pos);
  }

  /** An element already placed in the sorted prefix keeps its place, moved
      one step up when the new element's key is smaller. */
  lemma PlaceEarlier<T>(s: seq<T>, key: T -> int, i: nat)
    requires i < |s| - 1
    requires Rank(s[..|s| - 1], key, i) < |s| - 1 && SortBy(s[..|s| - 1], key)[Rank(s[..|s| - 1], key, i)] == s[i]
    ensures Rank(s, key, i) < |s| && SortBy(s, key)[Rank(s, key, i)] == s[i]
  {
    var init := s[..|s| - 1];
    var x := s[|s| - 1];
    var sorted := SortBy(init, key);
    var ri := Rank(init, key, i);
    var pos := SortByStep(s, key);
    assert init[i] == s[i];
    RankAppend(s, key, i);
    RankBelowInsertion(init, key, i, key(x));
    InsertAtOthers(sorted, x, pos, ri);
    if key(s[i]) <= key(x) {
      assert Rank(s, key, i) == ri && ri < pos;
    } else {
      assert Rank(s, key, i) == ri + 1 && ri >= pos;
    }
  }

  /** Unfolds one insertion, returning the insertion point. */
  lemma SortByStep<T>(s: seq<T>, key: T -> int) returns (pos: nat)
    requires |s| > 0
    ensures pos == CountBelow(s[..|s| - 1], key, key(s[|s| - 1])) + CountEqual(s[..|s| - 1], key, key(s[|s| - 1]))
    ensures pos <= |s| - 1
    ensures SortBy(s, key) == SortBy(s[..|s| - 1], key)[..pos] + [s[|s| - 1]] + SortBy(s[..|s| - 1], key)[pos..]
  {
    CountsBounded(s[..|s| - 1], key, key(s[|s| - 1]));
    pos := CountBelow(s[..|s| - 1], key, key(s[|s| - 1])) + CountEqual(s[..|s| - 1], key, key(s[|s| - 1]));
  }

  lemma InsertAtPos<T>(sorted: seq<T>, x: T, pos: nat)
    requires pos <= |sorted|
    ensures (sorted[..pos] + [x] + sorted[pos..])[pos] == x
  {
  }

  lemma InsertAtOthers<T>(sorted: seq<T>, x: T, pos: nat, a: nat)
    requires pos <= |sorted| && a < |sorted|
    ensures a < pos ==> (sorted[..pos] + [x] + sorted[pos..])[a] == sorted[a]
    ensures a >= pos ==> (sorted[..pos] + [x] + sorted[pos..])[a + 1] == sorted[a]
  {
  }

  /** Every output position receives some input element, so `Rank` is a
      bijection onto the output positions. */
  lemma {:induction false} SortByFills<T>(s: seq<T>, key: T -> int)
    ensures forall a :: 0 <= a < |s| ==> Filled(s, key, a)
  {
    if |s| > 0 {
      var n := |s| - 1;
      var init := s[..n];
      var x := s[n];
      SortByFills(init, key);
      var pos := CountBelow(init, key, key(x)) + CountEqual(init, key, key(x));
      assert Rank(s, key, n) == pos by {
        assert s[..n] == init;
      }
      forall a | 0 <= a < |s|
        ensures Filled(s, key, a)
      {
        CountsBounded(init, key, key(x));
        if a < pos {
          assert Filled(init, key, a);
          var i :| 0 <= i < n && Rank(init, key, i) == a;
          RankAppend(s, key, i);
          RankBelowInsertion(init, key, i, key(x));
        } else if a > pos {
          assert Filled(init, key, a - 1);
          var i :| 0 <= i < n && Rank(init, key, i) == a - 1;
          RankAppend(s, key, i);
          RankBelowInsertion(init, key, i, key(x));
        }
      }
    }
  }

  /** An element's rank lies before the insertion point of key `k` exactly
      when its key is at most `k`. */
  lemma RankBelowInsertion<T>(s: seq<T>, key: T -> int, i: nat, k: int)
    requires i < |s|
    ensures Rank(s, key, i) < CountBelow(s, key, k) + CountEqual(s, key, k) <==> key(s[i]) <= k
  {
    var ki := key(s[i]);
    CountSelf(s, key, i);
    CountEqualPrefix(s, key, ki, i + 1);
    if ki < k {
      CountMonotone(s, key, ki, k);
    } else if k < ki {
      CountMonotone(s, key, k, ki);
    }
  }

  /** The output is ordered by key. */
  lemma SortBySorted<T>(s: seq<T>, key: T -> int)
    ensures SortedBy(SortBy(s, key), key)
  {
    var r := SortBy(s, key);
    SortByPlaces(s, key);
    SortByFills(s, key);
    forall a, b | 0 <= a < b < |r|
      ensures key(r[a]) <= key(r[b])
    {
      assert Filled(s, key, a) && Filled(s, key, b);
      var i :| 0 <= i < |s| && Rank(s, key, i) == a;
      var j :| 0 <= j < |s| && Rank(s, key, j) == b;
      RankOrder(s, key, j, i);
    }
  }

  /** The output is a permutation of the input. */
  lemma {:induction false} SortByPermutes<T>(s: seq<T>, key: T -> int)
    ensures multiset(SortBy(s, key)) == multiset(s)
  {
    if |s| > 0 {
      var n := |s| - 1;
      var sorted := SortBy(s[..n], key);
      CountsBounded(s[..n], key, key(s[n]));
      var pos := CountBelow(s[..n], key, key(s[n])) + CountEqual(s[..n], key, key(s[n]));
      SortByPermutes(s[..n], key);
      assert sorted == sorted[..pos] + sorted[pos..];
      assert s == s[..n] + [s[n]];
    }
  }

  /** Every element of the output comes from the input. */
  lemma SortByMembers<T>(s: seq<T>, key: T -> int)
    ensures forall i :: 0 <= i < |s| ==> SortBy(s, key)[i] in s
  {
    SortByPermutes(s, key);
    forall i | 0 <= i < |s|
      ensures SortBy(s, key)[i] in s
    {
      assert SortBy(s, key)[i] in multiset(SortBy(s, key));
    }
  }
}
