/**
 * The stable sort that `Array.prototype.sort` performs with a comparator of
 * the form `(a, b) => key(a) - key(b)`: elements end up in non-decreasing
 * order of `key`, and elements with equal keys keep their relative order.
 * It is written as an insertion sort.
 */
module Sorting {
  import opened Types
  import Seqs

  /** The keys of `s` never decrease from left to right. */
  ghost predicate SortedBy(s: seq<Wallpaper>, key: Wallpaper -> int)
  {
    forall i, j :: 0 <= i < j < |s| ==> key(s[i]) <= key(s[j])
  }

  /** The elements of `s` whose key is `v`, in their order in `s`. */
  function WithKey(s: seq<Wallpaper>, key: Wallpaper -> int, v: int): seq<Wallpaper>
  {
    Seqs.Filter(s, HasKey(key, v))
  }

  /** The test "the key is `v`". */
  function HasKey(key: Wallpaper -> int, v: int): Wallpaper -> bool
  {
    (w: Wallpaper) => key(w) == v
  }

  /** `x` placed just before the first element of `s` whose key is at least `key(x)`. */
  function Insert(x: Wallpaper, s: seq<Wallpaper>, key: Wallpaper -> int): (r: seq<Wallpaper>)
    ensures multiset(r) == multiset(s) + multiset{x}
    decreases |s|
  {
    if s == [] || key(x) <= key(s[0]) then [x] + s
    else
      assert s == [s[0]] + s[1..];
      [s[0]] + Insert(x, s[1..], key)
  }

  /** A head no larger than any element of a sorted tail gives a sorted sequence. */
  lemma SortedCons(h: Wallpaper, t: seq<Wallpaper>, key: Wallpaper -> int)
    requires SortedBy(t, key)
    requires forall j :: 0 <= j < |t| ==> key(h) <= key(t[j])
    ensures SortedBy([h] + t, key)
  {
    var r := [h] + t;
    forall i, j | 0 <= i < j < |r| ensures key(r[i]) <= key(r[j]) {
      assert r[j] == t[j - 1];
      if i > 0 {
        assert r[i] == t[i - 1];
      }
    }
  }

  /** Inserting into a sorted sequence keeps it sorted. */
  lemma {:induction false} InsertSorted(x: Wallpaper, s: seq<Wallpaper>, key: Wallpaper -> int)
    requires SortedBy(s, key)
    ensures SortedBy(Insert(x, s, key), key)
    decreases |s|
  {
    if s == [] || key(x) <= key(s[0]) {
      SortedCons(x, s, key);
    } else {
      var rest := Insert(x, s[1..], key);
      InsertSorted(x, s[1..], key);
      assert s == [s[0]] + s[1..];
      forall j | 0 <= j < |rest| ensures key(s[0]) <= key(rest[j]) {
        assert rest[j] in multiset(s[1..]) + multiset{x};
        if rest[j] != x {
          assert rest[j] in s[1..];
        }
      }
      SortedCons(s[0], rest, key);
    }
  }

  /** The sorted sequence: a permutation of `s` in non-decreasing key order. */
  function StableSort(s: seq<Wallpaper>, key: Wallpaper -> int): (r: seq<Wallpaper>)
    ensures multiset(r) == multiset(s)
    ensures |r| == |s|
    ensures SortedBy(r, key)
    decreases |s|
  {
    if s == [] then []
    else
      assert s == [s[0]] + s[1..];
      var sorted := StableSort(s[1..], key);
      InsertSorted(s[0], sorted, key);
      var r := Insert(s[0], sorted, key);
      assert |r| == |multiset(r)|;
      r
  }

  // ---------------------------------------------------------------------------
  // Stability

  /** Inserting `x` puts it in front of every element that has the same key. */
  lemma {:induction false} InsertStable(x: Wallpaper, s: seq<Wallpaper>, key: Wallpaper -> int, v: int)
    ensures WithKey(Insert(x, s, key), key, v) ==
            (if key(x) == v then [x] else []) + WithKey(s, key, v)
    decreases |s|
  {
    if s == [] || key(x) <= key(s[0]) {
      Seqs.FilterCons(x, s, HasKey(key, v));
    } else {
      assert s == [s[0]] + s[1..];
      var rest := Insert(x, s[1..], key);
      assert Insert(x, s, key) == [s[0]] + rest;
      InsertStable(x, s[1..], key, v);
      InsertStableStep(x, s[0], s[1..], rest, key, v);
    }
  }

  /**
   * The step of `InsertStable` when `x` passes the head `h`: `h` and `x` do
   * not share a key, so their order among the key-`v` elements cannot change.
   */
  lemma InsertStableStep(x: Wallpaper, h: Wallpaper, t: seq<Wallpaper>, rest: seq<Wallpaper>,
                         key: Wallpaper -> int, v: int)
    requires key(x) > key(h)
    requires WithKey(rest, key, v) == (if key(x) == v then [x] else []) + WithKey(t, key, v)
    ensures WithKey([h] + rest, key, v) == (if key(x) == v then [x] else []) + WithKey([h] + t, key, v)
  {
    Seqs.FilterCons(h, rest, HasKey(key, v));
    Seqs.FilterCons(h, t, HasKey(key, v));
  }

  /** Elements with equal keys appear in the sorted sequence in their original order. */
  lemma {:induction false} SortStable(s: seq<Wallpaper>, key: Wallpaper -> int, v: int)
    ensures WithKey(StableSort(s, key), key, v) == WithKey(s, key, v)
    decreases |s|
  {
    if s != [] {
      assert s == [s[0]] + s[1..];
      SortStable(s[1..], key, v);
      InsertStable(s[0], StableSort(s[1..], key), key, v);
      Seqs.FilterCons(s[0], s[1..], HasKey(key, v));
    }
  }

  /** When every element has the same key, sorting changes nothing. */
  lemma ConstantKeyKeepsOrder(s: seq<Wallpaper>, key: Wallpaper -> int, c: int)
    requires forall i :: 0 <= i < |s| ==> key(s[i]) == c
    ensures StableSort(s, key) == s
  {
    var r := StableSort(s, key);
    SortStable(s, key, c);
    Seqs.FilterAll(s, HasKey(key, c));
    forall w | w in r ensures key(w) == c {
      assert w in multiset(s);
    }
    Seqs.FilterAll(r, HasKey(key, c));
  }

  // ---------------------------------------------------------------------------
  // Uniqueness

  /** Distinct elements of `s` have distinct keys. */
  ghost predicate DistinctKeys(s: seq<Wallpaper>, key: Wallpaper -> int)
  {
    forall i, j :: 0 <= i < |s| && 0 <= j < |s| && key(s[i]) == key(s[j]) ==> s[i] == s[j]
  }

  /** Dropping the head of a sorted sequence leaves it sorted. */
  lemma SortedTail(s: seq<Wallpaper>, key: Wallpaper -> int)
    requires s != [] && SortedBy(s, key)
    ensures SortedBy(s[1..], key)
  {
    forall i, j | 0 <= i < j < |s[1..]| ensures key(s[1..][i]) <= key(s[1..][j]) {
      assert s[1..][i] == s[i + 1] && s[1..][j] == s[j + 1];
    }
  }

  /** Dropping the head keeps the keys distinct. */
  lemma DistinctKeysTail(s: seq<Wallpaper>, key: Wallpaper -> int)
    requires s != [] && DistinctKeys(s, key)
    ensures DistinctKeys(s[1..], key)
  {
    forall i, j | 0 <= i < |s[1..]| && 0 <= j < |s[1..]| && key(s[1..][i]) == key(s[1..][j])
      ensures s[1..][i] == s[1..][j]
    {
      assert s[1..][i] == s[i + 1] && s[1..][j] == s[j + 1];
    }
  }

  /** Two sorted arrangements of the same elements start with the same element when keys are distinct. */
  lemma SortedHeadsAgree(a: seq<Wallpaper>, b: seq<Wallpaper>, key: Wallpaper -> int)
    requires a != [] && multiset(a) == multiset(b)
    requires SortedBy(a, key) && SortedBy(b, key)
    requires DistinctKeys(a, key)
    ensures b != [] && a[0] == b[0]
  {
    assert a[0] in multiset(b);
    var k :| 0 <= k < |b| && b[k] == a[0];
    assert b[0] in multiset(a);
    var m :| 0 <= m < |a| && a[m] == b[0];
    assert key(a[0]) <= key(a[m]);
    assert key(b[0]) <= key(b[k]);
  }

  /**
   * Two sorted arrangements of the same elements coincide when distinct
   * elements have distinct keys.
   */
  lemma {:induction false} SortedPermutationsEqual(a: seq<Wallpaper>, b: seq<Wallpaper>, key: Wallpaper -> int)
    requires multiset(a) == multiset(b)
    requires SortedBy(a, key) && SortedBy(b, key)
    requires DistinctKeys(a, key)
    ensures a == b
    decreases |a|
  {
    if a == [] {
      assert |b| == |multiset(b)| == 0;
    } else {
      SortedHeadsAgree(a, b, key);
      assert a == [a[0]] + a[1..] && b == [b[0]] + b[1..];
      assert multiset(a[1..]) == multiset(a) - multiset{a[0]};
      assert multiset(b[1..]) == multiset(b) - multiset{b[0]};
      SortedTail(a, key);
      SortedTail(b, key);
      DistinctKeysTail(a, key);
      SortedPermutationsEqual(a[1..], b[1..], key);
    }
  }
}
