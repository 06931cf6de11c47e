/**
 * Ordering of query results. SQL `ORDER BY` and Python's `sorted` are both
 * modelled by one stable insertion sort on a real-valued key; a descending
 * order is the ascending order of the negated key.
 */
module Sorting {

  /** The keys of `s` are non-decreasing. */
  predicate SortedBy<T>(s: seq<T>, key: T -> real)
  {
    forall i, j :: 0 <= i < j < |s| ==> key(s[i]) <= key(s[j])
  }

  /** Inserts `x` into `s` in front of the first element whose key is not smaller. */
  function Insert<T>(x: T, s: seq<T>, key: T -> real): seq<T>
  {
    if s == [] then [x]
    else if key(x) <= key(s[0]) then [x] + s
    else [s[0]] + Insert(x, s[1..], key)
  }

  /** Every key of `s` is at least `b`. */
  predicate Above<T>(s: seq<T>, key: T -> real, b: real)
  {
    forall k :: 0 <= k < |s| ==> b <= key(s[k])
  }

  lemma {:induction false} InsertAbove<T>(x: T, s: seq<T>, key: T -> real, b: real)
    requires Above(s, key, b) && b <= key(x)
    ensures Above(Insert(x, s, key), key, b)
  {
    if s != [] && key(s[0]) < key(x) {
      InsertAbove(x, s[1..], key, b);
    }
  }

  lemma SortedCons<T>(h: T, t: seq<T>, key: T -> real)
    requires SortedBy(t, key) && Above(t, key, key(h))
    ensures SortedBy([h] + t, key)
  {
  }

  lemma {:induction false} InsertSorted<T>(x: T, s: seq<T>, key: T -> real)
    requires SortedBy(s, key)
    ensures SortedBy(Insert(x, s, key), key)
  {
    if s == [] {
    } else if key(x) <= key(s[0]) {
      SortedCons(x, s, key);
    } else {
      InsertSorted(x, s[1..], key);
      InsertAbove(x, s[1..], key, key(s[0]));
      SortedCons(s[0], Insert(x, s[1..], key), key);
    }
  }

  lemma {:induction false} InsertMultiset<T>(x: T, s: seq<T>, key: T -> real)
    ensures multiset(Insert(x, s, key)) == multiset(s) + multiset{x}
    ensures |Insert(x, s, key)| == |s| + 1
  {
    if s != [] && key(s[0]) < key(x) {
      InsertMultiset(x, s[1..], key);
      assert s == [s[0]] + s[1..];
    }
  }

  lemma MultisetCons<T>(s: seq<T>)
    requires s != []
    ensures multiset(s) == multiset(s[1..]) + multiset{s[0]}
  {
    assert s == [s[0]] + s[1..];
  }

  /** The elements of `s` in non-decreasing key order; equal keys keep their order in `s`. */
  function SortBy<T>(s: seq<T>, key: T -> real): (r: seq<T>)
    ensures SortedBy(r, key)
    ensures multiset(r) == multiset(s)
    ensures |r| == |s|
  {
    if s == [] then []
    else
      var rest := SortBy(s[1..], key);
      InsertSorted(s[0], rest, key);
      InsertMultiset(s[0], rest, key);
      MultisetCons(s);
      Insert(s[0], rest, key)
  }

  /** Sorting keeps exactly the elements of its input. */
  lemma {:induction false} SortByMembers<T>(s: seq<T>, key: T -> real, x: T)
    ensures x in SortBy(s, key) <==> x in s
  {
    var r := SortBy(s, key);
    assert x in r <==> x in multiset(r);
    assert x in s <==> x in multiset(s);
  }

  /** No two pairs share a first component, as with the rows of a table or the items of a dictionary. */
  predicate DistinctKeys<K(==), V>(s: seq<(K, V)>)
  {
    forall a, b :: 0 <= a < b < |s| ==> s[a].0 != s[b].0
  }

  /** Two equal elements at different indices are counted twice. */
  lemma CountTwo<T>(s: seq<T>, i: int, j: int)
    requires 0 <= i < j < |s|
    ensures s[i] == s[j] ==> multiset(s)[s[i]] >= 2
  {
    assert s == s[..j] + s[j..];
    assert s[..j][i] == s[i];
    assert s[j..][0] == s[j];
  }

  /** With distinct keys, no pair occurs twice. */
  lemma {:induction false} DistinctKeysCount<K, V>(s: seq<(K, V)>, x: (K, V))
    requires DistinctKeys(s)
    ensures multiset(s)[x] <= 1
  {
    if s != [] {
      assert s == [s[0]] + s[1..];
      assert DistinctKeys(s[1..]) by {
        forall a, b | 0 <= a < b < |s[1..]| ensures s[1..][a].0 != s[1..][b].0 {
          assert s[1..][a] == s[a + 1] && s[1..][b] == s[b + 1];
        }
      }
      DistinctKeysCount(s[1..], x);
      if x == s[0] {
        forall k | 0 <= k < |s[1..]| ensures s[1..][k] != x {
          assert s[1..][k] == s[k + 1];
        }
        assert x !in s[1..];
      }
    }
  }

  /** A permutation of pairs with distinct keys has distinct keys. */
  lemma DistinctKeysPermutation<K, V>(a: seq<(K, V)>, b: seq<(K, V)>)
    requires multiset(a) == multiset(b)
    requires DistinctKeys(a)
    ensures DistinctKeys(b)
  {
    forall i, j | 0 <= i < j < |b| ensures b[i].0 != b[j].0 {
      assert b[i] in multiset(b) && b[j] in multiset(b);
      var p :| 0 <= p < |a| && a[p] == b[i];
      var q :| 0 <= q < |a| && a[q] == b[j];
      CountTwo(b, i, j);
      DistinctKeysCount(a, b[i]);
    }
  }

  /** Sorting never makes two pairs share a key. */
  lemma SortKeepsDistinctKeys<K, V>(s: seq<(K, V)>, key: ((K, V)) -> real)
    requires DistinctKeys(s)
    ensures DistinctKeys(SortBy(s, key))
  {
    DistinctKeysPermutation(s, SortBy(s, key));
  }
}
