/**
 The stable sort by a key, as Python's `sorted` and JavaScript's `sort` do it; a descending
 stable sort is the ascending one by the negated key.
 */
module Sorting {
  function Insert<T>(x: T, sorted: seq<T>, key: T -> real): seq<T> {
    if sorted == [] then [x]
    else if key(x) <= key(sorted[0]) then [x] + sorted
    else [sorted[0]] + Insert(x, sorted[1..], key)
  }

  function Sort<T>(s: seq<T>, key: T -> real): seq<T> {
    if s == [] then [] else Insert(s[0], Sort(s[1..], key), key)
  }

  lemma {:induction false} InsertPermutes<T>(x: T, sorted: seq<T>, key: T -> real)
    ensures multiset(Insert(x, sorted, key)) == multiset(sorted) + multiset{x}
  {
    if sorted != [] && key(x) > key(sorted[0]) {
      assert sorted == [sorted[0]] + sorted[1..];
      InsertPermutes(x, sorted[1..], key);
    }
  }

  lemma {:induction false} SortPermutes<T>(s: seq<T>, key: T -> real)
    ensures multiset(Sort(s, key)) == multiset(s) && |Sort(s, key)| == |s|
  {
    if s != [] {
      assert s == [s[0]] + s[1..];
      SortPermutes(s[1..], key);
      InsertPermutes(s[0], Sort(s[1..], key), key);
    }
    assert |multiset(Sort(s, key))| == |multiset(s)|;
  }

  ghost predicate AscendingBy<T(!new)>(s: seq<T>, key: T -> real) {
    forall i, j :: 0 <= i < j < |s| ==> key(s[i]) <= key(s[j])
  }

  lemma {:induction false} InsertAscending<T(!new)>(x: T, sorted: seq<T>, key: T -> real)
    requires AscendingBy(sorted, key)
    ensures AscendingBy(Insert(x, sorted, key), key)
  {
    if sorted != [] && key(x) > key(sorted[0]) {
      InsertAscending(x, sorted[1..], key);
      var rest := Insert(x, sorted[1..], key);
      InsertPermutes(x, sorted[1..], key);
      forall i | 0 <= i < |rest|
        ensures key(sorted[0]) <= key(rest[i])
      {
        assert rest[i] in multiset(rest);
        assert rest[i] == x || rest[i] in multiset(sorted[1..]);
      }
    }
  }

  lemma {:induction false} SortAscending<T(!new)>(s: seq<T>, key: T -> real)
    ensures AscendingBy(Sort(s, key), key)
  {
    if s != [] {
      SortAscending(s[1..], key);
      InsertAscending(s[0], Sort(s[1..], key), key);
    }
  }

  /** Elements with one key, in their order. */
  function WithKey<T>(s: seq<T>, key: T -> real, k: real): seq<T> {
    if s == [] then [] else (if key(s[0]) == k then [s[0]] else []) + WithKey(s[1..], key, k)
  }

  lemma {:induction false} InsertStable<T>(x: T, sorted: seq<T>, key: T -> real, k: real)
    ensures WithKey(Insert(x, sorted, key), key, k) == (if key(x) == k then [x] else []) + WithKey(sorted, key, k)
  {
    var r := Insert(x, sorted, key);
    if sorted == [] || key(x) <= key(sorted[0]) {
      assert r == [x] + sorted && r[1..] == sorted;
    } else {
      assert r[1..] == Insert(x, sorted[1..], key);
      InsertStable(x, sorted[1..], key, k);
    }
  }

  /** The sort is stable: elements with equal keys keep their order. */
  lemma {:induction false} SortStable<T>(s: seq<T>, key: T -> real, k: real)
    ensures WithKey(Sort(s, key), key, k) == WithKey(s, key, k)
  {
    if s != [] {
      SortStable(s[1..], key, k);
      InsertStable(s[0], Sort(s[1..], key), key, k);
    }
  }

  lemma SameElements<T>(s: seq<T>, key: T -> real, x: T)
    ensures x in Sort(s, key) <==> x in s
  {
    SortPermutes(s, key);
    assert x in multiset(Sort(s, key)) <==> x in multiset(s);
  }

  // ---------------------------------------------------------------- relations that hold between any two elements

  ghost predicate Pairwise<T(!new)>(s: seq<T>, rel: (T, T) -> bool) {
    forall i, j :: 0 <= i < j < |s| ==> rel(s[i], s[j])
  }

  lemma TwiceIn<T>(b: seq<T>, i: nat, j: nat)
    requires i < j < |b| && b[i] == b[j]
    ensures multiset(b)[b[i]] >= 2
  {
    assert b == b[..i] + [b[i]] + b[i + 1..j] + [b[j]] + b[j + 1..];
    assert multiset(b)
        == multiset(b[..i]) + multiset{b[i]} + multiset(b[i + 1..j]) + multiset{b[j]} + multiset(b[j + 1..]);
  }

  lemma {:induction false} TwoPlaces<T>(a: seq<T>, x: T) returns (i: nat, j: nat)
    requires multiset(a)[x] >= 2
    ensures i < j < |a| && a[i] == x && a[j] == x
  {
    assert a == [a[0]] + a[1..];
    if a[0] == x {
      assert x in multiset(a[1..]);
      var k :| 0 <= k < |a[1..]| && a[1..][k] == x;
      i, j := 0, k + 1;
    } else {
      i, j := TwoPlaces(a[1..], x);
      i, j := i + 1, j + 1;
    }
  }

  /** A symmetric relation between any two elements does not depend on the order. */
  lemma PairwisePermutes<T(!new)>(a: seq<T>, b: seq<T>, rel: (T, T) -> bool)
    requires multiset(a) == multiset(b) && Pairwise(a, rel) && forall x, y :: rel(x, y) ==> rel(y, x)
    ensures Pairwise(b, rel)
  {
    forall i, j | 0 <= i < j < |b|
      ensures rel(b[i], b[j])
    {
      if b[i] == b[j] {
        TwiceIn(b, i, j);
        var k, l := TwoPlaces(a, b[i]);
        assert rel(a[k], a[l]);
      } else {
        assert b[i] in multiset(b) && b[j] in multiset(b);
        assert b[i] in a && b[j] in a;
      }
    }
  }
}
