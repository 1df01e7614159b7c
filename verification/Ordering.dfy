/**
  Lists ordered by an integer key: stable sorting, merging two sorted lists, and the fact the
  proofs lean on, that a strictly sorted list is determined by its members.
 */
module Ordering {

  ghost predicate Sorted<T(!new)>(key: T -> int, s: seq<T>) {
    forall i, j :: 0 <= i < j < |s| ==> key(s[i]) <= key(s[j])
  }

  ghost predicate StrictlySorted<T(!new)>(key: T -> int, s: seq<T>) {
    forall i, j :: 0 <= i < j < |s| ==> key(s[i]) < key(s[j])
  }

  ghost predicate DistinctKeys<T(!new)>(key: T -> int, s: seq<T>) {
    forall i, j :: 0 <= i < j < |s| ==> key(s[i]) != key(s[j])
  }

  ghost predicate SameMembers<T(!new)>(a: seq<T>, b: seq<T>) {
    forall x :: x in a <==> x in b
  }

  lemma {:induction false} StrictlySortedUnique<T(!new)>(key: T -> int, a: seq<T>, b: seq<T>)
    requires StrictlySorted(key, a) && StrictlySorted(key, b) && SameMembers(a, b)
    ensures a == b
  {
    assert a == [] || a[0] in a;
    assert b == [] || b[0] in b;
    if a != [] {
      assert a[0] == b[0];
      forall x ensures x in a[1..] <==> x in b[1..] {
        if x in a[1..] { assert x in b; assert x != b[0]; }
        if x in b[1..] { assert x in a; assert x != a[0]; }
      }
      StrictlySortedUnique(key, a[1..], b[1..]);
      assert a == [a[0]] + a[1..] && b == [b[0]] + b[1..];
    }
  }

  // ----- stable sort -----

  function Insert<T>(key: T -> int, x: T, s: seq<T>): seq<T> {
    if s == [] || key(x) <= key(s[0]) then [x] + s else [s[0]] + Insert(key, x, s[1..])
  }

  /** The stable sort of a list. */
  function SortBy<T>(key: T -> int, s: seq<T>): seq<T> {
    if s == [] then [] else Insert(key, s[0], SortBy(key, s[1..]))
  }

  /** The members with a given key, in list order. */
  function WithKey<T>(key: T -> int, k: int, s: seq<T>): seq<T> {
    if s == [] then [] else (if key(s[0]) == k then [s[0]] else []) + WithKey(key, k, s[1..])
  }

  lemma {:induction false} InsertPermutes<T>(key: T -> int, x: T, s: seq<T>)
    ensures multiset(Insert(key, x, s)) == multiset{x} + multiset(s)
  {
    if s != [] && key(s[0]) < key(x) {
      InsertPermutes(key, x, s[1..]);
      assert s == [s[0]] + s[1..];
    }
  }

  lemma {:induction false} MembersOfMultiset<T(!new)>(a: seq<T>, b: seq<T>)
    requires multiset(a) == multiset(b)
    ensures SameMembers(a, b) && |a| == |b|
  {
    forall x ensures x in a <==> x in b {
      assert x in a <==> x in multiset(a);
    }
    assert |a| == |multiset(a)|;
  }

  lemma {:induction false} InsertMembers<T(!new)>(key: T -> int, x: T, s: seq<T>, y: T)
    ensures y in Insert(key, x, s) <==> y == x || y in s
  {
    InsertPermutes(key, x, s);
    assert y in Insert(key, x, s) <==> y in multiset(Insert(key, x, s));
    assert y in s <==> y in multiset(s);
  }

  lemma {:induction false} InsertSorts<T(!new)>(key: T -> int, x: T, s: seq<T>)
    requires Sorted(key, s)
    ensures Sorted(key, Insert(key, x, s))
  {
    if s != [] && key(s[0]) < key(x) {
      InsertSorts(key, x, s[1..]);
      var r := Insert(key, x, s[1..]);
      forall i | 0 <= i < |r| ensures key(s[0]) <= key(r[i]) {
        InsertMembers(key, x, s[1..], r[i]);
      }
    }
  }

  lemma {:induction false} InsertSortsStrictly<T(!new)>(key: T -> int, x: T, s: seq<T>)
    requires StrictlySorted(key, s) && forall y :: y in s ==> key(y) != key(x)
    ensures StrictlySorted(key, Insert(key, x, s))
  {
    if s != [] && key(s[0]) < key(x) {
      InsertSortsStrictly(key, x, s[1..]);
      var r := Insert(key, x, s[1..]);
      forall i | 0 <= i < |r| ensures key(s[0]) < key(r[i]) {
        InsertMembers(key, x, s[1..], r[i]);
      }
    }
  }

  lemma {:induction false} SortByPermutes<T(!new)>(key: T -> int, s: seq<T>)
    ensures multiset(SortBy(key, s)) == multiset(s)
    ensures SameMembers(SortBy(key, s), s) && |SortBy(key, s)| == |s|
  {
    if s != [] {
      SortByPermutes(key, s[1..]);
      InsertPermutes(key, s[0], SortBy(key, s[1..]));
      assert s == [s[0]] + s[1..];
    }
    MembersOfMultiset(SortBy(key, s), s);
  }

  lemma {:induction false} SortBySorts<T(!new)>(key: T -> int, s: seq<T>)
    ensures Sorted(key, SortBy(key, s))
  {
    if s != [] {
      SortBySorts(key, s[1..]);
      InsertSorts(key, s[0], SortBy(key, s[1..]));
    }
  }

  lemma {:induction false} SortByDistinct<T(!new)>(key: T -> int, s: seq<T>)
    requires DistinctKeys(key, s)
    ensures StrictlySorted(key, SortBy(key, s))
  {
    if s != [] {
      SortByDistinct(key, s[1..]);
      SortByPermutes(key, s[1..]);
      InsertSortsStrictly(key, s[0], SortBy(key, s[1..]));
    }
  }

  lemma {:induction false} WithKeyCons<T>(key: T -> int, k: int, x: T, s: seq<T>)
    ensures WithKey(key, k, [x] + s) == (if key(x) == k then [x] else []) + WithKey(key, k, s)
  {
    assert ([x] + s)[1..] == s;
  }

  lemma {:induction false} InsertIsStable<T>(key: T -> int, x: T, s: seq<T>, k: int)
    ensures WithKey(key, k, Insert(key, x, s)) == WithKey(key, k, [x] + s)
  {
    if s != [] && key(s[0]) < key(x) {
      InsertIsStable(key, x, s[1..], k);
      WithKeyCons(key, k, s[0], Insert(key, x, s[1..]));
      WithKeyCons(key, k, x, s[1..]);
      WithKeyCons(key, k, x, s);
    }
  }

  /** Sorting keeps the order of members with equal keys. */
  lemma {:induction false} SortByIsStable<T>(key: T -> int, s: seq<T>, k: int)
    ensures WithKey(key, k, SortBy(key, s)) == WithKey(key, k, s)
  {
    if s != [] {
      SortByIsStable(key, s[1..], k);
      InsertIsStable(key, s[0], SortBy(key, s[1..]), k);
      WithKeyCons(key, k, s[0], SortBy(key, s[1..]));
    }
  }

  lemma {:induction false} WithKeyNothing<T>(key: T -> int, k: int)
    ensures WithKey(key, k, []) == []
  {
  }

  lemma {:induction false} WithKeyConcat<T>(key: T -> int, k: int, a: seq<T>, b: seq<T>)
    ensures WithKey(key, k, a + b) == WithKey(key, k, a) + WithKey(key, k, b)
  {
    hide WithKey;
    if a == [] {
      assert a + b == b;
      WithKeyNothing(key, k);
    } else {
      WithKeyConcat(key, k, a[1..], b);
      WithKeyCons(key, k, a[0], a[1..] + b);
      WithKeyCons(key, k, a[0], a[1..]);
      assert a + b == [a[0]] + (a[1..] + b) && a == [a[0]] + a[1..];
    }
  }

  // ----- merge -----

  /** Merging two sorted lists; on equal keys the first list's member stands for both. */
  function Merge<T>(key: T -> int, a: seq<T>, b: seq<T>): seq<T> {
    if a == [] then b
    else if b == [] then a
    else if key(a[0]) < key(b[0]) then [a[0]] + Merge(key, a[1..], b)
    else if key(b[0]) < key(a[0]) then [b[0]] + Merge(key, a, b[1..])
    else [a[0]] + Merge(key, a[1..], b[1..])
  }

  /** One step of the merge, seen from two indices into the lists. */
  lemma {:induction false} MergeAt<T>(key: T -> int, a: seq<T>, b: seq<T>, i: nat, j: nat)
    requires i < |a| && j < |b|
    ensures Merge(key, a[i..], b[j..]) ==
            if key(a[i]) < key(b[j]) then [a[i]] + Merge(key, a[i + 1..], b[j..])
            else if key(b[j]) < key(a[i]) then [b[j]] + Merge(key, a[i..], b[j + 1..])
            else [a[i]] + Merge(key, a[i + 1..], b[j + 1..])
  {
    assert a[i..][1..] == a[i + 1..] && b[j..][1..] == b[j + 1..];
  }

  lemma {:induction false} MergeRest<T>(key: T -> int, a: seq<T>, b: seq<T>, i: nat, j: nat)
    requires i <= |a| && j <= |b| && (i == |a| || j == |b|)
    ensures Merge(key, a[i..], b[j..]) == a[i..] + b[j..]
  {
  }

  predicate HasKey<T>(key: T -> int, s: seq<T>, k: int) {
    exists i :: 0 <= i < |s| && key(s[i]) == k
  }

  lemma {:induction false} TailKey<T>(key: T -> int, s: seq<T>, k: int)
    requires s != []
    ensures HasKey(key, s, k) <==> key(s[0]) == k || HasKey(key, s[1..], k)
  {
    if HasKey(key, s, k) {
      var i :| 0 <= i < |s| && key(s[i]) == k;
      assert i > 0 ==> s[1..][i - 1] == s[i];
    }
    if HasKey(key, s[1..], k) {
      var i :| 0 <= i < |s[1..]| && key(s[1..][i]) == k;
      assert s[i + 1] == s[1..][i];
    }
  }

  lemma {:induction false} KeyAbove<T(!new)>(key: T -> int, s: seq<T>, k: int)
    requires StrictlySorted(key, s) && (s == [] || k < key(s[0]))
    ensures !HasKey(key, s, k)
  {
  }

  /** On strictly sorted lists, merging is the left-biased union: its members ... */
  lemma {:induction false} MergeMembers<T(!new)>(key: T -> int, a: seq<T>, b: seq<T>, x: T)
    requires StrictlySorted(key, a) && StrictlySorted(key, b)
    ensures x in Merge(key, a, b) <==> x in a || (x in b && !HasKey(key, a, key(x)))
  {
    if a != [] && b != [] {
      TailKey(key, a, key(x));
      if key(a[0]) < key(b[0]) {
        MergeMembers(key, a[1..], b, x);
      } else if key(b[0]) < key(a[0]) {
        MergeMembers(key, a, b[1..], x);
        KeyAbove(key, a, key(b[0]));
      } else {
        MergeMembers(key, a[1..], b[1..], x);
        if x in b && !HasKey(key, a, key(x)) { assert x != b[0]; }
      }
    }
  }

  /** ... and its order. */
  lemma {:induction false} MergeSorts<T(!new)>(key: T -> int, a: seq<T>, b: seq<T>)
    requires StrictlySorted(key, a) && StrictlySorted(key, b)
    ensures StrictlySorted(key, Merge(key, a, b))
  {
    if a != [] && b != [] {
      var (first, a', b') :=
        if key(a[0]) < key(b[0]) then (a[0], a[1..], b)
        else if key(b[0]) < key(a[0]) then (b[0], a, b[1..])
        else (a[0], a[1..], b[1..]);
      MergeSorts(key, a', b');
      var r := Merge(key, a', b');
      forall i | 0 <= i < |r| ensures key(first) < key(r[i]) {
        MergeMembers(key, a', b', r[i]);
      }
    }
  }

  lemma {:induction false} MergeKeys<T(!new)>(key: T -> int, a: seq<T>, b: seq<T>, k: int)
    requires StrictlySorted(key, a) && StrictlySorted(key, b)
    ensures HasKey(key, Merge(key, a, b), k) <==> HasKey(key, a, k) || HasKey(key, b, k)
  {
    var r := Merge(key, a, b);
    if HasKey(key, r, k) {
      var i :| 0 <= i < |r| && key(r[i]) == k;
      MergeMembers(key, a, b, r[i]);
    }
    if HasKey(key, a, k) {
      var i :| 0 <= i < |a| && key(a[i]) == k;
      MergeMembers(key, a, b, a[i]);
      assert a[i] in r;
    } else if HasKey(key, b, k) {
      var i :| 0 <= i < |b| && key(b[i]) == k;
      MergeMembers(key, a, b, b[i]);
      assert b[i] in r;
    }
  }

  /** Merging is associative, so merging in two stages is one merge. */
  lemma {:induction false} MergeAssociative<T(!new)>(key: T -> int, a: seq<T>, b: seq<T>, c: seq<T>)
    requires StrictlySorted(key, a) && StrictlySorted(key, b) && StrictlySorted(key, c)
    ensures Merge(key, Merge(key, a, b), c) == Merge(key, a, Merge(key, b, c))
  {
    MergeSorts(key, a, b);
    MergeSorts(key, b, c);
    var ab, bc := Merge(key, a, b), Merge(key, b, c);
    MergeSorts(key, ab, c);
    MergeSorts(key, a, bc);
    forall x ensures x in Merge(key, ab, c) <==> x in Merge(key, a, bc) {
      MergeMembers(key, ab, c, x);
      MergeMembers(key, a, b, x);
      MergeKeys(key, a, b, key(x));
      MergeMembers(key, a, bc, x);
      MergeMembers(key, b, c, x);
    }
    StrictlySortedUnique(key, Merge(key, ab, c), Merge(key, a, bc));
  }

  /** Merging back a part of a list changes nothing. */
  lemma {:induction false} MergeAbsorbs<T(!new)>(key: T -> int, part: seq<T>, whole: seq<T>)
    requires StrictlySorted(key, part) && StrictlySorted(key, whole)
    requires forall x :: x in part ==> x in whole
    ensures Merge(key, part, whole) == whole
  {
    MergeSorts(key, part, whole);
    forall x ensures x in Merge(key, part, whole) <==> x in whole {
      MergeMembers(key, part, whole, x);
      if x in whole && HasKey(key, part, key(x)) {
        var i :| 0 <= i < |part| && key(part[i]) == key(x);
        assert part[i] in whole;
        assert part[i] == x;
      }
    }
    StrictlySortedUnique(key, Merge(key, part, whole), whole);
  }
}
