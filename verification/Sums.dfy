/** Sums and images of lists, which do not depend on the lists' order. */
module Sums {

  function Sum<T>(f: T -> real, s: seq<T>): real {
    if s == [] then 0.0 else Sum(f, s[..|s| - 1]) + f(s[|s| - 1])
  }

  function Map<T, R>(f: T -> R, s: seq<T>): (r: seq<R>)
    ensures |r| == |s| && forall i :: 0 <= i < |s| ==> r[i] == f(s[i])
  {
    seq(|s|, i requires 0 <= i < |s| => f(s[i]))
  }

  function Filter<T>(p: T -> bool, s: seq<T>): seq<T> {
    if s == [] then [] else Filter(p, s[..|s| - 1]) + if p(s[|s| - 1]) then [s[|s| - 1]] else []
  }

  lemma {:induction false} SumAppend<T>(f: T -> real, s: seq<T>, x: T)
    ensures Sum(f, s + [x]) == Sum(f, s) + f(x)
  {
    assert (s + [x])[..|s|] == s;
  }

  lemma {:induction false} SumConcat<T>(f: T -> real, a: seq<T>, b: seq<T>)
    ensures Sum(f, a + b) == Sum(f, a) + Sum(f, b)
  {
    if b == [] {
      assert a + b == a;
    } else {
      SumConcat(f, a, b[..|b| - 1]);
      assert (a + b)[..|a + b| - 1] == a + b[..|b| - 1];
    }
  }

  lemma {:induction false} Remove<T>(s: seq<T>, x: T) returns (i: nat)
    requires x in multiset(s)
    ensures i < |s| && s[i] == x && s == s[..i] + [x] + s[i + 1..]
    ensures multiset(s[..i] + s[i + 1..]) == multiset(s) - multiset{x}
  {
    assert x in s;
    i :| 0 <= i < |s| && s[i] == x;
    assert s == s[..i] + [x] + s[i + 1..];
  }

  lemma {:induction false} SumIgnoresOrder<T>(f: T -> real, a: seq<T>, b: seq<T>)
    requires multiset(a) == multiset(b)
    ensures Sum(f, a) == Sum(f, b)
    decreases |a|
  {
    hide Sum;
    if a == [] {
      assert |multiset(b)| == 0;
      assert b == [];
    } else {
      var n := |a| - 1;
      assert a == a[..n] + [a[n]];
      assert multiset(a) == multiset(a[..n]) + multiset{a[n]};
      var i := Remove(b, a[n]);
      assert multiset(a[..n]) == multiset(a) - multiset{a[n]};
      SumIgnoresOrder(f, a[..n], b[..i] + b[i + 1..]);
      SumAppend(f, a[..n], a[n]);
      SumConcat(f, b[..i] + [a[n]], b[i + 1..]);
      SumAppend(f, b[..i], a[n]);
      SumConcat(f, b[..i], b[i + 1..]);
    }
  }

  lemma {:induction false} MapConcat<T, R>(f: T -> R, a: seq<T>, b: seq<T>)
    ensures Map(f, a + b) == Map(f, a) + Map(f, b)
  {
  }

  lemma {:induction false} MapOne<T, R>(f: T -> R, x: T)
    ensures Map(f, [x]) == [f(x)]
  {
  }

  lemma {:induction false} MapIgnoresOrder<T, R>(f: T -> R, a: seq<T>, b: seq<T>)
    requires multiset(a) == multiset(b)
    ensures multiset(Map(f, a)) == multiset(Map(f, b))
    decreases |a|
  {
    hide Map;
    if a == [] {
      assert |multiset(b)| == 0;
      assert b == [];
    } else {
      var n := |a| - 1;
      assert a == a[..n] + [a[n]];
      assert multiset(a) == multiset(a[..n]) + multiset{a[n]};
      var i := Remove(b, a[n]);
      assert multiset(a[..n]) == multiset(a) - multiset{a[n]};
      MapIgnoresOrder(f, a[..n], b[..i] + b[i + 1..]);
      MapOne(f, a[n]);
      MapConcat(f, a[..n], [a[n]]);
      MapConcat(f, b[..i] + [a[n]], b[i + 1..]);
      MapConcat(f, b[..i], [a[n]]);
      MapConcat(f, b[..i], b[i + 1..]);
    }
  }

  lemma {:induction false} FilterStep<T>(p: T -> bool, s: seq<T>, n: nat)
    requires n < |s|
    ensures Filter(p, s[..n + 1]) == Filter(p, s[..n]) + if p(s[n]) then [s[n]] else []
  {
    assert s[..n + 1][..n] == s[..n];
  }

  lemma {:induction false} FilterMultiset<T>(p: T -> bool, s: seq<T>, x: T)
    ensures multiset(Filter(p, s))[x] == if p(x) then multiset(s)[x] else 0
  {
    if s != [] {
      FilterMultiset(p, s[..|s| - 1], x);
      assert s == s[..|s| - 1] + [s[|s| - 1]];
    }
  }

  lemma {:induction false} FilterIgnoresOrder<T(!new)>(p: T -> bool, a: seq<T>, b: seq<T>)
    requires multiset(a) == multiset(b)
    ensures multiset(Filter(p, a)) == multiset(Filter(p, b))
  {
    forall x ensures multiset(Filter(p, a))[x] == multiset(Filter(p, b))[x] {
      FilterMultiset(p, a, x);
      FilterMultiset(p, b, x);
    }
  }
}
