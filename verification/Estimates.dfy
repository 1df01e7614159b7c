/**
  Estimates as the cache holds them, and the helper functions that merge, filter and sort them.
 */
module Estimates {
  import opened Calendar
  import opened Ordering

  /** A floating-point number, which is `mantissa` times a power of two; the cache only stores and reads it. */
  datatype Number = Number(mantissa: int, exponent: int)

  datatype ServiceData = ServiceData(
    cloudProvider: string,
    accountId: string,
    accountName: string,
    serviceName: string,
    region: string,
    kilowattHours: Number,
    co2e: Number,
    cost: Number,
    usesAverageCPUConstant: bool,
    tags: map<string, string>)

  /**
    A value read from a cache file: an estimate, or the empty array that a fresh cache file holds.
    The latter has no timestamp, and the date library reads a missing timestamp as the current time.
   */
  datatype Estimate =
    | Estimate(timestamp: int, services: seq<ServiceData>, periodStart: int, periodEnd: int, groupBy: GroupBy)
    | EmptyArray

  function TimeAt(now: int): Estimate -> int {
    (e: Estimate) => if e.EmptyArray? then now else e.timestamp
  }

  predicate AllDated(s: seq<Estimate>) {
    forall i :: 0 <= i < |s| ==> s[i].Estimate?
  }

  lemma {:induction false} PushFirst<T>(done: seq<T>, x: T, rest: seq<T>)
    ensures done + ([x] + rest) == done + [x] + rest
  {
  }

  /** `mergeEstimates`: two indices run over the lists; on equal times the first list wins. */
  method MergeEstimates(one: seq<Estimate>, two: seq<Estimate>, now: int) returns (merged: seq<Estimate>)
    ensures merged == Merge(TimeAt(now), one, two)
  {
    hide Merge, TimeAt;
    var key := TimeAt(now);
    var i, j := 0, 0;
    merged := [];
    while i < |one| && j < |two|
      invariant 0 <= i <= |one| && 0 <= j <= |two|
      invariant merged + Merge(key, one[i..], two[j..]) == Merge(key, one, two)
    {
      MergeAt(key, one, two, i, j);
      var dateOne, dateTwo := key(one[i]), key(two[j]);
      if dateOne < dateTwo {
        PushFirst(merged, one[i], Merge(key, one[i + 1..], two[j..]));
        merged, i := merged + [one[i]], i + 1;
      } else if dateTwo < dateOne {
        PushFirst(merged, two[j], Merge(key, one[i..], two[j + 1..]));
        merged, j := merged + [two[j]], j + 1;
      } else {
        PushFirst(merged, one[i], Merge(key, one[i + 1..], two[j + 1..]));
        merged, i, j := merged + [one[i]], i + 1, j + 1;
      }
    }
    MergeRest(key, one, two, i, j);
    assert merged + (one[i..] + two[j..]) == merged + one[i..] + two[j..];
    while i < |one|
      invariant 0 <= i <= |one|
      invariant merged + one[i..] + two[j..] == Merge(key, one, two)
    {
      PushFirst(merged, one[i], one[i + 1..]);
      assert one[i..] == [one[i]] + one[i + 1..];
      merged, i := merged + [one[i]], i + 1;
    }
    while j < |two|
      invariant 0 <= j <= |two|
      invariant merged + two[j..] == Merge(key, one, two)
    {
      PushFirst(merged, two[j], two[j + 1..]);
      assert two[j..] == [two[j]] + two[j + 1..];
      merged, j := merged + [two[j]], j + 1;
    }
  }

  /** `filterCachedEstimates`: drops the estimates of periods without usage. */
  function NonEmpty(s: seq<Estimate>): seq<Estimate>
    requires AllDated(s)
  {
    if s == [] then []
    else (if s[0].services != [] then [s[0]] else []) + NonEmpty(s[1..])
  }

  /** `concat`: both lists, sorted by time. */
  function Concat(a: seq<Estimate>, b: seq<Estimate>): seq<Estimate>
    requires AllDated(a) && AllDated(b)
  {
    SortBy(TimeAt(0), a + b)
  }

  lemma {:induction false} NonEmptyMembers(s: seq<Estimate>, x: Estimate)
    requires AllDated(s)
    ensures x in NonEmpty(s) <==> x in s && x.services != []
  {
    if s != [] { NonEmptyMembers(s[1..], x); }
  }

  lemma {:induction false} NonEmptyConcat(a: seq<Estimate>, b: seq<Estimate>)
    requires AllDated(a) && AllDated(b)
    ensures NonEmpty(a + b) == NonEmpty(a) + NonEmpty(b)
  {
    if a == [] {
      assert a + b == b;
    } else {
      assert (a + b)[1..] == a[1..] + b;
      NonEmptyConcat(a[1..], b);
    }
  }

  lemma {:induction false} NonEmptySorted(s: seq<Estimate>, now: int)
    requires AllDated(s) && StrictlySorted(TimeAt(now), s)
    ensures AllDated(NonEmpty(s)) && StrictlySorted(TimeAt(now), NonEmpty(s))
  {
    if s != [] {
      NonEmptySorted(s[1..], now);
      var r := NonEmpty(s[1..]);
      forall i | 0 <= i < |r| ensures s[0].timestamp < r[i].timestamp {
        NonEmptyMembers(s[1..], r[i]);
      }
    }
  }
}
