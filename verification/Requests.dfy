/**
  From a request to fetches: the calendar periods a request asks for, those the cache lacks, and
  the contiguous ranges in which the lacking ones are fetched.
 */
module Requests {
  import opened Calendar
  import opened Ordering
  import opened Estimates

  datatype Request = Request(startDate: int, endDate: int, ignoreCache: bool)

  datatype Range = Range(start: int, end: int) {
    predicate Covers(t: int) { start <= t <= end }
  }

  // ----- requested periods -----

  function PeriodStarts(unit: GroupBy, first: int, n: nat): seq<int> {
    seq(n, i => PeriodStart(unit, first + i))
  }

  function RequestedCount(unit: GroupBy, start: int, end: int): nat {
    var n := PeriodNumber(unit, end) - PeriodNumber(unit, start) + 1;
    if n < 0 then 0 else n
  }

  function RequestedDates(unit: GroupBy, start: int, end: int): seq<int> {
    PeriodStarts(unit, PeriodNumber(unit, start), RequestedCount(unit, start, end))
  }

  predicate Increasing(dates: seq<int>) {
    forall i, j :: 0 <= i < j < |dates| ==> dates[i] < dates[j]
  }

  predicate ArePeriodStarts(unit: GroupBy, dates: seq<int>) {
    forall i :: 0 <= i < |dates| ==> IsPeriodStart(unit, dates[i])
  }

  lemma {:induction false} PeriodStartAt(unit: GroupBy, first: int, n: nat, i: nat)
    ensures |PeriodStarts(unit, first, n)| == n
    ensures i < n ==> PeriodStarts(unit, first, n)[i] == PeriodStart(unit, first + i)
  {
    hide PeriodStart;
  }

  lemma {:induction false} PeriodStartsSorted(unit: GroupBy, first: int, n: nat)
    ensures Increasing(PeriodStarts(unit, first, n)) && ArePeriodStarts(unit, PeriodStarts(unit, first, n))
  {
    hide PeriodStart, PeriodNumber, IsPeriodStart, PeriodStarts, StartOf;
    var dates := PeriodStarts(unit, first, n);
    PeriodStartAt(unit, first, n, 0);
    forall i, j | 0 <= i < j < |dates| ensures dates[i] < dates[j] {
      PeriodStartAt(unit, first, n, i);
      PeriodStartAt(unit, first, n, j);
      PeriodStartsIncrease(unit, first + i, first + j);
    }
    forall i | 0 <= i < |dates| ensures IsPeriodStart(unit, dates[i]) {
      PeriodStartAt(unit, first, n, i);
      PeriodNumberOfStart(unit, first + i);
    }
  }

  lemma {:induction false} PeriodAtOrBefore(unit: GroupBy, k: int, t: int)
    ensures PeriodStart(unit, k) <= t <==> k <= PeriodNumber(unit, t)
  {
    hide PeriodStart, PeriodNumber, StartOf;
    PeriodOfInstant(unit, t);
    PeriodStartsIncrease(unit, k, PeriodNumber(unit, t));
    PeriodStartsIncrease(unit, k, PeriodNumber(unit, t) + 1);
  }

  /** The requested dates are exactly the period starts from the start of the first unit to the end date. */
  lemma {:induction false} RequestedDatesExact(unit: GroupBy, start: int, end: int)
    ensures Increasing(RequestedDates(unit, start, end))
    ensures forall t :: t in RequestedDates(unit, start, end) <==>
                          IsPeriodStart(unit, t) && StartOf(unit, start) <= t <= end
  {
    hide PeriodStart, PeriodNumber, StartOf;
    var dates, first := RequestedDates(unit, start, end), PeriodNumber(unit, start);
    PeriodStartsSorted(unit, first, RequestedCount(unit, start, end));
    PeriodOfInstant(unit, start);
    forall t ensures t in dates <==> IsPeriodStart(unit, t) && StartOf(unit, start) <= t <= end {
      var k := PeriodNumber(unit, t);
      PeriodAtOrBefore(unit, k, end);
      PeriodStartsIncrease(unit, k, first);
      if t in dates {
        var i :| 0 <= i < |dates| && dates[i] == t;
        PeriodNumberOfStart(unit, first + i);
      }
      if IsPeriodStart(unit, t) && StartOf(unit, start) <= t <= end {
        assert dates[k - first] == t;
      }
    }
  }

  /** `getDatesWithinRequestTimeFrame`. */
  method GetDatesWithinRequestTimeFrame(unit: GroupBy, request: Request) returns (dates: seq<int>)
    ensures dates == RequestedDates(unit, request.startDate, request.endDate)
  {
    hide PeriodStart, PeriodNumber, StartOf, Add;
    dates := [];
    var current, end := StartOf(unit, request.startDate), request.endDate;
    ghost var first := PeriodNumber(unit, request.startDate);
    PeriodOfInstant(unit, request.startDate);
    PeriodAtOrBefore(unit, first, end);
    while current <= end
      invariant current == PeriodStart(unit, first + |dates|)
      invariant dates == PeriodStarts(unit, first, |dates|)
      invariant |dates| <= RequestedCount(unit, request.startDate, end)
      decreases RequestedCount(unit, request.startDate, end) - |dates|
    {
      PeriodAtOrBefore(unit, first + |dates|, end);
      AddToPeriodStart(unit, first + |dates|, 1);
      dates := dates + [current];
      current := Add(unit, current, 1);
    }
    PeriodAtOrBefore(unit, first + |dates|, end);
  }

  // ----- missing periods -----

  function MissingDates(cached: seq<Estimate>, now: int, dates: seq<int>): seq<int> {
    if dates == [] then []
    else (if HasKey(TimeAt(now), cached, dates[0]) then [] else [dates[0]]) + MissingDates(cached, now, dates[1..])
  }

  lemma {:induction false} MissingDatesMembers(cached: seq<Estimate>, now: int, dates: seq<int>, d: int)
    ensures d in MissingDates(cached, now, dates) <==> d in dates && !HasKey(TimeAt(now), cached, d)
  {
    if dates != [] { MissingDatesMembers(cached, now, dates[1..], d); }
  }

  lemma {:induction false} MissingDatesIncrease(cached: seq<Estimate>, now: int, dates: seq<int>)
    requires Increasing(dates)
    ensures Increasing(MissingDates(cached, now, dates))
  {
    if dates != [] {
      MissingDatesIncrease(cached, now, dates[1..]);
      var rest := MissingDates(cached, now, dates[1..]);
      forall i | 0 <= i < |rest| ensures dates[0] < rest[i] {
        MissingDatesMembers(cached, now, dates[1..], rest[i]);
      }
    }
  }

  lemma {:induction false} MissingDatesStep(cached: seq<Estimate>, now: int, dates: seq<int>, i: nat)
    requires i < |dates|
    ensures MissingDates(cached, now, dates[..i + 1])
         == MissingDates(cached, now, dates[..i]) + if HasKey(TimeAt(now), cached, dates[i]) then [] else [dates[i]]
  {
    if i > 0 {
      MissingDatesStep(cached, now, dates[1..], i - 1);
      assert dates[..i + 1][1..] == dates[1..][..i] && dates[..i][1..] == dates[1..][..i - 1];
    } else {
      assert dates[..1] == [dates[0]];
    }
  }

  /** `getMissingDates`, which compares the requested dates with the times of the cached estimates. */
  method GetMissingDates(cached: seq<Estimate>, unit: GroupBy, request: Request, now: int) returns (missing: seq<int>)
    ensures missing == MissingDates(cached, now, RequestedDates(unit, request.startDate, request.endDate))
  {
    var dates := GetDatesWithinRequestTimeFrame(unit, request);
    missing := [];
    for i := 0 to |dates|
      invariant missing == MissingDates(cached, now, dates[..i])
    {
      MissingDatesStep(cached, now, dates, i);
      if !HasKey(TimeAt(now), cached, dates[i]) {
        missing := missing + [dates[i]];
      }
    }
    assert dates[..|dates|] == dates;
  }

  // ----- runs of consecutive periods -----

  function Last<T>(s: seq<T>): T
    requires s != []
  { s[|s| - 1] }

  function Flatten<T>(runs: seq<seq<T>>): seq<T> {
    if runs == [] then [] else Flatten(runs[..|runs| - 1]) + Last(runs)
  }

  predicate Follows(unit: GroupBy, previous: int, date: int) { Add(unit, date, -1) == previous }

  /** Adds a date to the last run if it follows that run, or starts a run with it. */
  function AddToRuns(unit: GroupBy, runs: seq<seq<int>>, date: int): (r: seq<seq<int>>)
    requires forall i :: 0 <= i < |runs| ==> runs[i] != []
    ensures forall i :: 0 <= i < |r| ==> r[i] != []
  {
    if runs == [] || !Follows(unit, Last(Last(runs)), date) then runs + [[date]]
    else runs[|runs| - 1 := Last(runs) + [date]]
  }

  function Runs(unit: GroupBy, dates: seq<int>): (r: seq<seq<int>>)
    ensures forall i :: 0 <= i < |r| ==> r[i] != []
  {
    if dates == [] then [] else AddToRuns(unit, Runs(unit, dates[..|dates| - 1]), Last(dates))
  }

  predicate IsRun(unit: GroupBy, run: seq<int>) {
    run != [] && forall i :: 0 < i < |run| ==> Follows(unit, run[i - 1], run[i])
  }

  /** A split of the dates into runs of consecutive periods, no two neighbouring runs joining up. */
  ghost predicate AreMaximalRuns(unit: GroupBy, dates: seq<int>, runs: seq<seq<int>>) {
    && Flatten(runs) == dates
    && (forall i :: 0 <= i < |runs| ==> IsRun(unit, runs[i]))
    && (forall i :: 0 < i < |runs| ==> !Follows(unit, Last(runs[i - 1]), runs[i][0]))
  }

  lemma {:induction false} StartRun(runs: seq<seq<int>>, date: int)
    ensures Flatten(runs + [[date]]) == Flatten(runs) + [date]
  {
    assert (runs + [[date]])[..|runs|] == runs;
  }

  lemma {:induction false} ExtendLastRun(unit: GroupBy, runs: seq<seq<int>>, date: int)
    requires runs != [] && IsRun(unit, Last(runs)) && Follows(unit, Last(Last(runs)), date)
    ensures var r := runs[|runs| - 1 := Last(runs) + [date]];
            Flatten(r) == Flatten(runs) + [date] && IsRun(unit, Last(r)) && Last(r)[0] == Last(runs)[0]
  {
    hide Add, Follows;
    var run := Last(runs);
    var r := runs[|runs| - 1 := run + [date]];
    assert r[..|r| - 1] == runs[..|runs| - 1];
    assert Flatten(r) == Flatten(runs[..|runs| - 1]) + (run + [date]);
  }

  lemma {:induction false} AddToRunsKeepsMaximal(unit: GroupBy, dates: seq<int>, runs: seq<seq<int>>, date: int)
    requires AreMaximalRuns(unit, dates, runs)
    ensures AreMaximalRuns(unit, dates + [date], AddToRuns(unit, runs, date))
  {
    hide Add, Follows, Flatten;
    var r := AddToRuns(unit, runs, date);
    if runs == [] || !Follows(unit, Last(Last(runs)), date) {
      StartRun(runs, date);
    } else {
      ExtendLastRun(unit, runs, date);
    }
  }

  lemma {:induction false} RunsAreMaximal(unit: GroupBy, dates: seq<int>)
    ensures AreMaximalRuns(unit, dates, Runs(unit, dates))
  {
    if dates != [] {
      var before := dates[..|dates| - 1];
      RunsAreMaximal(unit, before);
      AddToRunsKeepsMaximal(unit, before, Runs(unit, before), Last(dates));
      assert dates == before + [Last(dates)];
    }
  }

  lemma {:induction false} FlattenFirst<T>(runs: seq<seq<T>>)
    requires runs != []
    ensures Flatten(runs) == runs[0] + Flatten(runs[1..])
  {
    if |runs| > 1 {
      FlattenFirst(runs[..|runs| - 1]);
      assert runs[..|runs| - 1][1..] == runs[1..][..|runs| - 2];
      assert Last(runs[1..]) == Last(runs);
    } else {
      assert runs == [runs[0]];
    }
  }

  /** The first run goes on as long as the dates are consecutive. */
  lemma {:induction false} FirstRunEnds(unit: GroupBy, dates: seq<int>, runs: seq<seq<int>>)
    requires AreMaximalRuns(unit, dates, runs) && runs != []
    ensures dates == runs[0] + Flatten(runs[1..])
    ensures forall i :: 0 < i < |runs[0]| ==> Follows(unit, dates[i - 1], dates[i])
    ensures |runs[0]| < |dates| ==> !Follows(unit, dates[|runs[0]| - 1], dates[|runs[0]|])
  {
    hide Add, Follows;
    FlattenFirst(runs);
    if |runs| > 1 { FlattenFirst(runs[1..]); }
  }

  /** There is only one such split, so it is the one the fold computes. */
  lemma {:induction false} MaximalRunsUnique(unit: GroupBy, dates: seq<int>, a: seq<seq<int>>, b: seq<seq<int>>)
    requires AreMaximalRuns(unit, dates, a) && AreMaximalRuns(unit, dates, b)
    ensures a == b
  {
    hide Add, Follows;
    if a != [] { FirstRunEnds(unit, dates, a); }
    if b != [] { FirstRunEnds(unit, dates, b); }
    if a != [] && b != [] {
      assert |a[0]| == |b[0]|;
      assert a[0] == dates[..|a[0]|] == b[0];
      assert Flatten(a[1..]) == dates[|a[0]|..] == Flatten(b[1..]);
      MaximalRunsUnique(unit, dates[|a[0]|..], a[1..], b[1..]);
      assert a == [a[0]] + a[1..] && b == [b[0]] + b[1..];
    }
  }

  function FetchRange(unit: GroupBy, run: seq<int>): Range
    requires run != []
  {
    Range(run[0], EndOf(unit, Last(run)))
  }

  function FetchRanges(unit: GroupBy, dates: seq<int>): (ranges: seq<Range>)
    ensures |ranges| == |Runs(unit, dates)|
  {
    var runs := Runs(unit, dates);
    seq(|runs|, i requires 0 <= i < |runs| => FetchRange(unit, runs[i]))
  }

  /** The fold of `getMissingDataRequests`, which pushes each date into the last run or into a new one. */
  method GroupMissingDates(unit: GroupBy, missing: seq<int>) returns (groups: seq<seq<int>>)
    ensures groups == Runs(unit, missing)
  {
    hide Add, Follows;
    groups := [];
    for i := 0 to |missing|
      invariant groups == Runs(unit, missing[..i])
    {
      assert missing[..i + 1][..i] == missing[..i];
      ghost var next := AddToRuns(unit, groups, missing[i]);
      if groups == [] || !Follows(unit, Last(Last(groups)), missing[i]) {
        groups := groups + [[]];
      }
      groups := groups[|groups| - 1 := Last(groups) + [missing[i]]];
      assert |groups| == |next| && Last(groups) == Last(next);
      assert groups == next;
    }
    assert missing[..|missing|] == missing;
  }

  /** `getMissingDataRequests`: one range per run. */
  method GetMissingDataRequests(unit: GroupBy, missing: seq<int>) returns (ranges: seq<Range>)
    ensures ranges == FetchRanges(unit, missing)
  {
    hide Runs, FetchRange;
    var groups := GroupMissingDates(unit, missing);
    ranges := [];
    for i := 0 to |groups|
      invariant ranges == FetchRanges(unit, missing)[..i]
    {
      ranges := ranges + [FetchRange(unit, groups[i])];
    }
  }

  // ----- what the ranges cover -----

  lemma {:induction false} RunIsInterval(unit: GroupBy, run: seq<int>, i: int)
    requires IsRun(unit, run) && ArePeriodStarts(unit, run) && 0 <= i < |run|
    ensures run[i] == PeriodStart(unit, PeriodNumber(unit, run[0]) + i)
  {
    hide PeriodStart, PeriodNumber, Add;
    if i > 0 {
      RunIsInterval(unit, run, i - 1);
      assert Follows(unit, run[i - 1], run[i]);
      var k := PeriodNumber(unit, run[i]);
      AddToPeriodStart(unit, k, -1);
      PeriodStartsIncrease(unit, k - 1, PeriodNumber(unit, run[0]) + i - 1);
    }
  }

  /** What one range covers: the run's periods, except that a week's range stops before its last Sunday. */
  lemma {:induction false} RunCoverage(unit: GroupBy, run: seq<int>, t: int)
    requires IsRun(unit, run) && ArePeriodStarts(unit, run)
    ensures FetchRange(unit, run).Covers(t) <==>
              StartOf(unit, t) in run &&
              (unit == Week && StartOf(unit, t) == Last(run) ==> t < Last(run) + 6 * MS_PER_DAY)
  {
    hide PeriodStart, PeriodNumber, Add, StartOf, EndOf;
    var first, n, k := PeriodNumber(unit, run[0]), |run|, PeriodNumber(unit, t);
    RunIsInterval(unit, run, 0);
    RunIsInterval(unit, run, n - 1);
    EndOfPeriodStart(unit, first + n - 1);
    PeriodOfInstant(unit, t);
    PeriodAtOrBefore(unit, first, t);
    PeriodAtOrBefore(unit, first + n, t);
    if first <= k < first + n { RunIsInterval(unit, run, k - first); }
    if StartOf(unit, t) in run {
      var i :| 0 <= i < n && run[i] == StartOf(unit, t);
      RunIsInterval(unit, run, i);
      PeriodStartsIncrease(unit, first + i, k);
    }
    PeriodStartsIncrease(unit, k, first + n - 1);
    PeriodStartsIncrease(unit, first + n - 1, k + 1);
    if unit == Week { WeekLength(first + n - 1); }
  }

  lemma {:induction false} WeekLength(k: int)
    ensures PeriodStart(Week, k + 1) == PeriodStart(Week, k) + 7 * MS_PER_DAY
  {
  }

  lemma {:induction false} FlattenMembers<T>(runs: seq<seq<T>>, x: T)
    ensures x in Flatten(runs) <==> exists i :: 0 <= i < |runs| && x in runs[i]
  {
    if runs != [] {
      var before := runs[..|runs| - 1];
      FlattenMembers(before, x);
      if i :| 0 <= i < |runs| && x in runs[i] {
        assert i < |runs| - 1 ==> before[i] == runs[i];
      }
      if x in Flatten(before) {
        var i :| 0 <= i < |before| && x in before[i];
        assert runs[i] == before[i];
      }
    }
  }

  lemma {:induction false} FlattenIncreasing(runs: seq<seq<int>>, i: int, j: int, a: int, b: int)
    requires Increasing(Flatten(runs)) && 0 <= i < j < |runs| && 0 <= a < |runs[i]| && 0 <= b < |runs[j]|
    ensures runs[i][a] < runs[j][b]
  {
    var before := runs[..|runs| - 1];
    if j < |runs| - 1 {
      assert Flatten(before) == Flatten(runs)[..|Flatten(before)|];
      FlattenIncreasing(before, i, j, a, b);
    } else {
      FlattenMembers(before, runs[i][a]);
      assert before[i] == runs[i];
      var p :| 0 <= p < |Flatten(before)| && Flatten(before)[p] == runs[i][a];
      assert Flatten(runs)[p] == runs[i][a];
      assert Flatten(runs)[|Flatten(before)| + b] == runs[j][b];
    }
  }

  /** No period start lies strictly between a period start and the next one. */
  lemma {:induction false} NextPeriodStart(unit: GroupBy, d: int, e: int)
    requires IsPeriodStart(unit, d) && IsPeriodStart(unit, e) && d < e
    ensures d < Add(unit, d, 1) <= e && (Follows(unit, d, e) <==> e == Add(unit, d, 1))
  {
    hide PeriodStart, PeriodNumber, Add;
    var k, m := PeriodNumber(unit, d), PeriodNumber(unit, e);
    AddToPeriodStart(unit, k, 1);
    AddToPeriodStart(unit, m, -1);
    PeriodStartsIncrease(unit, k, m);
    PeriodStartsIncrease(unit, k, k + 1);
    PeriodStartsIncrease(unit, k, m - 1);
    PeriodStartsIncrease(unit, k + 1, m);
  }

  /** A run holds dates only, and the period after a run is not among the dates. */
  lemma {:induction false} RunEnds(unit: GroupBy, dates: seq<int>, runs: seq<seq<int>>, i: int)
    requires AreMaximalRuns(unit, dates, runs) && 0 <= i < |runs|
    requires Increasing(dates) && ArePeriodStarts(unit, dates)
    ensures forall d :: d in runs[i] ==> d in dates
    ensures ArePeriodStarts(unit, runs[i]) && Add(unit, Last(runs[i]), 1) !in dates
  {
    hide Add, Follows, PeriodStart, PeriodNumber, Flatten;
    FirstRunEnds(unit, dates, runs);
    var n, last := |runs[0]|, Last(runs[i]);
    if i == 0 {
      assert dates[n - 1] == last;
      if n < |dates| { NextPeriodStart(unit, last, dates[n]); }
      NextPeriodAfter(unit, dates, n - 1);
    } else {
      var rest := dates[n..];
      assert rest == Flatten(runs[1..]);
      RunEnds(unit, rest, runs[1..], i - 1);
      assert last in rest;
      var p :| n <= p < |dates| && dates[p] == last;
      NextPeriodAfter(unit, dates, p);
    }
  }

  lemma {:induction false} NextPeriodAfter(unit: GroupBy, dates: seq<int>, p: int)
    requires Increasing(dates) && ArePeriodStarts(unit, dates) && 0 <= p < |dates|
    ensures Add(unit, dates[p], 1) in dates <==> p + 1 < |dates| && dates[p + 1] == Add(unit, dates[p], 1)
    ensures Add(unit, dates[p], 1) !in dates[..p + 1]
  {
    hide Add, Follows, PeriodStart, PeriodNumber;
    var next := Add(unit, dates[p], 1);
    var k := PeriodNumber(unit, dates[p]);
    AddToPeriodStart(unit, k, 1);
    PeriodStartsIncrease(unit, k, k + 1);
    if p + 1 < |dates| { NextPeriodStart(unit, dates[p], dates[p + 1]); }
  }

  /**
    The fetched ranges cover exactly the instants of the missing periods, except that weeks lose a
    Sunday: the last day of every week whose next week is not missing too.
   */
  lemma {:induction false} FetchCoverage(unit: GroupBy, dates: seq<int>, t: int)
    requires Increasing(dates) && ArePeriodStarts(unit, dates)
    ensures (exists i :: 0 <= i < |FetchRanges(unit, dates)| && FetchRanges(unit, dates)[i].Covers(t)) <==>
              var d := StartOf(unit, t);
              d in dates && (unit == Week && Add(Week, d, 1) !in dates ==> t < d + 6 * MS_PER_DAY)
  {
    hide Add, Follows, PeriodStart, PeriodNumber, Flatten, StartOf, EndOf, Runs;
    var runs, ranges, d := Runs(unit, dates), FetchRanges(unit, dates), StartOf(unit, t);
    RunsAreMaximal(unit, dates);
    if i :| 0 <= i < |ranges| && ranges[i].Covers(t) {
      RunEnds(unit, dates, runs, i);
      RunCoverage(unit, runs[i], t);
      if unit == Week && d != Last(runs[i]) { DateBeforeLast(unit, dates, runs, i, d); }
    }
    if d in dates && (unit == Week && Add(Week, d, 1) !in dates ==> t < d + 6 * MS_PER_DAY) {
      FlattenMembers(runs, d);
      var i :| 0 <= i < |runs| && d in runs[i];
      RunEnds(unit, dates, runs, i);
      RunCoverage(unit, runs[i], t);
      assert ranges[i].Covers(t);
    }
  }

  lemma {:induction false} DateBeforeLast(unit: GroupBy, dates: seq<int>, runs: seq<seq<int>>, i: int, d: int)
    requires AreMaximalRuns(unit, dates, runs) && 0 <= i < |runs| && d in runs[i] && d != Last(runs[i])
    requires Increasing(dates) && ArePeriodStarts(unit, dates)
    ensures Add(unit, d, 1) in dates
  {
    hide Add, PeriodStart, PeriodNumber, Flatten;
    RunEnds(unit, dates, runs, i);
    var j :| 0 <= j < |runs[i]| && runs[i][j] == d;
    var next := runs[i][j + 1];
    assert next in runs[i] && IsPeriodStart(unit, next) && Follows(unit, d, next);
    AddToPeriodStart(unit, PeriodNumber(unit, next), -1);
    AddToPeriodStart(unit, PeriodNumber(unit, next) - 1, 1);
  }

  /** No instant is fetched twice. */
  lemma {:induction false} FetchRangesDisjoint(unit: GroupBy, dates: seq<int>, i: int, j: int, t: int)
    requires Increasing(dates) && ArePeriodStarts(unit, dates)
    requires 0 <= i < j < |FetchRanges(unit, dates)|
    ensures !(FetchRanges(unit, dates)[i].Covers(t) && FetchRanges(unit, dates)[j].Covers(t))
  {
    hide Add, Follows, PeriodStart, PeriodNumber, Flatten, StartOf, EndOf, Runs;
    var runs := Runs(unit, dates);
    RunsAreMaximal(unit, dates);
    RunEnds(unit, dates, runs, i);
    RunEnds(unit, dates, runs, j);
    RunCoverage(unit, runs[i], t);
    RunCoverage(unit, runs[j], t);
    var d := StartOf(unit, t);
    if d in runs[i] && d in runs[j] {
      var a :| 0 <= a < |runs[i]| && runs[i][a] == d;
      var b :| 0 <= b < |runs[j]| && runs[j][b] == d;
      FlattenIncreasing(runs, i, j, a, b);
    }
  }
}
