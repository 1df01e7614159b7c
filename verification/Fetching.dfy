/**
  What the cloud providers answer for the missing periods, and the list of estimates, empty ones
  included, that is then written to the cache.
 */
module Fetching {
  import opened Calendar
  import opened Ordering
  import opened Estimates
  import opened Requests

  /**
    A provider: the usage of each period, by the period's start, and its answer to a request for a
    range of time. A range that ends with a period's unit, as the date library has it, may stop before
    the period does, as it does for weeks; what the provider then reports is the period's short usage.
    The order of an answer is the provider's own.
   */
  datatype Provider = Provider(
    unit: GroupBy,
    usage: int -> seq<ServiceData>,
    shortUsage: int -> seq<ServiceData>,
    answer: Range -> seq<Estimate>) {

    function EstimateWith(start: int, services: seq<ServiceData>): Estimate {
      Estimate(start, services, start, PeriodEndDate(unit, start), unit)
    }

    /** The estimate of a period, empty when the period has no usage. */
    function EstimateAt(start: int): Estimate { EstimateWith(start, usage(start)) }

    predicate IsEstimateAt(e: Estimate) { e.Estimate? && e == EstimateAt(e.timestamp) }

    /** The usage of a period that a range reaches: all of it, if the range goes on to its last instant. */
    function UsageWithin(start: int, range: Range): seq<ServiceData> {
      if Add(unit, start, 1) - 1 <= range.end then usage(start) else shortUsage(start)
    }

    /** A range covers a period if it goes from its start at least to the end of the unit there. */
    predicate Covered(start: int, range: Range) {
      range.start <= start && EndOf(unit, start) <= range.end
    }

    /** One estimate per covered period with usage; none for periods outside the range. */
    ghost predicate AnswersFor(range: Range) {
      && AllDated(answer(range))
      && DistinctKeys(TimeAt(0), answer(range))
      && (forall e :: e in answer(range) ==>
            IsPeriodStart(unit, e.timestamp) && e.timestamp <= range.end && range.start < Add(unit, e.timestamp, 1))
      && (forall d :: IsPeriodStart(unit, d) && Covered(d, range) ==>
            (UsageWithin(d, range) != [] <==> HasKey(TimeAt(0), answer(range), d)))
      && (forall e :: e in answer(range) && Covered(e.timestamp, range) ==>
            e == EstimateWith(e.timestamp, UsageWithin(e.timestamp, range)))
    }

    ghost predicate Faithful() {
      forall range :: AnswersFor(range)
    }

    /** Only weeks have a short usage, and their Sundays make no difference. */
    ghost predicate LosesNothing() {
      unit == Week ==> forall d :: IsPeriodStart(Week, d) ==> shortUsage(d) == usage(d)
    }
  }

  function Answers(provider: Provider, ranges: seq<Range>): seq<Estimate> {
    if ranges == [] then [] else Answers(provider, ranges[..|ranges| - 1]) + provider.answer(Last(ranges))
  }

  function FetchAll(provider: Provider, missing: seq<int>): seq<Estimate> {
    Answers(provider, FetchRanges(provider.unit, missing))
  }

  lemma {:induction false} FetchAllNothing(provider: Provider)
    ensures FetchAll(provider, []) == []
  {
  }

  /** `getEstimatesForMissingDates`: one call of the provider per range, the answers put together. */
  method GetEstimatesForMissingDates(provider: Provider, missing: seq<int>) returns (estimates: seq<Estimate>)
    ensures estimates == FetchAll(provider, missing)
  {
    var ranges := GetMissingDataRequests(provider.unit, missing);
    estimates := [];
    for i := 0 to |ranges|
      invariant estimates == Answers(provider, ranges[..i])
    {
      assert ranges[..i + 1][..i] == ranges[..i];
      estimates := estimates + provider.answer(ranges[i]);
    }
    assert ranges[..|ranges|] == ranges;
  }

  /** The missing dates without an estimate, each once: a list difference by value. */
  function Difference(dates: seq<int>, estimates: seq<Estimate>): seq<int>
    requires AllDated(estimates)
  {
    if dates == [] then []
    else
      var before, d := Difference(dates[..|dates| - 1], estimates), Last(dates);
      if d in before || HasKey(TimeAt(0), estimates, d) then before else before + [d]
  }

  function EmptyEstimates(unit: GroupBy, dates: seq<int>): (empties: seq<Estimate>)
    ensures |empties| == |dates|
    ensures forall i :: 0 <= i < |dates| ==>
              empties[i] == Estimate(dates[i], [], dates[i], PeriodEndDate(unit, dates[i]), unit)
  {
    seq(|dates|, i requires 0 <= i < |dates| => Estimate(dates[i], [], dates[i], PeriodEndDate(unit, dates[i]), unit))
  }

  /** `fillDates`: an empty estimate for each missing date without one, then sorted by time. */
  function FillDates(missing: seq<int>, estimates: seq<Estimate>, unit: GroupBy): seq<Estimate>
    requires AllDated(estimates)
  {
    SortBy(TimeAt(0), EmptyEstimates(unit, Difference(missing, estimates)) + estimates)
  }

  // ----- the fetch of a list of missing periods -----

  /** The usage that fetching a run gives for one of its periods: short for the last week. */
  function UsageInRun(provider: Provider, run: seq<int>, d: int): seq<ServiceData>
    requires run != []
  {
    if provider.unit == Week && d == Last(run) then provider.shortUsage(d) else provider.usage(d)
  }

  /** A run by the numbers of its periods. */
  lemma {:induction false} NumbersOfRun(unit: GroupBy, run: seq<int>, d: int)
    requires IsRun(unit, run) && ArePeriodStarts(unit, run) && IsPeriodStart(unit, d)
    ensures var first, n, k := PeriodNumber(unit, run[0]), |run|, PeriodNumber(unit, d);
            run[0] == PeriodStart(unit, first) && Last(run) == PeriodStart(unit, first + n - 1) &&
            d == PeriodStart(unit, k) &&
            (d in run <==> first <= k < first + n) && (d == Last(run) <==> k == first + n - 1)
  {
    hide PeriodStart, PeriodNumber, Add;
    var first, n, k := PeriodNumber(unit, run[0]), |run|, PeriodNumber(unit, d);
    RunIsInterval(unit, run, 0);
    RunIsInterval(unit, run, n - 1);
    PeriodStartsIncrease(unit, k, first + n - 1);
    if first <= k < first + n { RunIsInterval(unit, run, k - first); }
    if d in run {
      var i :| 0 <= i < n && run[i] == d;
      RunIsInterval(unit, run, i);
      PeriodStartsIncrease(unit, first + i, k);
    }
  }

  /** Where a fetch that ends with period `last` stops. */
  function StopAfter(unit: GroupBy, last: int): int {
    PeriodStart(unit, last + 1) - 1 - if unit == Week then MS_PER_DAY else 0
  }

  lemma {:induction false} StopsInLast(unit: GroupBy, last: int)
    ensures PeriodStart(unit, last) <= StopAfter(unit, last) < PeriodStart(unit, last + 1)
  {
    hide PeriodStart, PeriodNumber;
    PeriodStartsIncrease(unit, last, last + 1);
    if unit == Week { WeekLength(last); }
  }

  lemma {:induction false} StopsGrow(unit: GroupBy, k: int, last: int)
    ensures k <= last ==> StopAfter(unit, k) <= StopAfter(unit, last)
    ensures k < last ==> PeriodStart(unit, k + 1) - 1 <= StopAfter(unit, last)
    ensures PeriodStart(unit, k) <= StopAfter(unit, last) <==> k <= last
  {
    hide PeriodStart, PeriodNumber, StopAfter;
    StopsInLast(unit, k);
    StopsInLast(unit, last);
    PeriodStartsIncrease(unit, k, last);
    PeriodStartsIncrease(unit, k + 1, last);
    PeriodStartsIncrease(unit, last + 1, k);
  }

  /** A run's range covers the run's periods and meets no other; it stops short in the last week only. */
  lemma {:induction false} PeriodsOfRun(unit: GroupBy, run: seq<int>, d: int)
    requires IsRun(unit, run) && ArePeriodStarts(unit, run) && IsPeriodStart(unit, d)
    ensures var range := FetchRange(unit, run);
            (d in run ==> range.start <= d && EndOf(unit, d) <= range.end &&
                          (Add(unit, d, 1) - 1 <= range.end <==> !(unit == Week && d == Last(run)))) &&
            (d <= range.end && range.start < Add(unit, d, 1) <==> d in run)
  {
    hide PeriodStart, PeriodNumber, Add, StartOf, EndOf, Follows, IsPeriodStart, ArePeriodStarts;
    var first, last, k := PeriodNumber(unit, run[0]), PeriodNumber(unit, run[0]) + |run| - 1, PeriodNumber(unit, d);
    NumbersOfRun(unit, run, d);
    EndOfPeriodStart(unit, last);
    EndOfPeriodStart(unit, k);
    AddToPeriodStart(unit, k, 1);
    assert FetchRange(unit, run) == Range(PeriodStart(unit, first), StopAfter(unit, last));
    StopsGrow(unit, k, last);
    StopsInLast(unit, last);
    PeriodStartsIncrease(unit, first, k + 1);
    PeriodStartsIncrease(unit, k, first);
  }

  /** A run's range is answered by the run's periods with usage. */
  lemma {:induction false} AnswerForRun(provider: Provider, run: seq<int>, e: Estimate)
    requires IsRun(provider.unit, run) && ArePeriodStarts(provider.unit, run)
    requires provider.AnswersFor(FetchRange(provider.unit, run))
    ensures e in provider.answer(FetchRange(provider.unit, run)) <==>
              e.Estimate? && e.timestamp in run && e.services != [] &&
              e == provider.EstimateWith(e.timestamp, UsageInRun(provider, run, e.timestamp))
  {
    hide PeriodStart, PeriodNumber, PeriodEndDate, IsPeriodStart, Add, StartOf, EndOf, FetchRange;
    var unit, range := provider.unit, FetchRange(provider.unit, run);
    var answer := provider.answer(range);
    if e.Estimate? && (e in answer || e.timestamp in run) {
      var d := e.timestamp;
      assert IsPeriodStart(unit, d) by {
        if d in run { var i :| 0 <= i < |run| && run[i] == d; }
      }
      PeriodsOfRun(unit, run, d);
      assert d in run && provider.Covered(d, range);
      assert provider.UsageWithin(d, range) == UsageInRun(provider, run, d);
      if e == provider.EstimateWith(d, UsageInRun(provider, run, d)) && e.services != [] {
        var i :| 0 <= i < |answer| && TimeAt(0)(answer[i]) == d;
        assert answer[i] in answer;
        assert answer[i] == e;
      }
      if e in answer {
        var i :| 0 <= i < |answer| && answer[i] == e;
        assert TimeAt(0)(answer[i]) == d;
        assert HasKey(TimeAt(0), answer, d);
      }
    }
  }

  /** The usage that fetching all missing periods gives for one of them. */
  function FetchedUsage(provider: Provider, missing: seq<int>, d: int): seq<ServiceData> {
    if provider.unit == Week && Add(Week, d, 1) !in missing then provider.shortUsage(d) else provider.usage(d)
  }

  predicate IsFetchedEstimate(provider: Provider, missing: seq<int>, e: Estimate) {
    e.Estimate? && e.timestamp in missing &&
    e == provider.EstimateWith(e.timestamp, FetchedUsage(provider, missing, e.timestamp))
  }

  lemma {:induction false} FetchedInRun(provider: Provider, missing: seq<int>, runs: seq<seq<int>>, i: int, d: int)
    requires AreMaximalRuns(provider.unit, missing, runs) && 0 <= i < |runs| && d in runs[i]
    requires Increasing(missing) && ArePeriodStarts(provider.unit, missing)
    ensures runs[i] != [] && UsageInRun(provider, runs[i], d) == FetchedUsage(provider, missing, d)
  {
    hide Add, PeriodStart, PeriodNumber, IsPeriodStart, Flatten;
    RunEnds(provider.unit, missing, runs, i);
    if d != Last(runs[i]) { DateBeforeLast(provider.unit, missing, runs, i, d); }
  }

  lemma {:induction false} AnswersMembers(provider: Provider, ranges: seq<Range>, e: Estimate)
    ensures e in Answers(provider, ranges) <==> exists i :: 0 <= i < |ranges| && e in provider.answer(ranges[i])
  {
    if ranges != [] {
      var before := ranges[..|ranges| - 1];
      AnswersMembers(provider, before, e);
      if i :| 0 <= i < |ranges| && e in provider.answer(ranges[i]) {
        assert i < |before| ==> before[i] == ranges[i];
      }
      if i :| 0 <= i < |before| && e in provider.answer(before[i]) {
        assert ranges[i] == before[i];
      }
    }
  }

  /** What is fetched: the estimates of the missing periods with usage, the last week of each run being short. */
  lemma {:induction false} FetchAllMembers(provider: Provider, missing: seq<int>, e: Estimate)
    requires provider.Faithful()
    requires Increasing(missing) && ArePeriodStarts(provider.unit, missing)
    ensures e in FetchAll(provider, missing) <==> IsFetchedEstimate(provider, missing, e) && e.services != []
  {
    hide PeriodStart, PeriodNumber, PeriodEndDate, IsPeriodStart, Add, StartOf, EndOf, Runs, Flatten, Answers,
         Provider.AnswersFor, UsageInRun, FetchedUsage;
    var unit := provider.unit;
    var runs, ranges := Runs(unit, missing), FetchRanges(unit, missing);
    RunsAreMaximal(unit, missing);
    AnswersMembers(provider, ranges, e);
    if e.Estimate? { FlattenMembers(runs, e.timestamp); }
    forall i | 0 <= i < |runs|
      ensures e in provider.answer(ranges[i]) <==>
                e.Estimate? && e.timestamp in runs[i] && e.services != [] && IsFetchedEstimate(provider, missing, e)
    {
      RunEnds(unit, missing, runs, i);
      assert provider.AnswersFor(ranges[i]);
      AnswerForRun(provider, runs[i], e);
      if e.Estimate? && e.timestamp in runs[i] { FetchedInRun(provider, missing, runs, i, e.timestamp); }
    }
  }

  lemma {:induction false} AnswersDistinct(provider: Provider, ranges: seq<Range>)
    requires forall i :: 0 <= i < |ranges| ==>
               AllDated(provider.answer(ranges[i])) && DistinctKeys(TimeAt(0), provider.answer(ranges[i]))
    requires forall i, j, e, f ::
               0 <= i < j < |ranges| && e in provider.answer(ranges[i]) && f in provider.answer(ranges[j])
               ==> TimeAt(0)(e) != TimeAt(0)(f)
    ensures AllDated(Answers(provider, ranges)) && DistinctKeys(TimeAt(0), Answers(provider, ranges))
  {
    if ranges != [] {
      var before := ranges[..|ranges| - 1];
      AnswersDistinct(provider, before);
      var a, b := Answers(provider, before), provider.answer(Last(ranges));
      forall i, j | 0 <= i < |a| && 0 <= j < |b| ensures TimeAt(0)(a[i]) != TimeAt(0)(b[j]) {
        AnswersMembers(provider, before, a[i]);
      }
    }
  }

  lemma {:induction false} FetchAllDistinct(provider: Provider, missing: seq<int>)
    requires provider.Faithful()
    requires Increasing(missing) && ArePeriodStarts(provider.unit, missing)
    ensures AllDated(FetchAll(provider, missing)) && DistinctKeys(TimeAt(0), FetchAll(provider, missing))
  {
    hide PeriodStart, PeriodNumber, Add, StartOf, EndOf, Runs, Flatten, Answers;
    var unit := provider.unit;
    var runs, ranges := Runs(unit, missing), FetchRanges(unit, missing);
    RunsAreMaximal(unit, missing);
    forall i | 0 <= i < |ranges|
      ensures AllDated(provider.answer(ranges[i])) && DistinctKeys(TimeAt(0), provider.answer(ranges[i]))
    {
      assert provider.AnswersFor(ranges[i]);
    }
    forall i, j, e, f | 0 <= i < j < |ranges| && e in provider.answer(ranges[i]) && f in provider.answer(ranges[j])
      ensures TimeAt(0)(e) != TimeAt(0)(f)
    {
      RunEnds(unit, missing, runs, i);
      RunEnds(unit, missing, runs, j);
      AnswerForRun(provider, runs[i], e);
      AnswerForRun(provider, runs[j], f);
      var a :| 0 <= a < |runs[i]| && runs[i][a] == e.timestamp;
      var b :| 0 <= b < |runs[j]| && runs[j][b] == f.timestamp;
      FlattenIncreasing(runs, i, j, a, b);
    }
    AnswersDistinct(provider, ranges);
  }

  // ----- filling -----

  /** The estimates that fetching and filling missing periods give. */
  function FetchedEstimates(provider: Provider, missing: seq<int>): (r: seq<Estimate>)
    ensures |r| == |missing| && AllDated(r)
    ensures forall i :: 0 <= i < |r| ==>
              r[i] == provider.EstimateWith(missing[i], FetchedUsage(provider, missing, missing[i]))
  {
    seq(|missing|, i requires 0 <= i < |missing| =>
      provider.EstimateWith(missing[i], FetchedUsage(provider, missing, missing[i])))
  }

  function EstimatesAt(provider: Provider, dates: seq<int>): (r: seq<Estimate>)
    ensures |r| == |dates| && AllDated(r) && forall i :: 0 <= i < |r| ==> r[i] == provider.EstimateAt(dates[i])
  {
    seq(|dates|, i requires 0 <= i < |dates| => provider.EstimateAt(dates[i]))
  }

  lemma {:induction false} DifferenceMembers(dates: seq<int>, estimates: seq<Estimate>, d: int)
    requires AllDated(estimates)
    ensures d in Difference(dates, estimates) <==> d in dates && !HasKey(TimeAt(0), estimates, d)
  {
    if dates != [] {
      DifferenceMembers(dates[..|dates| - 1], estimates, d);
      assert dates == dates[..|dates| - 1] + [Last(dates)];
    }
  }

  lemma {:induction false} DifferenceDistinct(dates: seq<int>, estimates: seq<Estimate>)
    requires AllDated(estimates)
    ensures forall i, j :: 0 <= i < j < |Difference(dates, estimates)| ==>
              Difference(dates, estimates)[i] != Difference(dates, estimates)[j]
  {
    if dates != [] { DifferenceDistinct(dates[..|dates| - 1], estimates); }
  }

  lemma {:induction false} FetchedKeys(provider: Provider, missing: seq<int>, d: int)
    requires provider.Faithful()
    requires Increasing(missing) && ArePeriodStarts(provider.unit, missing)
    ensures HasKey(TimeAt(0), FetchAll(provider, missing), d) <==>
              d in missing && FetchedUsage(provider, missing, d) != []
  {
    hide FetchAll, PeriodEndDate, FetchedUsage, Provider.Faithful, ArePeriodStarts, Increasing;
    var fetched, e := FetchAll(provider, missing), provider.EstimateWith(d, FetchedUsage(provider, missing, d));
    FetchAllDistinct(provider, missing);
    if HasKey(TimeAt(0), fetched, d) {
      var i :| 0 <= i < |fetched| && TimeAt(0)(fetched[i]) == d;
      FetchAllMembers(provider, missing, fetched[i]);
    }
    FetchAllMembers(provider, missing, e);
    if e in fetched {
      var i :| 0 <= i < |fetched| && fetched[i] == e;
      assert TimeAt(0)(fetched[i]) == d;
    }
  }

  /** Filling what was fetched gives the estimate of every missing period, in time order, each once. */
  lemma {:induction false} FillDatesFetched(provider: Provider, missing: seq<int>)
    requires provider.Faithful()
    requires Increasing(missing) && ArePeriodStarts(provider.unit, missing)
    ensures AllDated(FetchAll(provider, missing))
    ensures FillDates(missing, FetchAll(provider, missing), provider.unit) == FetchedEstimates(provider, missing)
  {
    hide FetchAll, PeriodEndDate, SortBy, Difference, FetchedUsage, Provider.Faithful, ArePeriodStarts;
    var fetched := FetchAll(provider, missing);
    FetchAllDistinct(provider, missing);
    var key, gaps := TimeAt(0), Difference(missing, fetched);
    var empties := EmptyEstimates(provider.unit, gaps);
    var all := empties + fetched;
    DifferenceDistinct(missing, fetched);
    forall i, j | 0 <= i < |empties| && 0 <= j < |fetched| ensures key(empties[i]) != key(fetched[j]) {
      DifferenceMembers(missing, fetched, gaps[i]);
    }
    assert DistinctKeys(key, all);
    SortByDistinct(key, all);
    SortByPermutes(key, all);
    var expected := FetchedEstimates(provider, missing);
    forall e ensures e in all <==> e in expected { FilledMembers(provider, missing, e); }
    StrictlySortedUnique(key, SortBy(key, all), expected);
  }

  /** When nothing is lost, these are the estimates of the missing periods. */
  lemma {:induction false} FetchedWithoutLoss(provider: Provider, missing: seq<int>)
    requires provider.LosesNothing() && ArePeriodStarts(provider.unit, missing)
    ensures FetchedEstimates(provider, missing) == EstimatesAt(provider, missing)
    ensures forall d :: d in missing ==> FetchedUsage(provider, missing, d) == provider.usage(d)
  {
    hide PeriodEndDate, IsPeriodStart, Add;
    forall d | d in missing ensures FetchedUsage(provider, missing, d) == provider.usage(d) {
      var i :| 0 <= i < |missing| && missing[i] == d;
      assert IsPeriodStart(provider.unit, d);
    }
  }

  lemma {:induction false} EmptyEstimatesMembers(unit: GroupBy, dates: seq<int>, e: Estimate)
    ensures e in EmptyEstimates(unit, dates) <==>
              e.Estimate? && e.timestamp in dates &&
              e == Estimate(e.timestamp, [], e.timestamp, PeriodEndDate(unit, e.timestamp), unit)
  {
    hide PeriodEndDate;
    var empties := EmptyEstimates(unit, dates);
    if e.Estimate? && e.timestamp in dates {
      var i :| 0 <= i < |dates| && dates[i] == e.timestamp;
      assert empties[i] in empties;
    }
  }

  lemma {:induction false} EstimatesAtMembers(provider: Provider, dates: seq<int>, e: Estimate)
    ensures e in EstimatesAt(provider, dates) <==> provider.IsEstimateAt(e) && e.timestamp in dates
  {
    hide PeriodEndDate;
    var r := EstimatesAt(provider, dates);
    if provider.IsEstimateAt(e) && e.timestamp in dates {
      var i :| 0 <= i < |dates| && dates[i] == e.timestamp;
      assert r[i] == e;
    }
  }

  lemma {:induction false} FetchedEstimatesMembers(provider: Provider, missing: seq<int>, e: Estimate)
    ensures e in FetchedEstimates(provider, missing) <==> IsFetchedEstimate(provider, missing, e)
  {
    hide PeriodEndDate, FetchedUsage;
    var r := FetchedEstimates(provider, missing);
    if IsFetchedEstimate(provider, missing, e) {
      var i :| 0 <= i < |missing| && missing[i] == e.timestamp;
      assert r[i] == e;
    }
  }

  lemma {:induction false} FilledMembers(provider: Provider, missing: seq<int>, e: Estimate)
    requires provider.Faithful()
    requires Increasing(missing) && ArePeriodStarts(provider.unit, missing)
    requires AllDated(FetchAll(provider, missing))
    ensures var fetched := FetchAll(provider, missing);
            e in EmptyEstimates(provider.unit, Difference(missing, fetched)) + fetched <==>
              e in FetchedEstimates(provider, missing)
  {
    hide FetchAll, PeriodEndDate, Difference, EmptyEstimates, FetchedEstimates, FetchedUsage, Provider.Faithful,
         ArePeriodStarts;
    var fetched := FetchAll(provider, missing);
    FetchAllMembers(provider, missing, e);
    EmptyEstimatesMembers(provider.unit, Difference(missing, fetched), e);
    FetchedEstimatesMembers(provider, missing, e);
    if e.Estimate? {
      FetchedKeys(provider, missing, e.timestamp);
      DifferenceMembers(missing, fetched, e.timestamp);
    }
  }

  /**
    Filling any answers: all of them stay, and each missing date without one gets an empty estimate for its
    period; the whole in time order.
   */
  lemma {:induction false} FilledAre(missing: seq<int>, estimates: seq<Estimate>, unit: GroupBy, e: Estimate)
    requires AllDated(estimates)
    ensures e in FillDates(missing, estimates, unit) <==>
              e in estimates ||
              (e.Estimate? && e.timestamp in missing && (forall f :: f in estimates ==> f.timestamp != e.timestamp) &&
               e.services == [] && e.periodStart == e.timestamp && e.groupBy == unit &&
               e.periodEnd == PeriodEndDate(unit, e.timestamp))
    ensures Sorted(TimeAt(0), FillDates(missing, estimates, unit))
  {
    hide PeriodEndDate, Difference, EmptyEstimates, SortBy;
    var gaps := Difference(missing, estimates);
    var all := EmptyEstimates(unit, gaps) + estimates;
    SortByPermutes(TimeAt(0), all);
    SortBySorts(TimeAt(0), all);
    EmptyEstimatesMembers(unit, gaps, e);
    if e.Estimate? { DifferenceMembers(missing, estimates, e.timestamp); }
    assert e in all <==> e in EmptyEstimates(unit, gaps) || e in estimates;
  }
}
