/**
  Whether the cache can be noticed: a call's answer compared with asking the provider for every
  requested period, for one call and over whole runs of calls.
 */
module Transparency {
  import opened Options
  import opened Calendar
  import opened Ordering
  import opened Estimates
  import opened Requests
  import opened Fetching
  import opened CacheText
  import opened LocalCache

  /** What the provider holds for the requested periods: one estimate per period with usage, in time order. */
  function Expected(provider: Provider, request: Request): seq<Estimate> {
    NonEmpty(EstimatesAt(provider, RequestedDates(provider.unit, request.startDate, request.endDate)))
  }

  /** The file's text stands for these entries: none without a file, the empty array in a fresh file. */
  ghost predicate Holds(codec: Codec, file: Option<string>, entries: seq<Estimate>) {
    match file
    case None => entries == []
    case Some(text) =>
      (text == FRESH_FILE && entries == [EmptyArray]) || (entries != [] && text == Print(codec, entries))
  }

  /** Entries agree with the provider, are in time order, each period once, and lie in the past. */
  ghost predicate Agrees(provider: Provider, entries: seq<Estimate>, now: int) {
    && StrictlySorted(TimeAt(now), entries)
    && forall e :: e in entries && e.Estimate? ==>
         provider.IsEstimateAt(e) && IsPeriodStart(provider.unit, e.timestamp) && e.timestamp < now
  }

  ghost predicate Consistent(provider: Provider, codec: Codec, file: Option<string>, entries: seq<Estimate>, now: int) {
    Holds(codec, file, entries) && Agrees(provider, entries, now)
  }

  /** Assumptions on the provider and the encoding; when fetches of weeks stop short, that makes no difference. */
  ghost predicate Sound(provider: Provider, codec: Codec) {
    provider.Faithful() && provider.LosesNothing() && AnswersDated(provider) && codec.Valid()
  }

  /** What is fetched when nothing is lost. */
  lemma {:induction false} FetchAllWithoutLoss(provider: Provider, missing: seq<int>, e: Estimate)
    requires provider.Faithful() && provider.LosesNothing()
    requires Increasing(missing) && ArePeriodStarts(provider.unit, missing)
    ensures e in FetchAll(provider, missing) <==> provider.IsEstimateAt(e) && e.services != [] && e.timestamp in missing
  {
    hide FetchAll, PeriodEndDate, FetchedUsage, Provider.Faithful, Provider.LosesNothing, ArePeriodStarts, Increasing;
    FetchAllMembers(provider, missing, e);
    FetchedWithoutLoss(provider, missing);
  }

  lemma {:induction false} LoadedHolds(codec: Codec, file: Option<string>, entries: seq<Estimate>)
    requires codec.Valid() && Holds(codec, file, entries)
    ensures Loaded(codec, file) == entries
  {
    if file.Some? {
      if file.value == FRESH_FILE { ParseFresh(codec); }
      if entries != [] && file.value == Print(codec, entries) { ParsePrint(codec, entries); }
    }
  }

  // ----- the entries after a call -----

  /** The entries once a missing file is created. */
  function Created(file: Option<string>, entries: seq<Estimate>): seq<Estimate> {
    if file.None? then [EmptyArray] else entries
  }

  lemma {:induction false} CreatedConsistent(provider: Provider, codec: Codec, file: Option<string>,
                                             entries: seq<Estimate>, now: int)
    requires Consistent(provider, codec, file, entries, now)
    ensures Consistent(provider, codec, Some(AfterLoading(file)), Created(file, entries), now)
  {
  }

  lemma {:induction false} MissingFacts(provider: Provider, codec: Codec, file: Option<string>, entries: seq<Estimate>,
                                        request: Request, now: int, d: int)
    requires codec.Valid() && Consistent(provider, codec, file, entries, now) && request.endDate < now
    ensures var missing := Missing(provider, codec, file, request, now);
            Increasing(missing) && ArePeriodStarts(provider.unit, missing) &&
            (d in missing <==> d in RequestedDates(provider.unit, request.startDate, request.endDate)
                               && !HasKey(TimeAt(now), FilterForRequest(request, entries, now), d))
  {
    hide PeriodStart, PeriodNumber, StartOf;
    LoadedHolds(codec, file, entries);
    var dates := RequestedDates(provider.unit, request.startDate, request.endDate);
    RequestedDatesExact(provider.unit, request.startDate, request.endDate);
    var cached := FilterForRequest(request, entries, now);
    MissingDatesIncrease(cached, now, dates);
    MissingDatesMembers(cached, now, dates, d);
    var missing := Missing(provider, codec, file, request, now);
    forall i | 0 <= i < |missing| ensures IsPeriodStart(provider.unit, missing[i]) {
      MissingDatesMembers(cached, now, dates, missing[i]);
    }
  }

  /** New estimates merged with the cached ones and then with the file: one merge with the file. */
  lemma {:induction false} TwoMergesAreOne(request: Request, estimates: seq<Estimate>, entries: seq<Estimate>, now: int)
    requires StrictlySorted(TimeAt(now), estimates) && StrictlySorted(TimeAt(now), entries)
    ensures Merge(TimeAt(now), Merge(TimeAt(now), estimates, FilterForRequest(request, entries, now)), entries)
         == Merge(TimeAt(now), estimates, entries)
  {
    var key, cached := TimeAt(now), FilterForRequest(request, entries, now);
    FilterSorted(request, entries, now);
    MergeAssociative(key, estimates, cached, entries);
    forall e ensures e in cached ==> e in entries { FilterMembers(request, entries, now, e); }
    MergeAbsorbs(key, cached, entries);
  }

  lemma {:induction false} EstimatesAtSorted(provider: Provider, dates: seq<int>, now: int)
    requires Increasing(dates)
    ensures AllDated(EstimatesAt(provider, dates)) && StrictlySorted(TimeAt(now), EstimatesAt(provider, dates))
  {
  }

  /** A call that persists: the file holds the old entries and those of every missing period. */
  lemma {:induction false} PersistedConsistent(provider: Provider, codec: Codec, file: string, entries: seq<Estimate>,
                                               missing: seq<int>, request: Request, now: int)
    requires codec.Valid() && Consistent(provider, codec, Some(file), entries, now)
    requires Increasing(missing) && ArePeriodStarts(provider.unit, missing) && missing != []
    requires forall d :: d in missing ==> d < now
    ensures var filled := EstimatesAt(provider, missing);
            var text := Persisted(codec, file, filled, FilterForRequest(request, entries, now), now);
            Consistent(provider, codec, Some(text), Merge(TimeAt(now), filled, entries), now)
  {
    hide PeriodStart, PeriodNumber, PeriodEndDate, Merge, StartOf, Provider.Faithful, Provider.LosesNothing,
         AnswersDated, Print, Parse, Replaced;
    var key, filled := TimeAt(now), EstimatesAt(provider, missing);
    var merged := Merge(key, filled, entries);
    EstimatesAtSorted(provider, missing, now);
    LoadedHolds(codec, Some(file), entries);
    TwoMergesAreOne(request, filled, entries, now);
    MergeSorts(key, filled, entries);
    forall e | e in merged && e.Estimate?
      ensures provider.IsEstimateAt(e) && IsPeriodStart(provider.unit, e.timestamp) && e.timestamp < now
    {
      MergeMembers(key, filled, entries, e);
      EstimatesAtMembers(provider, missing, e);
    }
    MergeMembers(key, filled, entries, filled[0]);
    forall e, f | e in filled && f in entries && key(e) == key(f) ensures |codec.encode(f)| <= |codec.encode(e)| {
      EstimatesAtMembers(provider, missing, e);
    }
    PrintLength(codec, merged);
    ReplacedFits(codec, key, filled, entries);
    OverwriteIsSafe(codec, key, filled, entries);
  }

  // ----- the answer of a call -----

  ghost predicate Persists(provider: Provider, codec: Codec, file: Option<string>, request: Request, now: int) {
    FetchAll(provider, Missing(provider, codec, file, request, now)) != []
  }

  lemma {:induction false} MissingArePeriods(provider: Provider, codec: Codec, file: Option<string>, request: Request,
                                             now: int)
    ensures var missing := Missing(provider, codec, file, request, now);
            Increasing(missing) && ArePeriodStarts(provider.unit, missing) &&
            forall d :: d in missing ==> d in RequestedDates(provider.unit, request.startDate, request.endDate)
  {
    hide PeriodStart, PeriodNumber, StartOf, RequestedDates, Loaded, FilterForRequest, IsPeriodStart, MissingDates;
    var dates := RequestedDates(provider.unit, request.startDate, request.endDate);
    var cached := FilterForRequest(request, Loaded(codec, file), now);
    var missing := Missing(provider, codec, file, request, now);
    RequestedDatesExact(provider.unit, request.startDate, request.endDate);
    MissingDatesIncrease(cached, now, dates);
    forall d | d in missing ensures d in dates { MissingDatesMembers(cached, now, dates, d); }
    assert forall i :: 0 <= i < |missing| ==> missing[i] in missing;
  }

  lemma {:induction false} PersistsWhenUsageIsMissing(provider: Provider, codec: Codec, file: Option<string>,
                                                      request: Request, now: int)
    requires provider.Faithful()
    ensures var missing := Missing(provider, codec, file, request, now);
            (Persists(provider, codec, file, request, now) <==>
               exists d :: d in missing && FetchedUsage(provider, missing, d) != []) &&
            (provider.LosesNothing() ==>
               (Persists(provider, codec, file, request, now) <==> exists d :: d in missing && provider.usage(d) != []))
  {
    hide Missing, FetchAll, PeriodEndDate, FetchedUsage, Provider.Faithful, Provider.LosesNothing, RequestedDates;
    var missing := Missing(provider, codec, file, request, now);
    var fetched := FetchAll(provider, missing);
    MissingArePeriods(provider, codec, file, request, now);
    if fetched != [] { FetchAllMembers(provider, missing, fetched[0]); }
    if d :| d in missing && FetchedUsage(provider, missing, d) != [] {
      FetchAllMembers(provider, missing, provider.EstimateWith(d, FetchedUsage(provider, missing, d)));
    }
    if provider.LosesNothing() { FetchedWithoutLoss(provider, missing); }
  }

  /** Which estimates the cached list and the missing dates stand for together. */
  lemma {:induction false} CachedOrMissing(provider: Provider, codec: Codec, file: Option<string>,
                                           entries: seq<Estimate>, request: Request, now: int, e: Estimate)
    requires codec.Valid() && Consistent(provider, codec, file, entries, now) && request.endDate < now
    ensures var cached := FilterForRequest(request, entries, now);
            var missing := Missing(provider, codec, file, request, now);
            (e in cached || (provider.IsEstimateAt(e) && e.timestamp in missing)) <==>
              (provider.IsEstimateAt(e) &&
               e.timestamp in RequestedDates(provider.unit, request.startDate, request.endDate))
  {
    hide PeriodStart, PeriodNumber, PeriodEndDate, StartOf, RequestedDates;
    var key, cached := TimeAt(now), FilterForRequest(request, entries, now);
    FilterMembers(request, entries, now, e);
    RequestedDatesExact(provider.unit, request.startDate, request.endDate);
    StartOfIsBefore(provider.unit, request.startDate);
    if e.Estimate? {
      MissingFacts(provider, codec, file, entries, request, now, e.timestamp);
      if provider.IsEstimateAt(e) && HasKey(key, cached, e.timestamp) {
        var i :| 0 <= i < |cached| && key(cached[i]) == e.timestamp;
        FilterMembers(request, entries, now, cached[i]);
        assert cached[i] == e;
      }
    }
  }

  lemma {:induction false} StartOfIsBefore(unit: GroupBy, t: int)
    ensures StartOf(unit, t) <= t
  {
    hide PeriodStart, PeriodNumber, StartOf;
    PeriodOfInstant(unit, t);
  }

  lemma {:induction false} ExpectedMembers(provider: Provider, request: Request, e: Estimate)
    ensures AllDated(Expected(provider, request)) && StrictlySorted(TimeAt(0), Expected(provider, request))
    ensures e in Expected(provider, request) <==>
              (provider.IsEstimateAt(e) && e.services != [] &&
               e.timestamp in RequestedDates(provider.unit, request.startDate, request.endDate))
  {
    hide PeriodStart, PeriodNumber, PeriodEndDate, StartOf, RequestedDates;
    var dates := RequestedDates(provider.unit, request.startDate, request.endDate);
    RequestedDatesExact(provider.unit, request.startDate, request.endDate);
    EstimatesAtSorted(provider, dates, 0);
    NonEmptySorted(EstimatesAt(provider, dates), 0);
    NonEmptyMembers(EstimatesAt(provider, dates), e);
    EstimatesAtMembers(provider, dates, e);
  }

  /** A list of estimates with distinct times that are the expected ones sorts to the expected answer. */
  lemma {:induction false} SortsToExpected(provider: Provider, request: Request, s: seq<Estimate>)
    requires AllDated(s) && DistinctKeys(TimeAt(0), s)
    requires forall e :: e in NonEmpty(s) <==> e in Expected(provider, request)
    ensures AllDated(NonEmpty(s)) && Concat(NonEmpty(s), []) == Expected(provider, request)
  {
    hide Expected;
    NonEmptyDated(s);
    NonEmptyDistinct(s);
    assert NonEmpty(s) + [] == NonEmpty(s);
    SortByDistinct(TimeAt(0), NonEmpty(s));
    SortByPermutes(TimeAt(0), NonEmpty(s));
    ExpectedMembers(provider, request, EmptyArray);
    StrictlySortedUnique(TimeAt(0), SortBy(TimeAt(0), NonEmpty(s)), Expected(provider, request));
  }

  lemma {:induction false} NonEmptyDistinct(s: seq<Estimate>)
    requires AllDated(s) && DistinctKeys(TimeAt(0), s)
    ensures DistinctKeys(TimeAt(0), NonEmpty(s))
  {
    if s != [] {
      NonEmptyDistinct(s[1..]);
      var r := NonEmpty(s[1..]);
      forall i | 0 <= i < |r| ensures TimeAt(0)(r[i]) != TimeAt(0)(s[0]) { NonEmptyMembers(s[1..], r[i]); }
    }
  }

  lemma {:induction false} CachedList(provider: Provider, codec: Codec, file: Option<string>, entries: seq<Estimate>,
                                      request: Request, now: int)
    requires codec.Valid() && Consistent(provider, codec, file, entries, now) && request.endDate < now
    ensures var cached := FilterForRequest(request, entries, now);
            AllDated(cached) && StrictlySorted(TimeAt(0), cached)
  {
    FilterSorted(request, entries, now);
    FilterDated(request, entries, now);
  }

  // ----- what a call serves -----

  /** The provider, were its usage something else. */
  function With(provider: Provider, usage: int -> seq<ServiceData>): Provider { provider.(usage := usage) }

  /** What a call serves for each period: what it fetches for a missing one, and for the others what the file holds. */
  function Served(provider: Provider, missing: seq<int>, held: int -> seq<ServiceData>): int -> seq<ServiceData> {
    (d: int) => if d in missing then FetchedUsage(provider, missing, d) else held(d)
  }

  lemma {:induction false} ServedAt(provider: Provider, missing: seq<int>, held: int -> seq<ServiceData>, e: Estimate)
    ensures e.Estimate? ==>
              if e.timestamp in missing
              then With(provider, Served(provider, missing, held)).IsEstimateAt(e) <==>
                IsFetchedEstimate(provider, missing, e)
              else With(provider, Served(provider, missing, held)).IsEstimateAt(e) <==>
                With(provider, held).IsEstimateAt(e)
  {
    hide PeriodEndDate, FetchedUsage;
  }

  lemma {:induction false} FetchedAreServed(provider: Provider, missing: seq<int>, held: int -> seq<ServiceData>)
    ensures EstimatesAt(With(provider, Served(provider, missing, held)), missing) == FetchedEstimates(provider, missing)
  {
    hide PeriodEndDate, FetchedUsage;
  }

  /** The same is expected of two usages exactly when they agree on every requested period. */
  lemma {:induction false} ExpectedSame(provider: Provider, usage: int -> seq<ServiceData>, request: Request)
    ensures Expected(With(provider, usage), request) == Expected(provider, request) <==>
              forall d :: d in RequestedDates(provider.unit, request.startDate, request.endDate) ==>
                usage(d) == provider.usage(d)
  {
    hide Expected, RequestedDates, PeriodEndDate;
    var dates, other := RequestedDates(provider.unit, request.startDate, request.endDate), With(provider, usage);
    ExpectedMembers(provider, request, EmptyArray);
    ExpectedMembers(other, request, EmptyArray);
    forall d | d in dates
      ensures usage(d) != [] ==> other.EstimateAt(d) in Expected(other, request)
      ensures provider.usage(d) != [] ==> provider.EstimateAt(d) in Expected(provider, request)
      ensures provider.EstimateAt(d) in Expected(other, request) ==> usage(d) == provider.usage(d)
      ensures other.EstimateAt(d) in Expected(provider, request) ==> usage(d) == provider.usage(d)
    {
      ExpectedMembers(provider, request, provider.EstimateAt(d));
      ExpectedMembers(provider, request, other.EstimateAt(d));
      ExpectedMembers(other, request, provider.EstimateAt(d));
      ExpectedMembers(other, request, other.EstimateAt(d));
    }
    if forall d :: d in dates ==> usage(d) == provider.usage(d) {
      assert EstimatesAt(other, dates) == EstimatesAt(provider, dates) by {
        forall i | 0 <= i < |dates|
          ensures other.EstimateAt(dates[i]) == provider.EstimateAt(dates[i])
        {
          assert dates[i] in dates;
        }
      }
      SameExpected(provider, usage, request);
    }
  }

  lemma {:induction false} SameExpected(provider: Provider, usage: int -> seq<ServiceData>, request: Request)
    requires var dates := RequestedDates(provider.unit, request.startDate, request.endDate);
             EstimatesAt(With(provider, usage), dates) == EstimatesAt(provider, dates)
    ensures Expected(With(provider, usage), request) == Expected(provider, request)
  {
    hide RequestedDates, EstimatesAt, NonEmpty;
  }

  /** The cached list and the fetched estimates together, sorted, are what the call serves. */
  lemma {:induction false} CachedAndFetched(provider: Provider, held: int -> seq<ServiceData>, codec: Codec,
                                            file: Option<string>, entries: seq<Estimate>, request: Request, now: int)
    requires codec.Valid() && Consistent(With(provider, held), codec, file, entries, now) && request.endDate < now
    ensures var missing := Missing(provider, codec, file, request, now);
            var all := FilterForRequest(request, entries, now) + FetchedEstimates(provider, missing);
            AllDated(all) && AllDated(NonEmpty(all)) &&
            Concat(NonEmpty(all), []) == Expected(With(provider, Served(provider, missing, held)), request)
  {
    hide PeriodStart, PeriodNumber, PeriodEndDate, StartOf, RequestedDates, Missing, Expected, FetchedUsage, Served,
         Holds;
    var reference := With(provider, held);
    var cached, missing := FilterForRequest(request, entries, now), Missing(provider, codec, file, request, now);
    assert missing == Missing(reference, codec, file, request, now) by {
      SameMissing(provider, held, codec, file, request, now);
    }
    var filled, served := FetchedEstimates(provider, missing), With(provider, Served(provider, missing, held));
    var all := cached + filled;
    CachedList(reference, codec, file, entries, request, now);
    MissingFacts(reference, codec, file, entries, request, now, 0);
    forall i, j | 0 <= i < |cached| && 0 <= j < |filled| ensures cached[i].timestamp != filled[j].timestamp {
      MissingFacts(reference, codec, file, entries, request, now, filled[j].timestamp);
      assert TimeAt(now)(cached[i]) == cached[i].timestamp;
      assert missing[j] in missing;
    }
    forall e ensures e in NonEmpty(all) <==> e in Expected(served, request) {
      NonEmptyMembers(all, e);
      FetchedEstimatesMembers(provider, missing, e);
      CachedOrMissing(reference, codec, file, entries, request, now, e);
      ExpectedMembers(served, request, e);
      ServedAt(provider, missing, held, e);
      CachedIsNotMissing(reference, codec, file, entries, request, now, e);
      MissingIsRequested(reference, codec, file, entries, request, now, e);
    }
    SortsToExpected(served, request, all);
  }

  lemma {:induction false} SameMissing(provider: Provider, held: int -> seq<ServiceData>, codec: Codec,
                                       file: Option<string>, request: Request, now: int)
    ensures Missing(With(provider, held), codec, file, request, now) == Missing(provider, codec, file, request, now)
  {
    hide RequestedDates, Loaded, FilterForRequest, MissingDates;
  }

  lemma {:induction false} CachedIsNotMissing(provider: Provider, codec: Codec, file: Option<string>,
                                              entries: seq<Estimate>, request: Request, now: int, e: Estimate)
    requires codec.Valid() && Consistent(provider, codec, file, entries, now) && request.endDate < now
    ensures e in FilterForRequest(request, entries, now) ==>
              e.Estimate? && e.timestamp !in Missing(provider, codec, file, request, now) && provider.IsEstimateAt(e)
  {
    hide RequestedDates, Missing, PeriodEndDate, IsPeriodStart, Holds, FilterForRequest;
    var cached := FilterForRequest(request, entries, now);
    if e in cached {
      FilterMembers(request, entries, now, e);
      var i :| 0 <= i < |cached| && cached[i] == e;
      assert TimeAt(now)(cached[i]) == e.timestamp;
      MissingFacts(provider, codec, file, entries, request, now, e.timestamp);
    }
  }

  lemma {:induction false} MissingIsRequested(provider: Provider, codec: Codec, file: Option<string>,
                                              entries: seq<Estimate>, request: Request, now: int, e: Estimate)
    requires codec.Valid() && Consistent(provider, codec, file, entries, now) && request.endDate < now
    ensures e.Estimate? && e.timestamp in Missing(provider, codec, file, request, now) ==>
              e.timestamp in RequestedDates(provider.unit, request.startDate, request.endDate)
  {
    hide RequestedDates, Missing, Consistent;
    if e.Estimate? { MissingFacts(provider, codec, file, entries, request, now, e.timestamp); }
  }

  /** A call that fetches nothing has all that it serves in its cached list. */
  lemma {:induction false} CachedAnswer(provider: Provider, held: int -> seq<ServiceData>, codec: Codec,
                                        file: Option<string>, entries: seq<Estimate>, request: Request, now: int)
    requires provider.Faithful() && codec.Valid() && Consistent(With(provider, held), codec, file, entries, now) &&
             request.endDate < now
    requires !Persists(provider, codec, file, request, now)
    ensures var cached := FilterForRequest(request, entries, now);
            AllDated(cached) && AllDated(NonEmpty(cached)) &&
            Concat(NonEmpty(cached), [])
            == Expected(With(provider, Served(provider, Missing(provider, codec, file, request, now), held)), request)
  {
    hide PeriodStart, PeriodNumber, PeriodEndDate, StartOf, RequestedDates, Missing, Expected, Persists, Consistent,
         Served, FetchedUsage, Provider.Faithful;
    var cached, missing := FilterForRequest(request, entries, now), Missing(provider, codec, file, request, now);
    CachedAndFetched(provider, held, codec, file, entries, request, now);
    CachedList(With(provider, held), codec, file, entries, request, now);
    PersistsWhenUsageIsMissing(provider, codec, file, request, now);
    var filled := FetchedEstimates(provider, missing);
    forall i | 0 <= i < |filled| ensures filled[i].services == [] {
      assert missing[i] in missing;
    }
    NothingFetchedIsEmpty(filled);
    NonEmptyConcat(cached, filled);
    assert NonEmpty(cached) + [] == NonEmpty(cached);
  }

  lemma {:induction false} NothingFetchedIsEmpty(s: seq<Estimate>)
    requires AllDated(s) && forall i :: 0 <= i < |s| ==> s[i].services == []
    ensures NonEmpty(s) == []
  {
    if s != [] { NothingFetchedIsEmpty(s[1..]); }
  }

  /**
    What any call answers, from any file: exactly what it serves, if it fetches something or the manager's
    list of fetched estimates holds no estimate with usage on entry. The list is never reset, so
    otherwise the call answers with estimates of an earlier call as well.
   */
  lemma {:induction false} CallAnswersServed(provider: Provider, held: int -> seq<ServiceData>, codec: Codec, s: State,
                                             entries: seq<Estimate>, request: Request, now: int)
    requires provider.Faithful() && AnswersDated(provider) && codec.Valid() && AllDated(s.fetched)
    requires Consistent(With(provider, held), codec, s.file, entries, now) && request.endDate < now
    ensures var s' := After(provider, codec, s, request, now);
            var served := With(provider, Served(provider, Missing(provider, codec, s.file, request, now), held));
            AllDated(s'.cached) && AllDated(s'.fetched) &&
            (Answer(s') == Expected(served, request) <==>
               Persists(provider, codec, s.file, request, now) || NonEmpty(s.fetched) == []) &&
            |Answer(s')| == |Expected(served, request)|
                            + if Persists(provider, codec, s.file, request, now) then 0 else |NonEmpty(s.fetched)|
  {
    hide PeriodStart, PeriodNumber, PeriodEndDate, StartOf, Missing, FetchAll, FillDates, Persisted, RequestedDates,
         Expected, Served, Provider.Faithful, AnswersDated, Holds, Agrees;
    var s' := After(provider, codec, s, request, now);
    AfterDated(provider, codec, s, request, now);
    LoadedHolds(codec, s.file, entries);
    if Persists(provider, codec, s.file, request, now) {
      MissingArePeriods(provider, codec, s.file, request, now);
      FillDatesFetched(provider, Missing(provider, codec, s.file, request, now));
      CachedAndFetched(provider, held, codec, s.file, entries, request, now);
    } else {
      CachedAnswer(provider, held, codec, s.file, entries, request, now);
      AnswerWithStale(s'.cached, s.fetched);
    }
  }

  lemma {:induction false} WithOwnUsage(provider: Provider)
    ensures With(provider, provider.usage) == provider
  {
  }

  /** When nothing is lost, what is served of a right file is what is expected. */
  lemma {:induction false} ServedWithoutLoss(provider: Provider, codec: Codec, file: Option<string>, request: Request,
                                             now: int)
    requires provider.LosesNothing()
    ensures Expected(With(provider, Served(provider, Missing(provider, codec, file, request, now), provider.usage)),
                     request)
         == Expected(provider, request)
  {
    hide Expected, RequestedDates, Missing, Provider.LosesNothing, FetchedUsage;
    MissingArePeriods(provider, codec, file, request, now);
    FetchedWithoutLoss(provider, Missing(provider, codec, file, request, now));
    ExpectedSame(provider, Served(provider, Missing(provider, codec, file, request, now), provider.usage), request);
  }

  /** The entries of the file after a call. */
  ghost function EntriesAfter(provider: Provider, codec: Codec, file: Option<string>, entries: seq<Estimate>,
                              request: Request, now: int): seq<Estimate> {
    if Persists(provider, codec, file, request, now)
    then Merge(TimeAt(now), EstimatesAt(provider, Missing(provider, codec, file, request, now)), Created(file, entries))
    else Created(file, entries)
  }

  lemma {:induction false} MissingAfterCreation(provider: Provider, codec: Codec, file: Option<string>,
                                                entries: seq<Estimate>, request: Request, now: int)
    requires codec.Valid() && Consistent(provider, codec, file, entries, now) && request.endDate < now
    ensures FilterForRequest(request, Loaded(codec, file), now)
              == FilterForRequest(request, Created(file, entries), now)
  {
    LoadedHolds(codec, file, entries);
    if file.None? {
      assert [EmptyArray][1..] == [];
      assert FilterForRequest(request, [EmptyArray], now) == [];
    }
  }

  /** Every call leaves a consistent file, whatever it answers. */
  lemma {:induction false} StoreStaysConsistent(provider: Provider, codec: Codec, s: State, entries: seq<Estimate>,
                                                request: Request, now: int)
    requires Sound(provider, codec) && Consistent(provider, codec, s.file, entries, now) && request.endDate < now
    ensures Consistent(provider, codec, After(provider, codec, s, request, now).file,
                       EntriesAfter(provider, codec, s.file, entries, request, now), now)
    ensures Persists(provider, codec, s.file, request, now) ==>
              After(provider, codec, s, request, now).fetched
                == EstimatesAt(provider, Missing(provider, codec, s.file, request, now))
  {
    hide PeriodStart, PeriodNumber, PeriodEndDate, StartOf, Missing, FetchAll, FillDates, Persisted, RequestedDates;
    CreatedConsistent(provider, codec, s.file, entries, now);
    MissingFacts(provider, codec, s.file, entries, request, now, 0);
    var missing := Missing(provider, codec, s.file, request, now);
    if Persists(provider, codec, s.file, request, now) {
      FillDatesFetched(provider, missing);
      FetchedWithoutLoss(provider, missing);
      PersistsWhenUsageIsMissing(provider, codec, s.file, request, now);
      MissingAfterCreation(provider, codec, s.file, entries, request, now);
      RequestedDatesExact(provider.unit, request.startDate, request.endDate);
      forall d | d in missing ensures d < now { MissingFacts(provider, codec, s.file, entries, request, now, d); }
      PersistedConsistent(provider, codec, AfterLoading(s.file), Created(s.file, entries), missing, request, now);
    }
  }

  /**
    When nothing is lost: a call answers what the provider would answer exactly when it fetches
    something, or the manager's list of fetched estimates holds no estimate with usage on entry.
   */
  lemma {:induction false} CallIsTransparent(provider: Provider, codec: Codec, s: State, entries: seq<Estimate>,
                                             request: Request, now: int)
    requires Sound(provider, codec) && Consistent(provider, codec, s.file, entries, now) && request.endDate < now
    requires AllDated(s.fetched)
    ensures var s' := After(provider, codec, s, request, now);
            AllDated(s'.cached) && AllDated(s'.fetched) &&
            (Answer(s') == Expected(provider, request) <==>
               Persists(provider, codec, s.file, request, now) || NonEmpty(s.fetched) == []) &&
            |Answer(s')| == |Expected(provider, request)|
                            + if Persists(provider, codec, s.file, request, now) then 0 else |NonEmpty(s.fetched)|
  {
    hide Expected, Missing, After, Answer, Served, Consistent, Persists, Provider.Faithful, Provider.LosesNothing,
         AnswersDated;
    WithOwnUsage(provider);
    CallAnswersServed(provider, provider.usage, codec, s, entries, request, now);
    ServedWithoutLoss(provider, codec, s.file, request, now);
  }

  /**
    Weeks whose Sundays matter included: a call on a right file that fetches something, or finds no fetched
    usage, is answered rightly exactly when every missing period is fetched as it is.
   */
  lemma {:induction false} AnswerIsRight(provider: Provider, codec: Codec, s: State, entries: seq<Estimate>,
                                         request: Request, now: int)
    requires provider.Faithful() && AnswersDated(provider) && codec.Valid() && AllDated(s.fetched)
    requires Consistent(provider, codec, s.file, entries, now) && request.endDate < now
    requires Persists(provider, codec, s.file, request, now) || NonEmpty(s.fetched) == []
    ensures var s', missing := After(provider, codec, s, request, now), Missing(provider, codec, s.file, request, now);
            AllDated(s'.cached) && AllDated(s'.fetched) &&
            (Answer(s') == Expected(provider, request) <==>
               forall d :: d in missing ==> FetchedUsage(provider, missing, d) == provider.usage(d))
  {
    hide Expected, Missing, After, Answer, Consistent, Persists, Provider.Faithful, AnswersDated, FetchedUsage,
         RequestedDates;
    WithOwnUsage(provider);
    CallAnswersServed(provider, provider.usage, codec, s, entries, request, now);
    MissingArePeriods(provider, codec, s.file, request, now);
    ExpectedSame(provider, Served(provider, Missing(provider, codec, s.file, request, now), provider.usage), request);
  }

  /** Adding a list with usage makes the answer longer. */
  lemma {:induction false} AnswerWithStale(cached: seq<Estimate>, stale: seq<Estimate>)
    requires AllDated(cached) && AllDated(stale)
    ensures AllDated(NonEmpty(cached)) && AllDated(NonEmpty(cached + stale))
    ensures |Concat(NonEmpty(cached + stale), [])| == |Concat(NonEmpty(cached), [])| + |NonEmpty(stale)|
    ensures NonEmpty(stale) == [] ==> Concat(NonEmpty(cached + stale), []) == Concat(NonEmpty(cached), [])
  {
    NonEmptyDated(cached);
    NonEmptyDated(cached + stale);
    NonEmptyConcat(cached, stale);
    SortByPermutes(TimeAt(0), NonEmpty(cached + stale) + []);
    SortByPermutes(TimeAt(0), NonEmpty(cached) + []);
    if NonEmpty(stale) == [] { assert NonEmpty(cached) + [] == NonEmpty(cached); }
  }

  // ----- later calls -----

  lemma {:induction false} AgreesLater(provider: Provider, entries: seq<Estimate>, now: int, now': int)
    requires Agrees(provider, entries, now) && now <= now'
    ensures Agrees(provider, entries, now')
  {
    var key, key' := TimeAt(now), TimeAt(now');
    forall i, j | 0 <= i < j < |entries| ensures key'(entries[i]) < key'(entries[j]) {
      assert key(entries[i]) < key(entries[j]);
      assert entries[i] in entries && entries[j] in entries;
    }
  }

  lemma {:induction false} FilledHasUsage(provider: Provider, missing: seq<int>, d: int)
    requires d in missing && provider.usage(d) != []
    ensures AllDated(EstimatesAt(provider, missing)) && NonEmpty(EstimatesAt(provider, missing)) != []
  {
    hide PeriodEndDate;
    EstimatesAtMembers(provider, missing, provider.EstimateAt(d));
    NonEmptyMembers(EstimatesAt(provider, missing), provider.EstimateAt(d));
  }

  lemma {:induction false} FetchedAfter(provider: Provider, codec: Codec, s: State, entries: seq<Estimate>,
                                        request: Request, now: int)
    requires Sound(provider, codec) && Consistent(provider, codec, s.file, entries, now) && request.endDate < now
    requires AllDated(s.fetched)
    ensures AllDated(After(provider, codec, s, request, now).fetched)
    ensures NonEmpty(After(provider, codec, s, request, now).fetched) != [] <==>
              Persists(provider, codec, s.file, request, now) || NonEmpty(s.fetched) != []
  {
    hide Missing, FillDates, Persisted, Consistent, FetchAll;
    AfterDated(provider, codec, s, request, now);
    if Persists(provider, codec, s.file, request, now) {
      var missing := Missing(provider, codec, s.file, request, now);
      StoreStaysConsistent(provider, codec, s, entries, request, now);
      PersistsWhenUsageIsMissing(provider, codec, s.file, request, now);
      var d :| d in missing && provider.usage(d) != [];
      FilledHasUsage(provider, missing, d);
    }
  }

  // ----- what a call adds -----

  lemma {:induction false} EntryStays(filled: seq<Estimate>, created: seq<Estimate>, now: int, e: Estimate)
    requires StrictlySorted(TimeAt(now), filled) && StrictlySorted(TimeAt(now), created)
    requires e in filled || (e in created && forall f :: f in filled ==> TimeAt(now)(f) == TimeAt(now)(e) ==> f == e)
    ensures e in Merge(TimeAt(now), filled, created)
  {
    var key := TimeAt(now);
    MergeMembers(key, filled, created, e);
    forall i | 0 <= i < |filled| && key(filled[i]) == key(e) ensures e in filled {
      assert filled[i] in filled;
    }
  }

  predicate HasUsage(e: Estimate) { e.Estimate? && e.services != [] }

  /** One call adds to the file the estimates with usage of the periods it asks for, and removes none. */
  lemma {:induction false} CallAddsExpected(provider: Provider, codec: Codec, file: Option<string>,
                                            entries: seq<Estimate>, request: Request, now: int, e: Estimate)
    requires Sound(provider, codec) && Consistent(provider, codec, file, entries, now) && request.endDate < now &&
             HasUsage(e)
    ensures e in EntriesAfter(provider, codec, file, entries, request, now) <==>
              e in entries || (provider.IsEstimateAt(e) &&
                               e.timestamp in RequestedDates(provider.unit, request.startDate, request.endDate))
  {
    hide PeriodStart, PeriodNumber, PeriodEndDate, StartOf, RequestedDates, Missing, Persists, Consistent,
         FilterForRequest;
    var key, missing := TimeAt(now), Missing(provider, codec, file, request, now);
    var created := Created(file, entries);
    assert Holds(codec, file, entries) && Agrees(provider, entries, now) by {
      ConsistentParts(provider, codec, file, entries, now);
    }
    CachedOrMissing(provider, codec, file, entries, request, now, e);
    FilterMembers(request, entries, now, e);
    PersistsWhenUsageIsMissing(provider, codec, file, request, now);
    if Persists(provider, codec, file, request, now) {
      MissingFacts(provider, codec, file, entries, request, now, e.timestamp);
      EstimatesAtSorted(provider, missing, now);
      EstimatesAtMembers(provider, missing, e);
      var filled := EstimatesAt(provider, missing);
      assert e in created <==> e in entries;
      forall f | f in filled && key(f) == key(e) && e in entries
        ensures f == e
      {
        EstimatesAtMembers(provider, missing, f);
      }
      MergeMembers(key, filled, created, e);
      if e in entries { EntryStays(filled, created, now, e); }
    }
  }

  lemma {:induction false} ConsistentParts(provider: Provider, codec: Codec, file: Option<string>,
                                           entries: seq<Estimate>, now: int)
    requires Consistent(provider, codec, file, entries, now)
    ensures Holds(codec, file, entries) && Agrees(provider, entries, now)
  {
  }

  // ----- repeating a request -----

  /** After a request that fetched something, each period from its start date on is in the file. */
  lemma {:induction false} RequestedIsCached(provider: Provider, codec: Codec, s: State, entries: seq<Estimate>,
                                             request: Request, now: int, now': int, d: int)
    requires Sound(provider, codec) && Consistent(provider, codec, s.file, entries, now) &&
             request.endDate < now <= now'
    requires Persists(provider, codec, s.file, request, now)
    requires d in RequestedDates(provider.unit, request.startDate, request.endDate) && request.startDate <= d
    ensures HasKey(TimeAt(now'),
                   FilterForRequest(request, EntriesAfter(provider, codec, s.file, entries, request, now), now'), d)
  {
    hide PeriodStart, PeriodNumber, StartOf, After, Missing, RequestedDates, PeriodEndDate, FetchAll, Persists;
    var missing := Missing(provider, codec, s.file, request, now);
    var entries' := EntriesAfter(provider, codec, s.file, entries, request, now);
    var created, filled, e := Created(s.file, entries), EstimatesAt(provider, missing), provider.EstimateAt(d);
    StoreStaysConsistent(provider, codec, s, entries, request, now);
    CreatedConsistent(provider, codec, s.file, entries, now);
    MissingFacts(provider, codec, s.file, entries, request, now, d);
    EstimatesAtSorted(provider, missing, now);
    RequestedDatesExact(provider.unit, request.startDate, request.endDate);
    CachedOrMissing(provider, codec, s.file, entries, request, now, e);
    FilterMembers(request, entries, now, e);
    EstimatesAtMembers(provider, missing, e);
    forall f | f in filled && TimeAt(now)(f) == d ensures f == e { EstimatesAtMembers(provider, missing, f); }
    EntryStays(filled, created, now, e);
    FilterMembers(request, entries', now', e);
    var cached' := FilterForRequest(request, entries', now');
    var i :| 0 <= i < |cached'| && cached'[i] == e;
    assert TimeAt(now')(cached'[i]) == d;
  }

  /** After a request that starts on a period and fetched something, nothing it asks for is missing. */
  lemma {:induction false} RepeatMissesNothing(provider: Provider, codec: Codec, s: State, entries: seq<Estimate>,
                                               request: Request, now: int, now': int)
    requires Sound(provider, codec) && Consistent(provider, codec, s.file, entries, now) &&
             request.endDate < now <= now'
    requires IsPeriodStart(provider.unit, request.startDate) && Persists(provider, codec, s.file, request, now)
    ensures Missing(provider, codec, After(provider, codec, s, request, now).file, request, now') == []
  {
    hide PeriodStart, PeriodNumber, StartOf, After, Missing, RequestedDates, PeriodEndDate, FetchAll, Persists;
    var s' := After(provider, codec, s, request, now);
    var entries' := EntriesAfter(provider, codec, s.file, entries, request, now);
    StoreStaysConsistent(provider, codec, s, entries, request, now);
    AgreesLater(provider, entries', now, now');
    RequestedDatesExact(provider.unit, request.startDate, request.endDate);
    PeriodNumberOfStart(provider.unit, PeriodNumber(provider.unit, request.startDate));
    var again := Missing(provider, codec, s'.file, request, now');
    forall d | d in RequestedDates(provider.unit, request.startDate, request.endDate) ensures d !in again {
      RequestedIsCached(provider, codec, s, entries, request, now, now', d);
      MissingFacts(provider, codec, s'.file, entries', request, now', d);
    }
    assert again == [] || again[0] in again;
    if again != [] { MissingFacts(provider, codec, s'.file, entries', request, now', again[0]); }
  }

  /**
    Repeating such a request answers the estimates just fetched twice: the answer is longer than
    expected by the number of estimates with usage that the first call fetched.
   */
  lemma {:induction false} RepeatedRequestDuplicates(provider: Provider, codec: Codec, s: State, entries: seq<Estimate>,
                                                     request: Request, now: int, now': int)
    requires Sound(provider, codec) && Consistent(provider, codec, s.file, entries, now) &&
             request.endDate < now <= now'
    requires AllDated(s.fetched)
    requires IsPeriodStart(provider.unit, request.startDate) && Persists(provider, codec, s.file, request, now)
    ensures var s1 := After(provider, codec, s, request, now);
            var s2 := After(provider, codec, s1, request, now');
            AllDated(s1.fetched) && AllDated(s2.cached) && AllDated(s2.fetched) && NonEmpty(s1.fetched) != [] &&
            |Answer(s2)| == |Expected(provider, request)| + |NonEmpty(s1.fetched)|
  {
    hide PeriodStart, PeriodNumber, StartOf, Missing, RequestedDates, PeriodEndDate, FetchAll, Expected, FillDates,
         Persisted;
    var s1 := After(provider, codec, s, request, now);
    var entries1 := EntriesAfter(provider, codec, s.file, entries, request, now);
    StoreStaysConsistent(provider, codec, s, entries, request, now);
    AgreesLater(provider, entries1, now, now');
    FetchedAfter(provider, codec, s, entries, request, now);
    RepeatMissesNothing(provider, codec, s, entries, request, now, now');
    FetchAllNothing(provider);
    AfterDated(provider, codec, s1, request, now');
    WithOwnUsage(provider);
    CachedAnswer(provider, provider.usage, codec, s1.file, entries1, request, now');
    ServedWithoutLoss(provider, codec, s1.file, request, now');
    LoadedHolds(codec, s1.file, entries1);
    var s2 := After(provider, codec, s1, request, now');
    AnswerWithStale(s2.cached, s1.fetched);
  }

  /** Forgetting the fetched estimates before each call would make every call transparent. */
  lemma {:induction false} ResetIsTransparent(provider: Provider, codec: Codec, s: State, entries: seq<Estimate>,
                                              request: Request, now: int)
    requires Sound(provider, codec) && Consistent(provider, codec, s.file, entries, now) && request.endDate < now
    ensures var s' := After(provider, codec, s.(fetched := []), request, now);
            AllDated(s'.cached) && AllDated(s'.fetched) && Answer(s') == Expected(provider, request)
  {
    hide After, Expected, Persists, Consistent, Answer;
    assert NonEmpty([]) == [];
    CallIsTransparent(provider, codec, s.(fetched := []), entries, request, now);
  }

  // ----- weeks -----

  /** Whether the first call of a manager without a file answers what the provider would answer. */
  ghost predicate FirstCallIsTransparent(provider: Provider, codec: Codec, request: Request, now: int)
    requires AnswersDated(provider)
  {
    var s' := After(provider, codec, State(None, [], []), request, now);
    AllDated(s'.cached) && AllDated(s'.fetched) && Answer(s') == Expected(provider, request)
  }

  lemma {:induction false} OneMissing(provider: Provider, codec: Codec, d: int, now: int)
    requires IsPeriodStart(provider.unit, d)
    ensures RequestedDates(provider.unit, d, d) == [d]
    ensures Missing(provider, codec, None, Request(d, d, false), now) == [d]
  {
    hide PeriodStart, PeriodNumber, StartOf;
    assert RequestedDates(provider.unit, d, d) == [d];
    assert MissingDates([], now, [d]) == [d] by { assert [d][1..] == []; }
  }

  lemma {:induction false} OneFetched(provider: Provider, d: int)
    requires provider.Faithful() && provider.unit == Week && IsPeriodStart(Week, d)
    ensures AllDated(FetchAll(provider, [d]))
    ensures FetchAll(provider, [d]) == [] <==> provider.shortUsage(d) == []
    ensures FillDates([d], FetchAll(provider, [d]), Week) == [provider.EstimateWith(d, provider.shortUsage(d))]
  {
    hide FetchAll, PeriodEndDate, PeriodStart, PeriodNumber, Add, FillDates, Provider.Faithful;
    var fetched, e := FetchAll(provider, [d]), provider.EstimateWith(d, provider.shortUsage(d));
    AddToPeriodStart(Week, PeriodNumber(Week, d), 1);
    PeriodStartsIncrease(Week, PeriodNumber(Week, d), PeriodNumber(Week, d) + 1);
    assert FetchedUsage(provider, [d], d) == provider.shortUsage(d);
    FillDatesFetched(provider, [d]);
    FetchAllMembers(provider, [d], e);
    if fetched != [] { FetchAllMembers(provider, [d], fetched[0]); }
  }

  /** For a single week, the first call is transparent exactly when the week's Sunday makes no difference. */
  lemma {:induction false} FirstWeek(provider: Provider, codec: Codec, d: int, now: int)
    requires provider.Faithful() && AnswersDated(provider) && provider.unit == Week && IsPeriodStart(Week, d)
    ensures FirstCallIsTransparent(provider, codec, Request(d, d, false), now) <==>
              provider.shortUsage(d) == provider.usage(d)
  {
    hide FetchAll, PeriodEndDate, PeriodStart, PeriodNumber, RequestedDates, FillDates, Missing, Persisted,
         Provider.Faithful, AnswersDated;
    var request := Request(d, d, false);
    var s' := After(provider, codec, State(None, [], []), request, now);
    OneMissing(provider, codec, d, now);
    OneFetched(provider, d);
    var short, full := provider.EstimateWith(d, provider.shortUsage(d)), provider.EstimateAt(d);
    NonEmptyOfOne(full);
    NonEmptyOfOne(short);
    assert EstimatesAt(provider, [d]) == [full];
    assert s'.cached == [] && s'.fetched == if provider.shortUsage(d) == [] then [] else [short];
    assert s'.cached + s'.fetched == s'.fetched;
    SortOne(NonEmpty(s'.fetched));
  }

  lemma {:induction false} NonEmptyOfOne(e: Estimate)
    requires e.Estimate?
    ensures NonEmpty([e]) == (if e.services != [] then [e] else []) && NonEmpty([]) == []
  {
    assert [e][1..] == [];
  }

  lemma {:induction false} SortOne(s: seq<Estimate>)
    requires |s| <= 1
    ensures SortBy(TimeAt(0), s + []) == s
  {
    assert s + [] == s;
    if s != [] { assert s[1..] == [] && s == [s[0]]; }
  }

  /**
    Why losing nothing is assumed: with weeks, every first call for a single week is transparent
    exactly when no week's Sunday makes a difference.
   */
  lemma {:induction false} LosingNothingIsNeeded(provider: Provider, codec: Codec)
    requires provider.Faithful() && AnswersDated(provider) && provider.unit == Week
    ensures (forall d, now :: IsPeriodStart(Week, d) && d < now ==>
               FirstCallIsTransparent(provider, codec, Request(d, d, false), now))
       <==> provider.LosesNothing()
  {
    hide FirstCallIsTransparent, IsPeriodStart, Provider.Faithful, AnswersDated;
    forall d, now | IsPeriodStart(Week, d)
      ensures FirstCallIsTransparent(provider, codec, Request(d, d, false), now) <==>
                provider.shortUsage(d) == provider.usage(d)
    {
      FirstWeek(provider, codec, d, now);
    }
    if forall d, now :: IsPeriodStart(Week, d) && d < now ==>
      FirstCallIsTransparent(provider, codec, Request(d, d, false), now) {
      forall d | IsPeriodStart(Week, d) ensures provider.shortUsage(d) == provider.usage(d) {
        assert FirstCallIsTransparent(provider, codec, Request(d, d, false), d + 1);
      }
    }
  }
}
