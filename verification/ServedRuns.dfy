/**
  Runs of calls with any usage, weeks whose Sundays matter included, as long as requests start on a
  period: what the file holds is decided by the call that first stored it, and every call answers
  what it fetches and what the file holds.
 */
module ServedRuns {
  import opened Options
  import opened Calendar
  import opened Ordering
  import opened Estimates
  import opened Requests
  import opened Fetching
  import opened CacheText
  import opened LocalCache
  import opened Transparency
  import opened CacheRuns

  /** A stored period that is fetched again is fetched as it is stored. */
  ghost predicate KeepsStored(provider: Provider, held: int -> seq<ServiceData>, missing: seq<int>,
                              entries: seq<Estimate>, now: int) {
    forall d :: d in missing && HasKey(TimeAt(now), entries, d) ==> FetchedUsage(provider, missing, d) == held(d)
  }

  lemma {:induction false} StoredIsCached(provider: Provider, entries: seq<Estimate>, request: Request, now: int,
                                          d: int)
    requires IsPeriodStart(provider.unit, request.startDate) && HasKey(TimeAt(now), entries, d)
    requires d in RequestedDates(provider.unit, request.startDate, request.endDate)
    ensures HasKey(TimeAt(now), FilterForRequest(request, entries, now), d)
  {
    hide PeriodStart, PeriodNumber, StartOf, RequestedDates, FilterForRequest;
    var cached := FilterForRequest(request, entries, now);
    RequestedDatesExact(provider.unit, request.startDate, request.endDate);
    PeriodNumberOfStart(provider.unit, PeriodNumber(provider.unit, request.startDate));
    var i :| 0 <= i < |entries| && TimeAt(now)(entries[i]) == d;
    FilterMembers(request, entries, now, entries[i]);
    var j :| 0 <= j < |cached| && cached[j] == entries[i];
    assert TimeAt(now)(cached[j]) == d;
  }

  /** A request that starts on a period fetches nothing that is stored. */
  lemma {:induction false} AlignedFetchesNothingStored(provider: Provider, codec: Codec, file: Option<string>,
                                                       entries: seq<Estimate>, request: Request, now: int, d: int)
    requires codec.Valid() && Consistent(provider, codec, file, entries, now) && request.endDate < now
    requires IsPeriodStart(provider.unit, request.startDate) && d in Missing(provider, codec, file, request, now)
    ensures !HasKey(TimeAt(now), entries, d)
  {
    hide PeriodStart, PeriodNumber, StartOf, RequestedDates, Missing, FilterForRequest, Holds, IsPeriodStart, HasKey;
    MissingFacts(provider, codec, file, entries, request, now, d);
    if HasKey(TimeAt(now), entries, d) { StoredIsCached(provider, entries, request, now, d); }
  }

  ghost function EntriesServed(provider: Provider, codec: Codec, file: Option<string>, entries: seq<Estimate>,
                               request: Request, now: int): seq<Estimate> {
    if Persists(provider, codec, file, request, now)
    then Merge(TimeAt(now), FetchedEstimates(provider, Missing(provider, codec, file, request, now)),
               Created(file, entries))
    else Created(file, entries)
  }

  ghost function HeldNext(provider: Provider, codec: Codec, file: Option<string>, held: int -> seq<ServiceData>,
                          request: Request, now: int): int -> seq<ServiceData> {
    if Persists(provider, codec, file, request, now)
      then Served(provider, Missing(provider, codec, file, request, now), held) else held
  }

  /** What the file holds agrees with what is served next, if stored periods are kept. */
  lemma {:induction false} AgreesWithServed(provider: Provider, held: int -> seq<ServiceData>, missing: seq<int>,
                                            entries: seq<Estimate>, now: int)
    requires Agrees(With(provider, held), entries, now) && KeepsStored(provider, held, missing, entries, now)
    ensures Agrees(With(provider, Served(provider, missing, held)), entries, now)
  {
    hide PeriodEndDate, IsPeriodStart, FetchedUsage;
    forall e | e in entries && e.Estimate?
      ensures With(provider, Served(provider, missing, held)).IsEstimateAt(e)
    {
      var i :| 0 <= i < |entries| && entries[i] == e;
      assert TimeAt(now)(entries[i]) == e.timestamp;
      assert HasKey(TimeAt(now), entries, e.timestamp);
    }
  }

  /** Every call that keeps stored periods leaves a file that holds what it served and what was held before. */
  lemma {:induction false} StoreStaysServed(provider: Provider, held: int -> seq<ServiceData>, codec: Codec, s: State,
                                            entries: seq<Estimate>, request: Request, now: int)
    requires provider.Faithful() && AnswersDated(provider) && codec.Valid()
    requires Consistent(With(provider, held), codec, s.file, entries, now) && request.endDate < now
    requires KeepsStored(provider, held, Missing(provider, codec, s.file, request, now), entries, now)
    ensures Consistent(With(provider, HeldNext(provider, codec, s.file, held, request, now)), codec,
                       After(provider, codec, s, request, now).file,
                       EntriesServed(provider, codec, s.file, entries, request, now), now)
  {
    hide PeriodStart, PeriodNumber, PeriodEndDate, StartOf, Missing, FetchAll, FillDates, Persisted, RequestedDates,
         Served, FetchedUsage, Provider.Faithful, AnswersDated, Agrees, IsPeriodStart, FilterForRequest,
         FetchedEstimates;
    var missing, reference := Missing(provider, codec, s.file, request, now), With(provider, held);
    CreatedConsistent(reference, codec, s.file, entries, now);
    if Persists(provider, codec, s.file, request, now) {
      var served := With(provider, Served(provider, missing, held));
      MissingArePeriods(provider, codec, s.file, request, now);
      FillDatesFetched(provider, missing);
      FetchedAreServed(provider, missing, held);
      MissingAfterCreation(reference, codec, s.file, entries, request, now);
      RequestedDatesExact(provider.unit, request.startDate, request.endDate);
      PersistsWhenUsageIsMissing(provider, codec, s.file, request, now);
      AgreesWithServed(provider, held, missing, entries, now);
      CreatedConsistent(served, codec, s.file, entries, now);
      PersistedConsistent(served, codec, AfterLoading(s.file), Created(s.file, entries), missing, request, now);
    }
  }

  // ----- runs -----

  ghost function HeldAfter(provider: Provider, codec: Codec, s: State, held: int -> seq<ServiceData>,
                           calls: seq<Call>): int -> seq<ServiceData>
    requires AnswersDated(provider)
  {
    if calls == [] then held
    else
      var n := |calls| - 1;
      HeldNext(provider, codec, StateAfter(provider, codec, s, calls[..n]).file,
               HeldAfter(provider, codec, s, held, calls[..n]),
               calls[n].request, calls[n].now)
  }

  ghost function EntriesHeld(provider: Provider, codec: Codec, s: State, entries: seq<Estimate>,
                             calls: seq<Call>): seq<Estimate>
    requires AnswersDated(provider)
  {
    if calls == [] then entries
    else
      var n := |calls| - 1;
      EntriesServed(provider, codec, StateAfter(provider, codec, s, calls[..n]).file,
                    EntriesHeld(provider, codec, s, entries, calls[..n]), calls[n].request, calls[n].now)
  }

  ghost predicate StartOnPeriods(unit: GroupBy, calls: seq<Call>) {
    forall i :: 0 <= i < |calls| ==> IsPeriodStart(unit, calls[i].request.startDate)
  }

  /** Throughout such a run, the file holds for each period what the call that stored it served. */
  lemma {:induction false} RunHoldsServed(provider: Provider, held: int -> seq<ServiceData>, codec: Codec, s: State,
                                          entries: seq<Estimate>, since: int, calls: seq<Call>, now: int)
    requires provider.Faithful() && AnswersDated(provider) && codec.Valid()
    requires MayStart(With(provider, held), codec, s, entries, since) && AreSerial(calls, since) &&
             StartOnPeriods(provider.unit, calls)
    requires since <= now && (calls != [] ==> Last(calls).now <= now)
    ensures Consistent(With(provider, HeldAfter(provider, codec, s, held, calls)), codec,
                       StateAfter(provider, codec, s, calls).file,
                       EntriesHeld(provider, codec, s, entries, calls), now)
    decreases |calls|
  {
    hide After, HeldNext, EntriesServed, Persists, Holds, Agrees, Missing, IsPeriodStart, Provider.Faithful,
         AnswersDated, FetchedUsage;
    if calls == [] {
      AgreesLater(With(provider, held), entries, since, now);
    } else {
      var n := |calls| - 1;
      var before := calls[..n];
      var s' := StateAfter(provider, codec, s, before);
      var held' := HeldAfter(provider, codec, s, held, before);
      var entries' := EntriesHeld(provider, codec, s, entries, before);
      SerialBefore(calls, since, n);
      RunHoldsServed(provider, held, codec, s, entries, since, before, calls[n].now);
      forall d | d in Missing(provider, codec, s'.file, calls[n].request, calls[n].now)
        ensures !HasKey(TimeAt(calls[n].now), entries', d)
      {
        SameMissing(provider, held', codec, s'.file, calls[n].request, calls[n].now);
        AlignedFetchesNothingStored(With(provider, held'), codec, s'.file, entries', calls[n].request, calls[n].now, d);
      }
      StoreStaysServed(provider, held', codec, s', entries', calls[n].request, calls[n].now);
      AgreesLater(With(provider, HeldAfter(provider, codec, s, held, calls)),
                  EntriesHeld(provider, codec, s, entries, calls), calls[n].now, now);
    }
  }

  /** What call `i` of a run serves for each period. */
  ghost function ServedBy(provider: Provider, codec: Codec, s: State, held: int -> seq<ServiceData>, calls: seq<Call>,
                          i: nat): int -> seq<ServiceData>
    requires AnswersDated(provider) && i < |calls|
  {
    Served(provider, Missing(provider, codec, StateAfter(provider, codec, s, calls[..i]).file, calls[i].request,
                             calls[i].now),
           HeldAfter(provider, codec, s, held, calls[..i]))
  }

  /**
    Any run of requests that start on periods, from any file: a call answers what it serves exactly when
    it fetches something or finds no fetched usage left; then the answer is what the
    provider would answer exactly when each requested period is served as it is.
   */
  lemma {:induction false} CallOfRunAnswersServed(provider: Provider, held: int -> seq<ServiceData>, codec: Codec,
                                                  s: State, entries: seq<Estimate>, since: int, calls: seq<Call>,
                                                  i: nat)
    requires provider.Faithful() && AnswersDated(provider) && codec.Valid() && i < |calls|
    requires MayStart(With(provider, held), codec, s, entries, since) && AreSerial(calls, since) &&
             StartOnPeriods(provider.unit, calls)
    ensures var s', s'' := StateAfter(provider, codec, s, calls[..i]), StateAfter(provider, codec, s, calls[..i + 1]);
            var served, request := ServedBy(provider, codec, s, held, calls, i), calls[i].request;
            AllDated(s'.fetched) && AllDated(s''.cached) && AllDated(s''.fetched) &&
            (Answer(s'') == Expected(With(provider, served), request) <==>
               PersistsAt(provider, codec, s, calls, i) || NonEmpty(s'.fetched) == []) &&
            (PersistsAt(provider, codec, s, calls, i) || NonEmpty(s'.fetched) == [] ==>
               (TransparentAt(provider, codec, s, calls, i) <==>
                  forall d :: d in RequestedDates(provider.unit, request.startDate, request.endDate) ==>
                    served(d) == provider.usage(d)))
  {
    hide After, Persists, Consistent, Answer, Expected, Missing, Served, HeldAfter, EntriesHeld, NonEmpty,
         RequestedDates, Provider.Faithful, AnswersDated, IsPeriodStart;
    var before := calls[..i];
    assert calls[..i + 1][..i] == before;
    SerialBefore(calls, since, i);
    assert StartOnPeriods(provider.unit, before);
    StatesDated(provider, codec, s, before);
    RunHoldsServed(provider, held, codec, s, entries, since, before, calls[i].now);
    CallAnswersServed(provider, HeldAfter(provider, codec, s, held, before), codec,
                      StateAfter(provider, codec, s, before),
                      EntriesHeld(provider, codec, s, entries, before), calls[i].request, calls[i].now);
    ExpectedSame(provider, ServedBy(provider, codec, s, held, calls, i), calls[i].request);
  }

  /** A call of such a run finds the file in agreement with what was served, and fetches nothing that is stored. */
  lemma {:induction false} StoredIsNotMissing(provider: Provider, held: int -> seq<ServiceData>, codec: Codec, s: State,
                                              entries: seq<Estimate>, since: int, calls: seq<Call>, i: nat, d: int)
    requires provider.Faithful() && AnswersDated(provider) && codec.Valid() && i < |calls|
    requires MayStart(With(provider, held), codec, s, entries, since) && AreSerial(calls, since) &&
             StartOnPeriods(provider.unit, calls)
    ensures Consistent(With(provider, HeldAfter(provider, codec, s, held, calls[..i])), codec,
                       StateAfter(provider, codec, s, calls[..i]).file,
                       EntriesHeld(provider, codec, s, entries, calls[..i]), calls[i].now)
    ensures d in Missing(provider, codec, StateAfter(provider, codec, s, calls[..i]).file, calls[i].request,
                         calls[i].now) ==>
              !HasKey(TimeAt(calls[i].now), EntriesHeld(provider, codec, s, entries, calls[..i]), d)
  {
    hide After, Persists, Consistent, Missing, HeldAfter, EntriesHeld, StateAfter, HasKey, Provider.Faithful,
         AnswersDated, IsPeriodStart, FetchedUsage;
    var before := calls[..i];
    var s' := StateAfter(provider, codec, s, before);
    var held' := HeldAfter(provider, codec, s, held, before);
    var entries' := EntriesHeld(provider, codec, s, entries, before);
    SerialBefore(calls, since, i);
    assert StartOnPeriods(provider.unit, before);
    RunHoldsServed(provider, held, codec, s, entries, since, before, calls[i].now);
    if d in Missing(provider, codec, s'.file, calls[i].request, calls[i].now) {
      SameMissing(provider, held', codec, s'.file, calls[i].request, calls[i].now);
      AlignedFetchesNothingStored(With(provider, held'), codec, s'.file, entries', calls[i].request, calls[i].now, d);
    }
  }

  /** Storing keeps an entry whose period is not fetched again. */
  lemma {:induction false} EntryIsKept(provider: Provider, codec: Codec, file: Option<string>, entries: seq<Estimate>,
                                       request: Request, now: int, e: Estimate)
    requires e.Estimate? && e in entries && e.timestamp !in Missing(provider, codec, file, request, now)
    requires file.Some? && StrictlySorted(TimeAt(now), entries)
    requires provider.Faithful()
    ensures e in EntriesServed(provider, codec, file, entries, request, now)
  {
    hide Missing, Merge, Persists, FetchedUsage, PeriodEndDate, Provider.Faithful, RequestedDates;
    var missing := Missing(provider, codec, file, request, now);
    var filled := FetchedEstimates(provider, missing);
    MissingArePeriods(provider, codec, file, request, now);
    assert StrictlySorted(TimeAt(now), filled);
    forall i | 0 <= i < |filled| ensures TimeAt(now)(filled[i]) != e.timestamp { assert missing[i] in missing; }
    assert !HasKey(TimeAt(now), filled, e.timestamp);
    MergeMembers(TimeAt(now), filled, entries, e);
  }

  lemma {:induction false} EntriesInOrder(provider: Provider, codec: Codec, file: Option<string>,
                                          entries: seq<Estimate>, now: int, e: Estimate)
    requires Consistent(provider, codec, file, entries, now) && e.Estimate? && e in entries
    ensures file.Some? && StrictlySorted(TimeAt(now), entries) && HasKey(TimeAt(now), entries, e.timestamp)
    ensures e.services == provider.usage(e.timestamp)
  {
    hide PeriodEndDate, IsPeriodStart;
    var i :| 0 <= i < |entries| && entries[i] == e;
    assert TimeAt(now)(entries[i]) == e.timestamp;
  }

  /** An entry of the file stays in it throughout such a run. */
  lemma {:induction false} EntryStays(provider: Provider, held: int -> seq<ServiceData>, codec: Codec, s: State,
                                      entries: seq<Estimate>, since: int, calls: seq<Call>, j: nat, e: Estimate)
    requires provider.Faithful() && AnswersDated(provider) && codec.Valid() && j <= |calls|
    requires MayStart(With(provider, held), codec, s, entries, since) && AreSerial(calls, since) &&
             StartOnPeriods(provider.unit, calls)
    requires e.Estimate? && e in EntriesHeld(provider, codec, s, entries, calls[..j])
    ensures e in EntriesHeld(provider, codec, s, entries, calls)
    decreases |calls|
  {
    hide After, EntriesServed, HeldNext, Missing, StateAfter, HeldAfter, Consistent, HasKey, StrictlySorted,
         Provider.Faithful, AnswersDated, IsPeriodStart, FetchedUsage;
    if j == |calls| {
      assert calls[..j] == calls;
    } else {
      var n := |calls| - 1;
      var before := calls[..n];
      assert before[..j] == calls[..j];
      SerialBefore(calls, since, n);
      assert StartOnPeriods(provider.unit, before);
      EntryStays(provider, held, codec, s, entries, since, before, j, e);
      StoredIsNotMissing(provider, held, codec, s, entries, since, calls, n, e.timestamp);
      var file := StateAfter(provider, codec, s, before).file;
      var entries' := EntriesHeld(provider, codec, s, entries, before);
      EntriesInOrder(With(provider, HeldAfter(provider, codec, s, held, before)), codec, file, entries', calls[n].now,
                     e);
      EntryIsKept(provider, codec, file, entries', calls[n].request, calls[n].now, e);
    }
  }

  /** What such a run once stores for a period is what every later call serves for it. */
  lemma {:induction false} HeldStays(provider: Provider, held: int -> seq<ServiceData>, codec: Codec, s: State,
                                     entries: seq<Estimate>, since: int, calls: seq<Call>, j: nat, i: nat, e: Estimate)
    requires provider.Faithful() && AnswersDated(provider) && codec.Valid() && j <= i < |calls|
    requires MayStart(With(provider, held), codec, s, entries, since) && AreSerial(calls, since) &&
             StartOnPeriods(provider.unit, calls)
    requires e.Estimate? && e in EntriesHeld(provider, codec, s, entries, calls[..j])
    ensures ServedBy(provider, codec, s, held, calls, i)(e.timestamp) == e.services
  {
    hide After, EntriesHeld, HeldAfter, StateAfter, Missing, Consistent, HasKey, Provider.Faithful, AnswersDated,
         IsPeriodStart, FetchedUsage, PeriodEndDate;
    var before := calls[..i];
    assert before[..j] == calls[..j];
    SerialBefore(calls, since, i);
    assert StartOnPeriods(provider.unit, before);
    EntryStays(provider, held, codec, s, entries, since, before, j, e);
    StoredIsNotMissing(provider, held, codec, s, entries, since, calls, i, e.timestamp);
    EntriesInOrder(With(provider, HeldAfter(provider, codec, s, held, before)), codec,
                   StateAfter(provider, codec, s, before).file, EntriesHeld(provider, codec, s, entries, before),
                   calls[i].now, e);
  }
}
