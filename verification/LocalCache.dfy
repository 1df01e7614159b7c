/**
  The estimates cache kept in a local file: what one call does to the manager's two lists and to the
  file's text, and the class that does it.
 */
module LocalCache {
  import opened Options
  import opened Calendar
  import opened Ordering
  import opened Estimates
  import opened Requests
  import opened Fetching
  import opened CacheText

  const FRESH_FILE := "[]"

  // ----- one call, as a function of the state -----

  datatype State = State(file: Option<string>, cached: seq<Estimate>, fetched: seq<Estimate>)

  /** A missing file, and a file that cannot be read, both count as an empty cache. */
  function Loaded(codec: Codec, file: Option<string>): seq<Estimate> {
    match file
    case None => []
    case Some(text) => match Parse(codec, text) { case None => [] case Some(data) => data }
  }

  /** Loading creates a missing file. */
  function AfterLoading(file: Option<string>): string {
    match file
    case None => FRESH_FILE
    case Some(text) => text
  }

  /** `filterEstimatesForRequest`: between the request's own start and end, both included. */
  function FilterForRequest(request: Request, estimates: seq<Estimate>, now: int): seq<Estimate> {
    if estimates == [] then []
    else (if request.startDate <= TimeAt(now)(estimates[0]) <= request.endDate then [estimates[0]] else [])
         + FilterForRequest(request, estimates[1..], now)
  }

  lemma {:induction false} FilterMembers(request: Request, estimates: seq<Estimate>, now: int, e: Estimate)
    ensures e in FilterForRequest(request, estimates, now) <==>
              e in estimates && request.startDate <= TimeAt(now)(e) <= request.endDate
  {
    if estimates != [] { FilterMembers(request, estimates[1..], now, e); }
  }

  lemma {:induction false} FilterSorted(request: Request, estimates: seq<Estimate>, now: int)
    requires StrictlySorted(TimeAt(now), estimates)
    ensures StrictlySorted(TimeAt(now), FilterForRequest(request, estimates, now))
  {
    if estimates != [] {
      FilterSorted(request, estimates[1..], now);
      var r := FilterForRequest(request, estimates[1..], now);
      forall i | 0 <= i < |r| ensures TimeAt(now)(estimates[0]) < TimeAt(now)(r[i]) {
        FilterMembers(request, estimates[1..], now, r[i]);
      }
    }
  }

  /** A request ends before the current time, so what lacks a timestamp is filtered out. */
  lemma {:induction false} FilterDated(request: Request, estimates: seq<Estimate>, now: int)
    requires request.endDate < now
    ensures AllDated(FilterForRequest(request, estimates, now))
  {
    var r := FilterForRequest(request, estimates, now);
    forall i | 0 <= i < |r| ensures r[i].Estimate? { FilterMembers(request, estimates, now, r[i]); }
  }

  /** The text after the new estimates are merged with the cached ones, then with the file, and written. */
  function Persisted(codec: Codec, text: string, estimates: seq<Estimate>, cached: seq<Estimate>, now: int): string {
    var merged := Merge(TimeAt(now), Merge(TimeAt(now), estimates, cached), Loaded(codec, Some(text)));
    Overwrite(text, Print(codec, merged))
  }

  /** A provider's answers, as the cache uses them, have timestamps. */
  ghost predicate AnswersDated(provider: Provider) {
    forall range :: AllDated(provider.answer(range))
  }

  lemma {:induction false} AnswersAreDated(provider: Provider, ranges: seq<Range>)
    requires AnswersDated(provider)
    ensures AllDated(Answers(provider, ranges))
  {
    if ranges != [] { AnswersAreDated(provider, ranges[..|ranges| - 1]); }
  }

  function Missing(provider: Provider, codec: Codec, file: Option<string>, request: Request, now: int): seq<int> {
    MissingDates(FilterForRequest(request, Loaded(codec, file), now), now,
                 RequestedDates(provider.unit, request.startDate, request.endDate))
  }

  /** The state after a call that does not ignore the cache. */
  ghost function After(provider: Provider, codec: Codec, s: State, request: Request, now: int): (s': State)
    requires AnswersDated(provider)
  {
    var cached := FilterForRequest(request, Loaded(codec, s.file), now);
    var missing := Missing(provider, codec, s.file, request, now);
    var fetched := FetchAll(provider, missing);
    AnswersAreDated(provider, FetchRanges(provider.unit, missing));
    var text := AfterLoading(s.file);
    if fetched == [] then State(Some(text), cached, s.fetched)
    else
      var filled := FillDates(missing, fetched, provider.unit);
      State(Some(Persisted(codec, text, filled, cached, now)), cached, filled)
  }

  /** What a call answers: the two lists together, without empty estimates, sorted. */
  function Answer(s: State): seq<Estimate>
    requires AllDated(s.cached) && AllDated(s.fetched)
  {
    NonEmptyDated(s.cached + s.fetched);
    Concat(NonEmpty(s.cached + s.fetched), [])
  }

  lemma {:induction false} NonEmptyDated(s: seq<Estimate>)
    requires AllDated(s)
    ensures AllDated(NonEmpty(s))
  {
    if s != [] { NonEmptyDated(s[1..]); }
  }

  lemma {:induction false} FillDatesDated(missing: seq<int>, estimates: seq<Estimate>, unit: GroupBy)
    requires AllDated(estimates)
    ensures AllDated(FillDates(missing, estimates, unit))
  {
    var all := EmptyEstimates(unit, Difference(missing, estimates)) + estimates;
    SortByPermutes(TimeAt(0), all);
    var r := FillDates(missing, estimates, unit);
    forall i | 0 <= i < |r| ensures r[i].Estimate? { assert r[i] in all; }
  }

  lemma {:induction false} AfterDated(provider: Provider, codec: Codec, s: State, request: Request, now: int)
    requires AnswersDated(provider) && request.endDate < now && AllDated(s.fetched)
    ensures AllDated(After(provider, codec, s, request, now).cached)
    ensures AllDated(After(provider, codec, s, request, now).fetched)
  {
    FilterDated(request, Loaded(codec, s.file), now);
    var missing := Missing(provider, codec, s.file, request, now);
    AnswersAreDated(provider, FetchRanges(provider.unit, missing));
    FillDatesDated(missing, FetchAll(provider, missing), provider.unit);
  }

  // ----- the manager and the decorator -----

  class LocalCacheManager {
    const codec: Codec
    const file: CacheFile
    var cachedEstimates: seq<Estimate>
    var fetchedEstimates: seq<Estimate>

    constructor (codec: Codec, file: CacheFile)
      ensures this.codec == codec && this.file == file
      ensures cachedEstimates == [] && fetchedEstimates == []
    {
      this.codec, this.file := codec, file;
      cachedEstimates, fetchedEstimates := [], [];
    }

    function View(): State
      reads this, file
    {
      State(file.Text(), cachedEstimates, fetchedEstimates)
    }

    method LoadEstimates() returns (data: seq<Estimate>)
      modifies file
      ensures data == Loaded(codec, old(file.Text()))
      ensures file.Text() == Some(AfterLoading(old(file.Text())))
    {
      data := [];
      if file.present {
        var parsed := GetCachedData(codec, file.content);
        if parsed.Some? { data := parsed.value; }
      } else {
        file.present, file.content := true, FRESH_FILE;
      }
    }

    method MissingDatesOf(request: Request, unit: GroupBy, now: int) returns (missing: seq<int>)
      modifies this`cachedEstimates, file
      ensures View() == old(View()).(file := Some(AfterLoading(old(file.Text()))),
                                     cached := FilterForRequest(request, Loaded(codec, old(file.Text())), now))
      ensures missing == MissingDates(cachedEstimates, now, RequestedDates(unit, request.startDate, request.endDate))
    {
      var estimates := LoadEstimates();
      cachedEstimates := FilterForRequest(request, estimates, now);
      missing := GetMissingDates(cachedEstimates, unit, request, now);
    }

    method SetEstimates(estimates: seq<Estimate>, now: int)
      modifies this`fetchedEstimates, file
      ensures View() == old(View()).(
                file := if old(file.present)
                  then Some(Persisted(codec, old(file.content), estimates, cachedEstimates, now)) else None,
                fetched := estimates)
    {
      fetchedEstimates := estimates;
      var merged := MergeEstimates(estimates, cachedEstimates, now);
      HandleFile(merged, now);
    }

    /** Opening fails on a missing file, and that is only logged. */
    method HandleFile(estimates: seq<Estimate>, now: int)
      modifies file
      ensures file.Text() == if old(file.present)
                then Some(Overwrite(old(file.content),
                                    Print(codec, Merge(TimeAt(now), estimates, Loaded(codec, old(file.Text()))))))
                else None
    {
      if file.present {
        var handle := new FileHandle(file);
        var cachedData := LoadEstimates();
        var merged := MergeEstimates(estimates, cachedData, now);
        WriteToFile(handle, codec, merged, DATA_WINDOW_SIZE);
      }
    }

    method GetEstimates() returns (estimates: seq<Estimate>)
      ensures estimates == cachedEstimates + fetchedEstimates
    {
      estimates := cachedEstimates + fetchedEstimates;
    }
  }

  lemma {:induction false} FetchedDated(provider: Provider, codec: Codec, s: State, request: Request, now: int)
    requires AnswersDated(provider) && AllDated(s.fetched)
    ensures AllDated(After(provider, codec, s, request, now).fetched)
  {
    var missing := Missing(provider, codec, s.file, request, now);
    AnswersAreDated(provider, FetchRanges(provider.unit, missing));
    FillDatesDated(missing, FetchAll(provider, missing), provider.unit);
  }

  /**
    A call has no answer exactly when the file holds the empty array and the request reaches the
    current time: then the empty array is taken for an estimate of now, and it has no services.
   */
  lemma {:induction false} AnswersUnlessEmptyArray(provider: Provider, codec: Codec, s: State, request: Request,
                                                   now: int)
    requires AnswersDated(provider) && AllDated(s.fetched)
    ensures AllDated(After(provider, codec, s, request, now).cached) <==>
              !(EmptyArray in Loaded(codec, s.file) && request.startDate <= now <= request.endDate)
  {
    hide FetchAll, FillDates, Persisted, Missing, Loaded;
    var loaded := Loaded(codec, s.file);
    var cached := FilterForRequest(request, loaded, now);
    FilterMembers(request, loaded, now, EmptyArray);
    forall i | 0 <= i < |cached| ensures cached[i].Estimate? || cached[i] == EmptyArray { }
    if EmptyArray !in cached {
      forall i | 0 <= i < |cached| ensures cached[i].Estimate? { assert cached[i] in cached; }
    }
  }

  lemma {:induction false} FetchAllDated(provider: Provider, missing: seq<int>)
    requires AnswersDated(provider)
    ensures AllDated(FetchAll(provider, missing))
  {
    AnswersAreDated(provider, FetchRanges(provider.unit, missing));
  }

  /** What is missing is fetched, and stored if anything came. */
  method StoreMissing(manager: LocalCacheManager, provider: Provider, missing: seq<int>, now: int)
    requires AnswersDated(provider) && manager.file.present
    modifies manager`fetchedEstimates, manager.file
    ensures AllDated(FetchAll(provider, missing))
    ensures manager.View() ==
              if FetchAll(provider, missing) == [] then old(manager.View())
              else
                var filled := FillDates(missing, FetchAll(provider, missing), provider.unit);
                old(manager.View()).(
                  file := Some(Persisted(manager.codec, old(manager.file.content), filled, old(manager.cachedEstimates),
                                         now)),
                  fetched := filled)
  {
    hide FetchAll, FillDates, Persisted, AnswersDated;
    FetchAllNothing(provider);
    FetchAllDated(provider, missing);
    var newEstimates := [];
    if |missing| > 0 {
      newEstimates := GetEstimatesForMissingDates(provider, missing);
      if |newEstimates| > 0 {
        var estimatesToPersist := FillDates(missing, newEstimates, provider.unit);
        FilledIsNonEmpty(missing, newEstimates, provider.unit);
        if |estimatesToPersist| > 0 {
          manager.SetEstimates(estimatesToPersist, now);
        }
      }
    }
  }

  /**
    The decorated request: what is missing is fetched and stored, and the answer comes from the manager.
    There is none when an entry without services is among the cached ones, since reading it fails.
   */
  method GetCostAndEstimates(manager: LocalCacheManager, provider: Provider, request: Request, now: int)
    returns (answer: Option<seq<Estimate>>)
    requires AnswersDated(provider) && AllDated(manager.fetchedEstimates)
    modifies manager, manager.file
    ensures AllDated(manager.fetchedEstimates)
    ensures !request.ignoreCache ==>
              manager.View() == After(provider, manager.codec, old(manager.View()), request, now) &&
              answer == if AllDated(manager.cachedEstimates) then Some(Answer(manager.View())) else None
    ensures request.ignoreCache ==>
              answer == Some(FetchAll(provider,
                                      Missing(provider, manager.codec, old(manager.file.Text()), request, now))) &&
              manager.View() == old(manager.View()).(
                file := Some(AfterLoading(old(manager.file.Text()))),
                cached := FilterForRequest(request, Loaded(manager.codec, old(manager.file.Text())), now))
  {
    hide FilterForRequest, Loaded, FetchAll, Persisted, FillDates, AfterLoading, RequestedDates, MissingDates,
         AnswersDated;
    FetchedDated(provider, manager.codec, manager.View(), request, now);
    var missing := manager.MissingDatesOf(request, provider.unit, now);
    if request.ignoreCache {
      var estimates := GetEstimatesForMissingDates(provider, missing);
      return Some(estimates);
    }
    StoreMissing(manager, provider, missing, now);
    assert manager.View() == After(provider, manager.codec, old(manager.View()), request, now);
    var cachedEstimates := manager.GetEstimates();
    if !AllDated(manager.cachedEstimates) {
      return None;
    }
    NonEmptyDated(cachedEstimates);
    return Some(Concat(NonEmpty(cachedEstimates), []));
  }

  lemma {:induction false} FilledIsNonEmpty(missing: seq<int>, estimates: seq<Estimate>, unit: GroupBy)
    requires AllDated(estimates) && estimates != []
    ensures FillDates(missing, estimates, unit) != []
  {
    SortByPermutes(TimeAt(0), EmptyEstimates(unit, Difference(missing, estimates)) + estimates);
  }
}
