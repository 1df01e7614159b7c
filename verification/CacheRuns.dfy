/**
  Runs of calls on one local manager, from any state that it may start in: what the file holds
  throughout, and exactly when every call answers what the provider would answer.
 */
module CacheRuns {
  import opened Options
  import opened Calendar
  import opened Ordering
  import opened Estimates
  import opened Requests
  import opened Fetching
  import opened CacheText
  import opened LocalCache
  import opened Transparency

  datatype Call = Call(request: Request, now: int)

  /**
    Serial calls from some time on: the clock does not run backwards, and requests end in the past and
    use the cache.
   */
  ghost predicate AreSerial(calls: seq<Call>, since: int) {
    && (forall i :: 0 <= i < |calls| ==>
          since <= calls[i].now && calls[i].request.endDate < calls[i].now && !calls[i].request.ignoreCache)
    && (forall i, j :: 0 <= i < j < |calls| ==> calls[i].now <= calls[j].now)
  }

  /** A run may start without a file, or from a file that an earlier process left, with any fetched estimates. */
  ghost predicate MayStart(provider: Provider, codec: Codec, s: State, entries: seq<Estimate>, since: int) {
    Consistent(provider, codec, s.file, entries, since) && AllDated(s.fetched)
  }

  // ----- states -----

  ghost function StateAfter(provider: Provider, codec: Codec, s: State, calls: seq<Call>): State
    requires AnswersDated(provider)
  {
    if calls == [] then s
    else
      var n := |calls| - 1;
      After(provider, codec, StateAfter(provider, codec, s, calls[..n]), calls[n].request, calls[n].now)
  }

  ghost function EntriesAfterCalls(provider: Provider, codec: Codec, s: State, entries: seq<Estimate>,
                                   calls: seq<Call>): seq<Estimate>
    requires AnswersDated(provider)
  {
    if calls == [] then entries
    else
      var n := |calls| - 1;
      EntriesAfter(provider, codec, StateAfter(provider, codec, s, calls[..n]).file,
                   EntriesAfterCalls(provider, codec, s, entries, calls[..n]), calls[n].request, calls[n].now)
  }

  lemma {:induction false} SerialBefore(calls: seq<Call>, since: int, i: nat)
    requires AreSerial(calls, since) && i < |calls|
    ensures AreSerial(calls[..i], since)
    ensures since <= calls[i].now && calls[i].request.endDate < calls[i].now &&
            (i > 0 ==> Last(calls[..i]).now <= calls[i].now)
  {
  }

  lemma {:induction false} StatesDated(provider: Provider, codec: Codec, s: State, calls: seq<Call>)
    requires AnswersDated(provider) && AllDated(s.fetched)
    ensures AllDated(StateAfter(provider, codec, s, calls).fetched)
  {
    hide After, AnswersDated;
    if calls != [] {
      var n := |calls| - 1;
      StatesDated(provider, codec, s, calls[..n]);
      FetchedDated(provider, codec, StateAfter(provider, codec, s, calls[..n]), calls[n].request, calls[n].now);
    }
  }

  /** Throughout a run, the file agrees with the provider. */
  lemma {:induction false} RunStaysConsistent(provider: Provider, codec: Codec, s: State, entries: seq<Estimate>,
                                              since: int, calls: seq<Call>, now: int)
    requires Sound(provider, codec) && MayStart(provider, codec, s, entries, since) && AreSerial(calls, since)
    requires since <= now && (calls != [] ==> Last(calls).now <= now)
    ensures Consistent(provider, codec, StateAfter(provider, codec, s, calls).file,
                       EntriesAfterCalls(provider, codec, s, entries, calls), now)
    decreases |calls|
  {
    hide After, EntriesAfter, Persists, Holds, Agrees;
    if calls == [] {
      AgreesLater(provider, entries, since, now);
    } else {
      var n := |calls| - 1;
      SerialBefore(calls, since, n);
      RunStaysConsistent(provider, codec, s, entries, since, calls[..n], calls[n].now);
      StoreStaysConsistent(provider, codec, StateAfter(provider, codec, s, calls[..n]),
                           EntriesAfterCalls(provider, codec, s, entries, calls[..n]), calls[n].request, calls[n].now);
      AgreesLater(provider, EntriesAfterCalls(provider, codec, s, entries, calls), calls[n].now, now);
    }
  }

  predicate AsksFor(unit: GroupBy, call: Call, d: int) {
    d in RequestedDates(unit, call.request.startDate, call.request.endDate)
  }

  /** Whether one of the calls asks for a period. */
  predicate Asked(unit: GroupBy, calls: seq<Call>, d: int) {
    exists i :: 0 <= i < |calls| && AsksFor(unit, calls[i], d)
  }

  lemma {:induction false} AskedLast(unit: GroupBy, calls: seq<Call>, d: int)
    requires calls != []
    ensures Asked(unit, calls, d) <==>
              Asked(unit, calls[..|calls| - 1], d) ||
              AsksFor(unit, Last(calls), d)
  {
    hide RequestedDates;
    var n := |calls| - 1;
    if i :| 0 <= i < |calls| && AsksFor(unit, calls[i], d) {
      assert i < n ==> calls[..n][i] == calls[i];
    }
    if i :| 0 <= i < n && AsksFor(unit, calls[..n][i], d) {
      assert calls[i] == calls[..n][i];
    }
  }

  /** After a run, the file holds the usage it held and that of the periods asked for. */
  lemma {:induction false} RunAddsExpected(provider: Provider, codec: Codec, s: State, entries: seq<Estimate>,
                                           since: int, calls: seq<Call>, e: Estimate)
    requires Sound(provider, codec) && MayStart(provider, codec, s, entries, since) && AreSerial(calls, since) &&
             HasUsage(e)
    ensures e in EntriesAfterCalls(provider, codec, s, entries, calls) <==>
              e in entries || (provider.IsEstimateAt(e) && Asked(provider.unit, calls, e.timestamp))
    decreases |calls|
  {
    hide After, EntriesAfter, Asked, Consistent, RequestedDates, MayStart, Provider.Faithful, Provider.LosesNothing,
         AnswersDated;
    if calls == [] {
      assert !Asked(provider.unit, [], e.timestamp) by { NothingAsked(provider.unit, e.timestamp); }
    } else {
      var n := |calls| - 1;
      SerialBefore(calls, since, n);
      RunAddsExpected(provider, codec, s, entries, since, calls[..n], e);
      RunStaysConsistent(provider, codec, s, entries, since, calls[..n], calls[n].now);
      CallAddsExpected(provider, codec, StateAfter(provider, codec, s, calls[..n]).file,
                       EntriesAfterCalls(provider, codec, s, entries, calls[..n]), calls[n].request, calls[n].now, e);
      AskedLast(provider.unit, calls, e.timestamp);
    }
  }

  lemma {:induction false} NothingAsked(unit: GroupBy, d: int)
    ensures !Asked(unit, [], d)
  {
  }

  // ----- which calls fetch something -----

  /** The call finds usage missing, by the state that the run reaches. */
  ghost predicate PersistsAt(provider: Provider, codec: Codec, s: State, calls: seq<Call>, i: nat)
    requires AnswersDated(provider) && i < |calls|
  {
    Persists(provider, codec, StateAfter(provider, codec, s, calls[..i]).file, calls[i].request, calls[i].now)
  }

  /**
    A period with usage that call `i` has to fetch: one that begins before the request does, which the
    manager never finds again, or one that neither the first file holds nor an earlier call asked for.
   */
  predicate IsNew(provider: Provider, entries: seq<Estimate>, calls: seq<Call>, i: nat, d: int)
    requires i < |calls|
  {
    AsksFor(provider.unit, calls[i], d) && provider.usage(d) != [] &&
    (d < calls[i].request.startDate || (provider.EstimateAt(d) !in entries && !Asked(provider.unit, calls[..i], d)))
  }

  ghost predicate AsksForNew(provider: Provider, entries: seq<Estimate>, calls: seq<Call>, i: nat)
    requires i < |calls|
  {
    exists d :: IsNew(provider, entries, calls, i, d)
  }

  /** A requested period with usage is missing unless it begins within the request and the file has it. */
  lemma {:induction false} MissingUsage(provider: Provider, codec: Codec, file: Option<string>, entries: seq<Estimate>,
                                        request: Request, now: int, d: int)
    requires Sound(provider, codec) && Consistent(provider, codec, file, entries, now) && request.endDate < now
    requires provider.usage(d) != []
    ensures d in Missing(provider, codec, file, request, now) <==>
              d in RequestedDates(provider.unit, request.startDate, request.endDate) &&
              (d < request.startDate || provider.EstimateAt(d) !in entries)
  {
    hide PeriodStart, PeriodNumber, PeriodEndDate, StartOf, RequestedDates, Missing, Provider.Faithful,
         FilterForRequest, Holds;
    var key, cached, e := TimeAt(now), FilterForRequest(request, entries, now), provider.EstimateAt(d);
    MissingFacts(provider, codec, file, entries, request, now, d);
    RequestedDatesExact(provider.unit, request.startDate, request.endDate);
    FilterMembers(request, entries, now, e);
    if e in cached {
      var i :| 0 <= i < |cached| && cached[i] == e;
      assert key(cached[i]) == d;
    }
    if HasKey(key, cached, d) {
      var i :| 0 <= i < |cached| && key(cached[i]) == d;
      FilterMembers(request, entries, now, cached[i]);
      if d <= request.endDate { assert cached[i].Estimate? && cached[i] == e; }
    }
  }

  /** A call fetches something exactly when it asks for something new. */
  lemma {:induction false} PersistsExactly(provider: Provider, codec: Codec, s: State, entries: seq<Estimate>,
                                           since: int, calls: seq<Call>, i: nat)
    requires Sound(provider, codec) && MayStart(provider, codec, s, entries, since) && AreSerial(calls, since) &&
             i < |calls|
    ensures PersistsAt(provider, codec, s, calls, i) <==> AsksForNew(provider, entries, calls, i)
  {
    hide PeriodEndDate, StateAfter, EntriesAfterCalls, RequestedDates, Missing, Asked, Persists, Consistent, MayStart,
         Provider.Faithful, Provider.LosesNothing, AnswersDated;
    var before, request, now := calls[..i], calls[i].request, calls[i].now;
    var file := StateAfter(provider, codec, s, before).file;
    var held := EntriesAfterCalls(provider, codec, s, entries, before);
    SerialBefore(calls, since, i);
    RunStaysConsistent(provider, codec, s, entries, since, before, now);
    PersistsWhenUsageIsMissing(provider, codec, file, request, now);
    forall d | provider.usage(d) != []
      ensures d in Missing(provider, codec, file, request, now) <==> IsNew(provider, entries, calls, i, d)
    {
      MissingUsage(provider, codec, file, held, request, now, d);
      RunAddsExpected(provider, codec, s, entries, since, before, provider.EstimateAt(d));
    }
  }

  /** The list of fetched estimates has usage from the start, or as soon as one call has asked for something new. */
  lemma {:induction false} FetchedAfterCalls(provider: Provider, codec: Codec, s: State, entries: seq<Estimate>,
                                             since: int, calls: seq<Call>, n: nat)
    requires Sound(provider, codec) && MayStart(provider, codec, s, entries, since) && AreSerial(calls, since) &&
             n <= |calls|
    ensures AllDated(StateAfter(provider, codec, s, calls[..n]).fetched)
    ensures NonEmpty(StateAfter(provider, codec, s, calls[..n]).fetched) != [] <==>
              NonEmpty(s.fetched) != [] || exists j :: 0 <= j < n && AsksForNew(provider, entries, calls, j)
    decreases n
  {
    hide After, Persists, Consistent, AsksForNew, NonEmpty, EntriesAfterCalls, Provider.Faithful,
         Provider.LosesNothing, AnswersDated;
    StatesDated(provider, codec, s, calls[..n]);
    if n > 0 {
      var before := calls[..n - 1];
      assert calls[..n][..n - 1] == before;
      SerialBefore(calls, since, n - 1);
      FetchedAfterCalls(provider, codec, s, entries, since, calls, n - 1);
      RunStaysConsistent(provider, codec, s, entries, since, before, calls[n - 1].now);
      FetchedAfter(provider, codec, StateAfter(provider, codec, s, before),
                   EntriesAfterCalls(provider, codec, s, entries, before),
                   calls[n - 1].request, calls[n - 1].now);
      PersistsExactly(provider, codec, s, entries, since, calls, n - 1);
      if j :| 0 <= j < n && AsksForNew(provider, entries, calls, j) { assert j < n - 1 || j == n - 1; }
    }
  }

  // ----- which calls are transparent -----

  ghost predicate TransparentAt(provider: Provider, codec: Codec, s: State, calls: seq<Call>, i: nat)
    requires AnswersDated(provider) && i < |calls|
  {
    var s' := StateAfter(provider, codec, s, calls[..i + 1]);
    AllDated(s'.cached) && AllDated(s'.fetched) && Answer(s') == Expected(provider, calls[i].request)
  }

  /** Usage is left in the list of fetched estimates when call `i` begins. */
  ghost predicate HoldsFetched(provider: Provider, s: State, entries: seq<Estimate>, calls: seq<Call>, i: nat)
    requires AllDated(s.fetched) && i < |calls|
  {
    NonEmpty(s.fetched) != [] || exists j :: 0 <= j < i && AsksForNew(provider, entries, calls, j)
  }

  /** Within a run, a call is transparent if it asks for something new or nothing is left from before, and only then. */
  lemma {:induction false} CallOfRunIsTransparent(provider: Provider, codec: Codec, s: State, entries: seq<Estimate>,
                                                  since: int, calls: seq<Call>, i: nat)
    requires Sound(provider, codec) && MayStart(provider, codec, s, entries, since) && AreSerial(calls, since) &&
             i < |calls|
    ensures TransparentAt(provider, codec, s, calls, i) <==>
              AsksForNew(provider, entries, calls, i) || !HoldsFetched(provider, s, entries, calls, i)
  {
    hide Persists, After, Consistent, Answer, Expected, AsksForNew, NonEmpty, EntriesAfterCalls, Provider.Faithful,
         Provider.LosesNothing, AnswersDated;
    var before := calls[..i];
    assert calls[..i + 1][..i] == before;
    SerialBefore(calls, since, i);
    RunStaysConsistent(provider, codec, s, entries, since, before, calls[i].now);
    FetchedAfterCalls(provider, codec, s, entries, since, calls, i);
    PersistsExactly(provider, codec, s, entries, since, calls, i);
    CallIsTransparent(provider, codec, StateAfter(provider, codec, s, before),
                      EntriesAfterCalls(provider, codec, s, entries, before),
                      calls[i].request, calls[i].now);
  }

  /** Every call of the run answers what the provider would answer. */
  ghost predicate Transparent(provider: Provider, codec: Codec, s: State, calls: seq<Call>) {
    AnswersDated(provider) && forall i :: 0 <= i < |calls| ==> TransparentAt(provider, codec, s, calls, i)
  }

  /**
    A run of any length, from any state it may start in, is transparent exactly when each of its calls
    asks for something new once anything is in the list of fetched estimates. What is new is
    told by the requests, the usage and the first file.
   */
  lemma {:induction false} RunIsTransparent(provider: Provider, codec: Codec, s: State, entries: seq<Estimate>,
                                            since: int, calls: seq<Call>)
    requires Sound(provider, codec) && MayStart(provider, codec, s, entries, since) && AreSerial(calls, since)
    ensures Transparent(provider, codec, s, calls) <==>
              forall i :: 0 <= i < |calls| && HoldsFetched(provider, s, entries, calls, i) ==>
                AsksForNew(provider, entries, calls, i)
  {
    hide AsksForNew, TransparentAt, HoldsFetched, Consistent;
    forall i | 0 <= i < |calls|
      ensures TransparentAt(provider, codec, s, calls, i) <==>
                AsksForNew(provider, entries, calls, i) || !HoldsFetched(provider, s, entries, calls, i)
    {
      CallOfRunIsTransparent(provider, codec, s, entries, since, calls, i);
    }
  }
}
