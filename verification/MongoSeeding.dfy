/**
  Seeding the MongoDB collection for one cloud provider: the name that is typed decides which documents
  count as stored.
 */
module MongoSeeding {
  import opened Options
  import opened Calendar
  import opened Ordering
  import opened Estimates
  import opened Requests
  import opened Fetching
  import opened LocalCache
  import opened CacheRuns
  import opened Seeding
  import opened MongoCache

  // ----- documents by cloud provider -----

  predicate IsOf(name: string, d: Document) { d.service.cloudProvider == name }

  function OfProvider(docs: seq<Document>, name: string): seq<Document> {
    if docs == [] then [] else (if IsOf(name, docs[0]) then [docs[0]] else []) + OfProvider(docs[1..], name)
  }

  function OfOthers(docs: seq<Document>, name: string): seq<Document> {
    if docs == [] then [] else (if IsOf(name, docs[0]) then [] else [docs[0]]) + OfOthers(docs[1..], name)
  }

  lemma {:induction false} AddedOfProvider(docs: seq<Document>, added: seq<Document>, name: string)
    requires forall d :: d in added ==> IsOf(name, d)
    ensures OfProvider(docs + added, name) == OfProvider(docs, name) + added
    ensures OfOthers(docs + added, name) == OfOthers(docs, name)
  {
    if docs != [] {
      assert (docs + added)[1..] == docs[1..] + added;
      AddedOfProvider(docs[1..], added, name);
    } else {
      assert docs + added == added;
      AllOfProvider(added, name);
    }
  }

  lemma {:induction false} AllOfProvider(added: seq<Document>, name: string)
    requires forall d :: d in added ==> IsOf(name, d)
    ensures OfProvider(added, name) == added && OfOthers(added, name) == []
  {
    if added != [] {
      AllOfProvider(added[1..], name);
      assert added == [added[0]] + added[1..];
    }
  }

  lemma {:induction false} OfProviderMembers(docs: seq<Document>, name: string, d: Document)
    ensures d in OfProvider(docs, name) <==> d in docs && IsOf(name, d)
  {
    if docs != [] { OfProviderMembers(docs[1..], name, d); }
  }

  /** The provider reports usage of one cloud provider only. */
  ghost predicate ReportsOnly(provider: Provider, name: string) {
    forall d, service :: service in provider.usage(d) || service in provider.shortUsage(d) ==>
      service.cloudProvider == name
  }

  lemma {:induction false} StoredForProvider(provider: Provider, docs: seq<Document>, name: string, t: int)
    requires CollectionAgrees(provider, OfProvider(docs, name))
    ensures IsStored(docs, Some(name), t) <==> IsStored(OfProvider(docs, name), None, t)
  {
    hide IsPeriodStart, IsStored, AgreesAt, OfProvider;
    var own := OfProvider(docs, name);
    StoredWhenPresent(provider, own, t);
    var at := WithKey(DocumentTime(), t, own);
    if at != [] {
      WithKeyMembers(own, t, at[0]);
      OfProviderMembers(docs, name, at[0]);
      var i :| 0 <= i < |docs| && docs[i] == at[0];
      StoredAt(docs, name, i);
    }
    if IsStored(docs, Some(name), t) {
      var i := StoredDocument(docs, name, t);
      OfProviderMembers(docs, name, docs[i]);
      WithKeyMembers(own, t, docs[i]);
    }
  }

  lemma {:induction false} StoredAt(docs: seq<Document>, name: string, i: int)
    requires 0 <= i < |docs| && IsOf(name, docs[i])
    ensures IsStored(docs, Some(name), docs[i].timestamp)
  {
  }

  lemma {:induction false} StoredDocument(docs: seq<Document>, name: string, t: int) returns (i: int)
    requires IsStored(docs, Some(name), t)
    ensures 0 <= i < |docs| && docs[i] in docs && IsOf(name, docs[i]) && docs[i].timestamp == t
  {
    i :| 0 <= i < |docs| && docs[i].service.cloudProvider == name && docs[i].timestamp == t;
  }

  lemma {:induction false} UnstoredForProvider(provider: Provider, docs: seq<Document>, name: string, dates: seq<int>)
    requires CollectionAgrees(provider, OfProvider(docs, name))
    ensures Unstored(docs, Some(name), dates) == Unstored(OfProvider(docs, name), None, dates)
  {
    hide IsStored, OfProvider, CollectionAgrees;
    if dates != [] {
      UnstoredForProvider(provider, docs, name, dates[..|dates| - 1]);
      StoredForProvider(provider, docs, name, Last(dates));
    }
  }

  lemma {:induction false} FlattenedOfProvider(estimates: seq<Estimate>, name: string)
    requires AllDated(estimates)
    requires forall e, service :: e in estimates && service in e.services ==> service.cloudProvider == name
    ensures forall d :: d in Flattened(estimates) ==> IsOf(name, d)
  {
    if estimates != [] {
      var n := |estimates| - 1;
      FlattenedOfProvider(estimates[..n], name);
      forall d | d in DocumentsOf(estimates[n]) ensures IsOf(name, d) {
        assert d.service in estimates[n].services && estimates[n] in estimates;
      }
    }
  }

  /**
    Seeding one cloud provider treats that provider's documents as a collection of their own and leaves
    the others alone.
   */
  lemma {:induction false} SeedsOneProvider(provider: Provider, docs: seq<Document>, request: Request, name: string)
    requires provider.Faithful() && AnswersDated(provider) && ReportsOnly(provider, name) && !request.ignoreCache
    requires CollectionAgrees(provider, OfProvider(docs, name))
    ensures var docs' := DocumentsAfter(provider, docs, Some(name), request);
            OfProvider(docs', name) == DocumentsAfter(provider, OfProvider(docs, name), None, request) &&
            OfOthers(docs', name) == OfOthers(docs, name)
  {
    hide PeriodStart, PeriodNumber, PeriodEndDate, RequestedDates, StartOf, IsPeriodStart, OfProvider, OfOthers,
         FetchAll, FillDates, Flattened, Unstored, CollectionAgrees, Provider.Faithful, AnswersDated, FetchedUsage,
         ReportsOnly;
    var dates := RequestedDates(provider.unit, request.startDate, request.endDate);
    UnstoredForProvider(provider, docs, name, dates);
    var missing := MissingInCollection(docs, Some(name), provider.unit, request);
    CollectionMissing(provider, OfProvider(docs, name), request, 0);
    FillDatesFetched(provider, missing);
    var filled := FetchedEstimates(provider, missing);
    forall e, service | e in filled && service in e.services ensures service.cloudProvider == name {
      FetchedEstimatesMembers(provider, missing, e);
      ReportedOnly(provider, missing, name, e.timestamp, service);
    }
    FlattenedOfProvider(filled, name);
    AddedOfProvider(docs, Flattened(filled), name);
  }

  lemma {:induction false} ReportedOnly(provider: Provider, missing: seq<int>, name: string, d: int,
                                        service: ServiceData)
    requires ReportsOnly(provider, name) && service in FetchedUsage(provider, missing, d)
    ensures service.cloudProvider == name
  {
    hide Add;
  }

  // ----- a name that no document has -----

  lemma {:induction false} NothingStored(docs: seq<Document>, typed: string, dates: seq<int>)
    requires forall d :: d in docs ==> !IsOf(typed, d)
    ensures Unstored(docs, Some(typed), dates) == dates
  {
    hide IsStored;
    if dates != [] {
      NothingStored(docs, typed, dates[..|dates| - 1]);
      if IsStored(docs, Some(typed), Last(dates)) {
        var _ := StoredDocument(docs, typed, Last(dates));
        assert false;
      }
      assert dates == dates[..|dates| - 1] + [Last(dates)];
    }
  }

  /** With such a name every requested period is fetched and stored once more. */
  lemma {:induction false} SeedingAppendsAll(provider: Provider, docs: seq<Document>, request: Request, name: string,
                                             typed: string, t: int)
    requires provider.Faithful() && provider.LosesNothing() && AnswersDated(provider)
    requires ReportsOnly(provider, name) && !request.ignoreCache && forall d :: d in docs ==> !IsOf(typed, d)
    ensures var docs' := DocumentsAfter(provider, docs, Some(typed), request);
            var before := WithKey(DocumentTime(), t, OfProvider(docs, name));
            var after := WithKey(DocumentTime(), t, OfProvider(docs', name));
            (forall d :: d in docs' ==> d in docs || IsOf(name, d)) &&
            (t in RequestedDates(provider.unit, request.startDate, request.endDate) ==>
               Services(after) == Services(before) + provider.usage(t)) &&
            (t !in RequestedDates(provider.unit, request.startDate, request.endDate) ==> after == before) &&
            (forall d :: d in OfProvider(docs', name) ==> d in OfProvider(docs, name) || d.groupBy == provider.unit)
  {
    hide PeriodStart, PeriodNumber, PeriodEndDate, RequestedDates, StartOf, IsPeriodStart, OfProvider, FetchAll,
         FillDates, Flattened, Unstored, Provider.Faithful, Provider.LosesNothing, AnswersDated, FetchedUsage,
         ReportsOnly, WithKey, EstimatesAt, FetchedEstimates;
    var dates := RequestedDates(provider.unit, request.startDate, request.endDate);
    NothingStored(docs, typed, dates);
    RequestedDatesExact(provider.unit, request.startDate, request.endDate);
    assert forall i :: 0 <= i < |dates| ==> dates[i] in dates;
    FillDatesFetched(provider, dates);
    FetchedWithoutLoss(provider, dates);
    var filled := EstimatesAt(provider, dates);
    var added, before := Flattened(filled), WithKey(DocumentTime(), t, OfProvider(docs, name));
    forall e, service | e in filled && service in e.services ensures service.cloudProvider == name {
      FetchedEstimatesMembers(provider, dates, e);
      ReportedOnly(provider, dates, name, e.timestamp, service);
    }
    FlattenedOfProvider(filled, name);
    AddedOfProvider(docs, added, name);
    FlattenedAt(provider, dates, t);
    FlattenedGroupBy(provider, dates);
    WithKeyConcat(DocumentTime(), t, OfProvider(docs, name), added);
    assert before + [] == before;
    if FetchAll(provider, dates) == [] {
      FetchedKeys(provider, dates, t);
      assert !HasKey(TimeAt(0), [], t);
      assert Services(before) + [] == Services(before);
    } else if t in dates {
      ServicesOfJoined(before, DocumentsOf(provider.EstimateAt(t)));
      assert Services(DocumentsOf(provider.EstimateAt(t))) == provider.usage(t);
    }
  }

  lemma {:induction false} ServicesOfJoined(a: seq<Document>, b: seq<Document>)
    ensures Services(a + b) == Services(a) + Services(b)
  {
  }

  /**
    Seeding under a name that no document has, such as the provider's name in lower case, leaves that
    provider's documents right exactly when no requested period has a document yet; otherwise its
    documents are stored a second time.
   */
  lemma {:induction false} SeedingUnderAnotherName(provider: Provider, docs: seq<Document>, request: Request,
                                                   name: string, typed: string)
    requires provider.Faithful() && provider.LosesNothing() && AnswersDated(provider)
    requires ReportsOnly(provider, name) && !request.ignoreCache && forall d :: d in docs ==> !IsOf(typed, d)
    requires CollectionAgrees(provider, OfProvider(docs, name))
    ensures CollectionAgrees(provider, OfProvider(DocumentsAfter(provider, docs, Some(typed), request), name)) <==>
            forall t :: t in RequestedDates(provider.unit, request.startDate, request.endDate) ==>
              WithKey(DocumentTime(), t, OfProvider(docs, name)) == []
  {
    hide RequestedDates, DocumentsAfter, OfProvider, IsPeriodStart, WithKey, StartOf, Provider.Faithful,
         Provider.LosesNothing, AnswersDated, ReportsOnly;
    var dates := RequestedDates(provider.unit, request.startDate, request.endDate);
    var own, own' := OfProvider(docs, name), OfProvider(DocumentsAfter(provider, docs, Some(typed), request), name);
    RequestedDatesExact(provider.unit, request.startDate, request.endDate);
    SeedingAppendsAll(provider, docs, request, name, typed, 0);
    forall t
      ensures AgreesAt(provider, own', t) <==> (t in dates ==> WithKey(DocumentTime(), t, own) == [])
    {
      SeedingAppendsAll(provider, docs, request, name, typed, t);
      assert AgreesAt(provider, own, t);
      var at := WithKey(DocumentTime(), t, own);
      if t in dates { assert |Services(at)| == |at|; }
    }
    assert forall i :: 0 <= i < |own'| ==> own'[i] in own' && own'[i].groupBy == provider.unit;
  }

  // ----- windows of requests -----

  /** Over a whole run, too, one cloud provider's documents are a collection of their own. */
  lemma {:induction false} SeedsOneProviderOverRun(provider: Provider, docs: seq<Document>, calls: seq<Call>,
                                                   name: string)
    requires provider.Faithful() && provider.LosesNothing() && AnswersDated(provider) && ReportsOnly(provider, name)
    requires CollectionAgrees(provider, OfProvider(docs, name))
    requires forall i :: 0 <= i < |calls| ==> !calls[i].request.ignoreCache
    ensures var docs' := DocumentsAfterCalls(provider, docs, Some(name), calls);
            OfProvider(docs', name) == DocumentsAfterCalls(provider, OfProvider(docs, name), None, calls) &&
            OfOthers(docs', name) == OfOthers(docs, name) && CollectionAgrees(provider, OfProvider(docs', name))
    decreases |calls|
  {
    hide CollectionAgrees, DocumentsAfter, OfProvider, OfOthers, ReportsOnly, Provider.Faithful,
         Provider.LosesNothing, AnswersDated;
    if calls != [] {
      var n := |calls| - 1;
      SeedsOneProviderOverRun(provider, docs, calls[..n], name);
      var before := DocumentsAfterCalls(provider, docs, Some(name), calls[..n]);
      SeedsOneProvider(provider, before, calls[n].request, name);
      CollectionStaysInAgreement(provider, OfProvider(before, name), calls[n].request);
    }
  }

  lemma {:induction false} DocumentsKept(provider: Provider, docs: seq<Document>, request: Request, t: int)
    requires AnswersDated(provider) && WithKey(DocumentTime(), t, docs) != []
    ensures WithKey(DocumentTime(), t, DocumentsAfter(provider, docs, None, request)) != []
  {
    hide WithKey, FetchAll, FillDates, Flattened, AnswersDated, MissingInCollection;
    var missing := MissingInCollection(docs, None, provider.unit, request);
    FetchAllDated(provider, missing);
    FillDatesDated(missing, FetchAll(provider, missing), provider.unit);
    WithKeyConcat(DocumentTime(), t, docs, Flattened(FillDates(missing, FetchAll(provider, missing), provider.unit)));
  }

  /** After a run, every period that was asked for has the documents of all its services. */
  lemma {:induction false} RunStoresAsked(provider: Provider, docs: seq<Document>, calls: seq<Call>, t: int)
    requires provider.Faithful() && provider.LosesNothing() && AnswersDated(provider)
    requires CollectionAgrees(provider, docs) && forall i :: 0 <= i < |calls| ==> !calls[i].request.ignoreCache
    requires Asked(provider.unit, calls, t)
    ensures Services(WithKey(DocumentTime(), t, DocumentsAfterCalls(provider, docs, None, calls))) == provider.usage(t)
    decreases |calls|
  {
    hide AgreesAt, DocumentsAfter, Asked, RequestedDates, WithKey, Services, Provider.Faithful, Provider.LosesNothing,
         AnswersDated;
    if calls == [] {
      NothingAsked(provider.unit, t);
    } else {
      var n := |calls| - 1;
      var before := DocumentsAfterCalls(provider, docs, None, calls[..n]);
      AskedLast(provider.unit, calls, t);
      CollectionStaysInAgreementOverRun(provider, docs, calls[..n]);
      DocumentsAfterAt(provider, before, calls[n].request, t);
      if Asked(provider.unit, calls[..n], t) {
        RunStoresAsked(provider, docs, calls[..n], t);
        StaysStored(provider, before, calls[n].request, t);
      }
    }
  }

  /** A period whose documents are all there keeps them. */
  lemma {:induction false} StaysStored(provider: Provider, docs: seq<Document>, request: Request, t: int)
    requires provider.Faithful() && provider.LosesNothing() && AnswersDated(provider)
    requires CollectionAgrees(provider, docs) && !request.ignoreCache
    requires Services(WithKey(DocumentTime(), t, docs)) == provider.usage(t)
    ensures Services(WithKey(DocumentTime(), t, DocumentsAfter(provider, docs, None, request))) == provider.usage(t)
  {
    hide DocumentsAfter, RequestedDates, WithKey, CollectionAgrees, IsPeriodStart, Provider.Faithful,
         Provider.LosesNothing, AnswersDated;
    var at := WithKey(DocumentTime(), t, docs);
    var at' := WithKey(DocumentTime(), t, DocumentsAfter(provider, docs, None, request));
    DocumentsAfterAt(provider, docs, request, t);
    if at != [] { DocumentsKept(provider, docs, request, t); }
    if at' == [] { assert |provider.usage(t)| == |at|; }
  }

  /**
    Seeding one cloud provider by windows of any size, from any start: its documents agree with the
    provider, every period that the windows ask for has all of them, and the other documents stay.
   */
  lemma {:induction false} SeededCollection(provider: Provider, docs: seq<Document>, name: string, start: int, end: int,
                                            n: nat, now: nat -> int, t: int)
    requires provider.Faithful() && provider.LosesNothing() && AnswersDated(provider) && ReportsOnly(provider, name)
    requires CollectionAgrees(provider, OfProvider(docs, name)) && n > 0
    ensures var windows := Windows(provider.unit, start, end, n);
            var docs' := DocumentsAfterCalls(provider, docs, Some(name), CallsAt(windows, now));
            CollectionAgrees(provider, OfProvider(docs', name)) && OfOthers(docs', name) == OfOthers(docs, name) &&
            (t in AllRequested(provider.unit, windows) ==>
               Services(WithKey(DocumentTime(), t, OfProvider(docs', name))) == provider.usage(t))
  {
    hide CollectionAgrees, DocumentsAfterCalls, OfProvider, OfOthers, ReportsOnly, Windows, AllRequested, Asked,
         WithKey, Services, Provider.Faithful, Provider.LosesNothing, AnswersDated;
    var windows := Windows(provider.unit, start, end, n);
    var calls := CallsAt(windows, now);
    WindowsEndBy(provider.unit, start, end, n);
    SeedsOneProviderOverRun(provider, docs, calls, name);
    AskedIsRequested(provider.unit, windows, now, t);
    if t in AllRequested(provider.unit, windows) { RunStoresAsked(provider, OfProvider(docs, name), calls, t); }
  }
}
