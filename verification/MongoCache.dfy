/**
  The estimates cache kept in a MongoDB collection: one document per service of an estimate, and an
  aggregation that puts the estimates together again.
 */
module MongoCache {
  import opened Options
  import opened Calendar
  import opened Ordering
  import opened Estimates
  import opened Requests
  import opened Fetching
  import opened CacheText
  import opened LocalCache
  import opened Transparency
  import opened CacheRuns
  import opened Sums

  /** A document; its identifier grows with its position in the collection. */
  datatype Document = Document(service: ServiceData, timestamp: int, groupBy: GroupBy)

  /** What the aggregation gives for one timestamp: an estimate without its period's dates. */
  datatype Group = Group(timestamp: int, services: seq<ServiceData>, groupBy: GroupBy)

  /** How many documents an aggregation skips, and how many it takes then. */
  datatype Page = Page(skip: nat, limit: nat)

  function DocumentTime(): Document -> int { (d: Document) => d.timestamp }

  function GroupTime(): Group -> int { (g: Group) => g.timestamp }

  // ----- storing -----

  function DocumentsOf(e: Estimate): (docs: seq<Document>)
    requires e.Estimate?
    ensures |docs| == |e.services|
    ensures forall i :: 0 <= i < |docs| ==> docs[i] == Document(e.services[i], e.timestamp, e.groupBy)
  {
    seq(|e.services|, i requires 0 <= i < |e.services| => Document(e.services[i], e.timestamp, e.groupBy))
  }

  function Flattened(estimates: seq<Estimate>): seq<Document>
    requires AllDated(estimates)
  {
    if estimates == [] then [] else Flattened(estimates[..|estimates| - 1]) + DocumentsOf(estimates[|estimates| - 1])
  }

  // ----- aggregating -----

  function Matching(docs: seq<Document>, start: int, end: int): seq<Document> {
    if docs == [] then []
    else (if start <= docs[0].timestamp <= end then [docs[0]] else []) + Matching(docs[1..], start, end)
  }

  function Services(docs: seq<Document>): (services: seq<ServiceData>)
    ensures |services| == |docs| && forall i :: 0 <= i < |docs| ==> services[i] == docs[i].service
  {
    seq(|docs|, i requires 0 <= i < |docs| => docs[i].service)
  }

  function Without(docs: seq<Document>, t: int): (r: seq<Document>)
    ensures |r| <= |docs|
  {
    if docs == [] then []
    else (if docs[0].timestamp == t then [] else [docs[0]]) + Without(docs[1..], t)
  }

  /** The group stage: per timestamp, the services pushed in order, and the first document's grouping. */
  function GroupByTime(docs: seq<Document>): seq<Group>
    decreases |docs|
  {
    if docs == [] then []
    else
      var t := docs[0].timestamp;
      [Group(t, Services(WithKey(DocumentTime(), t, docs)), docs[0].groupBy)] + GroupByTime(Without(docs[1..], t))
  }

  function Grouped(docs: seq<Document>): seq<Group> { GroupByTime(SortBy(DocumentTime(), docs)) }

  function Matched(docs: seq<Document>, unit: GroupBy, request: Request): seq<Document> {
    Matching(docs, StartOf(unit, request.startDate), request.endDate)
  }

  function Limited(docs: seq<Document>, page: Page): (r: seq<Document>)
    ensures |r| <= |docs| && (|r| == |docs| ==> r == docs)
    ensures forall d :: d in r ==> d in docs
  {
    var rest := if page.skip <= |docs| then docs[page.skip..] else [];
    if |rest| <= page.limit then rest else rest[..page.limit]
  }

  /**
    A page has, in their order, the documents from those skipped up to its limit; so neighbouring pages
    join up, and one that is large enough has all.
   */
  lemma {:induction false} PagesJoinUp(docs: seq<Document>, skip: nat, m: nat, n: nat)
    ensures Limited(docs, Page(skip, m)) + Limited(docs, Page(skip + m, n)) == Limited(docs, Page(skip, m + n))
    ensures |docs| <= n ==> Limited(docs, Page(0, n)) == docs
    ensures forall i :: 0 <= i < m && skip + i < |docs| ==>
              i < |Limited(docs, Page(skip, m))| && Limited(docs, Page(skip, m))[i] == docs[skip + i]
    ensures |Limited(docs, Page(skip, m))| <= m
  {
    if skip + m <= |docs| {
      assert docs[skip..][..m] == docs[skip..skip + m];
      var rest := docs[skip + m..];
      assert docs[skip..skip + m] + rest == docs[skip..];
      if n < |rest| { assert docs[skip..skip + m] + rest[..n] == docs[skip..][..m + n]; }
    }
  }

  /** The stages match, skip, limit, sort and group. */
  function Aggregated(docs: seq<Document>, unit: GroupBy, request: Request, page: Page): seq<Group> {
    Grouped(Limited(Matched(docs, unit, request), page))
  }

  /** The page holds so many documents. */
  predicate PageHolds(page: Page, n: nat) { n == 0 || (page.skip == 0 && n <= page.limit) }

  // ----- the manager -----

  /**
    A requested date is stored if a document has that date, written without its time; when one cloud
    provider is seeded, if a document of that provider has that time.
   */
  predicate IsStored(docs: seq<Document>, seeding: Option<string>, d: int) {
    match seeding
    case None => exists i :: 0 <= i < |docs| && Midnight(DayNumber(docs[i].timestamp)) == d
    case Some(name) => exists i :: 0 <= i < |docs| && docs[i].service.cloudProvider == name && docs[i].timestamp == d
  }

  function Unstored(docs: seq<Document>, seeding: Option<string>, dates: seq<int>): seq<int> {
    if dates == [] then []
    else Unstored(docs, seeding, dates[..|dates| - 1])
         + if IsStored(docs, seeding, Last(dates)) then [] else [Last(dates)]
  }

  function MissingInCollection(docs: seq<Document>, seeding: Option<string>, unit: GroupBy,
                               request: Request): seq<int> {
    var dates := RequestedDates(unit, request.startDate, request.endDate);
    if request.ignoreCache then dates else Unstored(docs, seeding, dates)
  }

  class MongoDbCacheManager {
    var documents: seq<Document>

    constructor ()
      ensures documents == []
    {
      documents := [];
    }

    method SetEstimates(estimates: seq<Estimate>)
      requires AllDated(estimates)
      modifies this
      ensures documents == old(documents) + Flattened(estimates)
    {
      var newEstimates: seq<Document> := [];
      for i := 0 to |estimates|
        invariant newEstimates == Flattened(estimates[..i])
      {
        assert estimates[..i + 1][..i] == estimates[..i];
        var estimate := estimates[i];
        for j := 0 to |estimate.services|
          invariant newEstimates == Flattened(estimates[..i]) + DocumentsOf(estimate)[..j]
        {
          newEstimates := newEstimates + [Document(estimate.services[j], estimate.timestamp, estimate.groupBy)];
        }
      }
      assert estimates[..|estimates|] == estimates;
      documents := documents + newEstimates;
    }

    method MissingDatesOf(request: Request, unit: GroupBy, seeding: Option<string>) returns (missing: seq<int>)
      ensures missing == MissingInCollection(documents, seeding, unit, request)
    {
      hide RequestedDates, IsStored;
      var requested := GetDatesWithinRequestTimeFrame(unit, request);
      if request.ignoreCache {
        return requested;
      }
      missing := [];
      for i := 0 to |requested|
        invariant missing == Unstored(documents, seeding, requested[..i])
      {
        assert requested[..i + 1][..i] == requested[..i];
        if !IsStored(documents, seeding, requested[i]) {
          missing := missing + [requested[i]];
        }
      }
      assert requested[..|requested|] == requested;
    }

    method GetEstimates(request: Request, unit: GroupBy, page: Page) returns (groups: seq<Group>)
      ensures groups == Aggregated(documents, unit, request, page)
    {
      groups := Aggregated(documents, unit, request, page);
    }
  }

  ghost function DocumentsAfter(provider: Provider, docs: seq<Document>, seeding: Option<string>,
                                request: Request): seq<Document>
    requires AnswersDated(provider)
  {
    var missing := MissingInCollection(docs, seeding, provider.unit, request);
    FetchAllDated(provider, missing);
    FillDatesDated(missing, FetchAll(provider, missing), provider.unit);
    if FetchAll(provider, missing) == [] then docs
    else docs + Flattened(FillDates(missing, FetchAll(provider, missing), provider.unit))
  }

  /** Estimates from the collection, or, when the cache is ignored, straight from the provider. */
  datatype Answered = FromCollection(groups: seq<Group>) | FromProvider(estimates: seq<Estimate>)

  /** The decorated request over this manager; every group of the aggregation has services. */
  method GetCostAndEstimates(manager: MongoDbCacheManager, provider: Provider, request: Request, page: Page,
                             seeding: Option<string>)
    returns (answer: Answered)
    requires AnswersDated(provider)
    modifies manager
    ensures request.ignoreCache ==>
              manager.documents == old(manager.documents) &&
              answer == FromProvider(FetchAll(provider,
                                              RequestedDates(provider.unit, request.startDate, request.endDate)))
    ensures !request.ignoreCache ==>
              manager.documents == DocumentsAfter(provider, old(manager.documents), seeding, request) &&
              answer == FromCollection(SortBy(GroupTime(), Aggregated(manager.documents, provider.unit, request, page)))
  {
    hide FetchAll, FillDates, Flattened, Aggregated, RequestedDates, AnswersDated;
    var missing := manager.MissingDatesOf(request, provider.unit, seeding);
    FetchAllNothing(provider);
    FetchAllDated(provider, missing);
    if request.ignoreCache {
      var estimates := GetEstimatesForMissingDates(provider, missing);
      return FromProvider(estimates);
    }
    var newEstimates := [];
    if |missing| > 0 {
      newEstimates := GetEstimatesForMissingDates(provider, missing);
      if |newEstimates| > 0 {
        var estimatesToPersist := FillDates(missing, newEstimates, provider.unit);
        FillDatesDated(missing, newEstimates, provider.unit);
        FilledIsNonEmpty(missing, newEstimates, provider.unit);
        manager.SetEstimates(estimatesToPersist);
      }
    }
    var groups := manager.GetEstimates(request, provider.unit, page);
    return FromCollection(SortBy(GroupTime(), groups));
  }

  // ----- documents by time -----

  lemma {:induction false} WithKeyAll<T>(key: T -> int, k: int, s: seq<T>)
    requires forall i :: 0 <= i < |s| ==> key(s[i]) == k
    ensures WithKey(key, k, s) == s
  {
    if s != [] {
      WithKeyAll(key, k, s[1..]);
      assert s == [s[0]] + s[1..];
    }
  }

  lemma {:induction false} WithKeyNone<T>(key: T -> int, k: int, s: seq<T>)
    requires forall i :: 0 <= i < |s| ==> key(s[i]) != k
    ensures WithKey(key, k, s) == []
  {
    if s != [] { WithKeyNone(key, k, s[1..]); }
  }

  lemma {:induction false} WithKeyMatching(docs: seq<Document>, start: int, end: int, t: int)
    ensures WithKey(DocumentTime(), t, Matching(docs, start, end))
         == if start <= t <= end then WithKey(DocumentTime(), t, docs) else []
  {
    if docs != [] {
      WithKeyMatching(docs[1..], start, end, t);
      var rest := Matching(docs[1..], start, end);
      WithKeyCons(DocumentTime(), t, docs[0], rest);
      assert [] + rest == rest;
    }
  }

  lemma {:induction false} WithKeyWithout(docs: seq<Document>, u: int, t: int)
    ensures WithKey(DocumentTime(), t, Without(docs, u)) == if t == u then [] else WithKey(DocumentTime(), t, docs)
  {
    if docs != [] {
      WithKeyWithout(docs[1..], u, t);
      WithKeyCons(DocumentTime(), t, docs[0], Without(docs[1..], u));
      assert [] + Without(docs[1..], u) == Without(docs[1..], u);
    }
  }

  /** What the group stage gives: one group per timestamp that occurs. */
  predicate IsGroupOf(docs: seq<Document>, g: Group) {
    var at := WithKey(DocumentTime(), g.timestamp, docs);
    at != [] && g.services == Services(at) && g.groupBy == at[0].groupBy
  }

  lemma {:induction false} GroupMembers(docs: seq<Document>, g: Group)
    ensures g in GroupByTime(docs) <==> IsGroupOf(docs, g)
    decreases |docs|
  {
    hide Services, WithKey;
    if docs == [] {
      WithKeyNothing(DocumentTime(), g.timestamp);
    } else {
      var t, tail := docs[0].timestamp, docs[1..];
      var rest := Without(tail, t);
      GroupMembers(rest, g);
      WithKeyWithout(tail, t, g.timestamp);
      WithKeyCons(DocumentTime(), g.timestamp, docs[0], tail);
      assert docs == [docs[0]] + tail;
      if g.timestamp == t {
        assert g !in GroupByTime(rest);
      } else {
        assert [] + WithKey(DocumentTime(), g.timestamp, tail) == WithKey(DocumentTime(), g.timestamp, tail);
        assert IsGroupOf(docs, g) <==> IsGroupOf(rest, g);
      }
    }
  }

  lemma {:induction false} GroupsDistinct(docs: seq<Document>)
    ensures DistinctKeys(GroupTime(), GroupByTime(docs))
    decreases |docs|
  {
    if docs != [] {
      var t := docs[0].timestamp;
      var rest := Without(docs[1..], t);
      GroupsDistinct(rest);
      forall i | 0 <= i < |GroupByTime(rest)| ensures GroupByTime(rest)[i].timestamp != t {
        GroupMembers(rest, GroupByTime(rest)[i]);
        WithKeyWithout(docs[1..], t, t);
      }
    }
  }

  // ----- agreement with the provider -----

  /** For each time there is either no document, or the documents of all the services of that period. */
  ghost predicate CollectionAgrees(provider: Provider, docs: seq<Document>) {
    && (forall i :: 0 <= i < |docs| ==> docs[i].groupBy == provider.unit)
    && (forall t :: AgreesAt(provider, docs, t))
  }

  ghost predicate AgreesAt(provider: Provider, docs: seq<Document>, t: int) {
    var at := WithKey(DocumentTime(), t, docs);
    at == [] || (IsPeriodStart(provider.unit, t) && Services(at) == provider.usage(t))
  }

  lemma {:induction false} WithKeyOccurs(docs: seq<Document>, i: int)
    requires 0 <= i < |docs|
    ensures WithKey(DocumentTime(), docs[i].timestamp, docs) != []
  {
    if i > 0 { WithKeyOccurs(docs[1..], i - 1); }
  }

  lemma {:induction false} WithKeyMembers(docs: seq<Document>, t: int, d: Document)
    ensures d in WithKey(DocumentTime(), t, docs) <==> d in docs && d.timestamp == t
  {
    if docs != [] { WithKeyMembers(docs[1..], t, d); }
  }

  lemma {:induction false} PeriodStartIsMidnight(unit: GroupBy, t: int)
    requires IsPeriodStart(unit, t)
    ensures Midnight(DayNumber(t)) == t
  {
    hide PeriodDay, PeriodNumber;
  }

  lemma {:induction false} StoredWhenPresent(provider: Provider, docs: seq<Document>, d: int)
    requires CollectionAgrees(provider, docs)
    ensures IsStored(docs, None, d) <==> WithKey(DocumentTime(), d, docs) != []
  {
    hide IsPeriodStart, PeriodStart, PeriodNumber;
    if IsStored(docs, None, d) {
      var i :| 0 <= i < |docs| && Midnight(DayNumber(docs[i].timestamp)) == d;
      WithKeyOccurs(docs, i);
      assert AgreesAt(provider, docs, docs[i].timestamp);
      PeriodStartIsMidnight(provider.unit, docs[i].timestamp);
    }
    var at := WithKey(DocumentTime(), d, docs);
    if at != [] {
      WithKeyMembers(docs, d, at[0]);
      var i :| 0 <= i < |docs| && docs[i] == at[0];
      assert AgreesAt(provider, docs, d);
      PeriodStartIsMidnight(provider.unit, d);
      assert Midnight(DayNumber(docs[i].timestamp)) == d;
    }
  }

  lemma {:induction false} UnstoredMembers(docs: seq<Document>, seeding: Option<string>, dates: seq<int>, d: int)
    ensures d in Unstored(docs, seeding, dates) <==> d in dates && !IsStored(docs, seeding, d)
  {
    hide IsStored;
    if dates != [] {
      UnstoredMembers(docs, seeding, dates[..|dates| - 1], d);
      assert dates == dates[..|dates| - 1] + [Last(dates)];
    }
  }

  lemma {:induction false} UnstoredIncreases(docs: seq<Document>, seeding: Option<string>, dates: seq<int>)
    requires Increasing(dates)
    ensures Increasing(Unstored(docs, seeding, dates))
  {
    hide IsStored;
    if dates != [] {
      var before := dates[..|dates| - 1];
      UnstoredIncreases(docs, seeding, before);
      var r := Unstored(docs, seeding, before);
      forall i | 0 <= i < |r| ensures r[i] < Last(dates) { UnstoredMembers(docs, seeding, before, r[i]); }
    }
  }

  lemma {:induction false} FlattenedLast(provider: Provider, missing: seq<int>)
    requires missing != []
    ensures Flattened(EstimatesAt(provider, missing))
         == Flattened(EstimatesAt(provider, missing[..|missing| - 1])) + DocumentsOf(provider.EstimateAt(Last(missing)))
  {
    hide PeriodEndDate;
    var all := EstimatesAt(provider, missing);
    assert all[..|all| - 1] == EstimatesAt(provider, missing[..|missing| - 1]);
    assert all[|all| - 1] == provider.EstimateAt(Last(missing));
  }

  lemma {:induction false} DocumentsOfAt(provider: Provider, d: int, t: int)
    ensures WithKey(DocumentTime(), t, DocumentsOf(provider.EstimateAt(d)))
              == if t == d then DocumentsOf(provider.EstimateAt(d)) else []
  {
    hide PeriodEndDate, WithKey;
    var docs := DocumentsOf(provider.EstimateAt(d));
    if t == d { WithKeyAll(DocumentTime(), t, docs); } else { WithKeyNone(DocumentTime(), t, docs); }
  }

  /** The documents of filled estimates: for each missing period, the documents of its services. */
  lemma {:induction false} FlattenedAt(provider: Provider, missing: seq<int>, t: int)
    requires Increasing(missing)
    ensures WithKey(DocumentTime(), t, Flattened(EstimatesAt(provider, missing)))
         == if t in missing then DocumentsOf(provider.EstimateAt(t)) else []
  {
    hide PeriodEndDate, Flattened, EstimatesAt, DocumentsOf, WithKey;
    if missing == [] {
      NothingFlattened(provider);
      WithKeyNothing(DocumentTime(), t);
    } else {
      var before, last := missing[..|missing| - 1], Last(missing);
      FlattenedAt(provider, before, t);
      FlattenedLast(provider, missing);
      WithKeyConcat(DocumentTime(), t, Flattened(EstimatesAt(provider, before)),
                    DocumentsOf(provider.EstimateAt(last)));
      DocumentsOfAt(provider, last, t);
      assert missing == before + [last];
      var at := DocumentsOf(provider.EstimateAt(t));
      if t == last {
        assert t !in before;
        assert [] + at == at;
      } else if t in before {
        assert at + [] == at;
      } else {
        assert t !in missing;
      }
    }
  }

  lemma {:induction false} FlattenedGroupBy(provider: Provider, missing: seq<int>)
    ensures forall i :: 0 <= i < |Flattened(EstimatesAt(provider, missing))| ==>
              Flattened(EstimatesAt(provider, missing))[i].groupBy == provider.unit
  {
    hide PeriodEndDate, Flattened, EstimatesAt;
    if missing == [] {
      assert Flattened(EstimatesAt(provider, [])) == [] by { NothingFlattened(provider); }
    } else {
      FlattenedGroupBy(provider, missing[..|missing| - 1]);
      FlattenedLast(provider, missing);
    }
  }

  lemma {:induction false} NothingFlattened(provider: Provider)
    ensures Flattened(EstimatesAt(provider, [])) == []
  {
  }

  lemma {:induction false} CollectionMissing(provider: Provider, docs: seq<Document>, request: Request, d: int)
    requires CollectionAgrees(provider, docs) && !request.ignoreCache
    ensures var missing := MissingInCollection(docs, None, provider.unit, request);
            Increasing(missing) && ArePeriodStarts(provider.unit, missing) &&
            (d in missing <==> d in RequestedDates(provider.unit, request.startDate, request.endDate)
                               && WithKey(DocumentTime(), d, docs) == [])
  {
    hide IsPeriodStart, PeriodStart, PeriodNumber, RequestedDates, CollectionAgrees, StartOf, IsStored;
    var dates := RequestedDates(provider.unit, request.startDate, request.endDate);
    RequestedDatesExact(provider.unit, request.startDate, request.endDate);
    UnstoredIncreases(docs, None, dates);
    UnstoredMembers(docs, None, dates, d);
    StoredWhenPresent(provider, docs, d);
    var missing := MissingInCollection(docs, None, provider.unit, request);
    forall i | 0 <= i < |missing|
      ensures IsPeriodStart(provider.unit, missing[i])
    {
      UnstoredMembers(docs, None, dates, missing[i]);
    }
  }

  /** The collection agrees with the provider and has all documents of the requested periods. */
  ghost predicate Covers(provider: Provider, docs: seq<Document>, request: Request) {
    && CollectionAgrees(provider, docs)
    && forall t :: t in RequestedDates(provider.unit, request.startDate, request.endDate) ==>
         Services(WithKey(DocumentTime(), t, docs)) == provider.usage(t)
  }

  /** What a call serves from a collection: what it fetches, and for the other periods what is held. */
  function ServedByCollection(provider: Provider, docs: seq<Document>, held: int -> seq<ServiceData>,
                              request: Request): Provider {
    With(provider, Served(provider, MissingInCollection(docs, None, provider.unit, request), held))
  }

  lemma {:induction false} SameAgreement(provider: Provider, docs: seq<Document>, held: int -> seq<ServiceData>, t: int)
    requires CollectionAgrees(With(provider, held), docs)
    ensures AgreesAt(With(provider, held), docs, t) && forall i :: 0 <= i < |docs| ==> docs[i].groupBy == provider.unit
  {
  }

  /** After a call, the documents of a period are those of what was served for it, all of them if it was asked for. */
  lemma {:induction false} DocumentsServedAt(provider: Provider, docs: seq<Document>, held: int -> seq<ServiceData>,
                                             request: Request, t: int)
    requires provider.Faithful() && AnswersDated(provider)
    requires CollectionAgrees(With(provider, held), docs) && !request.ignoreCache
    ensures var docs' := DocumentsAfter(provider, docs, None, request);
            var served := ServedByCollection(provider, docs, held, request);
            AgreesAt(served, docs', t) &&
            (t in RequestedDates(provider.unit, request.startDate, request.endDate) ==>
               Services(WithKey(DocumentTime(), t, docs')) == served.usage(t)) &&
            (forall i :: 0 <= i < |docs'| ==> docs'[i].groupBy == provider.unit)
  {
    hide PeriodStart, PeriodNumber, PeriodEndDate, RequestedDates, StartOf, MissingInCollection, FetchAll, FillDates,
         Flattened, IsPeriodStart, Provider.Faithful, AnswersDated, FetchedUsage, WithKey, EstimatesAt,
         FetchedEstimates, CollectionAgrees;
    var missing := MissingInCollection(docs, None, provider.unit, request);
    var served := ServedByCollection(provider, docs, held, request);
    CollectionMissing(With(provider, held), docs, request, t);
    SameAgreement(provider, docs, held, t);
    RequestedDatesExact(provider.unit, request.startDate, request.endDate);
    FetchedAreServed(provider, missing, held);
    FlattenedAt(served, missing, t);
    FlattenedGroupBy(served, missing);
    FillDatesFetched(provider, missing);
    var added := Flattened(FetchedEstimates(provider, missing));
    var at := WithKey(DocumentTime(), t, docs);
    if FetchAll(provider, missing) == [] {
      FetchedKeys(provider, missing, t);
      if t in missing { assert !HasKey(TimeAt(0), [], t); }
    } else {
      WithKeyConcat(DocumentTime(), t, docs, added);
      assert at + [] == at;
      if t in missing { assert Services(DocumentsOf(served.EstimateAt(t))) == served.usage(t); }
    }
  }

  lemma {:induction false} CollectionCoversServed(provider: Provider, docs: seq<Document>,
                                                  held: int -> seq<ServiceData>, request: Request)
    requires provider.Faithful() && AnswersDated(provider)
    requires CollectionAgrees(With(provider, held), docs) && !request.ignoreCache
    ensures Covers(ServedByCollection(provider, docs, held, request), DocumentsAfter(provider, docs, None, request),
                   request)
  {
    hide DocumentsAfter, RequestedDates, WithKey, AgreesAt, Provider.Faithful, AnswersDated, MissingInCollection,
         Served;
    var docs' := DocumentsAfter(provider, docs, None, request);
    var served := ServedByCollection(provider, docs, held, request);
    DocumentsServedAt(provider, docs, held, request, 0);
    forall t
      ensures AgreesAt(served, docs', t)
      ensures t in RequestedDates(provider.unit, request.startDate, request.endDate) ==>
                Services(WithKey(DocumentTime(), t, docs')) == served.usage(t)
    {
      DocumentsServedAt(provider, docs, held, request, t);
    }
  }

  /** When nothing is lost, after a call the documents of a requested period are those of its services. */
  lemma {:induction false} DocumentsAfterAt(provider: Provider, docs: seq<Document>, request: Request, t: int)
    requires provider.Faithful() && provider.LosesNothing() && AnswersDated(provider)
    requires CollectionAgrees(provider, docs) && !request.ignoreCache
    ensures var docs' := DocumentsAfter(provider, docs, None, request);
            AgreesAt(provider, docs', t) &&
            (t in RequestedDates(provider.unit, request.startDate, request.endDate) ==>
               Services(WithKey(DocumentTime(), t, docs')) == provider.usage(t)) &&
            (forall i :: 0 <= i < |docs'| ==> docs'[i].groupBy == provider.unit)
  {
    hide DocumentsAfter, RequestedDates, WithKey, IsPeriodStart, Provider.Faithful, Provider.LosesNothing,
         AnswersDated, MissingInCollection, CollectionAgrees, FetchedUsage;
    WithOwnUsage(provider);
    DocumentsServedAt(provider, docs, provider.usage, request, t);
    CollectionMissing(provider, docs, request, t);
    FetchedWithoutLoss(provider, MissingInCollection(docs, None, provider.unit, request));
  }

  lemma {:induction false} CallCovers(provider: Provider, docs: seq<Document>, request: Request)
    requires provider.Faithful() && provider.LosesNothing() && AnswersDated(provider)
    requires CollectionAgrees(provider, docs) && !request.ignoreCache
    ensures Covers(provider, DocumentsAfter(provider, docs, None, request), request)
  {
    hide DocumentsAfter, RequestedDates, WithKey, AgreesAt, Provider.Faithful, Provider.LosesNothing, AnswersDated;
    var docs' := DocumentsAfter(provider, docs, None, request);
    DocumentsAfterAt(provider, docs, request, 0);
    forall t
      ensures AgreesAt(provider, docs', t)
      ensures t in RequestedDates(provider.unit, request.startDate, request.endDate) ==>
                Services(WithKey(DocumentTime(), t, docs')) == provider.usage(t)
    {
      DocumentsAfterAt(provider, docs, request, t);
    }
  }

  lemma {:induction false} CollectionStaysInAgreement(provider: Provider, docs: seq<Document>, request: Request)
    requires provider.Faithful() && provider.LosesNothing() && AnswersDated(provider)
    requires CollectionAgrees(provider, docs) && !request.ignoreCache
    ensures CollectionAgrees(provider, DocumentsAfter(provider, docs, None, request))
  {
    hide AgreesAt, DocumentsAfter;
    var docs' := DocumentsAfter(provider, docs, None, request);
    DocumentsAfterAt(provider, docs, request, 0);
    forall t ensures AgreesAt(provider, docs', t) { DocumentsAfterAt(provider, docs, request, t); }
  }

  // ----- the answer -----

  function Erased(e: Estimate): Group
    requires e.Estimate?
  { Group(e.timestamp, e.services, e.groupBy) }

  function ErasedAll(s: seq<Estimate>): (r: seq<Group>)
    requires AllDated(s)
    ensures |r| == |s| && forall i :: 0 <= i < |s| ==> r[i] == Erased(s[i])
  {
    seq(|s|, i requires 0 <= i < |s| => Erased(s[i]))
  }

  /** The groups of a page are those of its documents. */
  lemma {:induction false} AggregatedMembers(docs: seq<Document>, unit: GroupBy, request: Request, page: Page, g: Group)
    ensures g in Aggregated(docs, unit, request, page) <==> IsGroupOf(Limited(Matched(docs, unit, request), page), g)
    ensures DistinctKeys(GroupTime(), Aggregated(docs, unit, request, page))
  {
    hide Matched, Limited, GroupByTime, SortBy;
    var limited := Limited(Matched(docs, unit, request), page);
    var sorted := SortBy(DocumentTime(), limited);
    GroupMembers(sorted, g);
    GroupsDistinct(sorted);
    SortByIsStable(DocumentTime(), limited, g.timestamp);
  }

  lemma {:induction false} GroupedMembers(provider: Provider, docs: seq<Document>, request: Request, g: Group)
    requires forall i :: 0 <= i < |docs| ==> docs[i].groupBy == provider.unit
    ensures var at := WithKey(DocumentTime(), g.timestamp, docs);
            g in Grouped(Matched(docs, provider.unit, request)) <==>
              StartOf(provider.unit, request.startDate) <= g.timestamp <= request.endDate &&
              at != [] && g.services == Services(at) && g.groupBy == provider.unit
  {
    hide StartOf, GroupByTime, SortBy, Matching;
    var start := StartOf(provider.unit, request.startDate);
    var matched := Matching(docs, start, request.endDate);
    GroupMembers(SortBy(DocumentTime(), matched), g);
    SortByIsStable(DocumentTime(), matched, g.timestamp);
    WithKeyMatching(docs, start, request.endDate, g.timestamp);
    var at := WithKey(DocumentTime(), g.timestamp, docs);
    if at != [] { WithKeyMembers(docs, g.timestamp, at[0]); }
  }

  lemma {:induction false} GroupedMember(provider: Provider, docs: seq<Document>, request: Request, g: Group)
    requires Covers(provider, docs, request)
    ensures g in Grouped(Matched(docs, provider.unit, request)) <==>
              g.timestamp in RequestedDates(provider.unit, request.startDate, request.endDate) &&
              provider.usage(g.timestamp) != [] && g == Erased(provider.EstimateAt(g.timestamp))
  {
    hide PeriodStart, PeriodNumber, PeriodEndDate, RequestedDates, StartOf, Grouped, IsPeriodStart, Matched;
    assert AgreesAt(provider, docs, g.timestamp);
    GroupedMembers(provider, docs, request, g);
    RequestedDatesExact(provider.unit, request.startDate, request.endDate);
  }

  lemma {:induction false} ErasedMember(provider: Provider, request: Request, g: Group)
    requires AllDated(Expected(provider, request))
    ensures g in ErasedAll(Expected(provider, request)) <==>
              g.timestamp in RequestedDates(provider.unit, request.startDate, request.endDate) &&
              provider.usage(g.timestamp) != [] && g == Erased(provider.EstimateAt(g.timestamp))
  {
    hide PeriodEndDate, RequestedDates, Expected;
    var expected := Expected(provider, request);
    var e := provider.EstimateAt(g.timestamp);
    ExpectedMembers(provider, request, e);
    if e in expected {
      var i :| 0 <= i < |expected| && expected[i] == e;
      assert ErasedAll(expected)[i] == Erased(e);
    }
    if g in ErasedAll(expected) {
      var i :| 0 <= i < |expected| && ErasedAll(expected)[i] == g;
      ExpectedMembers(provider, request, expected[i]);
    }
  }

  /** All matching documents, grouped, in whatever order the groups come, are what is expected. */
  lemma {:induction false} GroupsAreExpected(provider: Provider, docs: seq<Document>, request: Request,
                                             groups: seq<Group>)
    requires Covers(provider, docs, request) &&
             multiset(groups) == multiset(Grouped(Matched(docs, provider.unit, request)))
    ensures AllDated(Expected(provider, request)) &&
            SortBy(GroupTime(), groups) == ErasedAll(Expected(provider, request))
  {
    hide PeriodStart, PeriodNumber, PeriodEndDate, RequestedDates, StartOf, GroupByTime, SortBy, Expected, Matched,
         IsPeriodStart, Covers;
    var matched, expected := Matched(docs, provider.unit, request), Expected(provider, request);
    var sorted := SortBy(GroupTime(), groups);
    MembersOfMultiset(groups, Grouped(matched));
    GroupsDistinct(SortBy(DocumentTime(), matched));
    SameMultisetDistinct(groups, Grouped(matched));
    SortByDistinct(GroupTime(), groups);
    SortByPermutes(GroupTime(), groups);
    ExpectedMembers(provider, request, EmptyArray);
    var erased := ErasedAll(expected);
    forall g ensures g in sorted <==> g in erased {
      GroupedMember(provider, docs, request, g);
      ErasedMember(provider, request, g);
    }
    StrictlySortedUnique(GroupTime(), sorted, erased);
  }

  lemma {:induction false} SameMultisetDistinct(a: seq<Group>, b: seq<Group>)
    requires multiset(a) == multiset(b) && DistinctKeys(GroupTime(), b)
    ensures DistinctKeys(GroupTime(), a)
  {
    MembersOfMultiset(a, b);
    forall i, j | 0 <= i < j < |a| ensures a[i].timestamp != a[j].timestamp {
      assert a[i] in b && a[j] in b;
      if a[i] == a[j] {
        assert a == a[..i] + [a[i]] + a[i + 1..j] + [a[j]] + a[j + 1..];
        assert multiset(a)[a[i]] >= 2;
        OccursOnce(b, a[i]);
      }
    }
  }

  lemma {:induction false} OccursOnce(b: seq<Group>, g: Group)
    requires DistinctKeys(GroupTime(), b)
    ensures multiset(b)[g] <= 1
  {
    if b != [] {
      assert b == [b[0]] + b[1..];
      OccursOnce(b[1..], g);
      if b[0] == g {
        assert g !in b[1..];
        assert multiset(b[1..])[g] == 0;
      }
    }
  }

  // ----- how much a page holds -----

  function ServiceCount(): Group -> real { (g: Group) => |g.services| as real }

  lemma {:induction false} WithAndWithout(docs: seq<Document>, t: int)
    ensures |WithKey(DocumentTime(), t, docs)| + |Without(docs, t)| == |docs|
  {
    if docs != [] { WithAndWithout(docs[1..], t); }
  }

  /** Grouping neither loses nor repeats a document. */
  lemma {:induction false} GroupsHoldAll(docs: seq<Document>)
    ensures Sum(ServiceCount(), GroupByTime(docs)) == |docs| as real
    decreases |docs|
  {
    if docs != [] {
      var t := docs[0].timestamp;
      var rest := Without(docs[1..], t);
      var first := Group(t, Services(WithKey(DocumentTime(), t, docs)), docs[0].groupBy);
      GroupsHoldAll(rest);
      WithAndWithout(docs[1..], t);
      WithAndWithout(docs, t);
      SumConcat(ServiceCount(), [first], GroupByTime(rest));
      SumOfOne(first);
    }
  }

  lemma {:induction false} SumOfOne(g: Group)
    ensures Sum(ServiceCount(), [g]) == |g.services| as real
  {
    assert [g][..0] == [];
  }

  lemma {:induction false} GroupedHoldAll(docs: seq<Document>, groups: seq<Group>)
    requires multiset(groups) == multiset(Grouped(docs))
    ensures Sum(ServiceCount(), SortBy(GroupTime(), groups)) == |docs| as real
  {
    hide Sum, SortBy, GroupByTime;
    GroupsHoldAll(SortBy(DocumentTime(), docs));
    SortByPermutes(DocumentTime(), docs);
    SortByPermutes(GroupTime(), groups);
    SumIgnoresOrder(ServiceCount(), SortBy(GroupTime(), groups), groups);
    SumIgnoresOrder(ServiceCount(), groups, Grouped(docs));
  }

  lemma {:induction false} LimitedByPage(docs: seq<Document>, page: Page)
    ensures PageHolds(page, |docs|) <==> |Limited(docs, page)| == |docs|
  {
  }

  /** How many services the provider has for some periods. */
  function UsageCount(provider: Provider, dates: seq<int>): nat {
    if dates == [] then 0 else UsageCount(provider, dates[..|dates| - 1]) + |provider.usage(Last(dates))|
  }

  function RequestedUsage(provider: Provider, request: Request): nat {
    UsageCount(provider, RequestedDates(provider.unit, request.startDate, request.endDate))
  }

  lemma {:induction false} ServicesAt(provider: Provider, dates: seq<int>)
    ensures AllDated(NonEmpty(EstimatesAt(provider, dates)))
    ensures Sum(ServiceCount(), ErasedAll(NonEmpty(EstimatesAt(provider, dates))))
              == UsageCount(provider, dates) as real
  {
    hide PeriodEndDate, Sum, NonEmpty, EstimatesAt;
    NonEmptyDated(EstimatesAt(provider, dates));
    if dates == [] {
      NoServicesAt(provider);
    } else {
      var before, last := dates[..|dates| - 1], provider.EstimateAt(Last(dates));
      ServicesAt(provider, before);
      assert EstimatesAt(provider, dates) == EstimatesAt(provider, before) + [last];
      NonEmptyConcat(EstimatesAt(provider, before), [last]);
      NonEmptyOfOne(last);
      NonEmptyDated([last]);
      NonEmptyDated(EstimatesAt(provider, before));
      var a, b := NonEmpty(EstimatesAt(provider, before)), NonEmpty([last]);
      assert ErasedAll(a + b) == ErasedAll(a) + ErasedAll(b);
      SumConcat(ServiceCount(), ErasedAll(a), ErasedAll(b));
      if b == [last] {
        assert ErasedAll(b) == [Erased(last)];
        SumOfOne(Erased(last));
      } else {
        assert ErasedAll(b) == [];
        NoServicesAt(provider);
      }
    }
  }

  lemma {:induction false} NoServicesAt(provider: Provider)
    ensures NonEmpty(EstimatesAt(provider, [])) == [] && ErasedAll([]) == [] && Sum(ServiceCount(), []) == 0.0
  {
  }

  /** The matching documents are as many as the services that the provider has for the request. */
  lemma {:induction false} MatchedCount(provider: Provider, docs: seq<Document>, request: Request)
    requires Covers(provider, docs, request)
    ensures |Matched(docs, provider.unit, request)| == RequestedUsage(provider, request)
  {
    hide Grouped, SortBy, RequestedDates, NonEmpty, EstimatesAt, Matched, Sum, UsageCount, Covers;
    var matched := Matched(docs, provider.unit, request);
    GroupsAreExpected(provider, docs, request, Grouped(matched));
    GroupedHoldAll(matched, Grouped(matched));
    ServicesAt(provider, RequestedDates(provider.unit, request.startDate, request.endDate));
  }

  /**
    A page answers what is expected, in whatever order its groups come, exactly when it holds all
    services of the request.
   */
  lemma {:induction false} PageIsExpected(provider: Provider, docs: seq<Document>, request: Request, page: Page,
                                          groups: seq<Group>)
    requires Covers(provider, docs, request) &&
             multiset(groups) == multiset(Aggregated(docs, provider.unit, request, page))
    ensures AllDated(Expected(provider, request)) &&
            (SortBy(GroupTime(), groups) == ErasedAll(Expected(provider, request)) <==>
               PageHolds(page, RequestedUsage(provider, request)))
  {
    hide Grouped, SortBy, Expected, Matched, Limited, Sum, PageHolds, Covers, RequestedUsage;
    var matched := Matched(docs, provider.unit, request);
    LimitedByPage(matched, page);
    MatchedCount(provider, docs, request);
    GroupsAreExpected(provider, docs, request, Grouped(matched));
    GroupedHoldAll(matched, Grouped(matched));
    GroupedHoldAll(Limited(matched, page), groups);
    if PageHolds(page, |matched|) { GroupsAreExpected(provider, docs, request, groups); }
  }

  /**
    What any call over a collection answers, weeks whose Sundays matter included: what it serves, exactly
    when the page holds all services of it; and that is right exactly when each requested period
    is served as it is.
   */
  lemma {:induction false} MongoCallAnswersServed(provider: Provider, docs: seq<Document>,
                                                  held: int -> seq<ServiceData>, request: Request, page: Page,
                                                  groups: seq<Group>)
    requires provider.Faithful() && AnswersDated(provider)
    requires CollectionAgrees(With(provider, held), docs) && !request.ignoreCache
    requires multiset(groups)
               == multiset(Aggregated(DocumentsAfter(provider, docs, None, request), provider.unit, request, page))
    ensures var served := ServedByCollection(provider, docs, held, request);
            AllDated(Expected(served, request)) &&
            (SortBy(GroupTime(), groups) == ErasedAll(Expected(served, request)) <==>
               PageHolds(page, RequestedUsage(served, request))) &&
            (Expected(served, request) == Expected(provider, request) <==>
               forall d :: d in RequestedDates(provider.unit, request.startDate, request.endDate) ==>
                 served.usage(d) == provider.usage(d))
  {
    hide Aggregated, DocumentsAfter, SortBy, Expected, PageHolds, Covers, RequestedUsage, CollectionAgrees,
         RequestedDates, MissingInCollection, Served, Provider.Faithful, AnswersDated;
    CollectionCoversServed(provider, docs, held, request);
    PageIsExpected(ServedByCollection(provider, docs, held, request), DocumentsAfter(provider, docs, None, request),
                   request, page, groups);
    ExpectedSame(provider, Served(provider, MissingInCollection(docs, None, provider.unit, request), held), request);
  }

  /**
    When nothing is lost: a call over a collection answers what the provider would answer, without the
    period's dates and in whatever order the groups come, exactly when the page holds all services of
    the request.
   */
  lemma {:induction false} MongoCallIsTransparent(provider: Provider, docs: seq<Document>, request: Request, page: Page,
                                                  groups: seq<Group>)
    requires provider.Faithful() && provider.LosesNothing() && AnswersDated(provider)
    requires CollectionAgrees(provider, docs) && !request.ignoreCache
    requires multiset(groups)
               == multiset(Aggregated(DocumentsAfter(provider, docs, None, request), provider.unit, request, page))
    ensures AllDated(Expected(provider, request)) &&
            (SortBy(GroupTime(), groups) == ErasedAll(Expected(provider, request)) <==>
               PageHolds(page, RequestedUsage(provider, request)))
  {
    hide Aggregated, DocumentsAfter, SortBy, Expected, PageHolds, Covers, RequestedUsage, CollectionAgrees,
         Provider.Faithful, Provider.LosesNothing, AnswersDated;
    CallCovers(provider, docs, request);
    PageIsExpected(provider, DocumentsAfter(provider, docs, None, request), request, page, groups);
  }

  /** When the cache is ignored, the provider's own answer is what is expected, whatever its order. */
  lemma {:induction false} IgnoringIsTransparent(provider: Provider, request: Request)
    requires provider.Faithful() && provider.LosesNothing()
    ensures var fetched := FetchAll(provider, RequestedDates(provider.unit, request.startDate, request.endDate));
            SortBy(TimeAt(0), fetched) == Expected(provider, request)
  {
    hide PeriodStart, PeriodNumber, PeriodEndDate, StartOf, RequestedDates, FetchAll, SortBy, Expected,
         Provider.Faithful, Provider.LosesNothing;
    var dates := RequestedDates(provider.unit, request.startDate, request.endDate);
    var fetched := FetchAll(provider, dates);
    RequestedDatesExact(provider.unit, request.startDate, request.endDate);
    assert forall i :: 0 <= i < |dates| ==> dates[i] in dates;
    FetchAllDistinct(provider, dates);
    SortByDistinct(TimeAt(0), fetched);
    SortByPermutes(TimeAt(0), fetched);
    ExpectedMembers(provider, request, EmptyArray);
    forall e ensures e in SortBy(TimeAt(0), fetched) <==> e in Expected(provider, request) {
      FetchAllWithoutLoss(provider, dates, e);
      ExpectedMembers(provider, request, e);
    }
    StrictlySortedUnique(TimeAt(0), SortBy(TimeAt(0), fetched), Expected(provider, request));
  }

  // ----- the two backends -----

  function Times(groups: seq<Group>): set<int> { set i | 0 <= i < |groups| :: groups[i].timestamp }

  lemma {:induction false} DistinctTimes(groups: seq<Group>)
    requires DistinctKeys(GroupTime(), groups)
    ensures |Times(groups)| == |groups|
  {
    if groups != [] {
      var n := |groups| - 1;
      DistinctTimes(groups[..n]);
      assert Times(groups) == Times(groups[..n]) + {groups[n].timestamp} by {
        forall t ensures t in Times(groups) <==> t in Times(groups[..n]) + {groups[n].timestamp} {
          if i :| 0 <= i < |groups| && groups[i].timestamp == t { assert i < n ==> groups[..n][i] == groups[i]; }
          if i :| 0 <= i < n && groups[..n][i].timestamp == t { assert groups[i] == groups[..n][i]; }
        }
      }
      assert groups[n].timestamp !in Times(groups[..n]);
    }
  }

  lemma {:induction false} SubsetSize<T>(a: set<T>, b: set<T>)
    requires a <= b
    ensures |a| <= |b|
    decreases |a|
  {
    if a != {} {
      var x :| x in a;
      SubsetSize(a - {x}, b - {x});
    }
  }

  /** A page of documents makes no more groups than all of them. */
  lemma {:induction false} PageHasNoMore(docs: seq<Document>, page: Page)
    ensures |Grouped(Limited(docs, page))| <= |Grouped(docs)|
  {
    hide Limited, Grouped;
    var some, all := Grouped(Limited(docs, page)), Grouped(docs);
    GroupedFacts(Limited(docs, page));
    GroupedFacts(docs);
    DistinctTimes(some);
    DistinctTimes(all);
    SubsetSize(Times(some), Times(all));
  }

  lemma {:induction false} GroupedFacts(docs: seq<Document>)
    ensures DistinctKeys(GroupTime(), Grouped(docs))
    ensures forall t :: t in Times(Grouped(docs)) <==> exists d :: d in docs && d.timestamp == t
  {
    hide GroupByTime, SortBy, Services;
    var sorted := SortBy(DocumentTime(), docs);
    var groups := GroupByTime(sorted);
    GroupsDistinct(sorted);
    forall t ensures t in Times(groups) <==> exists d :: d in docs && d.timestamp == t {
      var at := WithKey(DocumentTime(), t, docs);
      SortByIsStable(DocumentTime(), docs, t);
      if i :| 0 <= i < |groups| && groups[i].timestamp == t {
        GroupMembers(sorted, groups[i]);
        WithKeyMembers(docs, t, at[0]);
      }
      if d :| d in docs && d.timestamp == t {
        WithKeyMembers(docs, t, d);
        assert at != [];
        var g := Group(t, Services(at), at[0].groupBy);
        GroupMembers(sorted, g);
        InTimes(groups, g);
      }
    }
  }

  lemma {:induction false} InTimes(groups: seq<Group>, g: Group)
    requires g in groups
    ensures g.timestamp in Times(groups)
  {
  }

  /**
    The two backends side by side: they answer the same, the period's dates aside, exactly when the
    page holds all services of the request and the local manager fetches something or holds no
    fetched estimate with usage.
   */
  lemma {:induction false} BackendsAgree(provider: Provider, codec: Codec, s: State, entries: seq<Estimate>,
                                         docs: seq<Document>, request: Request, page: Page, now: int)
    requires Sound(provider, codec) && Consistent(provider, codec, s.file, entries, now) && request.endDate < now
    requires AllDated(s.fetched) && CollectionAgrees(provider, docs) && !request.ignoreCache
    ensures var s', docs' := After(provider, codec, s, request, now), DocumentsAfter(provider, docs, None, request);
            AllDated(s'.cached) && AllDated(s'.fetched) && AllDated(Answer(s')) &&
            (ErasedAll(Answer(s')) == SortBy(GroupTime(), Aggregated(docs', provider.unit, request, page)) <==>
               PageHolds(page, RequestedUsage(provider, request)) &&
               (Persists(provider, codec, s.file, request, now) || NonEmpty(s.fetched) == []))
  {
    hide After, Expected, Persists, Consistent, Answer, DocumentsAfter, Grouped, Covers, CollectionAgrees, SortBy,
         Matched, PageHolds, RequestedUsage, Limited, Provider.Faithful, Provider.LosesNothing, AnswersDated,
         Codec.Valid, NonEmpty;
    var s', docs' := After(provider, codec, s, request, now), DocumentsAfter(provider, docs, None, request);
    var matched := Matched(docs', provider.unit, request);
    var groups := Aggregated(docs', provider.unit, request, page);
    CallIsTransparent(provider, codec, s, entries, request, now);
    MongoCallIsTransparent(provider, docs, request, page, groups);
    AnswerDated(s');
    CallCovers(provider, docs, request);
    GroupsAreExpected(provider, docs', request, Grouped(matched));
    PageHasNoMore(matched, page);
    SortByPermutes(GroupTime(), groups);
    SortByPermutes(GroupTime(), Grouped(matched));
    if ErasedAll(Answer(s')) == SortBy(GroupTime(), groups) {
      assert |Answer(s')| <= |Expected(provider, request)|;
      NoUsageNoLength(s.fetched);
      assert Answer(s') == Expected(provider, request);
    }
  }

  lemma {:induction false} NoUsageNoLength(s: seq<Estimate>)
    requires AllDated(s)
    ensures |NonEmpty(s)| == 0 <==> NonEmpty(s) == []
  {
  }

  lemma {:induction false} AnswerDated(s: State)
    requires AllDated(s.cached) && AllDated(s.fetched)
    ensures AllDated(Answer(s))
  {
    var all := NonEmpty(s.cached + s.fetched);
    NonEmptyDated(s.cached + s.fetched);
    SortByPermutes(TimeAt(0), all + []);
    forall i | 0 <= i < |Answer(s)| ensures Answer(s)[i].Estimate? { assert Answer(s)[i] in all + []; }
  }

  // ----- runs -----

  ghost function DocumentsAfterCalls(provider: Provider, docs: seq<Document>, seeding: Option<string>,
                                     calls: seq<Call>): seq<Document>
    requires AnswersDated(provider)
  {
    if calls == [] then docs
    else
      var n := |calls| - 1;
      DocumentsAfter(provider, DocumentsAfterCalls(provider, docs, seeding, calls[..n]), seeding, calls[n].request)
  }

  /** Throughout a run, the collection agrees with the provider. */
  lemma {:induction false} CollectionStaysInAgreementOverRun(provider: Provider, docs: seq<Document>, calls: seq<Call>)
    requires provider.Faithful() && provider.LosesNothing() && AnswersDated(provider)
    requires CollectionAgrees(provider, docs) && forall i :: 0 <= i < |calls| ==> !calls[i].request.ignoreCache
    ensures CollectionAgrees(provider, DocumentsAfterCalls(provider, docs, None, calls))
    decreases |calls|
  {
    hide CollectionAgrees, DocumentsAfter, Provider.Faithful, Provider.LosesNothing, AnswersDated;
    if calls != [] {
      var n := |calls| - 1;
      CollectionStaysInAgreementOverRun(provider, docs, calls[..n]);
      CollectionStaysInAgreement(provider, DocumentsAfterCalls(provider, docs, None, calls[..n]), calls[n].request);
    }
  }

  /** The two backends, having run the same calls, answer call `i` alike. */
  ghost predicate AgreeAt(provider: Provider, codec: Codec, s: State, docs: seq<Document>, calls: seq<Call>, page: Page,
                          i: nat)
    requires AnswersDated(provider) && i < |calls|
  {
    var s' := StateAfter(provider, codec, s, calls[..i + 1]);
    var docs' := DocumentsAfterCalls(provider, docs, None, calls[..i + 1]);
    AllDated(s'.cached) && AllDated(s'.fetched) && AllDated(Answer(s')) &&
    ErasedAll(Answer(s')) == SortBy(GroupTime(), Aggregated(docs', provider.unit, calls[i].request, page))
  }

  /**
    Over whole runs: the backends answer every call alike exactly when the page holds all services of
    each request and each call asks for something new once the local manager holds fetched usage.
   */
  lemma {:induction false} BackendsAgreeOverRun(provider: Provider, codec: Codec, s: State, entries: seq<Estimate>,
                                                since: int, docs: seq<Document>, calls: seq<Call>, page: Page)
    requires Sound(provider, codec) && MayStart(provider, codec, s, entries, since) && AreSerial(calls, since)
    requires CollectionAgrees(provider, docs)
    ensures (forall i :: 0 <= i < |calls| ==> AgreeAt(provider, codec, s, docs, calls, page, i)) <==>
            (forall i :: 0 <= i < |calls| ==>
               PageHolds(page, RequestedUsage(provider, calls[i].request)) &&
               (HoldsFetched(provider, s, entries, calls, i) ==> AsksForNew(provider, entries, calls, i)))
  {
    hide AgreeAt, AsksForNew, HoldsFetched, PageHolds, RequestedUsage, CollectionAgrees, Consistent,
         Provider.Faithful, Provider.LosesNothing, AnswersDated, DocumentsAfterCalls;
    forall i | 0 <= i < |calls|
      ensures AgreeAt(provider, codec, s, docs, calls, page, i) <==>
                PageHolds(page, RequestedUsage(provider, calls[i].request)) &&
                (HoldsFetched(provider, s, entries, calls, i) ==> AsksForNew(provider, entries, calls, i))
    {
      AgreeAtCall(provider, codec, s, entries, since, docs, calls, page, i);
    }
  }

  lemma {:induction false} AgreeAtCall(provider: Provider, codec: Codec, s: State, entries: seq<Estimate>, since: int,
                                       docs: seq<Document>, calls: seq<Call>, page: Page, i: nat)
    requires Sound(provider, codec) && MayStart(provider, codec, s, entries, since) && AreSerial(calls, since) &&
             i < |calls|
    requires CollectionAgrees(provider, docs)
    ensures AgreeAt(provider, codec, s, docs, calls, page, i) <==>
              PageHolds(page, RequestedUsage(provider, calls[i].request)) &&
              (HoldsFetched(provider, s, entries, calls, i) ==> AsksForNew(provider, entries, calls, i))
  {
    hide AsksForNew, PageHolds, RequestedUsage, CollectionAgrees, Consistent, Provider.Faithful,
         Provider.LosesNothing, AnswersDated, Persists, EntriesAfterCalls, After, Answer, DocumentsAfter, Aggregated,
         SortBy, NonEmpty;
    var before := calls[..i];
    assert calls[..i + 1][..i] == before;
    SerialBefore(calls, since, i);
    RunStaysConsistent(provider, codec, s, entries, since, before, calls[i].now);
    FetchedAfterCalls(provider, codec, s, entries, since, calls, i);
    PersistsExactly(provider, codec, s, entries, since, calls, i);
    CollectionStaysInAgreementOverRun(provider, docs, before);
    BackendsAgree(provider, codec, StateAfter(provider, codec, s, before),
                  EntriesAfterCalls(provider, codec, s, entries, before),
                  DocumentsAfterCalls(provider, docs, None, before), calls[i].request, page, calls[i].now);
  }
}
