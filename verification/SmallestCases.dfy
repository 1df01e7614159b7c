/**
  The smallest cases in which a cache is noticed, or loses something: one for each way in which the
  results about the caches can fail.
 */
module SmallestCases {
  import opened Options
  import opened Calendar
  import opened Ordering
  import opened Estimates
  import opened Requests
  import opened Fetching
  import opened CacheText
  import opened LocalCache
  import opened Transparency
  import opened CacheRuns
  import opened Seeding
  import opened MongoCache
  import opened MongoSeeding
  import opened Witnesses

  /** Usage in one period only. */
  function UsageOnlyAt(start: int, services: seq<ServiceData>): int -> seq<ServiceData> {
    (d: int) => if d == start then services else []
  }

  function NoUsage(): int -> seq<ServiceData> { (d: int) => [] }

  lemma {:induction false} EpochIsDay()
    ensures IsPeriodStart(Day, 0) && RequestedDates(Day, 0, 0) == [0]
  {
    hide RequestedDates, StartOf, PeriodNumber, MonthStartDay;
    assert PeriodStart(Day, 0) == 0;
    PeriodNumberOfStart(Day, 0);
    OneMissing(UsageProvider(Day, NoUsage(), NoUsage()), SomeCodec(), 0, 1);
  }

  /**
    The smallest run that is not transparent: with usage on 1970-01-01 only, asking for that day
    twice, starting without a file. Asking once is transparent.
   */
  lemma {:induction false} AskingTwiceIsNotTransparent(codec: Codec, service: ServiceData)
    requires codec.Valid()
    ensures var provider := UsageProvider(Day, UsageOnlyAt(0, [service]), NoUsage());
            var call := Call(Request(0, 0, false), MS_PER_DAY);
            Sound(provider, codec) &&
            Transparent(provider, codec, State(None, [], []), [call]) &&
            !Transparent(provider, codec, State(None, [], []), [call, call])
  {
    hide RequestedDates, PeriodStart, PeriodNumber, PeriodEndDate, UsageProvider, Transparent, Provider.Faithful,
         AnswersDated, Codec.Valid;
    var usage := UsageOnlyAt(0, [service]);
    var provider := UsageProvider(Day, usage, NoUsage());
    UsageProviderParts(Day, usage, NoUsage());
    UsageProviderIsFaithful(Day, usage, NoUsage());
    EpochIsDay();
    var call, s := Call(Request(0, 0, false), MS_PER_DAY), State(None, [], []);
    assert MayStart(provider, codec, s, [], MS_PER_DAY);
    assert forall t :: AsksFor(Day, call, t) <==> t == 0;
    NewOnce(provider, [call], 0);
    NewOnce(provider, [call, call], 0);
    assert NonEmpty(s.fetched) == [];
    RunIsTransparent(provider, codec, s, [], MS_PER_DAY, [call]);
    RunIsTransparent(provider, codec, s, [], MS_PER_DAY, [call, call]);
    assert HoldsFetched(provider, s, [], [call, call], 1);
  }

  /** A period asked for again and again is new once. */
  lemma {:induction false} NewOnce(provider: Provider, calls: seq<Call>, d: int)
    requires calls != [] && forall i :: 0 <= i < |calls| ==> calls[i] == calls[0]
    requires forall t :: AsksFor(provider.unit, calls[0], t) <==> t == d
    requires calls[0].request.startDate <= d && provider.usage(d) != []
    ensures AsksForNew(provider, [], calls, 0) && (|calls| > 1 ==> !AsksForNew(provider, [], calls, 1))
  {
    hide AsksFor, PeriodEndDate;
    assert calls[..0] == [];
    assert IsNew(provider, [], calls, 0, d);
    if |calls| > 1 { assert AsksFor(provider.unit, calls[..1][0], d); }
  }

  /** A week with usage on its Sunday only is answered as if it had none. */
  lemma {:induction false} SundayIsLost(codec: Codec, service: ServiceData)
    ensures var d := PeriodStart(Week, 0);
            var provider := UsageProvider(Week, UsageOnlyAt(d, [service]), NoUsage());
            AnswersDated(provider) && provider.Faithful() &&
            !FirstCallIsTransparent(provider, codec, Request(d, d, false), d + 1)
  {
    hide PeriodStart, PeriodNumber, UsageProvider, FirstCallIsTransparent, Provider.Faithful, AnswersDated, StartOf;
    var d := PeriodStart(Week, 0);
    var usage := UsageOnlyAt(d, [service]);
    UsageProviderParts(Week, usage, NoUsage());
    UsageProviderIsFaithful(Week, usage, NoUsage());
    PeriodNumberOfStart(Week, 0);
    FirstWeek(UsageProvider(Week, usage, NoUsage()), codec, d, d + 1);
  }

  // ----- the local file -----

  lemma {:induction false} OneMonth(month: int, t: int)
    requires (month == EPOCH_MONTH && 0 <= t < 31 * MS_PER_DAY) ||
             (month == EPOCH_MONTH + 1 && 31 * MS_PER_DAY <= t < 59 * MS_PER_DAY)
    ensures PeriodNumber(Month, t) == month && StartOf(Month, t) == PeriodStart(Month, month)
  {
    hide PeriodNumber, StartOf;
    MonthLength(EPOCH_MONTH);
    MonthLength(EPOCH_MONTH + 1);
    PeriodNumberUnique(Month, month, t);
    PeriodOfInstant(Month, t);
  }

  /**
    A request within one period, from after its start, fetches that period again and writes it over the
    file's entry: the file is as printed exactly when that entry was no longer than the new one.
   */
  lemma {:induction false} FetchedAgain(provider: Provider, codec: Codec, stored: Estimate, k: int, request: Request,
                                        now: int)
    requires Sound(provider, codec) && stored.Estimate? && stored.timestamp == PeriodStart(provider.unit, k) &&
             provider.usage(stored.timestamp) != []
    requires stored.timestamp < request.startDate <= request.endDate < now
    requires PeriodNumber(provider.unit, request.startDate) == k && PeriodNumber(provider.unit, request.endDate) == k
    ensures var e := provider.EstimateAt(stored.timestamp);
            var file := After(provider, codec, State(Some(Print(codec, [stored])), [], []), request, now).file;
            file == Some(Overwrite(Print(codec, [stored]), Print(codec, [e]))) &&
            (file == Some(Print(codec, [e])) <==> |codec.encode(stored)| <= |codec.encode(e)|)
  {
    hide PeriodStart, PeriodNumber, StartOf, PeriodEndDate, Print, Parse, FetchAll, FillDates, Provider.Faithful,
         Provider.LosesNothing, AnswersDated, Codec.Valid, FetchedUsage;
    var d := stored.timestamp;
    var e, text := provider.EstimateAt(d), Print(codec, [stored]);
    ParsePrint(codec, [stored]);
    PeriodOfInstant(provider.unit, request.startDate);
    assert [stored][1..] == [];
    assert FilterForRequest(request, [stored], now) == [];
    assert RequestedDates(provider.unit, request.startDate, request.endDate) == [d];
    assert MissingDates([], now, [d]) == [d] by { assert [d][1..] == []; }
    PeriodNumberOfStart(provider.unit, k);
    FillDatesFetched(provider, [d]);
    FetchedWithoutLoss(provider, [d]);
    assert EstimatesAt(provider, [d]) == [e];
    FetchedKeys(provider, [d], d);
    assert Loaded(codec, Some(text)) == [stored];
    assert Missing(provider, codec, Some(text), request, now) == [d];
    assert FetchAll(provider, [d]) != [];
    MergeOnes(TimeAt(now), e, stored);
    assert After(provider, codec, State(Some(text), [], []), request, now)
      == State(Some(Persisted(codec, text, [e], [], now)), [], [e]);
    assert Persisted(codec, text, [e], [], now) == Overwrite(text, Print(codec, [e]));
    PrintLength(codec, [stored]);
    PrintLength(codec, [e]);
    SizeOfOne(codec, stored);
    SizeOfOne(codec, e);
    FitsOver(text, Print(codec, [e]));
  }

  lemma {:induction false} FitsOver(existing: string, text: string)
    ensures Overwrite(existing, text) == text <==> |existing| <= |text|
  {
    if |existing| <= |text| { assert text + "" == text; }
  }

  lemma {:induction false} MergeOnes(key: Estimate -> int, e: Estimate, f: Estimate)
    requires key(e) == key(f)
    ensures Merge(key, Merge(key, [e], []), [f]) == [e]
  {
    assert [e][1..] == [] && [f][1..] == [];
  }

  lemma {:induction false} SizeOfOne(codec: Codec, e: Estimate)
    ensures Size(codec, [e]) == |codec.encode(e)| + 3
  {
    assert [e][1..] == [];
  }

  function OneAMonth(service: ServiceData): Provider { UsageProvider(Month, UsageOnlyAt(0, [service]), NoUsage()) }

  lemma {:induction false} OneAMonthIsSound(service: ServiceData)
    ensures var provider := OneAMonth(service);
            Sound(provider, SomeCodec()) && provider.unit == Month && provider.usage(0) == [service]
  {
    hide SomeCodec, UsageProvider, Provider.Faithful, AnswersDated, Codec.Valid;
    UsageProviderParts(Month, UsageOnlyAt(0, [service]), NoUsage());
    UsageProviderIsFaithful(Month, UsageOnlyAt(0, [service]), NoUsage());
    CodecExists();
  }

  /** The entry for January, ending a millisecond later. */
  function Longer(service: ServiceData): Estimate {
    var e := OneAMonth(service).EstimateAt(0);
    e.(periodEnd := e.periodEnd + 1)
  }

  predicate IsMidJanuary(request: Request) { request == Request(14 * MS_PER_DAY, 20 * MS_PER_DAY, false) }

  lemma {:induction false} MidJanuary(request: Request, stored: Estimate)
    requires IsMidJanuary(request) && stored.Estimate? && stored.timestamp == 0
    ensures stored.timestamp == PeriodStart(Month, EPOCH_MONTH) &&
            stored.timestamp < request.startDate <= request.endDate
    ensures PeriodNumber(Month, request.startDate) == EPOCH_MONTH && PeriodNumber(Month, request.endDate) == EPOCH_MONTH
  {
    hide PeriodNumber, PeriodStart;
    OneMonth(EPOCH_MONTH, request.startDate);
    OneMonth(EPOCH_MONTH, request.endDate);
    EndOfJanuary();
  }

  /** So asking for January from the 15th to the 21st can leave the end of the old text behind the new one. */
  lemma {:induction false} TailIsLeft(service: ServiceData, request: Request, now: int)
    requires IsMidJanuary(request) && request.endDate < now
    ensures Sound(OneAMonth(service), SomeCodec())
    ensures var text := Print(SomeCodec(), [Longer(service)]);
            After(OneAMonth(service), SomeCodec(), State(Some(text), [], []), request, now).file
              != Some(Print(SomeCodec(), [OneAMonth(service).EstimateAt(0)]))
  {
    hide *;
    OneAMonthIsSound(service);
    LongerText(service);
    MidJanuary(request, Longer(service));
    FetchedAgain(OneAMonth(service), SomeCodec(), Longer(service), EPOCH_MONTH, request, now);
  }

  lemma {:induction false} LongerText(service: ServiceData)
    ensures var e := OneAMonth(service).EstimateAt(0);
            Longer(service).Estimate? && Longer(service).timestamp == 0 && e.Estimate? &&
            |SomeCodec().encode(e)| < |SomeCodec().encode(Longer(service))|
  {
    hide Encoded, Decoded, PeriodEndDate, UsageProvider, PeriodStart;
    UsageProviderParts(Month, UsageOnlyAt(0, [service]), NoUsage());
    EndOfJanuary();
    LaterEndIsLonger(OneAMonth(service).EstimateAt(0));
  }

  lemma {:induction false} EndOfJanuary()
    ensures PeriodStart(Month, EPOCH_MONTH) == 0 && PeriodEndDate(Month, 0) >= 0
  {
    hide Add, PeriodNumber;
    AddToPeriodStart(Month, EPOCH_MONTH, 1);
    MonthLength(EPOCH_MONTH);
  }

  /** January 15 to February 10 by months, one at a time: February is not asked for. */
  lemma {:induction false} FebruaryIsLost()
    ensures var start, end := 14 * MS_PER_DAY, 40 * MS_PER_DAY;
            LosesLast(Month, start, end, 1) && StartOf(Month, end) in RequestedDates(Month, start, end) &&
            StartOf(Month, end) !in AllRequested(Month, Windows(Month, start, end, 1))
  {
    hide PeriodNumber, PeriodStart, StartOf, Add, LosesLast, RequestedDates, Windows, AllRequested;
    var start, end := 14 * MS_PER_DAY, 40 * MS_PER_DAY;
    OneMonth(EPOCH_MONTH, start);
    OneMonth(EPOCH_MONTH + 1, end);
    AddMovesPeriods(Month, start, 1);
    MiddleOfFebruary();
    NextLoses(Month, start, end, 1);
    NextLoses(Month, Add(Month, start, 1), end, 1);
    WindowsAsk(Month, start, end, 1, StartOf(Month, end));
  }

  lemma {:induction false} MiddleOfFebruary()
    ensures Add(Month, 14 * MS_PER_DAY, 1) == 45 * MS_PER_DAY
  {
    hide Add, DateOf, PeriodNumber;
    AddedMonths(14 * MS_PER_DAY, 1);
    InItsMonth(14 * MS_PER_DAY);
    OneMonth(EPOCH_MONTH, 14 * MS_PER_DAY);
    MonthLength(EPOCH_MONTH);
  }

  // ----- the two ways to an empty array -----

  lemma {:induction false} SilentAnswers(unit: GroupBy, usage: int -> seq<ServiceData>, ranges: seq<Range>)
    ensures Answers(Silent(unit, usage), ranges) == []
  {
    if ranges != [] { SilentAnswers(unit, usage, ranges[..|ranges| - 1]); }
  }

  /**
    Without a file and without usage, a request up to the current time is answered once; then the file
    holds the empty array, and the same request has no answer.
   */
  lemma {:induction false} SecondCallHasNoAnswer(codec: Codec, unit: GroupBy, now: int)
    requires codec.Valid()
    ensures var provider := Silent(unit, NoUsage());
            var request := Request(now, now, false);
            AnswersDated(provider) &&
            var once := After(provider, codec, State(None, [], []), request, now);
            AllDated(once.cached) && !AllDated(After(provider, codec, once, request, now).cached)
  {
    hide RequestedDates, MissingDates, FetchRanges, Parse, Codec.Valid;
    var provider, request := Silent(unit, NoUsage()), Request(now, now, false);
    var missing := Missing(provider, codec, None, request, now);
    SilentAnswers(unit, NoUsage(), FetchRanges(unit, missing));
    var once := After(provider, codec, State(None, [], []), request, now);
    ParseFresh(codec);
    AnswersUnlessEmptyArray(provider, codec, State(None, [], []), request, now);
    AnswersUnlessEmptyArray(provider, codec, once, request, now);
  }

  // ----- the collection -----

  /** A provider of usage on 1970-01-01 only. */
  function OneDay(services: seq<ServiceData>): Provider { UsageProvider(Day, UsageOnlyAt(0, services), NoUsage()) }

  lemma {:induction false} OneDayLosesNothing(services: seq<ServiceData>)
    ensures var provider := OneDay(services);
            provider.unit == Day && provider.usage == UsageOnlyAt(0, services) && provider.shortUsage == NoUsage() &&
            provider.Faithful() && provider.LosesNothing() && AnswersDated(provider)
  {
    hide UsageProvider, Provider.Faithful, AnswersDated;
    UsageProviderParts(Day, UsageOnlyAt(0, services), NoUsage());
    UsageProviderIsFaithful(Day, UsageOnlyAt(0, services), NoUsage());
  }

  lemma {:induction false} NothingHeld(provider: Provider)
    ensures CollectionAgrees(provider, [])
  {
  }

  predicate IsFirstDay(request: Request) { request == Request(0, 0, false) }

  lemma {:induction false} FirstDay(request: Request)
    requires IsFirstDay(request)
    ensures RequestedDates(Day, request.startDate, request.endDate) == [0] && !request.ignoreCache
  {
    hide *;
    EpochIsDay();
    IsEpoch(request);
  }

  lemma {:induction false} IsEpoch(request: Request)
    requires IsFirstDay(request)
    ensures request.startDate == 0 && request.endDate == 0 && !request.ignoreCache
  {
  }

  /** 1970-01-01 seeded as `aws`, where the documents say `AWS`: seeding it twice stores its usage twice. */
  lemma {:induction false} SeedingTwiceInLowerCase(service: ServiceData, request: Request)
    requires service.cloudProvider == "AWS" && IsFirstDay(request)
    ensures var provider := OneDay([service]);
            AnswersDated(provider) &&
            var once := DocumentsAfter(provider, [], Some("aws"), request);
            var twice := DocumentsAfter(provider, once, Some("aws"), request);
            Services(WithKey(DocumentTime(), 0, OfProvider(once, "AWS"))) == [service] &&
            Services(WithKey(DocumentTime(), 0, OfProvider(twice, "AWS"))) == [service, service] &&
            CollectionAgrees(provider, OfProvider(once, "AWS")) && !CollectionAgrees(provider, OfProvider(twice, "AWS"))
  {
    hide OneDay, IsFirstDay, RequestedDates, DocumentsAfter, OfProvider, WithKey, CollectionAgrees, Provider.Faithful,
         Provider.LosesNothing, AnswersDated, StartOf, Services;
    var provider := OneDay([service]);
    OneDayLosesNothing([service]);
    FirstDay(request);
    NothingHeld(provider);
    NothingOf("AWS");
    var once := DocumentsAfter(provider, [], Some("aws"), request);
    var twice := DocumentsAfter(provider, once, Some("aws"), request);
    SeedingAppendsAll(provider, [], request, "AWS", "aws", 0);
    SeedingUnderAnotherName(provider, [], request, "AWS", "aws");
    assert [] + [service] == [service] && [service] + [service] == [service, service];
    SeedingAppendsAll(provider, once, request, "AWS", "aws", 0);
    SeedingUnderAnotherName(provider, once, request, "AWS", "aws");
    assert 0 in RequestedDates(Day, request.startDate, request.endDate);
  }

  lemma {:induction false} NothingOf(name: string)
    ensures OfProvider([], name) == [] && WithKey(DocumentTime(), 0, []) == [] && Services([]) == []
  {
  }

  /** A period of two services does not fit on a page of one document. */
  lemma {:induction false} PageOfOne(one: ServiceData, two: ServiceData, request: Request, page: Page)
    requires IsFirstDay(request) && page == Page(0, 1)
    ensures var provider := OneDay([one, two]);
            AnswersDated(provider) && AllDated(Expected(provider, request)) &&
            SortBy(GroupTime(), Aggregated(DocumentsAfter(provider, [], None, request), provider.unit, request, page))
              != ErasedAll(Expected(provider, request))
  {
    hide OneDay, IsFirstDay, RequestedDates, DocumentsAfter, CollectionAgrees, Provider.Faithful,
         Provider.LosesNothing, AnswersDated, StartOf, Aggregated, Expected, SortBy;
    var provider := OneDay([one, two]);
    OneDayLosesNothing([one, two]);
    FirstDay(request);
    NothingHeld(provider);
    assert UsageCount(provider, [0]) == 2 by { assert [0][..0] == []; }
    MongoCallIsTransparent(provider, [], request, page,
                           Aggregated(DocumentsAfter(provider, [], None, request), provider.unit, request, page));
  }

  // ----- the default window -----

  predicate IsFebruaryToMarch(start: int, end: int) {
    start == 58 * MS_PER_DAY + 18 * MS_PER_HOUR && end == 89 * MS_PER_DAY + 6 * MS_PER_HOUR
  }

  /** Where two dates of February 28 and March 31 lie, and the month after the first. */
  lemma {:induction false} FebruaryToMarch(start: int, end: int)
    requires IsFebruaryToMarch(start, end)
    ensures start <= end && PeriodNumber(Month, end) == PeriodNumber(Month, start) + 1
    ensures DayOfMonth(start) == 28 && DayOfMonth(end) == 31
    ensures Add(Month, end, -1) < start && Add(Month, start, 1) <= end < Add(Month, start, 2)
  {
    hide Add, DateOf, PeriodNumber, StartOf, DayOfMonth, MonthStartDay;
    MonthLength(EPOCH_MONTH);
    MonthLength(EPOCH_MONTH + 1);
    MonthLength(EPOCH_MONTH + 2);
    MonthLength(EPOCH_MONTH + 3);
    EndOfJanuary();
    PeriodNumberUnique(Month, EPOCH_MONTH + 1, start);
    PeriodNumberUnique(Month, EPOCH_MONTH + 2, end);
    InItsMonth(start);
    InItsMonth(end);
    AddedMonths(start, 1);
    AddedMonths(start, 2);
    AddedMonths(end, -1);
  }

  /**
    From February 28 18:00 to March 31 06:00 no whole month is counted, so the default window is one
    month, and it takes two.
   */
  lemma {:induction false} DefaultWindowMakesTwo(start: int, end: int)
    requires IsFebruaryToMarch(start, end)
    ensures start <= end && Diff(Month, start, end) == 0 && |Windows(Month, start, end, 1)| == 2
  {
    hide Add, DayOfMonth, PeriodNumber, Windows, IsFebruaryToMarch;
    FebruaryToMarch(start, end);
    FirstWindow(Month, start, end, 1);
    FirstWindow(Month, Add(Month, start, 1), end, 1);
    FirstWindow(Month, Add(Month, Add(Month, start, 1), 1), end, 1);
    AddIncreases(Month, end, 0, 1);
    NextMonthAfter(start, end);
  }

  lemma {:induction false} NextMonthAfter(start: int, end: int)
    requires IsFebruaryToMarch(start, end)
    ensures end < Add(Month, Add(Month, start, 1), 1)
  {
    hide PeriodNumber, Add, IsFebruaryToMarch;
    FebruaryToMarch(start, end);
    AddMovesPeriods(Month, start, 1);
    AddMovesPeriods(Month, Add(Month, start, 1), 1);
    LaterPeriod(Month, end, Add(Month, Add(Month, start, 1), 1));
  }
}
