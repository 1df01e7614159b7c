/**
  Seeding the cache file: a date range is requested in windows of a number of units, one call of
  the cached request after another.
 */
module Seeding {
  import opened Options
  import opened Calendar
  import opened Ordering
  import opened Estimates
  import opened Requests
  import opened Fetching
  import opened CacheText
  import opened LocalCache
  import opened Transparency
  import opened CacheRuns

  /** The requests of the windows of `n` units, from a date up to an end date. */
  function Windows(unit: GroupBy, current: int, end: int, n: nat): seq<Request>
    requires n > 0
    decreases end - current
  {
    AddNothing(unit, current);
    AddIncreases(unit, current, 0, n);
    if end < current then []
    else
      var last := Add(unit, current, n - 1);
      [Request(current, if end < last then end else last, false)] + Windows(unit, Add(unit, current, n), end, n)
  }

  lemma {:induction false} FirstWindow(unit: GroupBy, current: int, end: int, n: nat)
    requires n > 0
    ensures var last := Add(unit, current, n - 1);
            Windows(unit, current, end, n) ==
              if end < current then []
              else [Request(current, if end < last then end else last, false)]
                   + Windows(unit, Add(unit, current, n), end, n)
  {
    hide Add;
  }

  /** The periods that a list of requests asks for, request by request. */
  function AllRequested(unit: GroupBy, requests: seq<Request>): seq<int> {
    if requests == [] then []
    else RequestedDates(unit, requests[0].startDate, requests[0].endDate) + AllRequested(unit, requests[1..])
  }

  // ----- which periods the windows ask for -----

  /** A window would begin in the period of the end date, but after the end date. */
  predicate LosesLast(unit: GroupBy, current: int, end: int, n: nat)
    requires n > 0
    decreases PeriodNumber(unit, end) - PeriodNumber(unit, current)
  {
    AddMovesPeriods(unit, current, n);
    if PeriodNumber(unit, current) < PeriodNumber(unit, end) then LosesLast(unit, Add(unit, current, n), end, n)
    else PeriodNumber(unit, current) == PeriodNumber(unit, end) && end < current
  }

  lemma {:induction false} NextLoses(unit: GroupBy, current: int, end: int, n: nat)
    requires n > 0
    ensures LosesLast(unit, current, end, n) ==
              if PeriodNumber(unit, current) < PeriodNumber(unit, end)
                then LosesLast(unit, Add(unit, current, n), end, n)
              else PeriodNumber(unit, current) == PeriodNumber(unit, end) && end < current
  {
    hide PeriodNumber, Add;
  }

  function CountAsked(unit: GroupBy, start: int, end: int, n: nat): nat
    requires n > 0
  {
    var count := RequestedCount(unit, start, end);
    if LosesLast(unit, start, end, n) && count > 0 then count - 1 else count
  }

  lemma {:induction false} SplitPeriodStarts(unit: GroupBy, k: int, m: nat, n: nat)
    ensures PeriodStarts(unit, k, m) + PeriodStarts(unit, k + m, n) == PeriodStarts(unit, k, m + n)
  {
    hide PeriodStart;
  }

  lemma {:induction false} NothingStarts(unit: GroupBy, k: int, s: seq<int>)
    ensures s + PeriodStarts(unit, k, 0) == s
  {
    hide PeriodStart;
  }

  lemma {:induction false} WindowCounts(unit: GroupBy, current: int, end: int, n: nat)
    requires n > 0 && current <= end
    ensures var last, next := Add(unit, current, n - 1), Add(unit, current, n);
            PeriodNumber(unit, next) == PeriodNumber(unit, current) + n &&
            (end < last ==>
               CountAsked(unit, current, end, n) == RequestedCount(unit, current, end) &&
               CountAsked(unit, next, end, n) == 0) &&
            (last <= end ==>
               RequestedCount(unit, current, last) == n &&
               CountAsked(unit, current, end, n) == n + CountAsked(unit, next, end, n))
  {
    hide PeriodNumber, Add, LosesLast;
    var last, next := Add(unit, current, n - 1), Add(unit, current, n);
    AddMovesPeriods(unit, current, n - 1);
    AddMovesPeriods(unit, current, n);
    LaterPeriod(unit, current, end);
    LaterPeriod(unit, end, last);
    LaterPeriod(unit, last, end);
    NextLoses(unit, current, end, n);
    NextLoses(unit, next, end, n);
  }

  lemma {:induction false} WindowsAskFor(unit: GroupBy, current: int, end: int, n: nat)
    requires n > 0
    ensures AllRequested(unit, Windows(unit, current, end, n))
         == PeriodStarts(unit, PeriodNumber(unit, current), CountAsked(unit, current, end, n))
    decreases end - current
  {
    hide PeriodStart, PeriodNumber, PeriodStarts, Add, CountAsked, Windows;
    FirstWindow(unit, current, end, n);
    if end < current {
      NoneAsked(unit, current, end, n);
      NothingStarts(unit, PeriodNumber(unit, current), []);
    } else {
      var next, last, windows := Add(unit, current, n), Add(unit, current, n - 1), Windows(unit, current, end, n);
      AddNothing(unit, current);
      AddIncreases(unit, current, 0, n);
      WindowsAskFor(unit, next, end, n);
      WindowCounts(unit, current, end, n);
      assert windows[1..] == Windows(unit, next, end, n);
      if end < last {
        NothingStarts(unit, PeriodNumber(unit, next), RequestedDates(unit, current, end));
      } else {
        SplitPeriodStarts(unit, PeriodNumber(unit, current), n, CountAsked(unit, next, end, n));
      }
    }
  }

  lemma {:induction false} NoneAsked(unit: GroupBy, current: int, end: int, n: nat)
    requires n > 0 && end < current
    ensures CountAsked(unit, current, end, n) == 0
  {
    hide PeriodNumber, Add, LosesLast;
    LaterPeriod(unit, end, current);
    NextLoses(unit, current, end, n);
  }

  lemma {:induction false} LostIsRequested(unit: GroupBy, current: int, end: int, n: nat)
    requires n > 0 && LosesLast(unit, current, end, n)
    ensures RequestedCount(unit, current, end) > 0
    decreases PeriodNumber(unit, end) - PeriodNumber(unit, current)
  {
    hide PeriodNumber, Add;
    AddMovesPeriods(unit, current, n);
  }

  /**
    Windows of any size ask for the periods of the whole range exactly once, in order, from any start;
    only the last period is lost, exactly when a window would begin in it after the end date.
   */
  lemma {:induction false} WindowsRequestEachOnce(unit: GroupBy, start: int, end: int, n: nat)
    requires n > 0
    ensures var whole := RequestedDates(unit, start, end);
            if LosesLast(unit, start, end, n)
              then whole != [] && AllRequested(unit, Windows(unit, start, end, n)) == whole[..|whole| - 1]
            else AllRequested(unit, Windows(unit, start, end, n)) == whole
  {
    hide PeriodStart, PeriodNumber, Add, LosesLast, Windows, AllRequested;
    WindowsAskFor(unit, start, end, n);
    if LosesLast(unit, start, end, n) { LostIsRequested(unit, start, end, n); }
  }

  /** From a date on which a period starts, no period is lost. */
  lemma {:induction false} AlignedLosesNone(unit: GroupBy, start: int, end: int, n: nat)
    requires n > 0 && IsPeriodStart(unit, start)
    ensures !LosesLast(unit, start, end, n)
    decreases PeriodNumber(unit, end) - PeriodNumber(unit, start)
  {
    hide PeriodStart, PeriodNumber, Add, StartOf, LosesLast;
    var k := PeriodNumber(unit, start);
    NextLoses(unit, start, end, n);
    AddMovesPeriods(unit, start, n);
    AddToPeriodStart(unit, k, n);
    PeriodNumberOfStart(unit, k + n);
    PeriodAtOrBefore(unit, k, end);
    if k < PeriodNumber(unit, end) { AlignedLosesNone(unit, Add(unit, start, n), end, n); }
  }

  /** No more units fit between the dates than are counted, as between dates of the same time of day. */
  predicate CountsAll(unit: GroupBy, start: int, end: int) {
    unit.Day? || unit.Week? || start % MS_PER_DAY == end % MS_PER_DAY
  }

  /**
    The default window, one unit longer than the whole units between the dates, makes a single request
    exactly when it goes past the end date, as it does when the count misses none.
   */
  lemma {:induction false} SingleWindow(unit: GroupBy, start: int, end: int)
    requires start <= end
    ensures var n := Diff(unit, start, end) + 1;
            n > 0 &&
            (Windows(unit, start, end, n) == [Request(start, Add(unit, start, n - 1), false)] <==>
               end < Add(unit, start, n)) &&
            (CountsAll(unit, start, end) ==> end < Add(unit, start, n))
  {
    hide PeriodNumber, Add, Diff, Windows;
    DiffFits(unit, start, end);
    var n := Diff(unit, start, end) + 1;
    FirstWindow(unit, start, end, n);
    FirstWindow(unit, Add(unit, start, n), end, n);
  }

  /** That request loses the last period exactly when more periods begin than whole units pass between the dates. */
  lemma {:induction false} SingleWindowLoses(unit: GroupBy, start: int, end: int)
    requires start <= end && CountsAll(unit, start, end)
    ensures var n := Diff(unit, start, end) + 1;
            n > 0 && (LosesLast(unit, start, end, n) <==> PeriodNumber(unit, end) - PeriodNumber(unit, start) == n)
  {
    hide PeriodNumber, Add, Diff, LosesLast;
    DiffFits(unit, start, end);
    var n := Diff(unit, start, end) + 1;
    var next := Add(unit, start, n);
    AddMovesPeriods(unit, start, n);
    NextLoses(unit, start, end, n);
    NextLoses(unit, next, end, n);
    LaterPeriod(unit, start, end);
    LaterPeriod(unit, end, next);
  }

  lemma {:induction false} WindowsEndBy(unit: GroupBy, current: int, end: int, n: nat)
    requires n > 0
    ensures EndBy(Windows(unit, current, end, n), end)
    decreases end - current
  {
    hide Add, Windows;
    FirstWindow(unit, current, end, n);
    if current <= end {
      AddNothing(unit, current);
      AddIncreases(unit, current, 0, n);
      WindowsEndBy(unit, Add(unit, current, n), end, n);
    }
  }

  // ----- what the calls leave in the file -----

  /** Requests that end by a date and use the cache. */
  ghost predicate EndBy(requests: seq<Request>, end: int) {
    forall i :: 0 <= i < |requests| ==> requests[i].endDate <= end && !requests[i].ignoreCache
  }

  /** The clock is past a date, and does not run backwards. */
  ghost predicate ClockAfter(now: nat -> int, end: int) {
    end < now(0) && forall i: nat, j: nat :: i <= j ==> now(i) <= now(j)
  }

  /** Requests made one after another, request `i` at time `now(i)`. */
  function CallsAt(requests: seq<Request>, now: nat -> int): (calls: seq<Call>)
    ensures |calls| == |requests| && forall i :: 0 <= i < |calls| ==> calls[i] == Call(requests[i], now(i))
  {
    seq(|requests|, i requires 0 <= i < |requests| => Call(requests[i], now(i)))
  }

  lemma {:induction false} CallsAreSerial(requests: seq<Request>, end: int, now: nat -> int)
    requires EndBy(requests, end) && ClockAfter(now, end)
    ensures AreSerial(CallsAt(requests, now), now(0))
  {
  }

  lemma {:induction false} RequestedByOne(unit: GroupBy, requests: seq<Request>, d: int)
    ensures d in AllRequested(unit, requests) <==>
              exists i :: 0 <= i < |requests| && d in RequestedDates(unit, requests[i].startDate, requests[i].endDate)
  {
    hide RequestedDates;
    if requests != [] {
      RequestedByOne(unit, requests[1..], d);
      if i :| 0 <= i < |requests| && d in RequestedDates(unit, requests[i].startDate, requests[i].endDate) {
        assert i > 0 ==> requests[1..][i - 1] == requests[i];
      }
      if i :| 0 <= i < |requests[1..]| &&
              d in RequestedDates(unit, requests[1..][i].startDate, requests[1..][i].endDate) {
        assert requests[i + 1] == requests[1..][i];
      }
    }
  }

  lemma {:induction false} AskedIsRequested(unit: GroupBy, requests: seq<Request>, now: nat -> int, d: int)
    ensures Asked(unit, CallsAt(requests, now), d) <==> d in AllRequested(unit, requests)
  {
    hide RequestedDates, AllRequested;
    var calls := CallsAt(requests, now);
    RequestedByOne(unit, requests, d);
    if i :| 0 <= i < |requests| && d in RequestedDates(unit, requests[i].startDate, requests[i].endDate) {
      assert AsksFor(unit, calls[i], d);
    }
    if i :| 0 <= i < |calls| && AsksFor(unit, calls[i], d) {
      assert d in RequestedDates(unit, requests[i].startDate, requests[i].endDate);
    }
  }

  /** The dated entries, without the empty ones. */
  function UsageOf(entries: seq<Estimate>): (r: seq<Estimate>) {
    if entries == [] then []
    else (if HasUsage(entries[0]) then [entries[0]] else []) + UsageOf(entries[1..])
  }

  lemma {:induction false} UsageOfMembers(entries: seq<Estimate>, e: Estimate)
    ensures e in UsageOf(entries) <==> e in entries && HasUsage(e)
  {
    if entries != [] { UsageOfMembers(entries[1..], e); }
  }

  lemma {:induction false} UsageOfSorted(entries: seq<Estimate>, now: int)
    requires StrictlySorted(TimeAt(now), entries)
    ensures StrictlySorted(TimeAt(0), UsageOf(entries))
  {
    if entries != [] {
      UsageOfSorted(entries[1..], now);
      var r := UsageOf(entries[1..]);
      forall i | 0 <= i < |r| && HasUsage(entries[0]) ensures TimeAt(0)(entries[0]) < TimeAt(0)(r[i]) {
        UsageOfMembers(entries[1..], r[i]);
        assert TimeAt(now)(entries[0]) < TimeAt(now)(r[i]);
      }
    }
  }

  /** The entries of the file after seeding. */
  ghost function Seeded(provider: Provider, codec: Codec, s: State, entries: seq<Estimate>, start: int, end: int,
                        n: nat, now: nat -> int): seq<Estimate>
    requires AnswersDated(provider) && n > 0
  {
    EntriesAfterCalls(provider, codec, s, entries, CallsAt(Windows(provider.unit, start, end, n), now))
  }

  /**
    Seeding leaves in the file the usage it held and that of the periods asked for, sorted, agreeing
    with the provider.
   */
  lemma {:induction false} SeededUsage(provider: Provider, codec: Codec, s: State, entries: seq<Estimate>, start: int,
                                       end: int, n: nat, now: nat -> int, e: Estimate)
    requires Sound(provider, codec) && ClockAfter(now, end) && n > 0 && MayStart(provider, codec, s, entries, now(0))
    ensures e in UsageOf(Seeded(provider, codec, s, entries, start, end, n, now)) <==>
              HasUsage(e) && (e in entries ||
                              (provider.IsEstimateAt(e) &&
                               e.timestamp in AllRequested(provider.unit, Windows(provider.unit, start, end, n))))
    ensures StrictlySorted(TimeAt(0), UsageOf(Seeded(provider, codec, s, entries, start, end, n, now)))
  {
    hide StateAfter, EntriesAfterCalls, Windows, AllRequested, Asked, PeriodEndDate, Consistent, Provider.Faithful,
         AnswersDated, UsageOf;
    var requests := Windows(provider.unit, start, end, n);
    var calls := CallsAt(requests, now);
    var held := EntriesAfterCalls(provider, codec, s, entries, calls);
    WindowsEndBy(provider.unit, start, end, n);
    CallsAreSerial(requests, end, now);
    ConsistentAfter(provider, codec, s, entries, calls, now);
    UsageOfSorted(held, now(|calls|));
    UsageOfMembers(held, e);
    if HasUsage(e) {
      RunAddsExpected(provider, codec, s, entries, now(0), calls, e);
      AskedIsRequested(provider.unit, requests, now, e.timestamp);
    }
  }

  lemma {:induction false} ConsistentAfter(provider: Provider, codec: Codec, s: State, entries: seq<Estimate>,
                                           calls: seq<Call>, now: nat -> int)
    requires Sound(provider, codec) && MayStart(provider, codec, s, entries, now(0)) && AreSerial(calls, now(0))
    requires forall i: nat, j: nat :: i <= j ==> now(i) <= now(j)
    requires forall i :: 0 <= i < |calls| ==> calls[i].now == now(i)
    ensures Agrees(provider, EntriesAfterCalls(provider, codec, s, entries, calls), now(|calls|))
  {
    hide StateAfter, EntriesAfterCalls, Agrees, Holds, Provider.Faithful, AnswersDated;
    RunStaysConsistent(provider, codec, s, entries, now(0), calls, now(|calls|));
  }

  /** Windows ask for the last period of the range unless they lose it, and for the others anyway. */
  lemma {:induction false} WindowsAsk(unit: GroupBy, start: int, end: int, n: nat, d: int)
    requires n > 0
    ensures d in AllRequested(unit, Windows(unit, start, end, n)) <==>
              d in RequestedDates(unit, start, end) && !(LosesLast(unit, start, end, n) && d == StartOf(unit, end))
    ensures LosesLast(unit, start, end, n) ==> StartOf(unit, end) in RequestedDates(unit, start, end)
  {
    hide PeriodStart, PeriodNumber, StartOf, Windows, AllRequested, RequestedDates, LosesLast;
    var whole := RequestedDates(unit, start, end);
    WindowsRequestEachOnce(unit, start, end, n);
    RequestedDatesExact(unit, start, end);
    if whole != [] {
      var last := whole[|whole| - 1];
      assert last in whole;
      LastStart(unit, start, end, last);
      assert forall i :: 0 <= i < |whole| - 1 ==> whole[i] < last;
      assert whole == whole[..|whole| - 1] + [last];
    }
  }

  lemma {:induction false} LastStart(unit: GroupBy, start: int, end: int, last: int)
    requires RequestedDates(unit, start, end) != [] && last == Last(RequestedDates(unit, start, end))
    ensures last == StartOf(unit, end)
  {
    hide PeriodStart, PeriodNumber, StartOf;
    PeriodOfInstant(unit, end);
  }

  /**
    Seeding by windows of any two sizes, from any start, leaves the same usage in the file exactly when
    both or neither lose the last period, or that period makes no difference.
   */
  lemma {:induction false} WindowSizeDoesNotMatter(provider: Provider, codec: Codec, s: State, entries: seq<Estimate>,
                                                   start: int, end: int, m: nat, n: nat, now: nat -> int)
    requires Sound(provider, codec) && ClockAfter(now, end) && m > 0 && n > 0 &&
             MayStart(provider, codec, s, entries, now(0))
    ensures UsageOf(Seeded(provider, codec, s, entries, start, end, m, now))
              == UsageOf(Seeded(provider, codec, s, entries, start, end, n, now)) <==>
              (LosesLast(provider.unit, start, end, m) == LosesLast(provider.unit, start, end, n) ||
               provider.usage(StartOf(provider.unit, end)) == [] ||
               provider.EstimateAt(StartOf(provider.unit, end)) in entries)
  {
    hide Seeded, UsageOf, LosesLast, StartOf, AllRequested, Windows, RequestedDates, PeriodEndDate, MayStart,
         ClockAfter, Provider.Faithful, AnswersDated, Provider.LosesNothing, Codec.Valid;
    var unit, last := provider.unit, provider.EstimateAt(StartOf(provider.unit, end));
    var a := UsageOf(Seeded(provider, codec, s, entries, start, end, m, now));
    var b := UsageOf(Seeded(provider, codec, s, entries, start, end, n, now));
    var same := LosesLast(unit, start, end, m) == LosesLast(unit, start, end, n);
    forall e
      ensures (e in a <==> e in b) <==> (same || !(e == last && HasUsage(e)) || e in entries)
    {
      SeededUsage(provider, codec, s, entries, start, end, m, now, e);
      SeededUsage(provider, codec, s, entries, start, end, n, now, e);
      if e.Estimate? {
        WindowsAsk(unit, start, end, m, e.timestamp);
        WindowsAsk(unit, start, end, n, e.timestamp);
      }
    }
    SeededUsage(provider, codec, s, entries, start, end, m, now, last);
    SeededUsage(provider, codec, s, entries, start, end, n, now, last);
    if same || !HasUsage(last) || last in entries {
      StrictlySortedUnique(TimeAt(0), a, b);
    }
  }

  // ----- the loop -----

  lemma {:induction false} OneMoreRequest(provider: Provider, codec: Codec, s: State, made: seq<Request>,
                                          request: Request, now: nat -> int)
    requires AnswersDated(provider)
    ensures StateAfter(provider, codec, s, CallsAt(made + [request], now))
         == After(provider, codec, StateAfter(provider, codec, s, CallsAt(made, now)), request, now(|made|))
  {
    hide After;
    assert CallsAt(made + [request], now)[..|made|] == CallsAt(made, now);
  }

  lemma {:induction false} NoRequests(provider: Provider, codec: Codec, s: State, now: nat -> int)
    requires AnswersDated(provider)
    ensures StateAfter(provider, codec, s, CallsAt([], now)) == s
  {
  }

  /** The date that the loop has reached after `k` steps. */
  function Reached(unit: GroupBy, start: int, n: int, k: nat): int {
    if k == 0 then start else Add(unit, Reached(unit, start, n, k - 1), n)
  }

  lemma {:induction false} ReachedMoves(unit: GroupBy, start: int, n: int, k: nat)
    ensures n > 0 ==> start + k <= Reached(unit, start, n, k)
    ensures n <= 0 ==> Reached(unit, start, n, k) <= start
  {
    hide Add;
    if k > 0 {
      var before := Reached(unit, start, n, k - 1);
      ReachedMoves(unit, start, n, k - 1);
      AddNothing(unit, before);
      if n > 0 { AddIncreases(unit, before, 0, n); }
      if n < 0 { AddIncreases(unit, before, n, 0); }
    }
  }

  /** The loop passes the end date at some step exactly when the window is positive or the start lies after the end. */
  lemma {:induction false} LoopEnds(unit: GroupBy, start: int, end: int, n: int)
    ensures (exists k: nat :: end < Reached(unit, start, n, k)) <==> n > 0 || end < start
  {
    hide Add;
    if n > 0 && start <= end {
      ReachedMoves(unit, start, n, end - start + 1);
    }
    if end < start {
      assert end < Reached(unit, start, n, 0);
    }
    if k: nat :| end < Reached(unit, start, n, k) {
      ReachedMoves(unit, start, n, k);
    }
  }

  /** One more request of the loop. */
  method MakeRequest(manager: LocalCacheManager, provider: Provider, request: Request, calls: nat, now: nat -> int,
                     ghost before: State, ghost made: seq<Request>)
    requires AnswersDated(provider) && AllDated(manager.fetchedEstimates) && !request.ignoreCache && calls == |made|
    requires manager.View() == StateAfter(provider, manager.codec, before, CallsAt(made, now))
    modifies manager, manager.file
    ensures AllDated(manager.fetchedEstimates)
    ensures manager.View() == StateAfter(provider, manager.codec, before, CallsAt(made + [request], now))
  {
    hide After, StateAfter, CallsAt, LocalCacheManager.View, Missing, FetchAll, FilterForRequest, Loaded,
         AnswersDated, AllDated, Answer;
    OneMoreRequest(provider, manager.codec, before, made, request, now);
    var _ := GetCostAndEstimates(manager, provider, request, now(calls));
  }

  /** The requests of the loop, if it ends. */
  function LoopRequests(unit: GroupBy, start: int, end: int, n: int): seq<Request> {
    if n > 0 then Windows(unit, start, end, n) else []
  }

  /** `seedCacheFile`, of which the answers are dropped; without a positive window, only an empty range ends. */
  method SeedCacheFile(manager: LocalCacheManager, provider: Provider, startDate: int, endDate: int,
                       timePerRequest: int, now: nat -> int)
    requires AnswersDated(provider) && ClockAfter(now, endDate) && AllDated(manager.fetchedEstimates)
    requires timePerRequest > 0 || endDate < startDate
    modifies manager, manager.file
    ensures AllDated(manager.fetchedEstimates)
    ensures manager.View() == StateAfter(provider, manager.codec, old(manager.View()),
                                CallsAt(LoopRequests(provider.unit, startDate, endDate, timePerRequest), now))
  {
    hide Add, StateAfter, CallsAt, Windows, LocalCacheManager.View, AnswersDated, AllDated, ClockAfter;
    var unit, currentDate, calls := provider.unit, startDate, 0;
    ghost var windows, made := LoopRequests(unit, startDate, endDate, timePerRequest), [];
    NoRequests(provider, manager.codec, manager.View(), now);
    while currentDate <= endDate
      invariant calls == |made| && (timePerRequest > 0 || endDate < currentDate)
      invariant windows == made + LoopRequests(unit, currentDate, endDate, timePerRequest)
      invariant AllDated(manager.fetchedEstimates)
      invariant manager.View() == StateAfter(provider, manager.codec, old(manager.View()), CallsAt(made, now))
      decreases endDate - currentDate
    {
      FirstWindow(unit, currentDate, endDate, timePerRequest);
      AddNothing(unit, currentDate);
      AddIncreases(unit, currentDate, 0, timePerRequest);
      var nextDate := Add(unit, currentDate, timePerRequest - 1);
      if endDate < nextDate { nextDate := endDate; }
      var request := Request(currentDate, nextDate, false);
      MakeRequest(manager, provider, request, calls, now, old(manager.View()), made);
      PushFirst(made, request, Windows(unit, Add(unit, currentDate, timePerRequest), endDate, timePerRequest));
      made, calls := made + [request], calls + 1;
      currentDate := Add(unit, currentDate, timePerRequest);
    }
    if timePerRequest > 0 { FirstWindow(unit, currentDate, endDate, timePerRequest); }
    assert made == windows;
  }
}
