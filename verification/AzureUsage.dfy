/**
  Reading usage details from Azure: pages behind an iterator, retries while the rate limit is
  exceeded, and a time range requested in chunks of days.
 */
module AzureUsage {
  import opened Options
  import opened Calendar

  datatype UsageDetail = UsageDetail(id: string, usageStart: int, usageEnd: int)

  /** The filter of a query: usage that starts and ends between two times, each included or not. */
  datatype Query = Query(start: int, end: int, includeStart: bool, includeEnd: bool) {
    predicate Matches(row: UsageDetail) {
      (if includeStart then start <= row.usageStart else start < row.usageStart) &&
      (if includeEnd then row.usageEnd <= end else row.usageEnd < end)
    }
  }

  /**
    Usage strictly within the times is found and usage that goes beyond them is not; usage that starts or
    ends on one of them is found if the query includes that time.
   */
  lemma {:induction false} QueryEdges(row: UsageDetail, query: Query)
    ensures query.start < row.usageStart && row.usageEnd < query.end ==> query.Matches(row)
    ensures row.usageStart < query.start || query.end < row.usageEnd ==> !query.Matches(row)
    ensures row.usageStart == query.start && row.usageEnd < query.end ==> (query.Matches(row) <==> query.includeStart)
    ensures query.start < row.usageStart && row.usageEnd == query.end ==> (query.Matches(row) <==> query.includeEnd)
    ensures row.usageStart == query.start && row.usageEnd == query.end ==>
              (query.Matches(row) <==> query.includeStart && query.includeEnd)
  {
  }

  function Matching(rows: seq<UsageDetail>, query: Query): seq<UsageDetail> {
    if rows == [] then []
    else (if query.Matches(rows[0]) then [rows[0]] else []) + Matching(rows[1..], query)
  }

  // ----- one attempt -----

  /** What a call of the iterator gives, or the number of remaining requests that an error reports. */
  datatype Next = Next(value: Option<UsageDetail>, done: bool) | Throws(remaining: Option<int>)

  datatype Paged = Rows(rows: seq<UsageDetail>) | Failed(remaining: Option<int>)

  /** An iterator ends or throws after finitely many calls. */
  predicate Ends(steps: seq<Next>) {
    steps != [] && (steps[0].Throws? || steps[0].done || Ends(steps[1..]))
  }

  function Paging(steps: seq<Next>): Paged
    requires Ends(steps)
  {
    match steps[0]
    case Throws(remaining) => Failed(remaining)
    case Next(value, done) =>
      var row := if value.Some? then [value.value] else [];
      if done then Rows(row)
      else match Paging(steps[1..])
           case Failed(remaining) => Failed(remaining)
           case Rows(rest) => Rows(row + rest)
  }

  function Prepend(rows: seq<UsageDetail>, paged: Paged): Paged {
    match paged
    case Failed(remaining) => Failed(remaining)
    case Rows(rest) => Rows(rows + rest)
  }

  lemma {:induction false} PagingStep(steps: seq<Next>, i: nat, gathered: seq<UsageDetail>)
    requires i < |steps| && Ends(steps[i..]) && steps[i].Next?
    ensures var more := gathered + (if steps[i].value.Some? then [steps[i].value.value] else []);
            if steps[i].done then Prepend(gathered, Paging(steps[i..])) == Rows(more)
            else Ends(steps[i + 1..]) && Prepend(gathered, Paging(steps[i..])) == Prepend(more, Paging(steps[i + 1..]))
  {
    assert steps[i..][1..] == steps[i + 1..];
  }

  /** The values of some calls, in order. */
  function Values(steps: seq<Next>): seq<UsageDetail> {
    if steps == [] then []
    else
      var last := steps[|steps| - 1];
      Values(steps[..|steps| - 1]) + if last.Next? && last.value.Some? then [last.value.value] else []
  }

  /** Call `k` is the first that throws or is the last one. */
  predicate StopsAt(steps: seq<Next>, k: nat) {
    k < |steps| && (steps[k].Throws? || steps[k].done) &&
    forall i :: 0 <= i < k ==> steps[i].Next? && !steps[i].done
  }

  lemma {:induction false} ValuesCons(step: Next, rest: seq<Next>)
    ensures Values([step] + rest) == (if step.Next? && step.value.Some? then [step.value.value] else []) + Values(rest)
  {
    if rest == [] {
      assert [step] + rest == [step] && [step][..0] == [];
    } else {
      var n := |rest| - 1;
      ValuesCons(step, rest[..n]);
      assert ([step] + rest)[..n + 1] == [step] + rest[..n];
    }
  }

  /** Paging stops at the first call that throws or is done: it fails as that call, or has all values up to it. */
  lemma {:induction false} PagingStops(steps: seq<Next>) returns (k: nat)
    requires Ends(steps)
    ensures StopsAt(steps, k)
    ensures Paging(steps) == if steps[k].Throws? then Failed(steps[k].remaining) else Rows(Values(steps[..k + 1]))
  {
    hide Values;
    assert steps == [steps[0]] + steps[1..];
    if steps[0].Throws? || steps[0].done {
      k := 0;
      assert steps[..1] == [steps[0]] + [];
      ValuesCons(steps[0], []);
      assert Values([]) == [] by { NoValues(); }
    } else {
      var j := PagingStops(steps[1..]);
      k := j + 1;
      assert steps[..k + 1] == [steps[0]] + steps[1..][..j + 1];
      ValuesCons(steps[0], steps[1..][..j + 1]);
    }
  }

  lemma {:induction false} NoValues()
    ensures Values([]) == []
  {
  }

  /** `pageThroughUsageRows`: rows gathered before an error are dropped. */
  method PageThroughUsageRows(steps: seq<Next>) returns (paged: Paged)
    requires Ends(steps)
    ensures paged == Paging(steps)
  {
    hide Ends, Paging;
    var usageRowDetails: seq<UsageDetail>, hasNextPage, i := [], true, 0;
    assert steps[0..] == steps;
    assert Paging(steps) == Prepend([], Paging(steps)) by { PrependNothing(Paging(steps)); }
    while hasNextPage
      invariant i <= |steps|
      invariant hasNextPage ==> Ends(steps[i..]) && Paging(steps) == Prepend(usageRowDetails, Paging(steps[i..]))
      invariant !hasNextPage ==> Paging(steps) == Rows(usageRowDetails)
      decreases hasNextPage, |steps| - i
    {
      EndsSoon(steps[i..]);
      var currentRow := steps[i];
      if currentRow.Throws? {
        return Failed(currentRow.remaining);
      }
      PagingStep(steps, i, usageRowDetails);
      if currentRow.value.Some? {
        usageRowDetails := usageRowDetails + [currentRow.value.value];
      }
      hasNextPage := !currentRow.done;
      i := i + 1;
    }
    return Rows(usageRowDetails);
  }

  lemma {:induction false} PrependNothing(paged: Paged)
    ensures Prepend([], paged) == paged
  {
    if paged.Rows? { assert [] + paged.rows == paged.rows; }
  }

  lemma {:induction false} EndsSoon(steps: seq<Next>)
    requires Ends(steps)
    ensures steps != [] && (steps[0].Throws? ==> Paging(steps) == Failed(steps[0].remaining))
  {
  }

  // ----- retries -----

  /** The iterator that the client hands out for its attempt number `n`, given the query. */
  type Client = (nat, Query) -> seq<Next>

  datatype QueryError = Reported | MaxRetriesExceeded

  const MAX_RETRIES: nat := 10

  /** Every attempt ends, and one that does not fail gives the matching rows. */
  ghost predicate Honest(client: Client, rows: seq<UsageDetail>) {
    forall n: nat, query :: Ends(client(n, query)) &&
      (Paging(client(n, query)).Rows? ==> Paging(client(n, query)).rows == Matching(rows, query))
  }

  /** What attempt number `n` of a query comes to. */
  ghost predicate ComesTo(client: Client, n: nat, query: Query, paged: Paged) {
    Ends(client(n, query)) && Paging(client(n, query)) == paged
  }

  /**
    `queryConsumptionUsageDetails`: attempts go on while an error says that no requests are left, at most
    `maxRetries + 1` of them, and the answer is that of the last attempt alone.
   */
  method QueryConsumptionUsageDetails(client: Client, rows: seq<UsageDetail>, first: nat, query: Query, maxRetries: nat)
    returns (outcome: Result<seq<UsageDetail>, QueryError>, tries: nat)
    requires Honest(client, rows)
    ensures 1 <= tries <= maxRetries + 1
    ensures forall n :: first <= n < first + tries - 1 ==> ComesTo(client, n, query, Failed(Some(0)))
    ensures match Paging(client(first + tries - 1, query))
            case Rows(answer) => outcome == Ok(answer) && answer == Matching(rows, query)
            case Failed(remaining) =>
              if remaining == Some(0) then outcome == Err(MaxRetriesExceeded) && tries == maxRetries + 1
              else outcome == Err(Reported)
  {
    hide Ends, Paging, Matching;
    var currentTry := 0;
    while currentTry <= maxRetries
      invariant currentTry <= maxRetries + 1
      invariant forall n :: first <= n < first + currentTry ==> ComesTo(client, n, query, Failed(Some(0)))
    {
      var steps := client(first + currentTry, query);
      currentTry := currentTry + 1;
      var paged := PageThroughUsageRows(steps);
      if paged.Rows? {
        return Ok(paged.rows), currentTry;
      }
      if paged.remaining != Some(0) {
        return Err(Reported), currentTry;
      }
    }
    assert ComesTo(client, first + currentTry - 1, query, Failed(Some(0)));
    return Err(MaxRetriesExceeded), currentTry;
  }

  // ----- chunks -----

  /** The query of the chunk that starts at a time: only the last one includes its end. */
  function ChunkQuery(start: int, end: int, step: nat): Query {
    if start + step < end then Query(start, start + step - 1, true, false) else Query(start, end, true, true)
  }

  function Chunked(rows: seq<UsageDetail>, start: int, end: int, step: nat): seq<UsageDetail>
    requires step > 0
    decreases end - start
  {
    if end < start then [] else Matching(rows, ChunkQuery(start, end, step)) + Chunked(rows, start + step, end, step)
  }

  lemma {:induction false} ChunkedStep(rows: seq<UsageDetail>, start: int, end: int, step: nat, done: seq<UsageDetail>)
    requires step > 0 && start <= end
    ensures done + Chunked(rows, start, end, step)
         == done + Matching(rows, ChunkQuery(start, end, step)) + Chunked(rows, start + step, end, step)
  {
  }

  /** The queries that a range is read with, in order. */
  function Queries(start: int, end: int, chunkDays: nat): seq<Query> {
    if chunkDays == 0 then [Query(start, end, true, true)] else ChunkQueries(start, end, chunkDays * MS_PER_DAY)
  }

  function ChunkQueries(start: int, end: int, step: nat): seq<Query>
    requires step > 0
    decreases end - start
  {
    if end < start then [] else [ChunkQuery(start, end, step)] + ChunkQueries(start + step, end, step)
  }

  lemma {:induction false} ChunkQueriesStep(start: int, end: int, step: nat, done: seq<Query>)
    requires step > 0 && start <= end
    ensures done + ChunkQueries(start, end, step)
              == done + [ChunkQuery(start, end, step)] + ChunkQueries(start + step, end, step)
  {
  }

  /** The last of some attempts failed, at query number `i`; the queries before took some of the attempts. */
  ghost predicate FailedLast(client: Client, queries: seq<Query>, attempts: nat, error: QueryError, i: nat) {
    i < |queries| && i < attempts <= 11 * (i + 1) &&
    exists remaining: Option<int> ::
      ComesTo(client, attempts - 1, queries[i], Failed(remaining)) &&
      (error.MaxRetriesExceeded? <==> remaining == Some(0))
  }

  /**
    `getConsumptionUsageDetails`: one query for the whole range, or one per chunk; a failed query
    fails the whole. The attempts are counted over all queries.
   */
  method GetConsumptionUsageDetails(client: Client, rows: seq<UsageDetail>, startDate: int, endDate: int,
                                    chunkDays: nat)
    returns (outcome: Result<seq<UsageDetail>, QueryError>, attempts: nat)
    requires Honest(client, rows)
    ensures outcome.Ok? ==>
              outcome.value == if chunkDays == 0 then Matching(rows, Query(startDate, endDate, true, true))
                                             else Chunked(rows, startDate, endDate, chunkDays * MS_PER_DAY)
    ensures outcome.Ok? ==> |Queries(startDate, endDate, chunkDays)| <= attempts
                            <= 11 * |Queries(startDate, endDate, chunkDays)|
    ensures outcome.Err? ==>
              exists i: nat :: FailedLast(client, Queries(startDate, endDate, chunkDays), attempts, outcome.error, i)
  {
    hide Matching, Paging, Ends;
    ghost var queries := Queries(startDate, endDate, chunkDays);
    if chunkDays == 0 {
      outcome, attempts := QueryConsumptionUsageDetails(client, rows, 0, Query(startDate, endDate, true, true),
                                                        MAX_RETRIES);
      assert outcome.Err? ==> FailedLast(client, queries, attempts, outcome.error, 0) by {
        if outcome.Err? { FailureIsLast(client, rows, attempts - 1, queries, 0, outcome.error, attempts); }
      }
      return;
    }
    var stepMs := chunkDays * MS_PER_DAY;
    var result: seq<UsageDetail>, currentStartDate, last := [], startDate, false;
    ghost var asked: seq<Query> := [];
    attempts := 0;
    while currentStartDate <= endDate
      invariant result + Chunked(rows, currentStartDate, endDate, stepMs) == Chunked(rows, startDate, endDate, stepMs)
      invariant queries == asked + ChunkQueries(currentStartDate, endDate, stepMs)
      invariant |asked| <= attempts <= 11 * |asked|
      invariant last ==> endDate <= currentStartDate
      decreases endDate - currentStartDate
    {
      var currentEndDate := if currentStartDate + stepMs < endDate then currentStartDate + stepMs else endDate;
      if endDate <= currentEndDate { last := true; }
      if !last { currentEndDate := currentEndDate - 1; }
      var query := Query(currentStartDate, currentEndDate, true, last);
      ChunkQueriesStep(currentStartDate, endDate, stepMs, asked);
      assert queries[|asked|] == query;
      var details, tries := QueryConsumptionUsageDetails(client, rows, attempts, query, MAX_RETRIES);
      attempts := attempts + tries;
      if details.Err? {
        FailureIsLast(client, rows, attempts - 1, queries, |asked|, details.error, attempts);
        return Err(details.error), attempts;
      }
      ChunkedStep(rows, currentStartDate, endDate, stepMs, result);
      result := result + details.value;
      asked := asked + [query];
      currentStartDate := currentStartDate + stepMs;
    }
    return Ok(result), attempts;
  }

  lemma {:induction false} FailureIsLast(client: Client, rows: seq<UsageDetail>, n: nat, queries: seq<Query>, i: nat,
                                         error: QueryError, attempts: nat)
    requires Honest(client, rows) && i < |queries| && i < attempts <= 11 * (i + 1) && n == attempts - 1
    requires Paging(client(n, queries[i])).Failed?
    requires error.MaxRetriesExceeded? <==> Paging(client(n, queries[i])) == Failed(Some(0))
    ensures FailedLast(client, queries, attempts, error, i)
  {
    hide Paging, Ends;
    var paged := Paging(client(n, queries[i]));
    assert Ends(client(n, queries[i]));
    assert ComesTo(client, attempts - 1, queries[i], Failed(paged.remaining));
  }

  // ----- which rows the chunks return -----

  lemma {:induction false} MatchingCount(rows: seq<UsageDetail>, query: Query, row: UsageDetail)
    ensures multiset(Matching(rows, query))[row] == if query.Matches(row) then multiset(rows)[row] else 0
  {
    if rows != [] {
      MatchingCount(rows[1..], query, row);
      assert rows == [rows[0]] + rows[1..];
    }
  }

  /** The last usage end that a chunk starting at `start` returns. */
  function ChunkLimit(start: int, end: int, step: nat): int {
    if start + step < end then start + step - 2 else end
  }

  /** The start of the chunk, counted from `start`, that holds a time. */
  function ChunkStart(start: int, step: nat, t: int): int
    requires step > 0
  {
    start + (t - start) / step * step
  }

  /** A row is returned if it ends within the limit of the chunk that it starts in. */
  predicate Fits(row: UsageDetail, start: int, end: int, step: nat)
    requires step > 0
  {
    start <= row.usageStart && row.usageEnd <= ChunkLimit(ChunkStart(start, step, row.usageStart), end, step)
  }

  lemma {:induction false} DivisionInStep(x: int, step: nat)
    requires step > 0
    ensures 0 <= x - x / step * step < step
  {
    assert x == x / step * step + x % step;
  }

  lemma {:induction false} DivisionAfterStep(x: int, step: nat)
    requires step > 0
    ensures (x - step) / step == x / step - 1
  {
    var q := x / step;
    assert x - step == (q - 1) * step + x % step;
    DivisionUnique(x - step, q - 1, step);
  }

  lemma {:induction false} DivisionUnique(x: int, q: int, step: nat)
    requires step > 0 && q * step <= x < q * step + step
    ensures x / step == q
  {
    var p := x / step;
    DivisionInStep(x, step);
    if p < q { Multiples(p + 1, q, step); }
    if q < p { Multiples(q + 1, p, step); }
  }

  lemma {:induction false} Multiples(a: int, b: int, step: nat)
    requires a <= b
    ensures a * step <= b * step
  {
  }

  lemma {:induction false} ChunkStartLater(start: int, step: nat, t: int)
    requires step > 0
    ensures ChunkStart(start + step, step, t) == ChunkStart(start, step, t)
    ensures ChunkStart(start, step, t) <= t < ChunkStart(start, step, t) + step
    ensures start <= t < start + step ==> ChunkStart(start, step, t) == start
  {
    DivisionInStep(t - start, step);
    DivisionAfterStep(t - start, step);
    if start <= t < start + step { DivisionUnique(t - start, 0, step); }
  }

  /** A row of no length at the end date, when the chunks end there: the last two chunks both return it. */
  predicate Repeats(row: UsageDetail, start: int, end: int, step: nat)
    requires step > 0
  {
    row.usageStart == end && row.usageEnd == end && start < end && ChunkStart(start, step, end) == end
  }

  /** How many chunks return a row. */
  function Times(row: UsageDetail, start: int, end: int, step: nat): nat
    requires step > 0
  {
    (if Fits(row, start, end, step) then 1 else 0) + if Repeats(row, start, end, step) then 1 else 0
  }

  lemma {:induction false} NoTimes(row: UsageDetail, start: int, end: int, step: nat)
    requires step >= 2 && row.usageStart <= row.usageEnd && end < start
    ensures Times(row, start, end, step) == 0
  {
    hide ChunkStart;
    ChunkStartLater(start, step, row.usageStart);
    if start <= row.usageStart { ChunkStartNotBefore(start, step, row.usageStart); }
  }

  lemma {:induction false} ChunkStartNotBefore(start: int, step: nat, t: int)
    requires step > 0 && start <= t
    ensures start <= ChunkStart(start, step, t)
  {
    DivisionInStep(t - start, step);
    var q := (t - start) / step;
    if q < 0 { Multiples(q, -1, step); }
    Multiples(0, q, step);
  }

  /** The chunk that starts at `start` returns what the later ones leave to it. */
  lemma {:induction false} TimesStep(row: UsageDetail, start: int, end: int, step: nat)
    requires step >= 2 && row.usageStart <= row.usageEnd && start <= end
    ensures Times(row, start, end, step)
         == (if ChunkQuery(start, end, step).Matches(row) then 1 else 0) + Times(row, start + step, end, step)
  {
    hide ChunkStart;
    ChunkStartLater(start, step, row.usageStart);
    ChunkStartLater(start + step, step, end);
    ChunkStartLater(start, step, end);
  }

  lemma {:induction false} ChunkedParts(rows: seq<UsageDetail>, start: int, end: int, step: nat, row: UsageDetail)
    requires step > 0
    ensures multiset(Chunked(rows, start, end, step))[row] ==
              if end < start then 0
              else multiset(Matching(rows, ChunkQuery(start, end, step)))[row]
                   + multiset(Chunked(rows, start + step, end, step))[row]
  {
    hide Matching, ChunkQuery;
  }

  lemma {:induction false} AddCopies(a: nat, b: nat, copies: nat)
    ensures (a + b) * copies == a * copies + b * copies
  {
  }

  /** How often a row comes back: once for each copy the server has and each chunk that returns it. */
  lemma {:induction false} ChunkedCount(rows: seq<UsageDetail>, start: int, end: int, step: nat, row: UsageDetail)
    requires step >= 2 && row.usageStart <= row.usageEnd
    ensures multiset(Chunked(rows, start, end, step))[row] == Times(row, start, end, step) * multiset(rows)[row]
    decreases end - start
  {
    hide Matching, ChunkQuery, Times, Chunked;
    ChunkedParts(rows, start, end, step, row);
    if end < start {
      NoTimes(row, start, end, step);
    } else {
      TimesStep(row, start, end, step);
      MatchingCount(rows, ChunkQuery(start, end, step), row);
      ChunkedCount(rows, start + step, end, step, row);
      AddCopies(if ChunkQuery(start, end, step).Matches(row) then 1 else 0,
                Times(row, start + step, end, step), multiset(rows)[row]);
    }
  }

  /** Usage ends no earlier than it starts. */
  predicate AllOrdered(rows: seq<UsageDetail>) {
    forall i :: 0 <= i < |rows| ==> rows[i].usageStart <= rows[i].usageEnd
  }

  /**
    Chunking returns what one query would return, neither losing nor repeating a row, exactly when each
    row of the range fits its chunk and none is a row of no length at a chunk's end that is the range's end.
   */
  lemma {:induction false} ChunkingLosesNothing(rows: seq<UsageDetail>, start: int, end: int, step: nat)
    requires step >= 2 && AllOrdered(rows)
    ensures multiset(Chunked(rows, start, end, step)) == multiset(Matching(rows, Query(start, end, true, true))) <==>
              forall row :: row in rows && start <= row.usageStart && row.usageEnd <= end ==>
                Fits(row, start, end, step) && !Repeats(row, start, end, step)
  {
    hide Fits, Repeats, Chunked, Matching;
    var query := Query(start, end, true, true);
    var chunked, whole := multiset(Chunked(rows, start, end, step)), multiset(Matching(rows, query));
    forall row | row in rows
      ensures chunked[row] == Times(row, start, end, step) * multiset(rows)[row]
      ensures whole[row] == if query.Matches(row) then multiset(rows)[row] else 0
      ensures !query.Matches(row) ==> Times(row, start, end, step) == 0
      ensures chunked[row] == whole[row] <==>
                (query.Matches(row) ==> Fits(row, start, end, step) && !Repeats(row, start, end, step))
    {
      var copies, times := multiset(rows)[row], Times(row, start, end, step);
      assert row in multiset(rows) && copies > 0;
      ChunkedCount(rows, start, end, step, row);
      MatchingCount(rows, query, row);
      FitsInRange(row, start, end, step);
      if times == 0 { assert times * copies == 0; }
      if times == 1 { assert times * copies == copies; }
      if times == 2 { assert times * copies == copies + copies; }
    }
    forall row | row !in rows ensures chunked[row] == 0 && whole[row] == 0 {
      NothingElse(rows, start, end, step, row);
      MatchingCount(rows, query, row);
    }
    if forall row :: row in rows && start <= row.usageStart && row.usageEnd <= end ==>
         Fits(row, start, end, step) && !Repeats(row, start, end, step) {
      forall row ensures chunked[row] == whole[row] { if row in rows { } }
      assert chunked == whole;
    }
    if chunked == whole {
      forall row | row in rows && start <= row.usageStart && row.usageEnd <= end
        ensures Fits(row, start, end, step) && !Repeats(row, start, end, step)
      {
        assert chunked[row] == whole[row];
      }
    }
  }

  lemma {:induction false} FitsInRange(row: UsageDetail, start: int, end: int, step: nat)
    requires step >= 2 && row.usageStart <= row.usageEnd
    ensures Fits(row, start, end, step) ==> start <= row.usageStart && row.usageEnd <= end
    ensures Repeats(row, start, end, step) ==> Fits(row, start, end, step)
  {
    hide ChunkStart;
  }

  lemma {:induction false} NothingElse(rows: seq<UsageDetail>, start: int, end: int, step: nat, row: UsageDetail)
    requires step > 0 && row !in rows
    ensures multiset(Chunked(rows, start, end, step))[row] == 0
    decreases end - start
  {
    hide Matching, ChunkQuery;
    if start <= end {
      NothingElse(rows, start + step, end, step, row);
      MatchingCount(rows, ChunkQuery(start, end, step), row);
      assert row !in multiset(rows);
      assert Chunked(rows, start, end, step)
        == Matching(rows, ChunkQuery(start, end, step)) + Chunked(rows, start + step, end, step);
    }
  }

  /**
    A row inside the range that lies in one 24-hour slot counted from the start date, and ends at
    least two milliseconds before the slot does, fits for every number of days.
   */
  lemma {:induction false} DaySlotFits(row: UsageDetail, start: int, end: int, days: nat)
    requires days > 0 && start <= row.usageStart < row.usageEnd <= end
    requires row.usageEnd <= ChunkStart(start, MS_PER_DAY, row.usageStart) + MS_PER_DAY - 2
    ensures Fits(row, start, end, days * MS_PER_DAY) && !Repeats(row, start, end, days * MS_PER_DAY)
  {
    var step, x := days * MS_PER_DAY, row.usageStart - start;
    DivisionInStep(x, step);
    DivisionInStep(x, MS_PER_DAY);
    var slot, chunk := x / MS_PER_DAY, x / step;
    assert chunk * step == chunk * days * MS_PER_DAY;
    var lastSlot := chunk * days + days - 1;
    assert chunk * step + step == (lastSlot + 1) * MS_PER_DAY;
    assert slot * MS_PER_DAY < (lastSlot + 1) * MS_PER_DAY;
    assert slot <= lastSlot;
  }

  /** A row that ends one millisecond before the end of an inner chunk is lost, though one query has it. */
  lemma {:induction false} LateRowIsLost(id: string, start: int, end: int, step: nat)
    requires step >= 2 && start + step < end
    ensures var row := UsageDetail(id, start, start + step - 1);
            multiset(Chunked([row], start, end, step))[row] == 0 &&
            multiset(Matching([row], Query(start, end, true, true)))[row] == 1
  {
    hide Chunked, Matching, Times;
    var row := UsageDetail(id, start, start + step - 1);
    ChunkedCount([row], start, end, step, row);
    MatchingCount([row], Query(start, end, true, true), row);
    LateRowTimes(row, start, end, step);
  }

  lemma {:induction false} LateRowTimes(row: UsageDetail, start: int, end: int, step: nat)
    requires step >= 2 && start + step < end && row.usageStart == start && row.usageEnd == start + step - 1
    ensures Times(row, start, end, step) == 0
  {
    hide ChunkStart;
    ChunkStartLater(start, step, start);
  }

  /** A row of no length at the end date is returned twice when the chunks end there. */
  lemma {:induction false} EmptyRowTwice(id: string, start: int, step: nat)
    requires step >= 2
    ensures var row := UsageDetail(id, start + step, start + step);
            multiset(Chunked([row], start, start + step, step))[row] == 2
  {
    var end := start + step;
    var row := UsageDetail(id, end, end);
    MatchingCount([row], ChunkQuery(start, end, step), row);
    MatchingCount([row], ChunkQuery(end, end, step), row);
    assert Chunked([row], end + step, end, step) == [];
    assert Chunked([row], end, end, step) == Matching([row], ChunkQuery(end, end, step)) + [];
  }
}
