# Cloud Carbon Footprint: cache, accumulation and protocols

This project models how Cloud Carbon Footprint stores and adds up footprint estimates, and proves what
that machinery keeps. It has three parts.

**The estimates cache.** A request for a range of dates is turned into the calendar periods it asks for;
those that the store lacks are grouped into contiguous fetches, filled with empty estimates where a period
has no usage, merged into a sorted store, and written over a text file that is read back line by line. The
model has the Gregorian calendar, the text file with its write position, the manager with its two lists, the
decorated request, the seeding loop, and the MongoDB collection with its aggregation. The reference is a
provider that is asked for every period. The main results: from any state a process may start in, the store
agrees with the provider throughout every run of calls; a run answers what the provider would answer exactly
when every call asks for something new once anything has been fetched, where what is new is read off the
requests, the usage and the first file; any two window sizes seed the same usage unless one of them loses
the last period, which has an exact condition; and the two backends answer alike, over whole runs, under an
exact condition too, of which each part can be checked before the run. For weeks, whose fetches can lose a
Sunday, a second layer says what a call serves instead, and when that is right.

**Accumulating rows.** Nested lists of objects, searched and updated in place, are shown to hold a keyed table
of sums that does not depend on the order of rows. The table of energy keeps its row of totals equal to the
column sums exactly when rows of a service named `total` add up to zero. Unknown usage keeps the intensity of
known usage. A region's days conserve energy, emissions and cost. Estimated compute energy stays between the
idle and the full load.

**Protocols.** Azure's chunked queries with retries, the memo of Electricity Maps factors under every
interleaving of calls, and Google's recommendations completing in any order.

Energy, emissions and costs are `real`; instants are `int` milliseconds since 1970-01-01T00:00:00Z; numbers that
the cache only stores and reads back are a mantissa and an exponent, so that they can be encoded. All lemmas carry
`{:induction false}`: every induction is written out, and none is left to the verifier's heuristics.

| file | what it models |
|---|---|
| Calendar.dfy | start of, end of, adding units and whole units between dates, of the date library |
| Ordering.dfy, Sums.dfy, Options.dfy, ExtendedReals.dfy | sorted lists and merging; sums, images and filters in any order; options; numbers that may not be finite |
| Estimates.dfy, Requests.dfy, Fetching.dfy | the cache's helpers: merging, periods, missing dates, runs, fetches, filling |
| CacheText.dfy, LocalCache.dfy | the cache file's text, the local manager, the decorated request |
| Transparency.dfy, CacheRuns.dfy | one call, and whole runs of calls, against the provider |
| ServedRuns.dfy | runs with any usage, weeks whose Sundays matter included |
| Seeding.dfy | the seeding loop |
| MongoCache.dfy, MongoSeeding.dfy | the MongoDB manager and its comparison with the local one; seeding it for one cloud provider |
| Witnesses.dfy, SmallestCases.dfy | an encoding and providers that meet the assumptions; the smallest case of each failure |
| Billing.dfy, KilowattHours.dfy, UnknownUsage.dfy | accumulating rows, the table of energy, the two passes over rows |
| RegionData.dfy, ComputeUsage.dfy | a region's data by day; compute usage and its energy |
| AzureUsage.dfy, ElectricityMaps.dfy, Recommendations.dfy | the three protocols |

## What the model found

Where the code and its documentation or the names in it disagree, the model follows the code.

- The manager's list of fetched estimates is never reset, so a call that fetches nothing after one that did answers with
  the earlier estimates as well, and repeating a request answers its estimates twice. `CallIsTransparent` and
  `RunIsTransparent` give the exact condition, `AskingTwiceIsNotTransparent` the smallest such run, and
  `ResetIsTransparent` shows that forgetting the list before each call would be enough.
- A fresh cache file holds `[]` on one line, which the line reader takes for one value without a timestamp (`ParseFresh`).
  It stays in the file. Its time reads as the current time, so a request that reaches the current time has no answer
  at all (`AnswersUnlessEmptyArray`): without a file and without usage, such a request is answered once, and not again
  (`SecondCallHasNoAnswer`).
- A week starts on Monday when periods are listed and on Sunday when a fetch's end is found, so the fetch of a run of
  weeks loses the run's last Sunday (`RunCoverage`, `FetchAllMembers`). A call is answered rightly exactly when each
  missing week is fetched as it is (`AnswerIsRight`), and all calls are exactly when no Sunday makes a difference
  (`LosingNothingIsNeeded`); `SundayIsLost` is the smallest case. What is stored short is kept and served from
  then on (`HeldStays`).
- The file is overwritten without being cut. A stale tail is left when new entries replace longer ones of the same time,
  which takes a provider that changes its mind, since a request from the middle of a period fetches that period
  again (`OverwriteIsSafe`, `FetchedAgain`); asking for January from its middle can do that (`TailIsLeft`).
- Seeding from a date in the middle of a period can lose the last period of the range, with a single request as well as
  with split ones (`WindowsRequestEachOnce`, `SingleWindowLoses`): from January 15 to February 10, one month at a
  time, February is not asked for (`FebruaryIsLost`).
- The default window is meant to make a single request. The date library counts whole months back from the end date
  when the end's day of the month is not the smaller one, which can give one month too few if the times of day
  differ; then two requests are made (`SingleWindow`, `DefaultWindowMakesTwo`).
- The number of units per request may be negative: every number but zero passes
  (packages/cli/src/SeedCacheFile/seedCacheFile.ts:52-57). Then the loop runs for ever, unless the range is empty
  (`LoopEnds`).
- The prompt offers cloud providers to seed in lower case (packages/cli/src/SeedCacheFile/seedCacheFile.ts:60-63), and
  the validator takes any case (packages/app/src/CreateValidRequest.ts:120-127), but the name is compared as typed with
  that of the documents, which is in upper case. So nothing counts as stored, and what is stored already is stored once more
  (`SeedingUnderAnotherName`, with the exact condition; `SeedingTwiceInLowerCase`).
- The end date stored with a quarter is one hour later than that of the other units (`EndOfPeriodStart` has the period's
  true end).
- A service named `total` is added to the row of totals twice (`KilowattHourTable.AccumulateAll`).
- When Azure's range ends where a chunk ends, a row of no length at that time is returned twice, and a row that
  ends in the last two milliseconds before an inner chunk's end is lost (`ChunkingLosesNothing`, `EmptyRowTwice`,
  `LateRowIsLost`).
- An aggregation of more documents than its limit drops some of them silently (`MongoCallIsTransparent`, `PageOfOne`).

## Model

| member | source | states |
|---|---|---|
| Calendar.YearStart | packages/app/src/common/helpers.ts:144-158 | counting days month by month agrees with the closed form of the Gregorian calendar in every year, past or future, leap years included |
| Calendar.DateOfToDay | packages/app/src/common/helpers.ts:144-158 | day numbers and dates convert into each other and back without loss |
| Calendar.PeriodOfInstant | packages/app/src/common/helpers.ts:149-151 | every instant lies in exactly one day, ISO week, month, quarter or year, and start-of-unit is that period's first instant |
| Calendar.PeriodStartsIncrease | packages/app/src/common/helpers.ts:153-156 | period starts are ordered as the periods are, and differ for different periods |
| Calendar.PeriodLengths | packages/app/src/common/helpers.ts:144-158 | where periods lie, in milliseconds: the length of each day, week and month, the first Monday after the epoch, quarters of three months and years of four quarters |
| Calendar.MonthLengths | packages/app/src/common/helpers.ts:144-158 | the length of each month of the year, leap years included |
| Calendar.AddToPeriodStart | packages/app/src/common/helpers.ts:155-155 | adding any number of units to a period start lands on the period start that many periods later or earlier, whatever the lengths of the months between |
| Calendar.EndOfPeriodStart | packages/app/src/Cache.ts:154-161 | the end of a period's unit is its last millisecond, except that a week loses its Sunday |
| Calendar.EndDateOfPeriod | packages/common/src/helpers/helpers.ts:31-48 | the end date stored for a period is its last second, and one hour later for quarters |
| Calendar.AddMovesPeriods | packages/cli/src/SeedCacheFile/seedCacheFile.ts:88-107 | from any instant, adding some units lands that many periods later, however the day of the month is cut |
| Calendar.AddedMonths | packages/cli/src/SeedCacheFile/seedCacheFile.ts:88-107 | adding months lands in the month that many later, on the same day or the last one, at the same time of day |
| Calendar.DiffFits | packages/cli/src/SeedCacheFile/seedCacheFile.ts:49-50 | the whole units that the date library counts fit between the dates, and one more does not for days and weeks, or when both dates have the same time of day |
| Ordering.SortBySorts | packages/app/src/common/helpers.ts:135-142 | sorting by time gives time order |
| Ordering.SortByIsStable | packages/app/src/common/helpers.ts:135-142 | sorting by time keeps entries of equal time in their order |
| Ordering.SortByDistinct | packages/app/src/common/helpers.ts:135-142 | sorting entries with distinct times gives strictly increasing times |
| Ordering.StrictlySortedUnique | packages/app/src/common/helpers.ts:216-252 | a list in strict time order is determined by its members |
| Ordering.MergeMembers | packages/app/src/common/helpers.ts:221-252 | a merge holds all of the first list, and of the second what has no tie in the first, and nothing else |
| Ordering.MergeSorts | packages/app/src/common/helpers.ts:221-252 | merging two lists in strict time order gives strict time order |
| Ordering.MergeKeys | packages/app/src/common/helpers.ts:221-252 | a merge has exactly the times of the two lists |
| Ordering.MergeAssociative | packages/app/src/common/helpers.ts:221-252 | merging three lists does not depend on which two are merged first |
| Ordering.MergeAbsorbs | packages/app/src/LocalCacheManager.ts:42-43 | merging a part of a list back into it changes nothing |
| Estimates.MergeEstimates | packages/app/src/common/helpers.ts:221-252 | the two-index loop computes the left-biased merge of any two lists, sorted or not |
| Estimates.NonEmptyMembers | packages/app/src/common/helpers.ts:192-198 | filtering keeps exactly the estimates of periods with usage |
| Requests.RequestedDatesExact | packages/app/src/common/helpers.ts:144-158 | the requested dates are all period starts from the start of the unit of the start date up to the end date, and no others, increasing |
| Requests.GetDatesWithinRequestTimeFrame | packages/app/src/common/helpers.ts:144-158 | the loop that advances by one unit ends and gives the requested dates |
| Requests.MissingDatesMembers | packages/app/src/common/helpers.ts:166-189 | a date is missing exactly when it is requested and no cached estimate has its time |
| Requests.GetMissingDates | packages/app/src/common/helpers.ts:166-189 | the loop gives the missing dates of the request in order |
| Requests.RunsAreMaximal | packages/app/src/Cache.ts:136-152 | the groups put together are the missing dates, each group is consecutive, and no two neighbouring groups join up |
| Requests.MaximalRunsUnique | packages/app/src/Cache.ts:136-152 | there is only one such split of a list of dates |
| Requests.GroupMissingDates | packages/app/src/Cache.ts:132-152 | the fold that pushes into the last group computes this split |
| Requests.GetMissingDataRequests | packages/app/src/Cache.ts:132-173 | one fetch per group, from its first date to the end of the unit of its last |
| Requests.RunCoverage | packages/app/src/Cache.ts:154-161 | a fetch covers exactly the instants of its group's periods; for weeks, all but the last Sunday |
| Requests.FetchCoverage | packages/app/src/Cache.ts:132-173 | all fetches together cover exactly the missing periods; for weeks, all but the last Sunday of each group |
| Requests.FetchRangesDisjoint | packages/app/src/Cache.ts:132-173 | no instant is covered by two fetches |
| Fetching.GetEstimatesForMissingDates | packages/app/src/Cache.ts:113-124 | the answers of one call per range, put together in order |
| Fetching.PeriodsOfRun | packages/app/src/Cache.ts:154-161 | a group's fetch covers exactly its periods, each as far as its unit goes, and stops short in the last week only |
| Fetching.FetchAllMembers | packages/app/src/Cache.ts:113-124 | from a faithful provider, what is fetched for missing periods is exactly the estimate of each of them that has usage; the last week of each group has its short usage |
| Fetching.FetchAllDistinct | packages/app/src/Cache.ts:113-124 | no period is fetched twice |
| Fetching.FillDatesFetched | packages/app/src/common/helpers.ts:106-133 | filling gives the fetched estimate of every missing period, empty ones included, in time order, each once |
| Fetching.FilledAre | packages/app/src/common/helpers.ts:106-133 | filling any answers keeps all of them, gives each missing date without one an empty estimate of its period, and sorts the whole by time |
| CacheText.FileHandle.WriteFile | packages/app/src/common/helpers.ts:28-32 | a write continues at the handle's position, replacing what it covers and leaving what lies behind it |
| CacheText.OverwrittenAt | packages/app/src/common/helpers.ts:28-32 | character by character, a file written from its start has the new text and behind it what the old one had there |
| CacheText.WriteToFile | packages/app/src/common/helpers.ts:19-47 | for every window size, the windows written are the printed list, over the file's old text |
| CacheText.PrintedLines | packages/app/src/common/helpers.ts:19-47 | the printed list line by line: a bracket, the encodings with a line of a comma between each two, and a bracket |
| CacheText.DelimitersAre | packages/app/src/common/helpers.ts:73-77 | the lines that are no data are a bracket, a comma or a newline alone |
| CacheText.GetCachedData | packages/app/src/common/helpers.ts:49-77 | every line that is no delimiter is decoded in order, and one failure rejects the whole file |
| CacheText.ParsePrint | packages/app/src/common/helpers.ts:19-77 | reading what was printed gives back the same non-empty list |
| CacheText.ParseFresh | packages/app/src/LocalCacheManager.ts:105-108 | a fresh file reads as one value that is no estimate |
| CacheText.PrintLength | packages/app/src/common/helpers.ts:34-46 | the length of a printed list, from the lengths of its encodings |
| CacheText.MergeSize | packages/app/src/common/helpers.ts:221-252 | a merge is no shorter than its second list when no tie replaces an entry by a shorter one |
| CacheText.MergeSizeExact | packages/app/src/common/helpers.ts:221-252 | a merge of sorted lists is as long as both together, less the entries of the second that it replaces |
| CacheText.OverwriteIsSafe | packages/app/src/LocalCacheManager.ts:60-78 | writing the merge over the file it was merged with leaves no stale tail exactly when the replaced entries are together no longer than the new ones; then the file reads back as the merge |
| LocalCache.FilterMembers | packages/app/src/CacheManager.ts:44-56 | the request's filter keeps exactly the entries between its start and end dates, both included |
| LocalCache.LocalCacheManager.LoadEstimates | packages/app/src/LocalCacheManager.ts:80-97 | a missing file is created and counts as empty, an unreadable one counts as empty, and a readable one is read |
| LocalCache.LocalCacheManager.MissingDatesOf | packages/app/src/LocalCacheManager.ts:46-58 | the cached list becomes what the file has within the request, and the missing dates are those it lacks |
| LocalCache.LocalCacheManager.SetEstimates | packages/app/src/LocalCacheManager.ts:33-44 | the fetched list is replaced, and an existing file is overwritten by the merge of new, cached and stored estimates |
| LocalCache.LocalCacheManager.HandleFile | packages/app/src/LocalCacheManager.ts:60-78 | the estimates are merged with the file's and written over it from its start; a missing file stays missing |
| LocalCache.GetCostAndEstimates | packages/app/src/Cache.ts:39-100 | the whole state after a call, file included, and its answer or that it has none, both when the cache is used and when it is ignored |
| LocalCache.AnswersUnlessEmptyArray | packages/app/src/common/helpers.ts:192-198 | a call has no answer exactly when the file holds the empty array and the request reaches the current time |
| Transparency.LoadedHolds | packages/app/src/LocalCacheManager.ts:80-97 | a file that stands for a list of entries loads as that list |
| Transparency.TwoMergesAreOne | packages/app/src/LocalCacheManager.ts:42-72 | merging new estimates with the cached ones and then with the file is one merge with the file |
| Transparency.PersistedConsistent | packages/app/src/LocalCacheManager.ts:60-78 | after writing, the file holds its old entries and those of the missing periods, all agreeing with the provider |
| Transparency.PersistsWhenUsageIsMissing | packages/app/src/Cache.ts:69-93 | a call fetches something exactly when a missing period is fetched with usage, whatever the file holds; when nothing is lost, exactly when a missing period has usage |
| Transparency.CachedOrMissing | packages/app/src/LocalCacheManager.ts:29-58 | the cached list and the missing periods together stand for the estimates of all requested periods, and for nothing else |
| Transparency.StoreStaysConsistent | packages/app/src/Cache.ts:39-100 | every call keeps the file in agreement with the provider, in time order, each period once |
| Transparency.CallAddsExpected | packages/app/src/Cache.ts:69-93 | one call adds to the file the usage of the periods it asks for and removes none |
| Transparency.CallIsTransparent | packages/app/src/Cache.ts:39-100 | a call answers what the provider would, exactly when it fetches something or the fetched list holds no usage on entry; otherwise its answer is longer by what that list holds |
| CacheRuns.RunStaysConsistent | packages/app/src/Cache.ts:25-100 | from any consistent file, the file agrees with the provider after every run of calls |
| CacheRuns.RunAddsExpected | packages/app/src/Cache.ts:69-93 | after a run, the file's usage is what it was and that of all periods asked for |
| CacheRuns.MissingUsage | packages/app/src/LocalCacheManager.ts:46-58 | a requested period with usage is missing exactly when it begins before the request does or the file lacks it |
| CacheRuns.PersistsExactly | packages/app/src/Cache.ts:69-93 | a call of a run fetches something exactly when it asks for a period with usage that begins before the request does, or that neither the first file holds nor an earlier call asked for |
| CacheRuns.FetchedAfterCalls | packages/app/src/LocalCacheManager.ts:29-44 | the fetched list holds usage from the start, or from the first call that asked for something new on |
| CacheRuns.CallOfRunIsTransparent | packages/app/src/Cache.ts:25-100 | a call of a run is transparent exactly when it asks for something new or no usage is left in the fetched list |
| CacheRuns.RunIsTransparent | packages/app/src/Cache.ts:25-100 | a run of any length from any start is transparent exactly when each call asks for something new once usage is in the fetched list, by the requests, the usage and the first file |
| Transparency.RequestedIsCached | packages/app/src/LocalCacheManager.ts:46-58 | after a request that fetched something, every period from its start date on is found in the file later |
| Transparency.RepeatMissesNothing | packages/app/src/common/helpers.ts:166-189 | after a period-aligned request that fetched something, the same request misses nothing |
| Transparency.RepeatedRequestDuplicates | packages/app/src/LocalCacheManager.ts:29-44 | repeating it answers too much, by exactly the number of estimates that the first call fetched |
| Transparency.ResetIsTransparent | packages/app/src/LocalCacheManager.ts:29-44 | with an emptied fetched list every call is transparent |
| Transparency.FirstWeek | packages/app/src/Cache.ts:154-161 | the first call for a single week is transparent exactly when the week's Sunday makes no difference |
| Transparency.LosingNothingIsNeeded | packages/app/src/Cache.ts:154-161 | for weekly usage, all such calls are transparent exactly when no Sunday makes a difference, which is what the results that assume that nothing is lost assume of weeks |
| Transparency.CallAnswersServed | packages/app/src/Cache.ts:25-100 | for any usage and any file that stands for a list of entries, a call answers what it serves, that is what it fetches for missing periods and what the file holds for the others, exactly when it fetches something or holds no fetched usage; else it answers too much, by the number of estimates left in the list |
| Transparency.ExpectedSame | packages/app/src/Cache.ts:132-173 | what is served is the right answer exactly when it is the usage of every requested period |
| Transparency.AnswerIsRight | packages/app/src/Cache.ts:154-161 | weeks included, a call on a right file is answered rightly exactly when each missing period is fetched as it is |
| ServedRuns.StoreStaysServed | packages/app/src/LocalCacheManager.ts:60-78 | a call that keeps what is stored leaves a file that holds what it served for each period |
| ServedRuns.RunHoldsServed | packages/app/src/Cache.ts:25-100 | throughout a run of requests that start on periods, whatever the usage, the file holds for each period what the call that stored it served |
| ServedRuns.CallOfRunAnswersServed | packages/app/src/Cache.ts:25-100 | each call of such a run answers what it serves exactly when it fetches something or finds no fetched usage left, and then it is right exactly when each requested period is served as it is |
| ServedRuns.EntryStays | packages/app/src/LocalCacheManager.ts:60-78 | an entry of the file stays in it, unchanged, throughout such a run |
| ServedRuns.HeldStays | packages/app/src/LocalCacheManager.ts:46-58 | what such a run has once stored for a period, short or not, is what every later call serves for it |
| SmallestCases.AskingTwiceIsNotTransparent | packages/app/src/Cache.ts:25-29 | with usage on one day, asking for the day once is transparent and asking twice is not |
| SmallestCases.SundayIsLost | packages/app/src/Cache.ts:154-161 | a week with usage on its Sunday only is answered wrongly |
| SmallestCases.FetchedAgain | packages/app/src/LocalCacheManager.ts:60-78 | a request from within a period, after its start, fetches the period again and writes it over the file's entry, and the file is as printed exactly when that entry was no longer than the new one |
| SmallestCases.TailIsLeft | packages/app/src/LocalCacheManager.ts:60-78 | asking for January from the 15th, with a longer entry for January in the file, leaves a stale tail |
| SmallestCases.SecondCallHasNoAnswer | packages/app/src/LocalCacheManager.ts:105-108 | without a file and without usage, a request up to the current time is answered, and the same request has no answer then |
| SmallestCases.FebruaryIsLost | packages/cli/src/SeedCacheFile/seedCacheFile.ts:86-108 | January 15 to February 10 by months, one at a time, does not ask for February |
| SmallestCases.DefaultWindowMakesTwo | packages/cli/src/SeedCacheFile/seedCacheFile.ts:48-57 | from February 28 18:00 to March 31 06:00 no whole month is counted, and the default window makes two requests |
| SmallestCases.SeedingTwiceInLowerCase | packages/app/src/MongoDbCacheManager.ts:200-216 | a day seeded twice as `aws` has its usage stored twice for `AWS` |
| SmallestCases.PageOfOne | packages/app/src/MongoDbCacheManager.ts:325-332 | a page of one document does not answer a period of two services |
| Witnesses.UsageProviderIsFaithful | packages/app/src/Cache.ts:113-124 | for every usage, short or not, there is a provider that meets the assumptions of these results |
| Witnesses.CodecExists | packages/app/src/common/helpers.ts:19-77 | there is an encoding of all values that meets the assumptions of these results |
| Seeding.WindowsRequestEachOnce | packages/cli/src/SeedCacheFile/seedCacheFile.ts:86-108 | windows of any size, from any start, ask for every period of the range exactly once, in order; the last one is lost exactly when a window would begin in it after the end date |
| Seeding.AlignedLosesNone | packages/cli/src/SeedCacheFile/seedCacheFile.ts:86-108 | from a date on which a period starts, no period is lost |
| Seeding.SingleWindow | packages/cli/src/SeedCacheFile/seedCacheFile.ts:48-57 | the default window, the whole units between the dates and one more, makes a single request exactly when it goes past the end date, as it does for days and weeks and between dates of the same time of day |
| Seeding.SingleWindowLoses | packages/cli/src/SeedCacheFile/seedCacheFile.ts:48-57 | then it loses the last period exactly when more periods begin than whole units pass |
| Seeding.SeededUsage | packages/cli/src/SeedCacheFile/seedCacheFile.ts:86-108 | after seeding, the file's usage is what it held and that of the periods asked for, in time order |
| Seeding.WindowSizeDoesNotMatter | packages/cli/src/SeedCacheFile/seedCacheFile.ts:86-108 | windows of any two sizes, from any start, leave the same usage in the file exactly when both or neither lose the last period, or that period has no usage or was in the file before |
| Seeding.LoopEnds | packages/cli/src/SeedCacheFile/seedCacheFile.ts:86-108 | the date that the loop advances passes the end date exactly when the number of units per request is positive or the start lies after the end |
| Seeding.SeedCacheFile | packages/cli/src/SeedCacheFile/seedCacheFile.ts:86-108 | whenever the loop ends, from any start, it makes the requests of the windows, one after another |
| MongoCache.MongoDbCacheManager.SetEstimates | packages/app/src/MongoDbCacheManager.ts:134-164 | the nested loops append one document per service of each estimate, in order |
| MongoCache.MongoDbCacheManager.MissingDatesOf | packages/app/src/MongoDbCacheManager.ts:166-257 | the requested dates of which no document has the date, or, when one cloud provider is seeded, no document of that provider has the time; all of them when the cache is ignored |
| MongoCache.GetCostAndEstimates | packages/app/src/Cache.ts:39-100 | the collection after a call and its answer, when the cache is used and when it is ignored |
| MongoCache.GroupMembers | packages/app/src/MongoDbCacheManager.ts:294-344 | grouping gives exactly one group for each time that occurs, with the services of its documents in order |
| MongoCache.GroupsDistinct | packages/app/src/MongoDbCacheManager.ts:294-344 | no two groups have the same time |
| MongoCache.FlattenedAt | packages/app/src/MongoDbCacheManager.ts:134-164 | the documents stored for missing periods are, period by period, those of the period's services |
| MongoCache.CollectionMissing | packages/app/src/MongoDbCacheManager.ts:240-250 | in a collection that agrees with the provider, a requested period is missing exactly when it has no document |
| MongoCache.CollectionStaysInAgreement | packages/app/src/MongoDbCacheManager.ts:134-257 | every call leaves each time with no document or with those of all services of that period |
| MongoSeeding.SeedsOneProvider | packages/app/src/MongoDbCacheManager.ts:200-216 | seeding one cloud provider under the name that its documents have treats them as a collection of their own and leaves the others alone |
| MongoSeeding.SeedsOneProviderOverRun | packages/app/src/MongoDbCacheManager.ts:200-216 | the same over whole runs of calls, and its documents agree with the provider throughout |
| MongoSeeding.SeededCollection | packages/cli/src/SeedCacheFile/seedCacheFile.ts:86-108 | seeding one cloud provider by windows of any size, from any start: its documents agree with the provider, every period that the windows ask for has all of them, and the other documents stay |
| MongoSeeding.SeedingUnderAnotherName | packages/app/src/MongoDbCacheManager.ts:200-216 | seeding it under a name that no document has, such as its name in lower case, leaves its documents right exactly when no requested period has one yet |
| MongoCache.AggregatedMembers | packages/app/src/MongoDbCacheManager.ts:294-344 | the aggregation gives exactly the groups of the documents that match and lie in the page, no two of the same time |
| MongoCache.PagesJoinUp | packages/app/src/MongoDbCacheManager.ts:304-319 | a page has the documents from those skipped up to its limit, so neighbouring pages join up without gap or overlap |
| MongoCache.GroupsHoldAll | packages/app/src/MongoDbCacheManager.ts:325-332 | grouping neither loses nor repeats a document |
| MongoCache.GroupsAreExpected | packages/app/src/MongoDbCacheManager.ts:294-344 | the matching documents of a collection that has all requested periods, grouped, are what the provider would answer, period dates aside |
| MongoCache.MatchedCount | packages/app/src/MongoDbCacheManager.ts:294-344 | they are as many as the services that the provider has for the requested periods |
| MongoCache.PageIsExpected | packages/app/src/MongoDbCacheManager.ts:325-332 | a page of them is what the provider would answer exactly when it holds all services of the request |
| MongoCache.MongoCallAnswersServed | packages/app/src/MongoDbCacheManager.ts:59-104 | for any usage, a call answers what it serves, that is what it fetches and what the collection holds, exactly when the page holds all services of that, and this is right exactly when each requested period is served as it is |
| MongoCache.MongoCallIsTransparent | packages/app/src/MongoDbCacheManager.ts:59-104 | when nothing is lost, a call answers what the provider would, period dates aside and in whatever order the groups come, exactly when the page holds all services that the provider has for the request |
| MongoCache.IgnoringIsTransparent | packages/app/src/Cache.ts:59-67 | when the cache is ignored, the provider's own answer is what is expected |
| MongoCache.BackendsAgree | packages/app/src/MongoDbCacheManager.ts:106-164 | both backends give the same answer, period dates aside, exactly when the page holds all services that the provider has for the request and the local manager fetches something or holds no fetched usage |
| MongoCache.BackendsAgreeOverRun | packages/app/src/MongoDbCacheManager.ts:106-164 | they answer every call of a run alike exactly when the page holds all services of each request and every call asks for something new once usage is in the fetched list, which the requests, the usage and the first file decide |
| Billing.HasSameKey | packages/core/src/FootprintEstimate.ts:238-260 | the early returns find two entries the same exactly when region, service, account and every named tag agree, absent tags included |
| Billing.EstimationResults.AppendOrAccumulate | packages/core/src/FootprintEstimate.ts:175-236 | in place, no two days share a time, no two entries of a day share a key, every day has its period; the row's cell grows by its cost, its energy and its emissions and takes over its flag, no other cell changes, and an entry keeps its first row's labels |
| Billing.EstimationResults.PushEntry | packages/core/src/FootprintEstimate.ts:223-226 | a new entry of a day adds one cell to the table and leaves the others |
| Billing.EstimationResults.PushDay | packages/core/src/FootprintEstimate.ts:227-235 | a new day, with its period's dates and grouping, adds one cell to the table and leaves the others |
| Billing.EstimationResults.Find | packages/core/src/FootprintEstimate.ts:192-205 | the search finds the day of a time and the entry of a key, or ends where there is none |
| Billing.EstimationResults.AccumulateAll | packages/core/src/FootprintEstimate.ts:175-236 | any sequence of rows leaves exactly the table of their sums, and of their first rows' labels |
| Billing.TableHoldsSums | packages/core/src/FootprintEstimate.ts:175-236 | a cell exists exactly when a row has its key, and holds the sums of those rows |
| Billing.SumsAddUp | packages/core/src/FootprintEstimate.ts:206-222 | these are the real sum of the rows' costs, the sums of their energy and of their emissions if all are finite and else no finite number, and a flag that holds if any row has it |
| Billing.SameCell | packages/core/src/FootprintEstimate.ts:182-205 | two rows share a cell exactly when they agree on time, region, service, account and every named tag |
| Billing.LabelsAreFirst | packages/core/src/FootprintEstimate.ts:182-205 | an entry keeps the cloud provider, account name and tags of the first row of its cell |
| Billing.FiniteSums | packages/core/src/FootprintEstimate.ts:206-213 | a cell's energy is a finite number exactly when that of each of its rows is |
| Billing.SumsIgnoreOrder | packages/core/src/FootprintEstimate.ts:206-222 | the sums of a cell do not depend on the order of rows |
| Billing.TableIgnoresOrder | packages/core/src/FootprintEstimate.ts:175-236 | rows in any order accumulate to the same table |
| KilowattHours.KilowattHourTable.SetOrAccumulateByService | packages/core/src/FootprintEstimate.ts:112-152 | every number of the table stays but the row's own service and unit, which grow by its energy and amount |
| KilowattHours.KilowattHourTable.SetOrAccumulateTotals | packages/core/src/FootprintEstimate.ts:154-173 | every number of the table stays but the totals of the row's unit, which grow by its energy and amount |
| KilowattHours.KilowattHourTable.AccumulateKilowattHours | packages/core/src/FootprintEstimate.ts:92-110 | both grow, so a row of a service named `total` counts twice |
| KilowattHours.KilowattHourTable.AccumulateAll | packages/core/src/FootprintEstimate.ts:92-173 | for each unit and quantity, over rows in both modes, totals stay equal to column sums exactly when rows of a service named `total` add up to zero; the difference is twice what they add up to |
| KilowattHours.ColumnSumPick | packages/core/src/FootprintEstimate.ts:154-173 | a column sum does not depend on the order of services |
| KilowattHours.ColumnAfterRow | packages/core/src/FootprintEstimate.ts:112-152 | a row of another name adds its amount to its column once |
| KilowattHours.EstimateIsShare | packages/core/src/unknown/UnknownEstimator.ts:48-75 | unknown usage takes the share of its amount in the known quantity of its service's row if that has the unit, else of the totals; the share is not finite without a known quantity, and nothing in a unit of which nothing is known |
| UnknownUsage.EstimateKnown | packages/aws/src/lib/CostAndUsageReports.ts:131-161 | the first pass appends the known rows, adds them to the totals, and sets the unknown rows aside in order |
| UnknownUsage.EstimateUnknownRows | packages/aws/src/lib/CostAndUsageReports.ts:163-177 | the second pass appends every unknown row at its share of the totals, be it finite or not |
| UnknownUsage.AppendedUnknown | packages/core/src/unknown/UnknownEstimator.ts:23-46 | what is appended for an unknown row: its own billing data, its share of energy, emissions that are finite exactly when that is and then are it times the region's factor, and no average used |
| UnknownUsage.KindsOfLines | packages/aws/src/lib/CostAndUsageReports.ts:101-161 | the known estimates are the given ones of the known lines that have one, the unknown rows those of the unknown lines, both in order |
| UnknownUsage.GetEstimates | packages/aws/src/lib/CostAndUsageReports.ts:101-179 | the results depend on the known rows and the unknown rows, not on how they are mixed; unknown rows count only if something was known |
| UnknownUsage.IntensityIsKept | packages/core/src/unknown/UnknownEstimator.ts:48-75 | per usage unit with a known amount other than zero, unknown energy times known amount is known energy times unknown amount |
| UnknownUsage.RunKeepsIntensity | packages/aws/src/lib/CostAndUsageReports.ts:131-177 | over a whole run from empty totals, the energy appended for a unit's unknown rows stands to their amount as the run's known energy stands to its known amount |
| UnknownUsage.RunKeepsEmissions | packages/aws/src/lib/CostAndUsageReports.ts:131-177 | over a whole run from empty totals, the emissions appended for a unit's unknown rows of a region stand to their amount as the run's known energy, by the region's factor, stands to its known amount |
| UnknownUsage.KnownTotals | packages/aws/src/lib/CostAndUsageReports.ts:131-161 | the run's known energy and amount are those of the lines that are known, have an estimate and are accumulated, with those of a service named `total` counted twice |
| UnknownUsage.FiniteEstimates | packages/core/src/unknown/UnknownEstimator.ts:48-75 | all unknown rows have finite estimates exactly when the unit of each is not in the totals or has a known amount other than zero |
| RegionData.SumEstimatesByDay | packages/core/src/FootprintEstimate.ts:39-69 | adding estimates one at a time to per-day accumulators groups them by day |
| RegionData.SumCostsByDay | packages/core/src/cost/Cost.ts:12-34 | adding costs one at a time to per-day accumulators groups them by day |
| RegionData.ReducedStep | packages/common/src/EstimationResult.ts:59-72 | grouping member by member is grouping the whole list and folding each group |
| RegionData.KeysGrow | packages/common/src/EstimationResult.ts:59-72 | keys come in the order of their first occurrence |
| RegionData.EstimatesAddUp | packages/core/src/FootprintEstimate.ts:45-56 | a day's accumulator holds the sums of energy and emissions, whether any estimate used an average, and the day's start |
| RegionData.CostsAddUp | packages/core/src/cost/Cost.ts:17-26 | a day's accumulator of costs holds their sum and the day's start |
| RegionData.FirstCurrencyCounts | packages/core/src/cost/Cost.ts:17-26 | and the currency of the first cost that has one |
| RegionData.MutableEstimationResult.Accumulate | packages/common/src/EstimationResult.ts:46-57 | services are joined, the first value sets time and grouping, and the period follows from them |
| RegionData.ReduceByTimestamp | packages/common/src/EstimationResult.ts:35-75 | for any results, one per time in order of first occurrence, with all services of that time in order and the period of the first one's grouping |
| RegionData.RegionByLines | packages/core/src/CloudProviderAccount.ts:62-92 | the services' results put together by time are their lines grouped by day |
| RegionData.LineAddsUp | packages/core/src/CloudProviderAccount.ts:62-85 | a service's line of a day holds the sums of its estimates and costs of that day, nothing counting as zero, and whether any of those estimates used an average |
| RegionData.OneLinePerDay | packages/core/src/CloudProviderAccount.ts:36-60 | a service has one line on a day with an estimate or a cost, and none on other days |
| RegionData.ServiceConserves | packages/core/src/CloudProviderAccount.ts:30-90 | a service's lines add up to all its energy, emissions and cost |
| RegionData.RegionConserves | packages/core/src/CloudProviderAccount.ts:18-93 | the results add up to the energy, emissions and cost of all services |
| RegionData.RegionSorted | packages/core/src/CloudProviderAccount.ts:87-92 | results are in strict time order, one per day that has a line, each with the lines of its day in service order |
| ComputeUsage.ComputeUsageBuilder.Build | packages/core/src/compute/ComputeUsage.ts:39-51 | the average of the samples, or the constant when there are none |
| ComputeUsage.MergeUsageByTimestamp | packages/core/src/compute/ComputeUsage.ts:71-84 | a row reaches the builder of its own timestamp and no other, in place |
| ComputeUsage.BuildComputeUsages | packages/core/src/compute/ComputeUsage.ts:86-97 | one usage for each timestamp with vCPU hours, from the rows of that timestamp, in order of first occurrence |
| ComputeUsage.TimestampsOnce | packages/core/src/compute/ComputeUsage.ts:71-84 | the timestamps with a builder are those of samples and vCPU rows, each once |
| ComputeUsage.TimestampsGrow | packages/core/src/compute/ComputeUsage.ts:71-84 | timestamps come in the order of their first occurrence |
| ComputeUsage.UsagesInOrder | packages/core/src/compute/ComputeUsage.ts:86-97 | the usages come in the order of the timestamps, those without vCPU hours left out |
| ComputeUsage.UsageHasTime | packages/core/src/compute/ComputeUsage.ts:86-97 | the usages are exactly those of the timestamps that have vCPU hours |
| ComputeUsage.LastVCpusCount | packages/core/src/compute/ComputeUsage.ts:34-37 | the last vCPU row of a timestamp decides its hours, and without one there are none |
| ComputeUsage.SamplesAreFiltered | packages/core/src/compute/ComputeUsage.ts:27-32 | the samples are the utilizations other than zero, in order |
| ComputeUsage.EnergyInWattHours | packages/core/src/compute/ComputeEstimator.ts:15-34 | the energy in watt hours is the product of vCPU hours, effectiveness, replication and the fixed wattage or, without one, the idle wattage and the load's part of the span to the full wattage |
| ComputeUsage.EnergyIsLinear | packages/core/src/compute/ComputeEstimator.ts:24-34 | without a fixed wattage it is linear in the load, that of idle at 0 and that of full load at 100 percent |
| ComputeUsage.EnergyWithinLoad | packages/core/src/compute/ComputeEstimator.ts:15-34 | with percentages, ordered wattages and no fixed wattage, every usage built takes between the idle and the full-load energy of its vCPU hours |
| ComputeUsage.SampleOrderDoesNotMatter | packages/core/src/compute/ComputeUsage.ts:27-51 | reordering rows changes no usage whose last vCPU value stays last |
| AzureUsage.PageThroughUsageRows | packages/azure/src/lib/ConsumptionManagement.ts:308-326 | the rows of all calls up to the last, or the error, which drops the rows before it |
| AzureUsage.PagingStops | packages/azure/src/lib/ConsumptionManagement.ts:308-326 | paging stops at the first call that throws or is done; it fails as that call does, or has the values of all calls up to it |
| AzureUsage.QueryConsumptionUsageDetails | packages/azure/src/lib/ConsumptionManagement.ts:282-374 | at most one attempt more than the retries, all but the last with an error that says no requests are left; the last one decides: its rows, the error that retries are exhausted if it says so too, and any other error at once |
| AzureUsage.QueryEdges | packages/azure/src/lib/ConsumptionManagement.ts:344-351 | usage strictly within a query's times is found, usage beyond them is not, and at the times themselves it is found if they are included |
| AzureUsage.GetConsumptionUsageDetails | packages/azure/src/lib/ConsumptionManagement.ts:376-426 | the loop over chunks ends; its answer is that of the chunks' queries in order; it fails only when the last attempt made failed on one of these queries, and attempts are bounded by the queries |
| AzureUsage.ChunkedCount | packages/azure/src/lib/ConsumptionManagement.ts:394-423 | how often a row comes back: never if it does not fit its chunk, twice if it has no length and lies on a chunk's end at the range's end, else once |
| AzureUsage.ChunkingLosesNothing | packages/azure/src/lib/ConsumptionManagement.ts:394-423 | chunks return what one query would, with the same repetitions, exactly when each row of the range fits its chunk and none lies there |
| AzureUsage.DaySlotFits | packages/azure/src/lib/ConsumptionManagement.ts:392-423 | a row within a 24-hour slot that ends two milliseconds before the slot does is returned once for every chunk size |
| AzureUsage.EmptyRowTwice | packages/azure/src/lib/ConsumptionManagement.ts:394-423 | a row that comes back twice |
| AzureUsage.LateRowIsLost | packages/azure/src/lib/ConsumptionManagement.ts:394-423 | a row that does not come back, though one query has it |
| ElectricityMaps.ZoneIntensityFactors.BeforeAwait | packages/common/src/EmissionsFactors.ts:24-43 | a call waits exactly when there is a token and a zone and no factor other than zero is remembered for the zone and time; else, if what is remembered is true, it has the right answer |
| ElectricityMaps.ZoneIntensityFactors.AfterAwait | packages/common/src/EmissionsFactors.ts:45-79 | with the service's own response a waiting call has the right answer, a factor being the service's grams in metric tons, and what is remembered stays true, with every factor kept |
| ElectricityMaps.UncachedIsAnswer | packages/common/src/EmissionsFactors.ts:17-80 | the right answer is that of a call that remembers nothing: an error if the service fails, the default factors without a token, a zone or an intensity, else the intensity, a million grams being a ton |
| ElectricityMaps.EveryInterleavingIsRight | packages/common/src/EmissionsFactors.ts:17-80 | in every interleaving of any calls, every finished call has the right answer |
| ElectricityMaps.AsksNoMore | packages/common/src/EmissionsFactors.ts:36-43 | whatever happened before, once a call has returned a factor, a call of the same zone and time that starts later returns it without asking the service |
| ElectricityMaps.FactorsAreKept | packages/common/src/EmissionsFactors.ts:65-75 | no factor of any time and zone is changed or dropped, whatever happens later |
| ElectricityMaps.TwiceScheduledIsDone | packages/common/src/EmissionsFactors.ts:17-80 | a call is done after two of its half-steps |
| Recommendations.GetFilteredRecommendations | packages/gcp/src/lib/Recommendations.ts:95-177 | the totals grow by all known recommendations before any unknown one is estimated from them |
| Recommendations.CompletionOrderDoesNotMatter | packages/gcp/src/lib/Recommendations.ts:110-177 | every order of completion gives the same totals and the same results, with repetitions |
| Recommendations.EachHasOne | packages/gcp/src/lib/Recommendations.ts:110-177 | every recommendation has exactly one result, the known ones first, in the order of completion |
| Recommendations.KnownKeepTheirs | packages/gcp/src/lib/Recommendations.ts:130-147 | a known recommendation saves the cost, energy and emissions of its own lookup |
| Recommendations.UnknownsFollowKnown | packages/gcp/src/lib/Recommendations.ts:179-199 | an unknown one saves its own cost; from zero totals, its energy times all known cost is its cost times all known energy and its emissions follow by its zone's factor; without known cost it has none |

## Left out

- Usage that changes: a provider's usage of a period is fixed. A request that ends inside a running period stores that period's estimate as it is then, and the store never fetches it again, so the stored estimate stays partial for good.
- Calls that overlap on one local manager, and several groupings that share it: runs of calls are serial and use one grouping.
- GetCostAndEstimates: says what a local call that ignores the cache answers and stores, but compares it with no reference, because it answers for the periods missing from the file only.
- RunIsTransparent, and the other results that compare runs with the provider: for weeks they assume that no Sunday makes a difference, which `LosingNothingIsNeeded` shows to be needed. Without that assumption there are `CallAnswersServed`, `AnswerIsRight` and `MongoCallAnswersServed` for single calls, and for runs the lemmas of ServedRuns, whose requests start on a period; a request from within a week may store that week again, short or not.
- The clock: it is read once per call, does not run backwards over a run, and in the results about transparency is later than the end of the request; the validator also lets the two be equal.
- MongoDbCacheManager: the filters by tag, account, region and service, tenants, and database errors; how a call with one cloud provider to seed answers, which seeding drops.
- SeedCacheFile: is called only when its loop ends, which `LoopEnds` decides, and leaves out the prompts and the database connection.
- The cache file's encoding is a function with a left inverse that has no newlines; bytes, the reading stream's behaviour at its end, the string form that period dates have after reading, test mode and the names of files are not modelled.
- The Google Cloud storage manager, which rewrites its file from the filtered list only and so does not keep the store's invariant.
- EstimationResults: a tag that is absent and one that is `undefined` count as the same.
- KilowattHourTable: names that every object inherits, such as `constructor`, are ordinary keys here.
- GetEstimates: infinities and numbers that are undefined are one value that is not finite; usage types are classified, and known usage is estimated, outside the model; emission factors are a function of the region.
- Days of a region's data: years beyond 9999, and a service that the region's answers leave out, on which the program throws.
- GetConsumptionUsageDetails: the server answers every successful query with the rows that match, in a fixed order, and waiting between retries takes no time; chunks are whole days.
- Recommendations: several projects sharing one object of totals, and the lookups of instances, disks and images that give each recommendation's estimate.
- SampleOrderDoesNotMatter: the order of vCPU rows of a timestamp matters, since the last one counts.
- Rounding and other effects of floating-point numbers.
- Query building, command-line output, authentication, the web client, and the tables of regions, processors and emission factors.
- The stepping of dates in the AWS metric queries, which can stop advancing at the end of a month.
