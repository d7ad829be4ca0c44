# A verified model of the AppScan analytics backend

The backend collects scans, issues, applications and asset groups from one or more AppScan
sources, aggregates them into one dashboard payload (the *bundle*), and serves that bundle
from two caches. This project models its hardest parts in Dafny and proves what they promise.

* **Page coverage of dynamic scans** (`RefreshQueue`, `Fairness`, `Coverage`, `CoverageService`,
  `CoverageRuns`). A scheduler picks at most 500 waiting scans, a priority prefix of 20 and then
  a walk from a rotating cursor; one refresh at a time writes a cache with two lease lengths.
* **The bundle caches** (`BaseData`, `LockRegistry`, `Snapshots`, `SnapshotStore`, `CacheKey`,
  `Filtering`, `BundleInputs`, `SelectionLaws`). Interleaved callers are state machines whose
  steps are the stretches of code between two awaits; clocks and the outcomes of remote fetches
  are event parameters.
* **The normaliser** (`Json`, `Normalizer`, `LegacyRows`, `Profiles`, `ScanTimes`, `SizeProfiles`,
  `PageProfiles`, `FormerBuckets`, `Statistics`, `Workbench`, `WorkbenchBuilder`, `LiveTrends`,
  `Bundle`, `MadeUpRows`). Every stored payload passes through it, no live one does; the two
  must agree.
* **Aggregation** (`Counting`, `Series`, `SeriesLaws`, `Sections`, `ScanCells`, `ServedCells`,
  `Technology`, `FilterOptions`, `ChosenOptions`, `Prioritization`, `Sources`). Counts over
  unbounded lists, by period, application, technology, fix group and data source.
* **Retries** (`Timestamps`, `ReportSchedules`, `ScheduleRuns`, `ApiClient`). The report scheduler
  with its back-off and text timestamps, and the API client with its nested retries.

`Domain`, `Text`, `Sorting` and `Wrappers` hold the shared records, the string operations, a
stable sort and option types.

Some promises do not hold of the code as it stands. In each case the code is modelled as it is
and the condition under which the promise holds is proved:

* The rotation does not reach every waiting scan. It moves by 500 but guarantees only 480 places
  to the walk, so a list longer than 500 whose length is a multiple of 500 leaves the same 20 of
  every 500 positions out for ever (`Fairness.RotationIsFair`, `Fairness.FairLengths`).
* Filtering after merging is merging after filtering only if no enabled source is requested
  beyond the twentieth id alone (`Sources.FilterAfterMerge`).
* The cache key strips the application name and the filters do not, and it sorts the source ids
  of which the issue counts are asked of the first twenty in request order only; so two requests
  with one key may ask for different bundles (`BundleInputs.KeyIsSoundExactly`).
* The number beside a vulnerability option is not what choosing it returns when its key holds a
  comma, at which the routes split (`ChosenOptions.ChosenReturnsItsCount`).
* Issues of different fix groups share a row when the text of id, colon and name can be split at
  another colon (`Prioritization.FixGroupApartExactly`).
* A stored size bin of a former bucket counts where its sizes count today but for 10 up to 20
  megabytes and the last 24 megabytes below a gigabyte (`FormerBuckets.FormerSizes`).
* Normalising the page coverage twice is not normalising it once when the stored profile had no
  list of bins (`PageProfiles.PagesIdempotentExactly`).
* Migrating old scan-time rows keeps the first row of a period and drops the counts of the others
  (`LegacyRows.MigrationIsComplete`).
* Builds of one key are exclusive only while no lock in use is evicted: after any run that kept
  them, an event keeps them too if and only if builds stay exclusive afterwards, and a crowd of
  501 keys evicts one (`Snapshots.EvictionBreaksExclusion`, `Snapshots.DoubleBuildIsReachable`).
* The due query compares texts. For texts the code prints that is the order of the instants; a
  user's text ending in "Z" is picked up a second late, and the offset of one that carries an
  offset is ignored (`Timestamps.DueExactlyAt`, `Timestamps.ZuluIsLate`,
  `Timestamps.OffsetIsIgnored`).

Operations are proved against functions, and what these functions mean is stated apart from them:
`SelectionLaws`, `ScanCells`, `ServedCells`, `FormerBuckets`, `MadeUpRows` and the laws on runs speak
of the fields of scans, issues, entries and logs, with the bounds and names written out.

Instants are microseconds; a date field is the parsed instant with its calendar fields, or
nothing when it does not parse. Floats are reals. `str`, `int` and the lower-cased status counts
are a `Library` of functions the results hold for; where it matters that a truthy value prints as
some text, that is an explicit hypothesis (`Prints`).

## Model

| member | source | states |
|---|---|---|
| RefreshQueue.TakeRecent | backend/app/services/asoc_read_service.py:664-674 | The first loop collects the most recent 20 positions, each id once. |
| RefreshQueue.Select | backend/app/services/asoc_read_service.py:664-687 | Both loops, cut short at the window, pick exactly what one full turn round the list would, and the cursor moves by the window. |
| RefreshQueue.SelectionExact | backend/app/services/asoc_read_service.py:664-687 | The picked ids are distinct, all waiting, min(500, number of distinct ids) many, and include the 20 most recent positions. |
| Fairness.PickedIffServed | backend/app/services/asoc_read_service.py:664-687 | With distinct ids a position is picked exactly when it is in the prefix or within 480 (or the window less 20) places behind the cursor. |
| Fairness.ReachStart | backend/app/services/asoc_read_service.py:676-677 | The cursor's starts run through a whole coset of gcd(n, 500) within n / gcd(n, 500) rounds. |
| Fairness.RotationIsFair | backend/app/services/asoc_read_service.py:664-687 | On a fixed list every scan is picked within n / gcd(n, 500) rounds from any cursor, except the starved positions, which are never picked. |
| Fairness.FairLengths | backend/app/services/asoc_read_service.py:664-687 | No position is starved, from any cursor, if and only if n <= 500 or 500 does not divide n; otherwise every cursor starves someone. |
| Coverage.AnyInterleaving | backend/app/services/asoc_read_service.py:619-796 | In every interleaving at most one refresh runs, it is the one in the slot, and each entry expires the long lease or 120 seconds after collection, by whether its count is positive. |
| CoverageService.FetchPages | backend/app/services/asoc_read_service.py:730-756 | The first endpoint with a positive count answers; if none has one the answer is 0 from "none". |
| CoverageService.Service.ApplyCached | backend/app/services/asoc_read_service.py:562-579 | Rows are overlaid in place, upwards only, and the cache is not touched; which entries count, by their expiry, is `CoverageRuns.ReportIsMaximum`. |
| CoverageService.Service.SiftScans | backend/app/services/asoc_read_service.py:632-662 | Positive counts renew their entries, scans without a live entry queue up in order. |
| CoverageService.Service.Schedule | backend/app/services/asoc_read_service.py:619-695 | Sorting, sifting, picking and, if the slot is free, starting one refresh. |
| CoverageService.Service.Finish | backend/app/services/asoc_read_service.py:769-796 | The results of a refresh are written under their leases and the slot is freed. |
| CoverageService.Service.Hydrate | backend/app/services/asoc_read_service.py:581-617 | The call hands back new rows with the reported counts and leaves the caller's rows as they were. |
| CoverageRuns.Untouched | backend/app/services/asoc_read_service.py:619-695 | A call that does not list a scan leaves its entry alone. |
| CoverageRuns.Settles | backend/app/services/asoc_read_service.py:562-617 | A call reports at least what the list and a live entry say, and leaves what it reported cached under a lease from this call on. |
| CoverageRuns.ReportIsMaximum | backend/app/services/asoc_read_service.py:562-617 | A dynamic scan is reported with the largest of its listed count and the positive counts of the entries not expired at the two overlays; any other row is unchanged. |
| CoverageRuns.WaitsExactly | backend/app/services/asoc_read_service.py:640-662 | A scan listed once is among the waiting ids of the call if and only if it is listed with no pages, no live positive entry was shown, and no entry of whatever count is alive when the call schedules. |
| CoverageRuns.ReportHasSource | backend/app/services/asoc_read_service.py:562-617 | A report above the listed count is that of an entry not expired when the call began, or the answer this call got for a scan it found waiting. |
| CoverageRuns.AllAreAsked | backend/app/services/asoc_read_service.py:664-695 | A call asks about all scans in want of a count if they are at most 500, else about 500 of them. |
| CoverageRuns.AnswerIsShown | backend/app/services/asoc_read_service.py:769-796 | A scan asked about and answered in time is reported with the answer, remembered for the long lease, or for 120 seconds if the answer was no pages. |
| CoverageRuns.NewestWaitFirst | backend/app/services/asoc_read_service.py:632-640 | The waiting scans are ordered by creation, newest first, undated ones as of the epoch. |
| CoverageRuns.NeverBackwards | backend/app/services/asoc_read_service.py:562-617 | Over any sequence of calls a scan's reported pages never fall while its lease is renewed in time. |
| CoverageRuns.OnlyPagesGrow | backend/app/services/asoc_read_service.py:574-579 | Hydrating keeps every scan in place and changes only a page count, upwards. |
| BaseData.Holder.Check | backend/app/api/v1/routes/analytics.py:1184-1205 | The decision taken inside the lock: coalesce a forced refresh within 20 seconds, hit a live cache, or fetch; over whole runs it is `BaseData.FetchesExactly`. |
| BaseData.Holder.Store | backend/app/api/v1/routes/analytics.py:1204-1212 | A fetch sets payload and expiry together, and the forced stamp only when forced. |
| BaseData.AnyInterleaving | backend/app/api/v1/routes/analytics.py:1168-1212 | Every reachable state keeps the whole invariant: lock ownership, one fetch in flight, cache derived from the log of fetches, spacing, and answers that were really fetched. |
| BaseData.FetchDiscipline | backend/app/api/v1/routes/analytics.py:1184-1212 | At most one fetch is in flight, and a forced fetch starts more than 20 seconds after every earlier successful forced one ended. |
| BaseData.FetchesExactly | backend/app/api/v1/routes/analytics.py:1184-1212 | In every run, from the log and the clock alone: a caller taking the free lock starts a fetch if and only if, unforced, no successful fetch is younger than the lifetime or, forced, no successful forced one ended within 20 seconds; otherwise it is served the last success and the log stays. |
| BaseData.ServedAtOnceExactly | backend/app/api/v1/routes/analytics.py:1174-1182 | A new caller is served without the lock, with the last success, if and only if it is unforced and a successful fetch is younger than the lifetime. |
| BaseData.CacheIsOneFetch | backend/app/api/v1/routes/analytics.py:1204-1212 | Payload and expiry come from one fetch, the last that completed; a failed fetch changes nothing. |
| BaseData.CachedAnswerAge | backend/app/api/v1/routes/analytics.py:1184-1203 | A caller answered inside the lock without a fetch gets data at most 20 seconds old if forced, younger than the lifetime otherwise. |
| LockRegistry.Registry.GetLock | backend/app/api/v1/routes/analytics.py:110-120 | A known key keeps its lock; a new one gets a new lock, after evicting the 100 oldest when 500 are held. |
| LockRegistry.RegisteredFacts | backend/app/api/v1/routes/analytics.py:110-120 | The registry stays within 500 entries without duplicates and answers the key it was asked for. |
| LockRegistry.OldestMakeRoom | backend/app/api/v1/routes/analytics.py:110-120 | Other keys keep their locks, except that a new key at 500 entries drives out exactly the 100 oldest. |
| Snapshots.BuildsAreExclusive | backend/app/api/v1/routes/analytics.py:1734-1789 | In every run the registry holds at most 500 locks, and as long as no lock in use is evicted no two tasks build the same key at once. |
| Snapshots.StoredAreBuilds | backend/app/api/v1/routes/analytics.py:1975-2007 | What is stored for a key is its latest successful build with the lifetime its issue count gives; a failed build never replaces it. |
| Snapshots.BuildsExactly | backend/app/api/v1/routes/analytics.py:1753-1788 | In every run, with the lock of its key free, a queued task builds if and only if it is to refresh or the latest successful build of its key has outlived 30 seconds, with no issues, or the configured time, at least 15 seconds. |
| Snapshots.EvictionBreaksExclusion | backend/app/api/v1/routes/analytics.py:110-120 | After any run without an eviction of a lock in use, an event evicts none, whether of a building or a queued task, if and only if builds stay exclusive in every continuation that evicts none. |
| Snapshots.DoubleBuildIsReachable | backend/app/api/v1/routes/analytics.py:110-120 | A run with 501 keys reaches two simultaneous builds of one key. |
| SnapshotStore.Table.Upsert | backend/app/repositories/postgres_store.py:947-971 | If the text rows stand for a table of snapshots by instant, after storing they stand for that table with the new snapshot under its key. |
| SnapshotStore.Table.Get | backend/app/repositories/postgres_store.py:910-929 | A key answers the row of its snapshot, its instants printed, or nothing. |
| SnapshotStore.Table.Purge | backend/app/repositories/postgres_store.py:978-985 | If the text rows stand for a table of snapshots, after comparing expiry texts they stand for its snapshots whose instant is after the cutoff; the number that went is reported. |
| SnapshotStore.PurgeByTextIsPurge | backend/app/repositories/postgres_store.py:978-985 | Purging by text removes exactly the snapshots whose instant is not after the cutoff. |
| CacheKey.KeysEqualExactly | backend/app/api/v1/routes/analytics.py:72-107 | Two requests share a key exactly when their lists are rearrangements of each other, their names agree up to case and outer white space, and the rest is equal. |
| BundleInputs.KeyIsSound | backend/app/api/v1/routes/analytics.py:1308-1486 | With stripped names, one key means the same selection of applications, groups, scans, issues, options and flags under the same rule; and the same inputs altogether, counted sources included, if and only if no counts are asked for or the same enabled sources are within the first twenty ids. |
| BundleInputs.KeyIsSoundExactly | backend/app/api/v1/routes/analytics.py:1308-1486 | For any names: one key means the same inputs on all base data if and only if the names agree up to case as they stand or the user can see nothing in the groups asked for, and no counts are asked for or the first twenty source ids are the same set. |
| BundleInputs.LoadedExactly | backend/app/services/multi_endpoint.py:32-48 | Two requests ask the same sources, in the same order, if and only if the same enabled ones are within the first twenty ids of both. |
| BundleInputs.TwentySourcesSuffice | backend/app/services/multi_endpoint.py:32-48 | With one key and at most twenty ids the order of the ids does not matter. |
| BundleInputs.SameScans | backend/app/services/asoc_read_service.py:1786-1897 | The scan filters use each list only through membership; what they keep is `SelectionLaws.ScansSelected`. |
| BundleInputs.SameIssues | backend/app/services/asoc_read_service.py:1865-1897 | The issue filters use each list only through membership, the scanned applications among them; what they keep is `SelectionLaws.IssuesSelected`. |
| Text.TrimTakesSpace | backend/app/api/v1/routes/analytics.py:173-216 | Stripping takes white space off both ends and nothing else. |
| Text.Letters | backend/app/api/v1/routes/analytics.py:206-216 | Lower and upper case pair the letters of the alphabet. |
| Text.ContainsExactly | backend/app/services/asoc_read_service.py:1841-1841 | A name contains the text asked for if and only if it stands somewhere in it. |
| SelectionLaws.ScansSelected | backend/app/services/asoc_read_service.py:1786-1864 | The scans selected are, in their order, those tagged with a requested source, in a group the user may see, in each non-empty list of groups, applications, types and statuses, with the name asked for, and in the range of dates. |
| SelectionLaws.OptionsSelected | backend/app/services/asoc_read_service.py:1865-1897 | The same of the issues offered as options; with types or statuses asked for, only those of an application with such a scan. |
| SelectionLaws.IssuesSelected | backend/app/api/v1/routes/analytics.py:1385-1391 | The issues selected are those of them, in order, whose technology and vulnerability are asked for. |
| SelectionLaws.AppsSelected | backend/app/api/v1/routes/analytics.py:1319-1341 | The applications are those of the requested sources that the user may see and that the scope names, in order. |
| SelectionLaws.GroupsSelected | backend/app/api/v1/routes/analytics.py:1323-1341 | Likewise the asset groups. |
| SelectionLaws.SummaryAppsSelected | backend/app/api/v1/routes/analytics.py:1408-1430 | The summary counts every selected application, or once anything but the scope is filtered those with a selected scan or issue. |
| SelectionLaws.SummaryGroupsSelected | backend/app/api/v1/routes/analytics.py:1432-1456 | Likewise the groups: those of these applications and of the selected scans and issues. |
| SelectionLaws.FlagsAre | backend/app/api/v1/routes/analytics.py:1399-1486 | Which kinds of filter a request sets; the sources are asked for counts if and only if that is switched on and neither a scope nor a dataset filter is set. |
| Sources.AggregateBaseData | backend/app/services/multi_endpoint.py:543-584 | The loop concatenates the tagged lists of the sources that answered, takes the first non-empty tenant record, and sums each statistic. |
| Sources.TenantIsFirst | backend/app/services/multi_endpoint.py:543-584 | The tenant record is the one of the first source that answered with one, and empty only if none did. |
| Sources.KeepIsMerge | backend/app/api/v1/routes/analytics.py:1309-1327 | Keeping the merged items of a set of sources is merging those sources alone, in order, failed ones contributing nothing. |
| Sources.FilterAfterMerge | backend/app/services/multi_endpoint.py:32-48 | For every outcome of the fetches, filtering the merge gives what fetching the requested sources gives, if and only if no enabled source is requested beyond the twentieth id alone. |
| Sources.TwentyAreHonoured | backend/app/services/multi_endpoint.py:29-48 | Up to twenty requested ids always satisfy that condition. |
| Sources.StatsSplit | backend/app/services/multi_endpoint.py:573-577 | The summed statistics of a set of sources and of the others add up to those of all. |
| Statistics.FiguresSurvive | backend/app/api/v1/routes/analytics.py:312-370 | The figures read back from completed statistics are the figures that were written. |
| Statistics.HydrationIdempotent | backend/app/api/v1/routes/analytics.py:312-370 | Completing the statistics twice is completing them once. |
| Statistics.GivenFiguresStay | backend/app/api/v1/routes/analytics.py:329-358 | A figure that is given is never overwritten, and other fields stay. |
| Statistics.FiguresAgree | backend/app/api/v1/routes/analytics.py:343-369 | In every completed answer both scan counts are one figure and the severity table repeats the figures beside it. |
| Statistics.MissingIsRemainder | backend/app/api/v1/routes/analytics.py:329-341 | A missing low or resolved count is the remainder, so parts and total agree unless the given parts exceed the total, and it is never negative. |
| Statistics.ScanCounts | backend/app/api/v1/routes/analytics.py:316-364 | Scans in progress are those running, pending, queued or scheduled; they, the failed scans, the applications, the groups and both tables of scan counts are always the summary's. |
| Statistics.MissingTotals | backend/app/api/v1/routes/analytics.py:329-356 | A total that is not given is the summary's; that of scans is first looked for under its other name. |
| Statistics.MissingParts | backend/app/api/v1/routes/analytics.py:331-341 | Missing higher severities are zero; missing low and resolved issues are the total less the other parts, or zero. |
| LegacyRows.LegacyCounts | backend/app/api/v1/routes/analytics.py:719-742 | One migrated row splits a combined counter in parts differing by at most one, moves the DAST counter, and totals both. |
| LegacyRows.Migrate | backend/app/api/v1/routes/analytics.py:688-744 | The loop over the sorted periods makes each month from the first row of either list, nothing else. |
| LegacyRows.MigrationConserves | backend/app/api/v1/routes/analytics.py:684-746 | Over all months every new bucket holds exactly the old counter that moves to it, summed over the first row of each period. |
| LegacyRows.MigrationIsComplete | backend/app/api/v1/routes/analytics.py:684-746 | Nothing dated is lost if and only if the rows behind the first of their period add up to nothing; with one row a period nothing is. |
| LegacyRows.CountersMoveOnce | backend/app/api/v1/routes/analytics.py:719-738 | Over all months and all eight buckets together SAST and SCA hold what the six combined counters held, and DAST what its five held: no counter is dropped or moved twice. |
| LegacyRows.CombinedMoves | backend/app/api/v1/routes/analytics.py:720-732 | Every combined counter, the tail included, moves to a bucket. |
| LegacyRows.DynamicMoves | backend/app/api/v1/routes/analytics.py:734-738 | Every DAST counter moves to a bucket. |
| LegacyRows.MonthRowsAreNormal | backend/app/api/v1/routes/analytics.py:688-746 | Migrated rows are sorted and complete, as the normaliser leaves rows. |
| Normalizer.NormalRowsAreFixed | backend/app/api/v1/routes/analytics.py:627-646 | Rows the normaliser has made it returns as they are, in the same order. |
| Normalizer.RowsFromIsNormal | backend/app/api/v1/routes/analytics.py:627-646 | From any stored value the normaliser makes sorted rows with every bucket and column. |
| Profiles.MergeBins | backend/app/api/v1/routes/analytics.py:1039-1052 | The loop adds each bin to the bucket its key resolves to, column by column, and skips the others. |
| Profiles.MergingConserves | backend/app/api/v1/routes/analytics.py:1039-1052 | Merging under aliases keeps the sum of the resolvable bins. |
| Profiles.NormalProfileIsFixed | backend/app/api/v1/routes/analytics.py:864-938 | Of a normal profile only the bins can change. |
| ScanTimes.ScanTimeIdempotent | backend/app/api/v1/routes/analytics.py:648-750 | Normalising scan times again, at whatever time, changes nothing, whichever shape was stored. |
| ScanTimes.NormalScanTimeIsFixed | backend/app/api/v1/routes/analytics.py:661-682 | Every section in normal form, whatever its defaults, options and rows, is kept as it is. |
| SizeProfiles.SizesIdempotent | backend/app/api/v1/routes/analytics.py:840-938 | Normalising the size profile again, at whatever time, changes nothing, whichever shape was stored. |
| SizeProfiles.NormalSizesAreFixed | backend/app/api/v1/routes/analytics.py:863-919 | Every size profile in normal form is kept as it is. |
| SizeProfiles.SeedingConserves | backend/app/api/v1/routes/analytics.py:920-936 | The month seeded from bins holds, column by column, the sum of the stored bins that resolve to a bucket. |
| SizeProfiles.SeededCell | backend/app/api/v1/routes/analytics.py:920-936 | Each cell of the seeded month is the sum of the bins resolved to its bucket. |
| SizeProfiles.SeedMonth | backend/app/api/v1/routes/analytics.py:920-936 | The seeding loop makes the month of bins that the normaliser is specified with. |
| PageProfiles.PagesIdempotentExactly | backend/app/api/v1/routes/analytics.py:1016-1114 | Normalising page coverage again changes nothing if and only if a list of bins was stored; a third pass never does. |
| PageProfiles.MergePages | backend/app/api/v1/routes/analytics.py:1039-1112 | The loop over stored bins makes the bins and the month that the normaliser is specified with. |
| PageProfiles.PageMergingConserves | backend/app/api/v1/routes/analytics.py:1039-1063 | The merged bins carry the scans and pages of all resolvable stored bins. |
| FormerBuckets.FormerSizes | backend/app/api/v1/routes/analytics.py:763-808 | A bin of a former size bucket goes to the bucket in which a size of its range counts today, if and only if that size is not from 10 up to 20 nor from 1000 up to 1024 megabytes. |
| FormerBuckets.FormerPages | backend/app/api/v1/routes/analytics.py:948-984 | Both former page buckets go where every page count of their range counts today. |
| FormerBuckets.SizeLabelsResolve | backend/app/api/v1/routes/analytics.py:785-808 | A bin without a key goes to the size bucket whose label it bears. |
| FormerBuckets.PageLabelsResolve | backend/app/api/v1/routes/analytics.py:966-984 | The same of the page buckets. |
| FormerBuckets.GivenCellStays | backend/app/api/v1/routes/analytics.py:816-838 | A number stored under its bucket and column stays, and a bucket without anything is zero. |
| FormerBuckets.TotalIsMadeUp | backend/app/api/v1/routes/analytics.py:826-836 | A size cell without a total is given the sum of its parts. |
| FormerBuckets.FormerCounts | backend/app/api/v1/routes/analytics.py:1000-1016 | Page cells are read under their former names, and a bare number is a number of scans. |
| Workbench.RunningTotalsAddUp | backend/app/api/v1/routes/analytics.py:492-505 | Made-up running totals, of findings and of applications, are the sums of the rows up to them. |
| Workbench.LicenseAddsUp | backend/app/api/v1/routes/analytics.py:553-582 | Whatever is stored in the old shape, the rows of the migrated table add up to its summary and to the old counts. |
| Workbench.BenchStays | backend/app/api/v1/routes/analytics.py:471-1119 | A second pass over a workbench changes its page coverage at most, and that exactly when its bins had to be made up. |
| MadeUpRows.TrendShows | backend/app/api/v1/routes/analytics.py:393-409 | Missing findings are made up from the trend: a row for each of its rows, with the issues or else the total as findings of unknown severity, under the month or else the period. |
| MadeUpRows.UndatedIsDropped | backend/app/api/v1/routes/analytics.py:394-398 | A trend row without month and period is dropped. |
| MadeUpRows.CumulativeShows | backend/app/api/v1/routes/analytics.py:492-505 | A made-up running total shows each month's findings and their sum so far. |
| MadeUpRows.ComplianceShows | backend/app/api/v1/routes/analytics.py:507-519 | A made-up compliance row has all applications of the summary compliant, at 100 percent, or 0 without any. |
| MadeUpRows.OnboardedShows | backend/app/api/v1/routes/analytics.py:525-538 | A made-up onboarding row shows the applications of its compliance row and their sum so far. |
| MadeUpRows.DaysShow | backend/app/api/v1/routes/analytics.py:541-551 | Made-up resolution rows show no days and nothing fixed. |
| MadeUpRows.LicenseShows | backend/app/api/v1/routes/analytics.py:553-597 | Where the counts of an old license table go: DAST and SAST to their rows, SCA and IAST none; without a table nothing is consumed. |
| MadeUpRows.RawShows | backend/app/api/v1/routes/analytics.py:384-391 | The raw counts are those of the statistics, the total their sum if it is missing or zero. |
| Bundle.HydratedTwice | backend/app/api/v1/routes/analytics.py:373-1128 | Normalising a served payload again never fails, changes nothing outside the workbench, and nothing at all if and only if the page coverage held a list of bins. |
| Bundle.StatisticsAgree | backend/app/api/v1/routes/analytics.py:312-384 | The statistics route answers the same from the normalised payload as from the payload itself, for every payload. |
| Bundle.CachedEqualsLive | backend/app/api/v1/routes/analytics.py:373-1128 | A live bundle, each part of it in the form described, read back from a snapshot is that bundle with its statistics completed and nothing else changed, and the statistics route answers the same. |
| Bundle.ServedAsBuilt | backend/app/api/v1/routes/analytics.py:373-1128 | From scans and issues to the answer: a bundle whose findings and workbench count given issues and scans is served from a snapshot, whenever it is read, still counting exactly those, only its statistics completed. |
| ServedCells.ServedCell | backend/app/services/asoc_read_service.py:2729-3046 | What a client reads: in every section, row, bucket and column of a served bundle, the number of scans of that type, range of seconds, bytes or pages, and period, or the pages of them. |
| ServedCells.ServedFinding | backend/app/services/asoc_read_service.py:2296-2330 | And in the findings the number of issues of that severity and period. |
| ServedCells.SizeBinShows | backend/app/services/asoc_read_service.py:2893-2915 | A size bin shows its key and label and how many static and composition scans of its range there are, dated or not. |
| ServedCells.PageBinShows | backend/app/services/asoc_read_service.py:3000-3034 | A coverage bin shows how many dynamic scans of its range there are, and their pages. |
| ServedCells.Preselected | backend/app/services/asoc_read_service.py:2781-2784 | Month and the lowest bucket are preselected in all three sections. |
| Bundle.MonthListsComeBack | backend/app/api/v1/routes/analytics.py:471-505 | A snapshot without the severity trend or its running total is served with both as the live build makes them: the answer is the same with or without them. |
| LiveTrends.BuildFindingsSeries | backend/app/services/asoc_read_service.py:2296-2330 | The findings per week, month and year count the issues, sorted, or are one empty row. |
| LiveTrends.BuildWorkbench | backend/app/services/asoc_read_service.py:2406-3082 | The severity trend and its running total count the issues, the bucketed sections the scans, and the given lists are in their places. |
| LiveTrends.BuiltIsNormal | backend/app/services/asoc_read_service.py:2406-3082 | Whatever the scans and issues, such a workbench is in the form the normaliser leaves workbenches in. |
| LiveTrends.CumulativeComesBack | backend/app/api/v1/routes/analytics.py:492-505 | The running total the normaliser makes up from the severity trend is the one the live build computes. |
| WorkbenchBuilder.SeriesIsNormal | backend/app/services/asoc_read_service.py:2767-2779 | A built series is already in the normaliser's form. |
| WorkbenchBuilder.BuildSections | backend/app/services/asoc_read_service.py:2706-3046 | The three bucketed sections are what their scans per period and overall come to, and the normaliser returns them as built, whenever it runs; what the cells are, by the fields of the scans, is `ServedCells.ServedCell`. |
| WorkbenchBuilder.ShownIsNormalised | backend/app/services/asoc_read_service.py:2706-3046 | Sections that count scans, whichever, are in the normaliser's own form. |
| Series.BuildSeries | backend/app/services/asoc_read_service.py:2736-2779 | One row a period that occurs, sorted, every cell the sum over its scans; an empty row for the current period if nothing has a date. |
| Series.ChartedOnce | backend/app/services/asoc_read_service.py:2736-2779 | The entries settle the series: any two that fit the description of a built one are equal, row for row. |
| SeriesLaws.SeriesConserves | backend/app/services/asoc_read_service.py:2736-2779 | The rows of a series carry exactly what the dated entries add. |
| SeriesLaws.PeriodsAgree | backend/app/services/asoc_read_service.py:2736-2779 | Week, month and year series carry the same grand total per bucket and column. |
| SeriesLaws.YearIsSumOfMonths | backend/app/services/asoc_read_service.py:488-499 | Each year row is the sum of its month rows. |
| SeriesLaws.KeysFollowTime | backend/app/services/asoc_read_service.py:488-499 | Period keys sort as their weeks, months and years. |
| SeriesLaws.TotalsArePartSums | backend/app/services/asoc_read_service.py:2756-2758 | In every row the total of a bucket is the sum of its technologies. |
| Sections.BucketsSurround | backend/app/services/asoc_read_service.py:2706-2727 | A value falls in a bucket if and only if the bucket's edges surround it. |
| ScanCells.RowShows | backend/app/services/asoc_read_service.py:2739-2779 | A cell of a series is the number of scans by type, period and literal bounds: seconds for durations, megabytes after the unit rule for sizes, pages for coverage, whose second column is their sum. |
| ScanCells.BinShows | backend/app/services/asoc_read_service.py:2843-2852 | A bin is the same number over all periods and the scans without a date. |
| ScanCells.PeriodsShown | backend/app/services/asoc_read_service.py:2760-2779 | A series has exactly the periods in which a scan of its section was created, or only the current one if none has a date. |
| ScanCells.FindingShows | backend/app/services/asoc_read_service.py:2296-2330 | A cell of the findings is the number of issues of its severity and period. |
| Sections.BuildBins | backend/app/services/asoc_read_service.py:2843-2852 | The overall bins sum all entries, dated or not. |
| Sections.BinsAndSeries | backend/app/services/asoc_read_service.py:2843-2896 | A bin is what its series carries plus the scans without a date. |
| Sections.SectionLaws | backend/app/services/asoc_read_service.py:2723-2990 | For every section and list of scans the three series agree, years sum their months, and totals sum their technologies. |
| Sections.Cumulate | backend/app/services/asoc_read_service.py:2430-2442 | Each row pairs the month's total with the running sum up to it. |
| Sections.CumulativeIsComplete | backend/app/services/asoc_read_service.py:2430-2442 | The last cumulative value is the sum of all months, which is the number of issues with a date; each month's total is the sum of its severities. |
| Technology.BuildMaps | backend/app/services/asoc_read_service.py:463-485 | Per application exactly the technologies of its scans, and the most frequent one, ties by priority. |
| Technology.TypesCounted | backend/app/services/asoc_read_service.py:463-485 | The count behind each technology is the number of the application's scans with that value in their type field. |
| Technology.PrimaryUnique | backend/app/services/asoc_read_service.py:478-483 | At most one technology meets the description of the primary one. |
| Technology.TiesGoByOrder | backend/app/services/asoc_read_service.py:478-483 | Which technology is the primary one, by the four counts alone: ties go to DAST before SAST before SCA before IAST. |
| Technology.ScanOrderIsIrrelevant | backend/app/services/asoc_read_service.py:463-485 | Rearranged scans give the same maps. |
| Technology.ResolveIsPrimary | backend/app/services/asoc_read_service.py:444-460 | An issue counts for its own technology, else for its application's primary one, else for none. |
| FilterOptions.FilterByDimensions | backend/app/services/asoc_read_service.py:1900-1936 | The loop keeps, in order, the issues of the chosen technologies and vulnerabilities. |
| FilterOptions.BuildOptions | backend/app/services/asoc_read_service.py:1939-1989 | Counts per technology and vulnerability over all issues; the listed ones are the first of the sorted list. |
| FilterOptions.CountsAreFilters | backend/app/services/asoc_read_service.py:1900-1989 | The number beside each option is the number of issues that filtering by its key returns, and the technology counts plus unclassified are all issues. |
| ChosenOptions.NormalizeIds | backend/app/api/v1/routes/analytics.py:173-189 | The loop splits every value at commas and keeps the stripped, non-empty pieces, each once. |
| ChosenOptions.NormalizeVulnerabilities | backend/app/api/v1/routes/analytics.py:206-216 | The chosen vulnerabilities are the case-folded pieces, each once. |
| ChosenOptions.SplitsAtCommas | backend/app/api/v1/routes/analytics.py:173-189 | The pieces have no comma, and joined by commas they are the text again. |
| ChosenOptions.ChosenReturnsItsCount | backend/app/api/v1/routes/analytics.py:173-216 | Through the routes, choosing an option returns its number of issues for every list of issues if and only if its key has no comma. |
| FilterOptions.ChosenTechsAddUp | backend/app/services/asoc_read_service.py:1900-1936 | Choosing several technologies returns the sum of their counts. |
| FilterOptions.ListedOptionsAreTop | backend/app/services/asoc_read_service.py:1970-1984 | No vulnerability left off the list occurs more often than a listed one. |
| Prioritization.AddTo | backend/app/services/asoc_read_service.py:2189-2228 | One issue joins its group, and every counter of every group stays exact. |
| Prioritization.Prioritize | backend/app/services/asoc_read_service.py:2186-2294 | Three simultaneous groupings, dominant-severity counts and the top lists, all exact. |
| Prioritization.GroupsConserve | backend/app/services/asoc_read_service.py:2189-2228 | In each grouping the rows add up, per severity, to the issues. |
| Prioritization.TopIsTop | backend/app/services/asoc_read_service.py:2230-2275 | No group left out of a top list outscores a listed one, and a list is short only when all eligible groups are on it. |
| Prioritization.ScoreIsRisk | backend/app/services/asoc_read_service.py:2230-2236 | A group's score adds 5, 3, 2 and 1 for each of its critical, high, medium and low issues. |
| Prioritization.DominantIsWorst | backend/app/services/asoc_read_service.py:2238-2242 | A group counts under the worst severity among its issues. |
| Prioritization.SharedRows | backend/app/services/asoc_read_service.py:2190-2228 | Issues share an application row by id, and a correlation row by correlation key, the fix group's name standing in for a missing one. |
| Prioritization.ApplicationsNamed | backend/app/services/asoc_read_service.py:2190-2228 | A row lists exactly the applications of its issues, by name, else by id, else as unknown. |
| Prioritization.FixGroupApartExactly | backend/app/services/asoc_read_service.py:2199-2211 | An issue shares its row with its own fix group alone, whatever the other issues, if and only if the text of id and name has no other colon to split at. |
| Prioritization.RunConserves | backend/app/services/asoc_read_service.py:2186-2275 | Applications, fix groups and correlation groups all sum to the raw counts per severity, and dominant severities sum to the number of fix groups. |
| Timestamps.FractionOrder | backend/app/workers/report_scheduler.py:24-32 | A fraction of no or six digits, followed by the offset, sorts as its value. |
| Timestamps.TextOrderIsTimeOrder | backend/app/repositories/postgres_store.py:824-836 | Bytewise order of two printed UTC timestamps is the order of their instants, with or without fractions, and printing is injective. |
| Timestamps.DueExactlyAt | backend/app/repositories/postgres_store.py:831-831 | A stored text, whatever it is, comes due exactly at an instant if and only if it sorts after what is printed a microsecond earlier and not after what is printed then. |
| Timestamps.ZuluIsLate | backend/app/api/v1/routes/reports.py:221-221 | A whole second written with "Z" comes due exactly one second late. |
| Timestamps.OffsetIsIgnored | backend/app/api/v1/routes/reports.py:221-221 | A whole second written with an offset other than "+00:00" comes due right after its wall clock read as UTC. |
| ReportSchedules.Store.Update | backend/app/repositories/postgres_store.py:742-814 | An update changes the named row only, and None keeps what is stored. |
| ReportSchedules.UpdateKeeps | backend/app/repositories/postgres_store.py:742-814 | Field by field: what an update gives is stored, what it leaves out is kept. |
| ReportSchedules.Store.ListDue | backend/app/repositories/postgres_store.py:824-852 | The query, comparing and sorting texts, returns exactly the enabled rows whose instant has come, soonest instant first. |
| ReportSchedules.DueInOrder | backend/app/repositories/postgres_store.py:824-852 | Due are exactly the enabled rows whose instant is not after now, in the order of their instants. |
| ReportSchedules.Store.Execute | backend/app/workers/report_scheduler.py:47-104 | One schedule of a tick, success, failure or failure after the success was stored: its row is as processed, the others untouched. |
| ReportSchedules.AttemptLeaves | backend/app/workers/report_scheduler.py:66-93 | What an attempt leaves in each field of its row: after a success the next run, no failures, no error; after a failure one more, the error, and a wait or, with the retries used up, a disabled row. |
| ReportSchedules.Store.Tick | backend/app/workers/report_scheduler.py:30-104 | A whole tick processes exactly the due rows, each once. |
| ReportSchedules.DueByTextIsDue | backend/app/repositories/postgres_store.py:831-831 | Due by text is due by instant. |
| ScheduleRuns.RowsRunAlone | backend/app/workers/report_scheduler.py:30-104 | Over any run of ticks each schedule evolves as it would alone. |
| ScheduleRuns.FailingRun | backend/app/workers/report_scheduler.py:82-93 | While every run fails the count is the number of attempts, waits are the back-off, and the schedule is disabled exactly when the retries are used up. |
| ScheduleRuns.ExactlyMaxRetries | backend/app/workers/report_scheduler.py:82-93 | A schedule whose every run fails, however closely the ticks come, is attempted exactly as often as retries are left once the ticks cover that many waits, then disabled and never due again. |
| ScheduleRuns.EventuallyDisabled | backend/app/workers/report_scheduler.py:30-104 | For a worker that ticks for ever at any pace: a schedule that only fails has from some tick on been attempted exactly as often as retries were left, never more before, and is disabled and never due. |
| ScheduleRuns.SuccessRestarts | backend/app/workers/report_scheduler.py:66-74 | A success sets the count back to zero, and only a full new series of failures disables the schedule. |
| ScheduleRuns.BackoffGrows | backend/app/workers/report_scheduler.py:21-24 | Waits start at the base, double until the cap, never shrink and never pass it. |
| ScheduleRuns.ProcessedNotDue | backend/app/workers/report_scheduler.py:66-93 | No schedule a tick processed is still due at that tick's time. |
| ApiClient.Client.AuthHeader | backend/app/integrations/appscan_api/client.py:232-248 | A live token is used as it is; otherwise one login, and the key pair if that fails. |
| ApiClient.ListedExactly | backend/app/integrations/appscan_api/client.py:17-26 | A path may be read if and only if it begins with one of eight prefixes. |
| ApiClient.ReadsOnly | backend/app/integrations/appscan_api/client.py:185-203 | A read-only trace holds logins and reads of such paths, and no other request. |
| ApiClient.Client.Batch | backend/app/integrations/appscan_api/client.py:256-282 | Up to three retries past rate-limited replies, all with one header, sleeping exactly the delays asked for and at most 15 seconds. |
| ApiClient.DelaysDouble | backend/app/integrations/appscan_api/client.py:84-93 | A positive `Retry-After` is honoured up to five seconds; otherwise waits start at half a second and double up to the cap. |
| ApiClient.BatchEndIsFirstOther | backend/app/integrations/appscan_api/client.py:265-281 | A batch passes rate-limited replies only and stops early only at another one. |
| ApiClient.Client.Get | backend/app/integrations/appscan_api/client.py:284-317 | Whatever the server does: at most 12 data requests, 2 logins, 45 seconds of waiting; in read-only mode only allow-listed requests; a payload if and only if the path is allowed and the last reply is JSON with a status from 200 to 299, and then that reply; and which error each other last reply gives. |
| ApiClient.ConversationGoesOn | backend/app/integrations/appscan_api/client.py:284-317 | A lost reply or one neither rejected nor other than JSON ends the call; a 401 or 403, or content other than JSON under a token, costs another batch. |
| ApiClient.TwelveIsReached | backend/app/integrations/appscan_api/client.py:284-317 | A server exists for which twelve data requests are made. |

## Left out

- The user interface, HTTP and SQL transport, file output, tokens and role tables.
- The cold path of a scoped request, which fetches per application instead of filtering base data.
- Field-name guessing of the mappers, mock data, diagnostics, license-model detection, KPI, MTTR and percentages: long case lists with little to prove.
- `croniter`, `sha256`, `json` and `isocalendar`: the next run is a parameter later than now, the key is compared before hashing, stored payloads are read back as written, and ISO week fields come with the instant.
- Floating-point rounding: sizes are not rounded to three digits and a `Retry-After` of NaN is not modelled.
- Normalising severity, status and scan-type texts: the records carry the recognised value.
- Report history, audit events and artifacts written beside a schedule run.
- Overlapping hydrate calls with different counts for one scan: reported coverage is proved monotone for calls one after the other.
- Hydrate calls with refreshing switched off, and list items that are no dictionaries.
- Payloads on which the normaliser raises give None; an object or a non-empty text where a list is expected, and pairs where an object is expected, count among them although Python would convert them.
- Non-ASCII white space and case folding in texts.
- BundleInputs.KeyIsSoundExactly: assumes no user has the empty text among his asset groups, because an item without a group would then be visible outside the groups asked for.
- BundleInputs.KeyIsSound: the calculations behind the inputs are not repeated; a bundle is a function of these inputs, the base data, what the counted sources answer, the rule and its threshold.
- CoverageRuns.NeverBackwards: scans of one call have distinct ids.
- SeriesLaws.KeysFollowTime: years 1000 to 9999, whose period keys have equal lengths.
- Timestamps.TextOrderIsTimeOrder: years 1 to 9999 in UTC, as the code prints them.
- Timestamps.OffsetIsIgnored: times written with a fraction and an offset are left to `DueExactlyAt`.
- ReportSchedules.Store.ListDue: the rows hold instants, that is `next_run_at` as the code prints it; a text a user supplies in another form (`reports.py:53`, `:221`, `:261`) is stored verbatim, and when it comes due is what `DueExactlyAt`, `ZuluIsLate` and `OffsetIsIgnored` state.
- Text order in the database is bytewise, as PostgreSQL compares under the C collation; another collation may order texts otherwise.
- LiveTrends.BuildWorkbench: the compliance, onboarding and resolution lists, the license table, the top lists and the most rescanned list are given, not built; the rounding in some of them is floating point.
- Bundle.ServedAsBuilt: the statistics, summary, KPI, scan series, prioritisation and filter options of the bundle are any of the shape a live build gives them.
