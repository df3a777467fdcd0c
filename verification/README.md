# Device usage statistics: a verified model

This project models the service that keeps per-app usage statistics on a device, and proves properties of the
model with Dafny. It covers four parts that share one model of time, integer milliseconds that do not run
backwards:

- **Usage accounting.** Every event of an app updates counters in four parallel periods (day, week, month,
  year). The counters account in constant time for overlapping foreground abilities and continuous tasks, and
  a rollover at midnight saves, reloads and replays. The reference meaning of a counter is an integral: the
  milliseconds during which somebody was inside (`Occupancy.dfy`).
- **Memory and tables.** Entries and events live in memory and are flushed to tables that are named by their
  start times, listed in a sorted index, evicted, and renamed when the clock changes. Queries splice memory
  with the tables, and are compared with plain filters over everything.
- **App priority groups.** Two virtual clocks, leases with timeouts, threshold-based demotion, forced groups,
  and a write-back cache.
- **Smaller state machines.** The window visibility aggregator, the flush scheduler, and the analyser of
  high-frequency hours.

## How it is built

Each component has a value - a datatype whose functions are the steps of the source - and, where the source
updates objects in place, a class whose methods run the source's loops and searches and are proved to compute
those steps. The properties are lemmas about the values, most of them over whole runs.

| file | what it holds |
|---|---|
| `Events.dfy`, `EventList.dfy` | event records; the time-ordered list of pending events |
| `Occupancy.dfy` | the reference meaning of a duration counter |
| `PackageStats.dfy`, `PeriodStats.dfy` | counters of one bundle; the entries of one period |
| `Calendar.dfy` | starts of fixed-length periods |
| `TableIndex.dfy`, `UsageStore.dfy`, `PackageTable.dfy`, `UsageQuery.dfy`, `EventStore.dfy`, `UsageDatabase.dfy` | searches, one store of tables, one table at the level of its rows, range queries, the event table, the whole database |
| `UserService.dfy`, `UsageService.dfy` | the usage service as a value, and as an object |
| `Replay.dfy`, `ReplaySteps.dfy`, `Intervals.dfy`, `Rollover.dfy`, `UsageRuns.dfy`, `Midnight.dfy`, `OneUid.dfy`, `SecondUid.dfy`, `Conservation.dfy` | midnight: the replay, one entry against the history, one rollover, whole runs bundle by bundle, what a midnight costs, runs in which a bundle has one uid, a run that shows what a midnight misses, and the sum of what was saved, shown and lost over a run |
| `FlushTransparency.dfy`, `Tidiness.dfy`, `TidyRuns.dfy`, `RunQueries.dfy` | a flush is invisible to queries; where times lie in memory and tables; queries, flushes and restarts in every state of every run |
| `Clocks.dfy`, `Groups.dfy`, `UserHistory.dfy`, `GroupController.dfy` | priority groups |
| `FlushScheduler.dfy`, `WindowVisibility.dfy`, `HighFrequency.dfy` | the smaller state machines |

`dafny verify dfyconfig.toml` checks the project.

## Where the code does less than its purpose suggests

Several properties hold only under a condition. The model keeps the code as it is, and the lemma states the
exact condition or gives an input that fails:

- The replays of abilities and of tasks after midnight each stop at the first uid of a bundle with nothing to
  continue, so a second uid may be missed (`MidnightAgrees`, `LowerUidStopsReplay`, and `SecondUidIsMissed` for a
  run in which this happens); a bundle with one uid is never missed (`OneUidStaysInSync`, `StartedStaysInSync`).
- A period that ends loses one millisecond of a spell or a task that crosses midnight, more when no event comes on
  the next day, and the rest of it when the replay misses the bundle (`MidnightLoss`). Of a bundle with one uid
  nothing else is lost, and nothing is counted twice (`StartedConserves`).
- An event query whose range ends by the begin of the day does not look at memory, so it misses events of its range
  that wait there: those at the begin itself, and the start-up event of a process that starts in the first second of
  a day. A flush that makes a new daily table deletes old events. An event that is older than the event table is lost
  at its flush; the start-up event of the first process on a device always is (`EventFlushIsTransparent`,
  `EventFlushInEveryState`, `StartupIsLost`).
- A range query returns rows that were never in front from every table of the range but the first
  (`QueryIsExact`, `NeverRowIsReturned`).
- A last-used time one millisecond before its table reads back as "never" (`EncodeRoundTrip`, `FlushThenLoad`); no
  run of the service writes one (`RunStaysTidy`, `SaveThenStartInEveryState`).
- Removing old data from a store until nothing is left keeps a stale index (`RemovedOldKeepsIndex`).
- A time shift forward skips tables whose new name is taken (`RenewedIsShifted`).
- A shutdown with the screen off counts the last on-time twice (`ScreenClockIsContinuous`,
  `ShutdownWithScreenOffJumps`); a process that ends without a shutdown takes both clocks back to the last switch
  (`RestartRewinds`).
- The first-use time of a forced bundle can move without being written back (`FirstUseEscapesTheMark`).
- A flush that runs short of space stops all later ones until a full restore or a time change (`NoLostFlush`).
- Two bundles with the same concatenated ability key disturb each other (`SharedKeyMisleads`,
  `ExactIffDetermined`).
- Merging an event list with itself repeats the first event (`SelfMergeRepeatsFirst`).

## Model

| member | source | states |
|---|---|---|
| RunQueries.StartedStaysInSync | services/packageusage/src/bundle_active_user_service.cpp:25-47 | Main result. From the start of a process on, whatever its tables hold of other bundles: when the rows of the user and the reported events name one uid of a bundle, then after every step of every run of events, shutdowns, flushes and midnights with time going forward the four periods hold the same abilities in front and the same tasks running for it, those of the reported events, and each period accounts for exactly the time since its origin, plus what it had loaded |
| OneUid.OneUidStaysInSync | services/packageusage/src/bundle_active_user_service.cpp:167-433 | The same for a run from any service in step: what it knows, its entries, its tables and its events name one uid of the bundle; nothing is asked of other bundles |
| OneUid.RunStaysInSync | services/packageusage/src/bundle_active_user_service.cpp:167-433 | When every bundle has one uid, all bundles are in step in every state of every run |
| OneUid.PeriodsAgreeInEveryState | services/packageusage/src/bundle_active_user_service.cpp:167-433 | What this means for any two periods: equal front sets, equal task sets, and the exact count of both kinds of time |
| OneUid.OneUidIsCarried | services/packageusage/src/bundle_active_user_service.cpp:374-410 | No midnight of such a run misses the bundle: uids come from events, from tables of the user and from what is made known, and from nowhere else |
| UsageRuns.BundleStaysInSync | services/packageusage/src/bundle_active_user_service.cpp:167-433 | Any bundle, with any uids: it stays in step through a run for as long as its midnights carry it over, whatever they miss of others |
| Rollover.InSyncMeans | services/packageusage/src/bundle_active_user_service.cpp:274-320 | What being in step says of one bundle in one period: its front set, its task set, and the exact account of both counters at any later instant |
| UsageRuns.RenewKeepsSync | services/packageusage/src/bundle_active_user_service.cpp:412-433 | One midnight that reaches a bundle, or finds nothing of it to continue, keeps it in step in all four periods, with new accounts for the periods that roll over |
| Rollover.KeptThroughRollover | services/packageusage/src/bundle_active_user_service.cpp:343-433 | A period that goes on over midnight loses nothing of a foreground spell or a task, whether or not the replay reaches the bundle |
| Rollover.NewThroughRollover | services/packageusage/src/bundle_active_user_service.cpp:374-433 | A period that starts anew counts from the begin of the new day, with exactly the abilities and tasks that went on |
| Rollover.NewPeriodIsFresh | services/packageusage/src/bundle_active_user_service.cpp:274-320 | With aligned fixed-length periods an old table is never taken over as the new period: its window has passed |
| Rollover.DayRolls | services/packageusage/src/bundle_active_user_service.cpp:322-335 | The day always rolls over, to a day that starts at or after the expiry, and exactly at it when the event comes on the next day |
| Midnight.MidnightLoss | services/packageusage/src/bundle_active_user_service.cpp:343-433 | Exact loss of a period that ends, for both counters of every bundle and whatever the replay reaches: the saved total (0 when no row is written), what the new period shows and - for a bundle in front, or with a task running - the stretch from one millisecond before the expiry to the begin of the new day, or without end when the replay misses the bundle, add up to what was shown; the stretch to the new day is one millisecond when the event comes on the next day |
| Midnight.SavedTableStays | services/common/src/bundle_active_usage_database.cpp:1228-1271 | When the midnight is over, the table that its first save wrote is still there, unchanged, if and only if its period is not older than the oldest that are kept |
| RunQueries.StartedConserves | services/packageusage/src/bundle_active_user_service.cpp:25-47 | Main result. Conservation from the start of a process on, for every interval and both counters of a bundle with one uid: in every state of every run the totals that the midnights saved in the tables of ended periods, what the current period shows, and the lost stretches add up to what the first period had loaded and the occupied time since |
| Conservation.RunConserves | services/packageusage/src/bundle_active_user_service.cpp:343-433 | The same for any bundle that the midnights of a run from a tidy service carry over |
| Conservation.SavedTablesStay | services/common/src/bundle_active_usage_database.cpp:1228-1271 | What was saved of an ended period stays: in every later state of a run its table, as long as it is kept, is the one that its midnight wrote |
| Midnight.MidnightAgrees | services/packageusage/src/bundle_active_user_service.cpp:374-410 | After midnight all periods agree with the events on who of a bundle is in front if and only if nothing of it was in front or every known uid of the same bundle below it had abilities to continue; they agree on its tasks if and only if none ran or every such uid had tasks to continue: each of the two replay loops stops at the first uid without |
| Midnight.LowerUidStopsReplay | services/packageusage/src/bundle_active_user_service.cpp:378-384 | In any state in step: a known lower uid without abilities (or without tasks) leaves the new day without whoever of a higher uid of the bundle was in front (or without its tasks) |
| SecondUid.SecondUidIsMissed | services/packageusage/src/bundle_active_user_service.cpp:374-410 | A run that shows it: from any unused service, a lower uid opens an ability and is stopped, a higher uid of the same bundle comes to the front and starts a task; every step is allowed and keeps the service in step, and after midnight the day holds neither the ability nor the task |
| SecondUid.LoadedIsUnused | services/packageusage/src/bundle_active_user_service.cpp:274-335 | There are unused services: one that has loaded its periods from an empty database |
| Midnight.OneUidIsEnough | services/packageusage/src/bundle_active_user_service.cpp:374-410 | A midnight carries a bundle over when no other uid of it is known |
| Midnight.SavedRow | services/packageusage/src/bundle_active_user_service.cpp:254-258 | The row that the save of a midnight leaves holds the counters brought forward to the last millisecond of the day |
| Midnight.LoadStartsInSync | services/packageusage/src/bundle_active_user_service.cpp:274-335 | A service that has just loaded its periods is in step, whatever its tables hold, provided that none of them starts after the current period |
| Intervals.EventKeepsEntry | services/packageusage/src/bundle_active_user_service.cpp:194-225 | An event without a rollover keeps the entry of every bundle exact, in every period: its own entry moves as the event says, flush and shutdown settle all entries, any other event touches none |
| Intervals.EndOfDayKeepsEntry | services/packageusage/src/bundle_active_user_service.cpp:351-369 | The end-of-day event puts everything shown up to the last millisecond of the day into the totals and keeps what is shown |
| Intervals.KeptReplay | services/packageusage/src/bundle_active_user_service.cpp:374-410 | Reporting again what an entry already has in front, or missing to report it, changes nothing that the entry shows |
| Intervals.FreshReplay | services/packageusage/src/bundle_active_user_service.cpp:374-410 | Reporting it to a new entry starts its count at that instant |
| Replay.AbilityReplayed | services/packageusage/src/bundle_active_user_service.cpp:387-391 | The replay of abilities one by one does not depend on their order: each step extends the closed form by one ability |
| Replay.TaskReplayed | services/packageusage/src/bundle_active_user_service.cpp:407-408 | The same for tasks |
| ReplaySteps.AbilityReported | services/packageusage/src/bundle_active_user_service.cpp:387-391 | One replayed ability extends the closed form of the whole period, creating the entry if needed and leaving the others |
| ReplaySteps.TaskReported | services/packageusage/src/bundle_active_user_service.cpp:407-408 | The same for a replayed task |
| UserService.RenewIsValid | services/packageusage/src/bundle_active_user_service.cpp:412-433 | A midnight leaves the four table indexes strictly ascending |
| UsageService.BundleActiveUserService.constructor | services/packageusage/include/bundle_active_user_service.h:39-56 | A new service has four empty periods, knows no uid, and has no expiry |
| UsageService.BundleActiveUserService.Init | services/packageusage/src/bundle_active_user_service.cpp:25-47 | Reading the tables, the forced first load, and the start-up event in the list of the day |
| UsageService.BundleActiveUserService.UpdatePeriodStats | services/packageusage/src/bundle_active_user_service.cpp:194-225 | The loop over the four periods gives each of them the event, learns a uid whose entry is created, counts a launch, and marks the statistics as changed except for a flush |
| UsageService.BundleActiveUserService.ReportToday | services/packageusage/src/bundle_active_user_service.cpp:174-191 | Noting the event, detecting a launch, and the update |
| UsageService.BundleActiveUserService.ReportEvent | services/packageusage/src/bundle_active_user_service.cpp:167-192 | The rollover when the day has expired, then the event |
| UsageService.BundleActiveUserService.ReportForShutdown | services/packageusage/src/bundle_active_user_service.cpp:227-245 | The shutdown event is noted before the rollover, then settles every entry |
| UsageService.BundleActiveUserService.RestoreStats | services/packageusage/src/bundle_active_user_service.cpp:247-272 | When changed or forced, every period with entries is saved, the daily events go to their table, memory keeps the entries and drops the events |
| UsageService.BundleActiveUserService.LoadActiveStats | services/packageusage/src/bundle_active_user_service.cpp:274-320 | Each period is kept, taken from its newest table when that is still current, or new; the uids of the tables read become known |
| UsageService.BundleActiveUserService.UpdateExpiryDate | services/packageusage/src/bundle_active_user_service.cpp:322-335 | The day expires at its begin plus one day, or at tomorrow rounded down to a day |
| UsageService.BundleActiveUserService.FlushDataInMem | services/packageusage/src/bundle_active_user_service.cpp:343-372 | The nested loops note what continues (a longer period overwrites a shorter one) and bring every entry forward to the last millisecond of the day |
| UsageService.BundleActiveUserService.UpdateContinueAbilitiesMemory | services/packageusage/src/bundle_active_user_service.cpp:374-392 | The loop over the uids in ascending order replays exactly the entries that no earlier uid stops |
| UsageService.BundleActiveUserService.UpdateContinueServicesMemory | services/packageusage/src/bundle_active_user_service.cpp:394-410 | The same for tasks |
| UsageService.BundleActiveUserService.ReplayAll | services/packageusage/src/bundle_active_user_service.cpp:423-431 | The loops over bundles and periods replay everything that is reached, in every period, at the begin of the new day |
| UsageService.BundleActiveUserService.RenewStatsInMemory | services/packageusage/src/bundle_active_user_service.cpp:412-433 | Snapshot, save, removal of old tables, load, replay and second save are the midnight of the value model |
| UsageService.BundleActiveUserService.QueryBundleStatsInfos | services/packageusage/src/bundle_active_user_service.cpp:435-484 | The error cases, and otherwise the rows of the tables up to the begin of the current period together with the entries in memory |
| UsageService.BundleActiveUserService.QueryBundleEvents | services/packageusage/src/bundle_active_user_service.cpp:486-522 | The stored events of the range, followed by those in memory found from the best index on |
| FlushTransparency.UsageFlushIsTransparent | services/packageusage/src/bundle_active_user_service.cpp:247-272 | Main result. For every interval, range and bundle name a flush does not change the answer of a usage query, provided that no table is evicted and none starts after the current period |
| FlushTransparency.QueryIgnoresCurrent | services/packageusage/src/bundle_active_user_service.cpp:466-467 | A query that ends by the begin of the current period does not see what a flush writes |
| FlushTransparency.SavedReportIsMemoryReport | services/common/src/bundle_active_usage_database.cpp:1473-1497 | A saved entry is reported from its table exactly as from memory if and only if no last-used time is the millisecond before the table |
| TidyRuns.RunStaysTidy | services/packageusage/src/bundle_active_user_service.cpp:167-433 | Main result. In every state of every run with time going forward, whatever its midnights miss: each last-used time lies in the period of its entry, each table starts where a period can start and holds times of that period, the table of the current period is there when the index names it, and every period has an end time |
| TidyRuns.RenewStaysTidy | services/packageusage/src/bundle_active_user_service.cpp:412-433 | One midnight keeps all of this, through save, removal of old tables, load, replay and second save |
| RunQueries.StartIsTidy | services/packageusage/src/bundle_active_user_service.cpp:25-47 | Start-up over tables with times of their periods: the tables ahead of the time are gone, and the service, with its start-up event noted, is in step and tidy, and its events in memory are of the day or at most a second older |
| RunQueries.UsageAnswerInEveryState | services/packageusage/src/bundle_active_user_service.cpp:435-484 | In every state of every run a usage query returns the rows of a plain filter over all tables up to the begin of the current period, with the never-used rows besides, and the entries in memory from there on; it fails exactly when the range starts at or after the end time |
| RunQueries.UsageFlushInEveryState | services/packageusage/src/bundle_active_user_service.cpp:247-272 | In every state of every run a flush that evicts no table changes no answer of a usage query |
| RunQueries.EventFlushInEveryState | services/packageusage/src/bundle_active_user_service.cpp:486-522 | In every state of every run, from the start-up event on, a flush leaves an event query out of range as it was, and otherwise keeps its answer exactly under the condition of EventFlushIsTransparent |
| RunQueries.StartupIsLost | services/packageusage/src/bundle_active_user_service.cpp:37-40 | A process that finds no event table: a query finds its start-up event until the first flush (unless it starts exactly at the begin of a day), no row is purged, and no query finds the event afterwards, since it is older than the event table |
| RunQueries.SaveThenStartInEveryState | services/common/src/bundle_active_usage_database.cpp:937-1039 | In every state of every run: when the service saves and the next process starts before the period ends, the period goes on with every entry that has usage, all persisted fields equal and nothing in front |
| RunQueries.NextStarts | services/packageusage/src/bundle_active_user_service.cpp:25-31 | What a tidy process leaves in its tables is what StartIsTidy asks for, so the next process is in step and tidy again |
| FlushTransparency.EventFlushIsTransparent | services/packageusage/src/bundle_active_user_service.cpp:486-522 | Main result. A flush leaves the answer to a range that ends after the begin of the day the same if and only if it purges no row of the range and no event of the range in memory is older than the event table; to a range that ends by the begin, with the events of memory younger than the retention time, if and only if it purges no row of the range and no event of the range waits in memory |
| EventStore.FlushKeepsAnswer | services/common/src/bundle_active_usage_database.cpp:1041-1062 | The exact balance behind it, for any events and any table: when the query looks at memory, the answer afterwards with the purged rows and the events too old for the table put back is the answer before; otherwise the answer afterwards with the purged rows is the answer before and the events that only the table shows |
| EventStore.FlushAddsEvents | services/common/src/bundle_active_usage_database.cpp:1504-1552 | After a flush a query finds besides what it found before exactly the flushed events of its range that are not older than the table |
| EventStore.PurgeLoses | services/common/src/bundle_active_usage_database.cpp:356-381 | Deleting old events takes away exactly the rows up to the delete point |
| EventStore.FromMemoryIsBetween | services/packageusage/src/bundle_active_user_service.cpp:505-517 | The scan from the best index finds exactly the events in memory in the range |
| PackageStats.ExactFrontTime | interfaces/innerkits/src/bundle_active_package_stats.cpp:57-209 | Main result. After any events in time order, however flush, shutdown and end of day are interleaved, the total plus the open stretch is the number of milliseconds with at least one ability in front (overlaps once) |
| PackageStats.ExactTaskTime | interfaces/innerkits/src/bundle_active_package_stats.cpp:140-209 | The same for continuous tasks |
| PackageStats.StartCountIsExact | interfaces/innerkits/src/bundle_active_package_stats.cpp:93-118 | The start count is the number of events that open the first ability or bring a known one back to the front |
| PackageStats.CommitSettles | interfaces/innerkits/src/bundle_active_package_stats.cpp:184-204 | Flush, shutdown and end of day make the stored totals themselves exact and leave abilities, tasks and start count |
| PackageStats.AbilityStep | interfaces/innerkits/src/bundle_active_package_stats.cpp:93-138 | An ability event moves the front set and leaves the shown time where it was |
| PackageStats.PackageStats.HasFrontAbility | interfaces/innerkits/src/bundle_active_package_stats.cpp:57-65 | The loop finds an ability in front exactly when there is one |
| PackageStats.PackageStats.UpdateAbility | interfaces/innerkits/src/bundle_active_package_stats.cpp:93-138 | The in-place update computes the ability step |
| PackageStats.PackageStats.UpdateLongTimeTask | interfaces/innerkits/src/bundle_active_package_stats.cpp:140-173 | The in-place update computes the task step |
| PackageStats.PackageStats.Update | interfaces/innerkits/src/bundle_active_package_stats.cpp:175-209 | The dispatch over event kinds |
| Occupancy.TracksStep | interfaces/innerkits/src/bundle_active_package_stats.cpp:72-91 | A counter that leaves its shown value at the instant of a change keeps showing the occupied time |
| PeriodStats.PeriodStats.GetOrCreateUsageStats | services/packageusage/src/bundle_active_period_stats.cpp:45-59 | An entry of its own for every bundle; the others stay as they are |
| PeriodStats.PeriodStats.Update | services/packageusage/src/bundle_active_period_stats.cpp:61-79 | Flush and shutdown reach every entry object, a bundle event its own one, and the end time grows |
| PeriodStats.PeriodStats.AddEvent | services/packageusage/src/bundle_active_period_stats.cpp:81-91 | The event goes to its place in the ordered list, and the end time grows |
| Calendar.TruncateIsPeriodStart | services/packageusage/src/bundle_active_calendar.cpp:31-69 | Truncation gives the one multiple of the period length within a length below the time, from time 0 on |
| Calendar.TruncateBeforeZero | services/packageusage/src/bundle_active_calendar.cpp:31-69 | Before time 0 the remainder of C++ truncates the other way |
| Calendar.TruncateAdvances | services/packageusage/src/bundle_active_calendar.cpp:31-69 | Leaving a period means passing its end |
| Calendar.TomorrowIsNextDay | services/packageusage/src/bundle_active_user_service.cpp:322-335 | A day on, rounded down, is the begin of the day plus one day, whichever way the expiry is computed |
| Calendar.DebugLengthsAreAligned | services/common/include/bundle_active_constant.h:94-100 | The lengths of the debug mode are whole numbers of days, as the results about midnight ask for |
| Calendar.Calendar.TruncateTo | services/packageusage/src/bundle_active_calendar.cpp:122-140 | The truncation of each interval, in place |
| EventList.EventList.FindBestIndex | services/packageusage/src/bundle_active_event_list.cpp:46-63 | The binary search finds the first event at or after the time |
| EventList.EventList.Insert | services/packageusage/src/bundle_active_event_list.cpp:35-44 | Insertion keeps the order and the events |
| EventList.EventList.Merge | services/packageusage/src/bundle_active_event_list.cpp:65-71 | Merging keeps the order and the events of both lists; merging a list with itself inserts at each turn what then stands at that position |
| EventList.SelfMergeRepeatsFirst | services/packageusage/src/bundle_active_event_list.cpp:65-71 | With one earliest event, merging a list with itself repeats that event once for each event and no other |
| EventList.ScanFromBestIndex | services/packageusage/src/bundle_active_event_list.cpp:46-63 | A scan from that index meets exactly the events at or after the time, in order |
| UsageQuery.QueryIsNaive | services/common/src/bundle_active_usage_database.cpp:1412-1502 | Main result. With ascending table starts and rows last used in their own period, the indexed range query returns exactly the asked-for rows of all tables started before the end, each once, and besides them the never-used rows of the tables after the first |
| UsageQuery.QueryIsExact | services/common/src/bundle_active_usage_database.cpp:1412-1502 | It equals the plain filter if and only if there is no such never-used row |
| UsageQuery.NeverRowIsReturned | services/common/src/bundle_active_usage_database.cpp:1424-1447 | A row with the sentinel -1 in a later table is returned although its bundle was never in front |
| TableIndex.NearIndexOnOrAfterCurrentTime | services/common/src/bundle_active_usage_database.cpp:196-220 | The search finds the lower bound, or -1 when every table is earlier |
| TableIndex.NearIndexOnOrBeforeCurrentTime | services/common/src/bundle_active_usage_database.cpp:222-235 | The search finds the last table at or before the time |
| TableIndex.GetDbIndex | services/common/src/bundle_active_usage_database.cpp:1383-1410 | The range of tables, or none |
| TableIndex.DbRangeIsProper | services/common/src/bundle_active_usage_database.cpp:1383-1410 | The range is inside the index, starts at the last table at or before the begin, and ends at the last table before the end |
| TableIndex.BinarySearch | services/common/src/bundle_active_binary_search.cpp:28-45 | The search finds the value or proves it absent |
| UsageStore.RunKeepsIndex | services/common/src/bundle_active_usage_database.cpp:139-170 | Main result. Through any run of initialisations, updates, time shifts and old-data removals that leave a table, the index is the ascending list of exactly the stored tables and stays within its bound |
| UsageStore.InitKeepsIndex | services/common/src/bundle_active_usage_database.cpp:139-170 | Initialisation brings the index into agreement whatever it held, unless no table exists, and leaves no table at or after the current time |
| UsageStore.DeleteExcessiveKeepsIndex | services/common/src/bundle_active_usage_database.cpp:338-355 | Eviction keeps the bound and removes only tables older than every one kept |
| UsageStore.RemovedOldKeepsIndex | services/common/src/bundle_active_usage_database.cpp:254-271 | Old-data removal keeps the index in agreement if and only if a table is left or there was none: an empty store returns before the index is cleared |
| UsageStore.RenewedIsShifted | services/common/src/bundle_active_usage_database.cpp:1273-1293 | Main result. A time shift moves exactly the tables that stay at or after 0, in order, if and only if the clock goes back or no two tables are exactly that far apart |
| UsageStore.RenewedKeepsIndex | services/common/src/bundle_active_usage_database.cpp:1273-1293 | Even when renames fail, the index afterwards lists exactly the stored tables |
| UsageStore.ShiftMovesDecodedTimes | services/common/src/bundle_active_usage_database.cpp:1273-1293 | A shift moves every decoded last-used time by exactly the difference; never stays never |
| UsageStore.FlushThenLoad | services/common/src/bundle_active_usage_database.cpp:937-1039 | Save and load give back every persisted field of an entry with usage if and only if neither last-used time is the millisecond before the table; other rows stay |
| UsageStore.EncodeRoundTrip | services/common/src/bundle_active_usage_database.cpp:959-964 | The relative encoding with its sentinel loses exactly that millisecond |
| UsageStore.FlushFrames | services/common/src/bundle_active_usage_database.cpp:937-980 | A flush does not touch another user's rows |
| PackageTable.PackageLogTable.FlushPackageInfo | services/common/src/bundle_active_usage_database.cpp:937-980 | Updating the rows found and inserting the others in one batch is a map update: never a second row for a user, bundle and uid |
| PackageTable.UpdateRepresents | services/common/src/bundle_active_usage_database.cpp:969-970 | An update of an existing row keeps one row a key |
| UsageDatabase.UsageDatabase.InitDatabaseTableInfo | services/common/src/bundle_active_usage_database.cpp:139-170 | The loops over the databases, the purge of old events and the deletion from the found index on compute the start-up of the value model for all four stores and the event table |
| UsageDatabase.InitIsInit | services/common/src/bundle_active_usage_database.cpp:139-170 | Start-up treats each store alone |
| UsageDatabase.UsageDatabase.HandleTableInfo | services/common/src/bundle_active_usage_database.cpp:254-302 | The names read become the ascending index, and the latest daily table the event begin |
| UsageDatabase.UsageDatabase.DeleteExcessiveTableData | services/common/src/bundle_active_usage_database.cpp:338-355 | The loop drops the oldest tables until the bound holds |
| UsageDatabase.UsageDatabase.UpdateBundleUsageData | services/common/src/bundle_active_usage_database.cpp:1357-1381 | A missing table is made, indexed, may evict, and for the day purges old events; then the rows are written |
| UsageDatabase.UsageDatabase.UpdateEventData | services/common/src/bundle_active_usage_database.cpp:1320-1331 | The pending events are appended with times relative to their table |
| UsageDatabase.UsageDatabase.GetCurrentUsageData | services/common/src/bundle_active_usage_database.cpp:982-1011 | The newest table as the period it was saved from |
| UsageDatabase.UsageDatabase.GetCurrentBundleStats | services/common/src/bundle_active_usage_database.cpp:1013-1039 | The loop over the rows of one user |
| UsageDatabase.UsageDatabase.RemoveOldData | services/common/src/bundle_active_usage_database.cpp:1228-1271 | The loops drop every overdue table of each interval, then the names are read again |
| UsageDatabase.RemoveOldIsRemovedOld | services/common/src/bundle_active_usage_database.cpp:1228-1271 | Dropping in all intervals first and reading afterwards treats each store alone |
| UsageDatabase.UsageDatabase.RenewTableTime | services/common/src/bundle_active_usage_database.cpp:1273-1318 | The loop of renames and drops in ascending order, for the four stores and the event table |
| UsageDatabase.RenewedIsRenewed | services/common/src/bundle_active_usage_database.cpp:1273-1293 | The time shift treats each store alone |
| UsageDatabase.UsageDatabase.GetQuerySqlCommand | services/common/src/bundle_active_usage_database.cpp:1412-1447 | The bounds of the statement for the first, the last, the only and a middle table |
| UsageDatabase.UsageDatabase.QueryDatabaseUsageStats | services/common/src/bundle_active_usage_database.cpp:1449-1502 | The loop over the tables of the range returns the multiset of the indexed query |
| UsageDatabase.UsageDatabase.QueryDatabaseEvents | services/common/src/bundle_active_usage_database.cpp:1504-1552 | The loop over the rows returns the selected events |
| UserHistory.LeasesHold | services/packagegroup/src/bundle_active_user_history.cpp:187-219 | Main result. Over every run of uses, checks, screen changes, forced settings, writes, shutdowns and restarts after a shutdown, with time going forward in each process, a bundle not forced is in the alive group while its alive lease runs, and in the daily group or better while its daily lease runs |
| UserHistory.RestartKeepsAllGood | services/packagegroup/src/bundle_active_user_history.cpp:64-77 | A restart after a shutdown goes on with both clocks at the instant where they stood and keeps the leases of all rows |
| GroupController.EventGrantsLease | services/packagegroup/src/bundle_active_group_controller.cpp:280-327 | Right after an event the bundle, unless forced, is in the leased group or better, and the lease runs for at least the configured time |
| UserHistory.RunOnlyDemotes | services/packagegroup/src/bundle_active_group_controller.cpp:343-387 | While a process lives, no run of checks, screen changes, writes and shutdowns between two usage reports improves a group |
| UserHistory.RunKeepsForced | services/packagegroup/src/bundle_active_user_history.cpp:187-217 | Once forced, no usage report, check, screen change, write or shutdown moves the group or its reason while the process lives |
| Groups.LevelIsHighestReached | services/packagegroup/src/bundle_active_user_history.cpp:79-102 | The level is the highest whose screen and boot thresholds are both met, and there is one when the last use is past |
| Groups.LevelGrows | services/packagegroup/src/bundle_active_user_history.cpp:79-102 | The level does not go down while the clocks run |
| Groups.OnlyTheLastCheckCounts | services/packagegroup/src/bundle_active_group_controller.cpp:343-387 | Path independence: after a direct use, whatever checks and screen switches happened, a check leaves the group that it alone would have set |
| UserHistory.RunKeepsCacheOk | services/packagegroup/src/bundle_active_user_history.cpp:141-163 | In every reachable state, also after shutdowns and restarts, an unmarked entry is either new and without a row or equal to its row |
| UserHistory.WriteThenReload | services/common/src/bundle_active_usage_database.cpp:781-887 | After a write nothing is marked, and a reload gives back every entry ever changed |
| UserHistory.FirstUseEscapesTheMark | services/packagegroup/src/bundle_active_user_history.cpp:187-219 | The first-use time escapes the mark in exactly one case: an earlier use of a forced bundle |
| Clocks.BootClockIsContinuous | services/packagegroup/src/bundle_active_user_history.cpp:104-107 | A screen change never moves the boot clock |
| Clocks.ScreenClockIsContinuous | services/packagegroup/src/bundle_active_user_history.cpp:274-289 | A screen change leaves the screen clock where it is, except for a shutdown that names the state the screen is already in |
| Clocks.ScreenClockIsOnTime | services/packagegroup/src/bundle_active_user_history.cpp:109-116 | Over any run the screen clock advances by exactly the time the screen was on, never faster than the boot clock |
| Clocks.ShutdownRoundTrip | services/packagegroup/src/bundle_active_user_history.cpp:64-77 | After a shutdown a new process resumes the boot clock, and the screen clock if and only if the screen was on |
| Clocks.RestartRewinds | services/packagegroup/src/bundle_active_user_history.cpp:64-77 | Without a shutdown the next process takes both clocks back to where the last switch stored them: the boot clock goes on if and only if that switch was at this instant |
| Clocks.ShutdownWithScreenOffJumps | services/packagegroup/src/bundle_active_user_history.cpp:277-285 | A shutdown with the screen off counts the last on-time twice |
| UserHistory.UserHistory.GetLevelIndex | services/packagegroup/src/bundle_active_user_history.cpp:79-102 | The loop from the highest level down |
| UserHistory.UserHistory.GetUserHistory | services/packagegroup/src/bundle_active_user_history.cpp:118-139 | Loading a user's rows on first need |
| UserHistory.UserHistory.ReportUsage | services/packagegroup/src/bundle_active_user_history.cpp:187-234 | The lease update in place |
| UserHistory.UserHistory.SetAppGroup | services/packagegroup/src/bundle_active_user_history.cpp:236-272 | The group update in place, with its immediate write for a forced setting |
| UserHistory.UserHistory.WriteBundleUsage | services/packagegroup/src/bundle_active_user_history.cpp:47-56 | The marked entries become rows, and nothing stays marked |
| UserHistory.UserHistory.UpdateBootBasedAndScreenTime | services/packagegroup/src/bundle_active_user_history.cpp:274-289 | The rebasing of both clocks |
| GroupController.GroupController.GetNewGroup | services/packagegroup/src/bundle_active_group_controller.cpp:265-278 | The group of the level, from the history |
| GroupController.GroupController.ReportEvent | services/packagegroup/src/bundle_active_group_controller.cpp:280-327 | The use that an event of a known kind reports |
| GroupController.GroupController.CheckAndUpdateGroup | services/packagegroup/src/bundle_active_group_controller.cpp:343-387 | The check in place |
| GroupController.GroupController.CheckEachBundleState | services/packagegroup/src/bundle_active_group_controller.cpp:232-252 | The loop over the installed bundles |
| GroupController.GroupController.ShutDown | services/packagegroup/src/bundle_active_group_controller.cpp:506-518 | A check for every bundle at the time that the checks read, then the shutdown switch at the time passed in, which stores both durations |
| FlushScheduler.NoLostFlush | services/common/src/bundle_active_core.cpp:373-388 | Main result. After any run with one user, exactly one flush waits whenever the statistics have changed, and never two, if and only if every flush that ran short of space has been followed by a full restore or a time change; otherwise no flush waits |
| FlushScheduler.RunFlushClears | services/common/src/bundle_active_core.cpp:411-450 | A completed flush leaves the flag down and the queue entry gone |
| FlushScheduler.RunFlushWithoutSpace | services/common/src/bundle_active_core.cpp:413-416 | A flush that runs short of space leaves an empty queue entry behind, so none is sent again |
| FlushScheduler.ReportHandler.SendEvent | services/packageusage/src/bundle_active_report_handler.cpp:57-88 | A task is queued under its event |
| FlushScheduler.ReportHandler.RemoveEvent | services/packageusage/src/bundle_active_report_handler.cpp:90-105 | The loop cancels every queued task of the event and erases the entry |
| FlushScheduler.ReportHandler.HasEvent | services/packageusage/src/bundle_active_report_handler.cpp:107-118 | An entry exists, even an empty one |
| FlushScheduler.FlushService.NotifyStatsChanged | services/packageusage/src/bundle_active_user_service.cpp:152-160 | The flag goes up once, and a flush is sent if none is queued |
| FlushScheduler.FlushService.RunFlushTask | services/packageusage/src/bundle_active_report_handler.cpp:174-184 | The flush task, from the queue to the popped handle |
| FlushScheduler.FlushService.RestoreAllData | services/common/src/bundle_active_core.cpp:390-409 | A full restore saves whatever the flag says, takes the flag down and cancels every waiting flush |
| WindowVisibility.VisibleBundlesAreExact | services/common/src/bundle_active_window_visibility_manager.cpp:42-82 | Main result. For every sequence of notifications in which the ability key determines the bundle, exactly the bundles with a visible window are recorded as visible |
| WindowVisibility.ReportsAlternate | services/common/src/bundle_active_window_visibility_manager.cpp:196-220 | The reports of a bundle alternate, foreground first, and end in its recorded visibility, whatever the keys are |
| WindowVisibility.OneReportPerBatch | services/common/src/bundle_active_window_visibility_manager.cpp:42-82 | A batch sends a report for a bundle just when its recorded visibility changes, and then only one |
| WindowVisibility.SharedKeyMisleads | services/common/src/bundle_active_window_visibility_manager.cpp:26-30 | For any two bundles whose windows share an ability key: a window of the first is shown, the second hides a window of that number, and the first stays recorded as visible with nothing shown |
| WindowVisibility.ExactIffDetermined | services/common/src/bundle_active_window_visibility_manager.cpp:26-82 | Over any vocabulary of abilities: every sequence of notifications leaves exactly the bundles with a visible window recorded as visible if and only if the ability key determines the bundle |
| WindowVisibility.KeysCoincide | services/common/src/bundle_active_window_visibility_manager.cpp:26-30 | Keys do coincide: the separator may stand in a name |
| WindowVisibility.WindowVisibilityManager.OnWindowVisibilityChanged | services/common/src/bundle_active_window_visibility_manager.cpp:42-82 | The two loops of a batch |
| WindowVisibility.WindowVisibilityManager.IsAllAbilitiesInvisible | services/common/src/bundle_active_window_visibility_manager.cpp:152-163 | The loop finds a visible ability of the bundle exactly when there is one |
| WindowVisibility.WindowVisibilityManager.UpdateAppVisibility | services/common/src/bundle_active_window_visibility_manager.cpp:196-220 | The recorded visibility and its report, in place |
| WindowVisibility.WindowVisibilityManager.ClearAbilityWindowInfo | services/common/src/bundle_active_window_visibility_manager.cpp:136-150 | Forgetting an ability and updating its bundle |
| HighFrequency.ProcessEvents | services/common/src/bundle_active_core.cpp:1143-1177 | Main result. For any events and any calendar each cell of the 7 x 24 matrix counts the sessions that started then, hour and day totals are its column and row sums, and the grand total is the number of completed sessions |
| HighFrequency.OpenIndexIsOpenAt | services/common/src/bundle_active_core.cpp:1143-1160 | The running session is the one opened first after the last end |
| HighFrequency.GetTopHourUsage | services/common/src/bundle_active_core.cpp:1115-1141 | The hours used most, without those used on too few days |
| HighFrequency.FrequentHours | services/common/src/bundle_active_core.cpp:1074-1113 | The hours of one app: distinct, at most the limit, sorted by use days, and no dropped candidate has more use days than a kept one |
| HighFrequency.GetFreqBundleHours | services/common/src/bundle_active_core.cpp:1074-1113 | One result for every app used regularly, none for the others |

## Left out

- UsageService.BundleActiveUserService.constructor: the four missing periods of a new service are empty periods, so the first load is a forced one.
- RunQueries.StartedStaysInSync: periods have fixed lengths that are whole numbers of days, as in the calendar's debug mode; local time, months of 28 to 31 days, leap years and daylight saving (the calls to localtime and mktime) are not part of this model, and with a 28-day month the 30-day window of the load would take a table over into the next month.
- OneUid.OneUidStaysInSync: a bundle with several uids is outside this statement; `BundleStaysInSync` follows it for as long as the midnights carry it over, and `MidnightAgrees` says exactly which midnights do.
- RunQueries.StartedConserves: a bundle with several uids is outside this statement; `RunConserves` holds for it for as long as the midnights carry it over, and `MidnightLoss` says what a midnight costs that does not. `SavedTableStays` says when a saved table outlives its own midnight.
- FlushTransparency.UsageFlushIsTransparent: a flush that evicts a table changes answers about that table and is outside the statement; the interval is fixed, because the choice of the best interval may change when a flush makes a table.
- UsageDatabase.UsageDatabase.QueryDatabaseEvents: rows come in the order of the table, without `order by`; the balance of `FlushKeepsAnswer` is about multisets.
- UsageDatabase.UsageDatabase.QueryDatabaseUsageStats: statements do not fail, so the early return on a failed statement is not modelled; a table that the index names but the store lacks counts as empty.
- UsageDatabase.UsageDatabase.InitDatabaseTableInfo: there is one event table at most; choosing among several left-over ones is not modelled.
- UsageDatabase.UsageDatabase.RenewTableTime: module and form tables and SQL indexes are not modelled.
- UsageService.BundleActiveUserService.QueryBundleStatsInfos: the choice of the best interval comes before the call, which names one of the four intervals; a missing period, which only a failed allocation leaves, is not modelled.
- UsageService.BundleActiveUserService.RestoreStats: module and form records, and the time of the save, are not modelled.
- UsageService.BundleActiveUserService.UpdatePeriodStats: the screen and keyguard trackers of a period are not updated.
- UsageService.BundleActiveUserService.FlushDataInMem: the trackers are not brought forward at the end of a period.
- UsageService.BundleActiveUserService.LoadActiveStats: allocation does not fail, so no period is missing afterwards.
- UsageDatabase.UsageDatabase.HandleTableInfo: the four usage databases; the branch that notes the name of the event table is part of the start-up step of the event table.
- UsageDatabase.UsageDatabase.UpdateBundleUsageData: the time of the save is not kept.
- UsageDatabase.UsageDatabase.GetCurrentUsageData: the time of the save is not set.
- Calendar.Calendar.TruncateTo: the branch for fixed-length periods; the one that goes through local time is not part of this model.
- UsageService.BundleActiveUserService: periods are values in a list that the methods reassign, not shared pointers; `PeriodStats.PeriodStats` shows the in-place form of one period with its entry objects.
- PackageStats, PeriodStats: the screen and keyguard trackers and the merge functions are left out as easy members.
- UserHistory.UserHistory.ReportUsage: the callback to observers of a group is left out.
- UserHistory.UserHistory.SetAppGroup: the per-bundle operation only, with its error codes as one flag; the loops of the controller over keys that contain a name, the idle query and the callbacks to observers are left out.
- UserHistory.LeasesHold: a restart without a shutdown is outside the runs; `RestartRewinds` says what it does to the clocks. In these runs time goes forward, so a shutdown whose checks read a later time than its own switch uses is outside them too.
- GroupController.GroupController.ReportEvent: the delayed check messages and their timers; a check is a step that may happen at any time.
- FlushScheduler.FlushService.RunFlushTask: the early removal for a user who is no longer current is left out, since the model has one user.
- FlushScheduler.NoLostFlush: one user; the queue is global, so with several users one user's task hides another's need. Each task and each locked method is one atomic step, so thread interleavings are not modelled.
- HighFrequency.ProcessEvents: the local weekday and hour are a parameter, any total function; a foreground event at time 0 counts as no start, as in the code.
- A change of the wall clock end to end (renaming, then a forced load): only the renaming step is modelled, since a shifted table and the new begin time may differ.
- Removal of users and uninstalled bundles, module and form usage, statistics of device events.
- The native interface layer, the client and its proxies, the command line tool, marshalling, permission checks and death recipients.
- SQL text, journal modes, file sizes, corrupted files and the upgrade of the database version: only the effects on tables and rows are modelled.
- Keys are pairs of bundle name and uid; the source concatenates them, which is not injective on all strings.
- Integers are unbounded; 32- and 64-bit overflow is not modelled.
