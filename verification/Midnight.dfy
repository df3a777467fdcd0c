/**
 The price of a midnight, exactly: which bundles come through the replay, what a period that ends has saved,
 and how much time falls between its last flush and the new day.
 */
module Midnight {
  import opened Events
  import opened Occupancy
  import opened PackageStats
  import opened PeriodStats
  import opened Calendar
  import opened TableIndex
  import opened UsageStore
  import opened UsageQuery
  import opened UsageDatabase
  import opened UserService
  import opened Intervals
  import opened Rollover
  import opened UsageRuns
  import opened Tidiness

  // ----- who comes through -----

  /** Both counters of the bundle have run since `begin`, as far as there is somebody to count. */
  predicate Counts(p: Period, k: Key, front: set<string>, tasks: set<string>, begin: int, t: int) {
    && Accounted(FrontMeterOf(p, k), t) == (if front != {} then t - begin else 0)
    && Accounted(TaskMeterOf(p, k), t) == (if tasks != {} then t - begin else 0)
  }

  lemma ReportedHolds(p: Period, fronts: map<Key, set<string>>, tasks: map<Key, set<string>>, time: int, k: Key)
    requires p.bundleStats == map[] && NoEmptySets(fronts) && NoEmptySets(tasks)
    ensures Reported(p, fronts, tasks, time).FrontOf(k) == SetAt(fronts, k)
    ensures Reported(p, fronts, tasks, time).TasksOf(k) == SetAt(tasks, k)
  {
    ReportedAt(p, fronts, tasks, time, k);
    FreshEntry(p.GetOrCreate(k), SetAt(fronts, k), SetAt(tasks, k), time);
  }

  lemma ReportedCounts(p: Period, fronts: map<Key, set<string>>, tasks: map<Key, set<string>>, time: int, k: Key, t: int)
    requires p.bundleStats == map[] && NoEmptySets(fronts) && NoEmptySets(tasks) && time <= t
    ensures Counts(Reported(p, fronts, tasks, time), k, SetAt(fronts, k), SetAt(tasks, k), time, t)
  {
    ReportedAt(p, fronts, tasks, time, k);
    FreshEntry(p.GetOrCreate(k), SetAt(fronts, k), SetAt(tasks, k), time);
    var p' := Reported(p, fronts, tasks, time);
    if k in p'.bundleStats {
      assert p'.bundleStats[k] == ReportedEntry(p, fronts, tasks, time, k);
    }
  }

  /** In a new period a bundle is in front, and has tasks, exactly if the replay reached it. */
  lemma NewHolds(s: Service, history: seq<Event>, accounts: seq<Account>, now: int, timeStamp: int, i: nat, k: Key)
    requires TimesOk(s, now) && BundleOk(s.periods, history, accounts, now, k)
    requires s.expiry <= timeStamp && i < 4 && Rolls(s, i, timeStamp)
    ensures s.RenewStatsInMemory(timeStamp).periods[i].FrontOf(k)
         == if Reached(ContinueAbilities(s.periods), KnownAtReplay(s, timeStamp), k) then InFront(history, k) else {}
    ensures s.RenewStatsInMemory(timeStamp).periods[i].TasksOf(k)
         == if Reached(ContinueServices(s.periods), KnownAtReplay(s, timeStamp), k) then Running(history, k) else {}
  {
    var known, p := KnownAtReplay(s, timeStamp), Reloaded(s, timeStamp).periods[i];
    var fronts := FrontsToReplay(ContinueAbilities(s.periods), known);
    var tasks := TasksToReplay(ContinueServices(s.periods), known);
    var begin := Reloaded(s, timeStamp).periods[DAILY].beginTime;
    NewPeriodIsFresh(s, now, timeStamp, i);
    RenewedPeriods(s, timeStamp, i);
    ReplayIsAllOrNothing(s, known, history, accounts, now, k);
    NothingEmpty(ContinueAbilities(s.periods), ContinueServices(s.periods), known);
    ReportedHolds(p, fronts, tasks, begin, k);
  }

  /** A period that went on, or that was reached, holds everything of the bundle, any other one nothing. */
  predicate Holds(p: Period, k: Key, rolls: bool, abilities: bool, front: set<string>, services: bool, tasks: set<string>) {
    && p.FrontOf(k) == (if rolls && !abilities then {} else front)
    && p.TasksOf(k) == (if rolls && !services then {} else tasks)
  }

  /** What any of the four periods holds of a bundle after midnight. */
  lemma RenewedHolds(s: Service, history: seq<Event>, accounts: seq<Account>, now: int, timeStamp: int, i: nat, k: Key)
    requires TimesOk(s, now) && BundleOk(s.periods, history, accounts, now, k)
    requires s.expiry <= timeStamp && i < 4
    ensures Holds(s.RenewStatsInMemory(timeStamp).periods[i], k, Rolls(s, i, timeStamp),
                  Reached(ContinueAbilities(s.periods), KnownAtReplay(s, timeStamp), k), InFront(history, k),
                  Reached(ContinueServices(s.periods), KnownAtReplay(s, timeStamp), k), Running(history, k))
  {
    if Rolls(s, i, timeStamp) {
      NewHolds(s, history, accounts, now, timeStamp, i, k);
    } else {
      KeptThroughRollover(s, history, accounts, now, timeStamp, i, k);
    }
  }

  lemma AllHoldIff(periods: seq<Period>, k: Key, rolls: seq<bool>, abilities: bool, front: set<string>, services: bool,
                   tasks: set<string>)
    requires |periods| == 4 == |rolls| && rolls[DAILY]
    requires forall i :: 0 <= i < 4 ==> Holds(periods[i], k, rolls[i], abilities, front, services, tasks)
    ensures (forall i :: 0 <= i < 4 ==> periods[i].FrontOf(k) == front) <==> front == {} || abilities
    ensures (forall i :: 0 <= i < 4 ==> periods[i].TasksOf(k) == tasks) <==> tasks == {} || services
  {
    assert Holds(periods[DAILY], k, true, abilities, front, services, tasks);
  }

  /**
   After a midnight the four periods agree with the events on who of a bundle is in front if and only if nothing
   of it was in front or the replay reaches it: no known uid of the same bundle below it had no abilities. They
   agree on its tasks if and only if none ran or the replay of tasks, which has stops of its own, reaches it.
   */
  lemma MidnightAgrees(s: Service, history: seq<Event>, accounts: seq<Account>, now: int, timeStamp: int, k: Key)
    requires TimesOk(s, now) && BundleOk(s.periods, history, accounts, now, k)
    requires s.expiry <= timeStamp
    ensures (forall i :: 0 <= i < 4 ==> s.RenewStatsInMemory(timeStamp).periods[i].FrontOf(k) == InFront(history, k))
       <==> InFront(history, k) == {} || Reached(ContinueAbilities(s.periods), KnownAtReplay(s, timeStamp), k)
    ensures (forall i :: 0 <= i < 4 ==> s.RenewStatsInMemory(timeStamp).periods[i].TasksOf(k) == Running(history, k))
       <==> Running(history, k) == {} || Reached(ContinueServices(s.periods), KnownAtReplay(s, timeStamp), k)
  {
    var renewed := s.RenewStatsInMemory(timeStamp).periods;
    var abilities := Reached(ContinueAbilities(s.periods), KnownAtReplay(s, timeStamp), k);
    var services := Reached(ContinueServices(s.periods), KnownAtReplay(s, timeStamp), k);
    var rolls := seq(4, i requires 0 <= i < 4 => Rolls(s, i, timeStamp));
    DayRolls(s, now, timeStamp);
    forall i | 0 <= i < 4
      ensures Holds(renewed[i], k, rolls[i], abilities, InFront(history, k), services, Running(history, k))
    {
      RenewedHolds(s, history, accounts, now, timeStamp, i, k);
    }
    AllHoldIff(renewed, k, rolls, abilities, InFront(history, k), services, Running(history, k));
  }

  /** When no other known uid has the name of the bundle, the replay reaches it. */
  lemma OneUidIsEnough(s: Service, history: seq<Event>, accounts: seq<Account>, now: int, timeStamp: int, k: Key)
    requires s.Shaped() && BundleOk(s.periods, history, accounts, now, k) && AllKnown(s.periods, s.known)
    requires forall l :: l in KnownAtReplay(s, timeStamp) && l.bundleName == k.bundleName ==> l == k
    ensures Carries(s, history, timeStamp, k)
  {
    forall i | 0 <= i < 4
      ensures s.periods[i].FrontOf(k) == InFront(history, k) && s.periods[i].TasksOf(k) == Running(history, k)
    {
      EntryAt(s.periods, history, accounts, now, i, k);
    }
    SavedPeriodsAre(s, 0);
    assert s.known <= KnownAtReplay(s, timeStamp);
    ContinuedAbilities(s.periods, k, InFront(history, k));
    ContinuedServices(s.periods, k, Running(history, k));
    ContinuedAreKnown(s.periods, s.known);
  }

  lemma {:induction false} ContinuedAreKnown(periods: seq<Period>, known: set<Key>)
    requires AllKnown(periods, known)
    ensures forall k :: k in ContinueAbilities(periods) ==> k in known
    ensures forall k :: k in ContinueServices(periods) ==> k in known
  {
    if periods == [] {
    } else {
      var init := periods[..|periods| - 1];
      assert AllKnown(init, known);
      ContinuedAreKnown(init, known);
    }
  }

  /** A known uid with nothing to continue takes from the new day what a higher uid of the same bundle had. */
  lemma LowerUidStopsReplay(s: Service, history: seq<Event>, accounts: seq<Account>, now: int, timeStamp: int, low: Key,
                            high: Key)
    requires TimesOk(s, now) && BundleOk(s.periods, history, accounts, now, high) && s.expiry <= timeStamp
    requires low in s.known && low.bundleName == high.bundleName && low.uid < high.uid
    ensures low !in ContinueAbilities(s.periods) ==> s.RenewStatsInMemory(timeStamp).periods[DAILY].FrontOf(high) == {}
    ensures low !in ContinueServices(s.periods) ==> s.RenewStatsInMemory(timeStamp).periods[DAILY].TasksOf(high) == {}
  {
    DayRolls(s, now, timeStamp);
    SavedPeriodsAre(s, DAILY);
    assert low in KnownAtReplay(s, timeStamp);
    NewHolds(s, history, accounts, now, timeStamp, DAILY, high);
  }

  // ----- what is saved, and what is lost -----

  /** The first save of a midnight writes a row for the bundle: it has usage by the end of the day. */
  predicate Writes(s: Service, i: nat, k: Key)
    requires s.Shaped() && i < 4
  {
    k in s.periods[i].bundleStats && HasUsage(EndOfDay(s.periods[i], s.expiry).bundleStats[k])
  }

  /** What the table of a period holds for a bundle after that save. */
  function SavedTable(s: Service, i: nat): Table
    requires s.Shaped() && i < 4
  {
    TableAt(Saved(s).db.stores[i], s.periods[i].beginTime)
  }

  ghost predicate TableInOrder(s: Service, i: nat)
    requires s.Shaped() && i < 4
  {
    var store, begin := s.db.stores[i], s.periods[i].beginTime;
    StrictlyIncreasing(store.index) && Behind(store, begin) && Present(store, begin)
  }

  /** The row that the first save of a midnight leaves for a bundle with usage. */
  lemma SavedRow(s: Service, i: nat, k: Key)
    requires s.Shaped() && i < 4 && TableInOrder(s, i) && Writes(s, i, k)
    ensures var row := RowKey(s.userId, k);
            && PackageLog(s.periods[i].beginTime) in Saved(s).db.stores[i].tables && row in SavedTable(s, i)
            && SavedTable(s, i)[row] == RowOf(s.periods[i].beginTime, EndOfDay(s.periods[i], s.expiry).bundleStats[k])
  {
    var flushed, begin := s.FlushDataInMem(), s.periods[i].beginTime;
    var stats := EndOfDay(s.periods[i], s.expiry).bundleStats;
    assert flushed.periods[i].bundleStats == stats && k in stats;
    SavedStore(flushed, 4, i);
    ManyTablesAreKept(i);
    NewestSurvives(s.db.stores[i], begin, MAX_FILES_EVERY_INTERVAL_TYPE[i]);
    FlushedRowsAt(begin, s.userId, stats, RowKey(s.userId, k));
  }

  /** The totals of both counters in the row of a bundle, 0 when the save writes none. */
  function SavedFront(s: Service, i: nat, k: Key): int
    requires s.Shaped() && i < 4
  {
    if Writes(s, i, k) && RowKey(s.userId, k) in SavedTable(s, i) then SavedTable(s, i)[RowKey(s.userId, k)].totalTime else 0
  }

  function SavedTask(s: Service, i: nat, k: Key): int
    requires s.Shaped() && i < 4
  {
    if Writes(s, i, k) && RowKey(s.userId, k) in SavedTable(s, i) then SavedTable(s, i)[RowKey(s.userId, k)].totalTask else 0
  }

  /** What is saved is what the counters show in the last millisecond of the day. */
  lemma SavedIsShown(s: Service, history: seq<Event>, accounts: seq<Account>, now: int, i: nat, k: Key, last: int)
    requires s.Shaped() && BundleOk(s.periods, history, accounts, now, k) && now < s.expiry
    requires i < 4 && TableInOrder(s, i) && last == s.expiry - 1
    ensures SavedFront(s, i, k) == Accounted(FrontMeterOf(s.periods[i], k), last)
    ensures SavedTask(s, i, k) == Accounted(TaskMeterOf(s.periods[i], k), last)
  {
    EntryAt(s.periods, history, accounts, now, i, k);
    EndOfDayKeepsEntry(s.periods[i], s.expiry, k, history, accounts[i], now);
    if Writes(s, i, k) {
      SavedRow(s, i, k);
    }
  }

  /** Who of a bundle a new day knows: everybody when the replay reaches the bundle, else nobody. */
  function CarriedFront(s: Service, history: seq<Event>, timeStamp: int, k: Key): set<string>
    requires s.Shaped()
  {
    if Reached(ContinueAbilities(s.periods), KnownAtReplay(s, timeStamp), k) then InFront(history, k) else {}
  }

  function CarriedTasks(s: Service, history: seq<Event>, timeStamp: int, k: Key): set<string>
    requires s.Shaped()
  {
    if Reached(ContinueServices(s.periods), KnownAtReplay(s, timeStamp), k) then Running(history, k) else {}
  }

  lemma NewCounts(s: Service, history: seq<Event>, accounts: seq<Account>, now: int, timeStamp: int, i: nat, k: Key, t: int)
    requires TimesOk(s, now) && BundleOk(s.periods, history, accounts, now, k)
    requires s.expiry <= timeStamp <= t && i < 4 && Rolls(s, i, timeStamp)
    ensures Counts(s.RenewStatsInMemory(timeStamp).periods[i], k, CarriedFront(s, history, timeStamp, k),
                   CarriedTasks(s, history, timeStamp, k), Truncate(timeStamp, s.lengths[DAILY]), t)
  {
    var known, p := KnownAtReplay(s, timeStamp), Reloaded(s, timeStamp).periods[i];
    NewPeriodIsFresh(s, now, timeStamp, i);
    NewPeriodIsFresh(s, now, timeStamp, DAILY);
    DayRolls(s, now, timeStamp);
    RenewedPeriods(s, timeStamp, i);
    ReplayIsAllOrNothing(s, known, history, accounts, now, k);
    NothingEmpty(ContinueAbilities(s.periods), ContinueServices(s.periods), known);
    ReportedCounts(p, FrontsToReplay(ContinueAbilities(s.periods), known), TasksToReplay(ContinueServices(s.periods), known),
                   Truncate(timeStamp, s.lengths[DAILY]), k, t);
  }

  /** The stretch that no period counts: up to the new day, or without end when the new day does not know of it. */
  function Gap(running: set<string>, carried: set<string>, last: int, begin: int, t: int): int {
    if running == {} then 0 else if carried == {} then t - last else begin - last
  }

  /**
   The exact loss of a period that ends: what a counter showed before midnight is the saved total, what the new
   period shows, and - for a bundle in front, or with a task running - the stretch from the last millisecond before
   the expiry to the begin of the new day, or for ever when the replay does not reach the bundle. The stretch to the
   new day is one millisecond when the first event comes on the next day.
   */
  lemma MidnightLoss(s: Service, history: seq<Event>, accounts: seq<Account>, now: int, timeStamp: int, i: nat, k: Key, t: int)
    requires TimesOk(s, now) && BundleOk(s.periods, history, accounts, now, k) && s.expiry <= timeStamp <= t
    requires i < 4 && Rolls(s, i, timeStamp) && TableInOrder(s, i)
    ensures var renewed, last, begin := s.RenewStatsInMemory(timeStamp), s.expiry - 1, Truncate(timeStamp, s.lengths[DAILY]);
            && Accounted(FrontMeterOf(s.periods[i], k), t)
               == SavedFront(s, i, k) + Accounted(FrontMeterOf(renewed.periods[i], k), t)
                  + Gap(InFront(history, k), CarriedFront(s, history, timeStamp, k), last, begin, t)
            && Accounted(TaskMeterOf(s.periods[i], k), t)
               == SavedTask(s, i, k) + Accounted(TaskMeterOf(renewed.periods[i], k), t)
                  + Gap(Running(history, k), CarriedTasks(s, history, timeStamp, k), last, begin, t)
            && (timeStamp < s.expiry + s.lengths[DAILY] ==> begin - last == 1)
  {
    var last := s.expiry - 1;
    DayRolls(s, now, timeStamp);
    SavedIsShown(s, history, accounts, now, i, k, last);
    NewCounts(s, history, accounts, now, timeStamp, i, k, t);
    EntryAt(s.periods, history, accounts, now, i, k);
    OpenStretch(FrontMeterOf(s.periods[i], k), last, t);
    OpenStretch(TaskMeterOf(s.periods[i], k), last, t);
  }

  lemma OpenStretch<T>(m: Meter<T>, from: int, t: int)
    ensures Accounted(m, t) == Accounted(m, from) + (if m.inside != {} then t - from else 0)
  {
  }

  /** Reading the names back finds the newest table at the end. */
  lemma NewestIsRead(s: Store, t: int)
    requires Behind(s, t) && PackageLog(t) in s.tables
    ensures var read := s.HandleTableInfo();
            && read.tables == s.tables && StrictlyIncreasing(read.index) && read.index != []
            && read.index[|read.index| - 1] == t
  {
    var read := s.HandleTableInfo();
    SortedStartsAreSorted(s.tables.Keys);
    InNames(read.index, t);
    var j :| 0 <= j < |read.index| && read.index[j] == t;
    InNames(read.index, read.index[|read.index| - 1]);
    assert read.index[j] <= read.index[|read.index| - 1] <= t;
  }

  /** Removal of old tables keeps the newest one exactly when it is not overdue. */
  lemma NewestIsRemoved(s: Store, t: int, cutoff: int, max: nat)
    requires StrictlyIncreasing(s.index) && Behind(s, t) && PackageLog(t) in s.tables && max > 0
    ensures var s' := s.RemovedOld(cutoff, max);
            && (PackageLog(t) in s'.tables <==> cutoff <= t) && StrictlyIncreasing(s'.index)
            && (cutoff <= t ==> s'.tables[PackageLog(t)] == s.tables[PackageLog(t)]
                                && s'.index != [] && s'.index[|s'.index| - 1] == t)
  {
    var dropped := s.DropBefore(cutoff);
    if cutoff <= t {
      NewestIsRead(dropped, t);
      LastIsKept(dropped.HandleTableInfo(), max);
    } else {
      SortedStartsAreSorted(dropped.tables.Keys);
    }
  }

  lemma LastIsKept(s: Store, max: nat)
    requires StrictlyIncreasing(s.index) && s.index != [] && PackageLog(s.index[|s.index| - 1]) in s.tables && max > 0
    ensures var s', t := s.DeleteExcessive(max), s.index[|s.index| - 1];
            && PackageLog(t) in s'.tables && s'.tables[PackageLog(t)] == s.tables[PackageLog(t)]
            && s'.index != [] && s'.index[|s'.index| - 1] == t
  {
    EvictionKeepsPresent(s, max, s.index[|s.index| - 1]);
  }

  /** Saving a later period leaves the table of the one that ended. */
  lemma LaterSaveKeeps(s: Store, t: int, later: int, userId: int, stats: map<Key, Usage>, max: nat)
    requires StrictlyIncreasing(s.index) && Behind(s, t) && t < later && max > 1
    requires PackageLog(t) in s.tables ==> s.index != [] && s.index[|s.index| - 1] == t
    ensures var s' := s.Updated(later, userId, stats, max);
            && (PackageLog(t) in s'.tables <==> PackageLog(t) in s.tables)
            && (PackageLog(t) in s.tables ==> s'.tables[PackageLog(t)] == s.tables[PackageLog(t)])
  {
    forall i | 0 <= i < |s.index|
      ensures s.index[i] < later
    {
      assert s.index[i] in s.index;
    }
    InsertLast(s.index, later);
    var made := Store(s.index + [later], s.tables[PackageLog(later) := map[]]);
    assert s.WithTable(later, max) == made.DeleteExcessive(max);
    if |made.index| > max && PackageLog(t) in s.tables {
      var n := |made.index| - max;
      assert n <= |s.index| - 1;
      forall i | 0 <= i < n
        ensures made.index[..n][i] < t
      {
        assert s.index[i] < s.index[|s.index| - 1];
      }
      InNames(made.index[..n], t);
    }
  }

  lemma SecondSave(s: Service, timeStamp: int, i: nat)
    requires s.Shaped() && i < 4
    ensures var before, after := Reloaded(s, timeStamp).db.stores[i], s.RenewStatsInMemory(timeStamp).db.stores[i];
            var p := s.RenewStatsInMemory(timeStamp).periods[i];
            after == if p.bundleStats == map[] then before
                     else before.Updated(p.beginTime, Reloaded(s, timeStamp).userId, p.bundleStats,
                                         MAX_FILES_EVERY_INTERVAL_TYPE[i])
  {
    var x := Reloaded(s, timeStamp).Replayed(ContinueAbilities(s.periods), ContinueServices(s.periods));
    RestoreKeepsPeriods(x, true, i);
    if x.periods[i].bundleStats == map[] {
      EmptyPeriodSavesNothing(x, 4, i);
    } else {
      SavedStore(x, 4, i);
    }
  }

  /** The table of a period that ended, through the removal of old tables and the save of a later period. */
  lemma TableThroughRemoval(s: Store, t: int, cutoff: int, later: int, userId: int, stats: map<Key, Usage>, max: nat)
    requires StrictlyIncreasing(s.index) && Behind(s, t) && PackageLog(t) in s.tables && t < later && max > 1
    ensures var removed := s.RemovedOld(cutoff, max);
            var s' := if stats == map[] then removed else removed.Updated(later, userId, stats, max);
            && (PackageLog(t) in s'.tables <==> cutoff <= t)
            && (cutoff <= t ==> s'.tables[PackageLog(t)] == s.tables[PackageLog(t)])
  {
    NewestIsRemoved(s, t, cutoff, max);
    RemovalStaysBehind(s, cutoff, max, t);
    LaterSaveKeeps(s.RemovedOld(cutoff, max), t, later, userId, stats, max);
  }

  lemma ReloadedStore(s: Service, timeStamp: int, i: nat)
    requires s.Shaped() && i < 4
    ensures Reloaded(s, timeStamp).db.stores[i]
         == Saved(s).db.stores[i].RemovedOld(Cutoff(i, timeStamp, s.lengths[i]), MAX_FILES_EVERY_INTERVAL_TYPE[i])
  {
    SavedPeriodsAre(s, i);
    LoadKeepsStores(Saved(s).RemoveOldData(timeStamp), timeStamp);
    RemoveOldIsRemovedOld(Saved(s).db, timeStamp, s.lengths, i);
  }

  /** One store through a midnight: after its first save come the removal of old tables and the second save. */
  lemma RenewedStore(s: Service, now: int, timeStamp: int, i: nat)
    returns (later: int, userId: int, stats: map<Key, Usage>)
    requires TimesOk(s, now) && s.expiry <= timeStamp && i < 4
    ensures var cutoff, max := Cutoff(i, timeStamp, s.lengths[i]), MAX_FILES_EVERY_INTERVAL_TYPE[i];
            var removed := Saved(s).db.stores[i].RemovedOld(cutoff, max);
            s.RenewStatsInMemory(timeStamp).db.stores[i]
            == if stats == map[] then removed else removed.Updated(later, userId, stats, MAX_FILES_EVERY_INTERVAL_TYPE[i])
    ensures later == Truncate(timeStamp, s.lengths[i])
  {
    var p := s.RenewStatsInMemory(timeStamp).periods[i];
    later, userId, stats := p.beginTime, Reloaded(s, timeStamp).userId, p.bundleStats;
    ReloadedStore(s, timeStamp, i);
    RenewedBegin(s, now, timeStamp, i);
    RenewedPeriods(s, timeStamp, i);
    SecondSave(s, timeStamp, i);
  }

  /**
   When the midnight is over, the table that its first save wrote is still there, unchanged, if and only if the
   period is not older than the oldest that are kept.
   */
  lemma SavedTableStays(s: Service, now: int, timeStamp: int, i: nat)
    requires TimesOk(s, now) && s.expiry <= timeStamp && i < 4 && Rolls(s, i, timeStamp)
    requires StrictlyIncreasing(Saved(s).db.stores[i].index)
    requires PackageLog(s.periods[i].beginTime) in Saved(s).db.stores[i].tables
    ensures var table, after := PackageLog(s.periods[i].beginTime), s.RenewStatsInMemory(timeStamp).db.stores[i].tables;
            && (table in after <==> Cutoff(i, timeStamp, s.lengths[i]) <= s.periods[i].beginTime)
            && (table in after ==> after[table] == SavedTable(s, i))
  {
    var later, userId, stats := RenewedStore(s, now, timeStamp, i);
    MidnightSaveStaysBehind(s);
    TruncateAdvances(timeStamp, s.lengths[i], s.periods[i].beginTime);
    ManyTablesAreKept(i);
    TableThroughRemoval(Saved(s).db.stores[i], s.periods[i].beginTime, Cutoff(i, timeStamp, s.lengths[i]), later, userId,
                        stats, MAX_FILES_EVERY_INTERVAL_TYPE[i]);
  }

  // ----- the start -----

  function LoadedAccount(p: Period, time: int): Account {
    Account(time, map k | k in p.bundleStats :: p.bundleStats[k].totalInFrontTime,
            map k | k in p.bundleStats :: p.bundleStats[k].totalContinuousTaskUsedTime)
  }

  lemma LoadedEntry(p: Period, k: Key, time: int)
    requires k in p.bundleStats ==> p.bundleStats[k].abilities == map[] && p.bundleStats[k].longTimeTasks == map[]
    ensures EntryOk(p, k, [], LoadedAccount(p, time), time)
  {
    var a := LoadedAccount(p, time);
    assert FrontLog([], k) == [] && TaskLog([], k) == [];
    assert FrontMeterOf(p, k).inside == {} && TaskMeterOf(p, k).inside == {};
    forall t | time <= t
      ensures Accounted(FrontMeterOf(p, k), t) == BaseOf(a.fronts, k) + Millis({}, FrontLog([], k), a.origin, t)
      ensures Accounted(TaskMeterOf(p, k), t) == BaseOf(a.tasks, k) + Millis({}, TaskLog([], k), a.origin, t)
    {
      MillisAfterEnd<string>({}, [], time, time, time, t);
    }
  }

  predicate Quiet(p: Period) {
    forall k :: k in p.bundleStats ==> p.bundleStats[k].abilities == map[] && p.bundleStats[k].longTimeTasks == map[]
  }

  lemma LoadedPeriodIsQuiet(s: Service, i: nat, timeStamp: int)
    requires s.Shaped() && i < 4 && 0 <= timeStamp
    ensures var p := s.LoadedPeriod(i, timeStamp, true);
            && Quiet(p) && p.bundleStats.Keys <= s.LearnedAt(i, timeStamp, true)
            && p.beginTime == Truncate(timeStamp, s.lengths[i])
            && IsMultiple(p.beginTime, s.lengths[i]) && p.beginTime <= timeStamp
  {
    TruncateIsPeriodStart(timeStamp, s.lengths[i], Truncate(timeStamp, s.lengths[i]));
  }

  lemma LoadedIsQuiet(s: Service, i: nat, timeStamp: int)
    requires s.Shaped() && i < 4 && 0 <= timeStamp
    ensures var loaded := s.LoadActiveStats(timeStamp, true, false); var p := loaded.periods[i];
            && Quiet(p) && p.bundleStats.Keys <= loaded.known
            && p.beginTime == Truncate(timeStamp, s.lengths[i])
            && IsMultiple(p.beginTime, s.lengths[i]) && p.beginTime <= timeStamp
  {
    LoadedPeriodIsQuiet(s, i, timeStamp);
    assert s.LoadActiveStats(timeStamp, true, false).periods[i] == s.LoadedPeriod(i, timeStamp, true);
  }

  lemma LoadedTimes(s: Service, timeStamp: int)
    requires s.Shaped() && Aligned(s.lengths) && 0 <= timeStamp
    requires forall i :: 0 <= i < 4 ==> Behind(s.db.stores[i], Truncate(timeStamp, s.lengths[i]))
    ensures TimesOk(s.LoadActiveStats(timeStamp, true, false), timeStamp)
  {
    var loaded := s.LoadActiveStats(timeStamp, true, false);
    forall i | 0 <= i < 4
      ensures var begin := loaded.periods[i].beginTime;
              begin == Truncate(timeStamp, s.lengths[i]) && IsMultiple(begin, s.lengths[i]) && begin <= timeStamp
    {
      LoadedIsQuiet(s, i, timeStamp);
    }
    TomorrowIsNextDay(timeStamp, s.lengths[DAILY]);
  }

  function LoadedAccounts(periods: seq<Period>, time: int): seq<Account> {
    seq(|periods|, i requires 0 <= i < |periods| => LoadedAccount(periods[i], time))
  }

  lemma QuietBundle(periods: seq<Period>, time: int, k: Key)
    requires |periods| == 4 && forall i :: 0 <= i < 4 ==> Quiet(periods[i])
    ensures BundleOk(periods, [], LoadedAccounts(periods, time), time, k)
  {
    forall i | 0 <= i < 4
      ensures EntryOk(periods[i], k, [], LoadedAccounts(periods, time)[i], time)
    {
      LoadedEntry(periods[i], k, time);
    }
  }

  lemma LoadedKnows(s: Service, timeStamp: int)
    requires s.Shaped() && 0 <= timeStamp
    ensures AllKnown(s.LoadActiveStats(timeStamp, true, false).periods, s.LoadActiveStats(timeStamp, true, false).known)
  {
    forall i | 0 <= i < 4
      ensures s.LoadActiveStats(timeStamp, true, false).periods[i].bundleStats.Keys
           <= s.LoadActiveStats(timeStamp, true, false).known
    {
      LoadedIsQuiet(s, i, timeStamp);
    }
  }

  /** A service that has just loaded its periods is in step, whatever the tables held. */
  lemma LoadStartsInSync(s: Service, timeStamp: int)
    requires s.Shaped() && Aligned(s.lengths) && 0 <= timeStamp
    requires forall i :: 0 <= i < 4 ==> Behind(s.db.stores[i], Truncate(timeStamp, s.lengths[i]))
    ensures var loaded := s.LoadActiveStats(timeStamp, true, false);
            InSync(loaded, [], LoadedAccounts(loaded.periods, timeStamp), timeStamp) && AllKnown(loaded.periods, loaded.known)
  {
    LoadedTimes(s, timeStamp);
    LoadedKnows(s, timeStamp);
    LoadedBundles(s, timeStamp);
  }

  lemma LoadedBundles(s: Service, timeStamp: int)
    requires s.Shaped() && 0 <= timeStamp
    ensures var periods := s.LoadActiveStats(timeStamp, true, false).periods;
            forall k :: BundleOk(periods, [], LoadedAccounts(periods, timeStamp), timeStamp, k)
  {
    var periods := s.LoadActiveStats(timeStamp, true, false).periods;
    forall i | 0 <= i < 4
      ensures Quiet(periods[i])
    {
      LoadedIsQuiet(s, i, timeStamp);
    }
    forall k
      ensures BundleOk(periods, [], LoadedAccounts(periods, timeStamp), timeStamp, k)
    {
      QuietBundle(periods, timeStamp, k);
    }
  }
}
