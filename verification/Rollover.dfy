/**
 Midnight: whole runs of the usage service (services/packageusage/src/bundle_active_user_service.cpp). The
 four periods agree at all times on who is in front and what runs, and each keeps exact accounts; a period
 that ends loses the stretch from the last millisecond before the expiry to the begin of the new day, a
 period that goes on loses nothing.
 */
module Rollover {
  import opened Events
  import opened Occupancy
  import opened PackageStats
  import opened PeriodStats
  import opened Calendar
  import opened TableIndex
  import opened UsageStore
  import opened UsageDatabase
  import opened UserService
  import opened Intervals

  // ----- no table starts after the current period -----

  ghost predicate Behind(s: Store, begin: int) {
    && (forall t :: t in s.index ==> t <= begin)
    && (forall n :: n in s.tables ==> n.startTime <= begin)
  }

  lemma InNamesOf(index: seq<int>, begin: int)
    requires forall n :: n in NamesOf(index) ==> n.startTime <= begin
    ensures forall t :: t in index ==> t <= begin
  {
    forall t | t in index
      ensures t <= begin
    {
      InNames(index, t);
    }
  }

  lemma EvictionStaysBehind(s: Store, max: nat, begin: int)
    requires Behind(s, begin)
    ensures Behind(s.DeleteExcessive(max), begin)
  {
    var s' := s.DeleteExcessive(max);
    assert forall t :: t in s'.index ==> t in s.index;
  }

  lemma StoreStaysBehind(s: Store, t: int, rows: Table, max: nat, begin: int)
    requires Behind(s, begin) && t <= begin
    ensures Behind(s.WithTable(t, max), begin)
    ensures Behind(s.WithRows(t, rows), begin)
    ensures Behind(s.HandleTableInfo(), begin)
  {
    SortedStartsAreSorted(s.tables.Keys);
    InNamesOf(SortedStarts(s.tables.Keys), begin);
    if t !in s.index {
      var table := if PackageLog(t) in s.tables then s.tables[PackageLog(t)] else map[];
      var made := Store(InsertStart(s.index, t), s.tables[PackageLog(t) := table]);
      var n := LowerBound(s.index, t);
      forall x | x in made.index
        ensures x <= begin
      {
        assert x in s.index[..n] || x == t || x in s.index[n..];
        assert x in s.index || x == t;
      }
      EvictionStaysBehind(made, max, begin);
    }
  }

  lemma RemovalStaysBehind(s: Store, cutoff: int, max: nat, begin: int)
    requires Behind(s, begin)
    ensures Behind(s.RemovedOld(cutoff, max), begin)
  {
    StoreStaysBehind(s.DropBefore(cutoff), begin, map[], max, begin);
    EvictionStaysBehind(s.DropBefore(cutoff).HandleTableInfo(), max, begin);
  }

  ghost predicate DbBehind(d: Database, periods: seq<Period>) {
    |d.stores| == 4 == |periods| && forall i :: 0 <= i < 4 ==> Behind(d.stores[i], periods[i].beginTime)
  }

  lemma UpdateStaysBehind(d: Database, i: nat, begin: int, userId: int, bundleStats: map<Key, Usage>)
    requires i < 4 && |d.stores| == 4 && Behind(d.stores[i], begin)
    ensures var d' := d.UpdateUsage(i, begin, userId, bundleStats);
            Behind(d'.stores[i], begin) && forall j :: 0 <= j < 4 && j != i ==> d'.stores[j] == d.stores[j]
  {
    var rows := FlushedRows(begin, userId, bundleStats);
    StoreStaysBehind(d.stores[i], begin, rows, MAX_FILES_EVERY_INTERVAL_TYPE[i], begin);
    StoreStaysBehind(d.WithTable(i, begin).stores[i], begin, rows, 0, begin);
  }

  lemma {:induction false} SaveStaysBehind(s: Service, n: nat)
    requires n <= 4 && DbBehind(s.db, s.periods)
    ensures DbBehind(s.SavedPeriods(n).db, s.periods)
  {
    if n == 0 {
    } else {
      SaveStaysBehind(s, n - 1);
      var before := s.SavedPeriods(n - 1);
      UpdateStaysBehind(before.db, n - 1, s.periods[n - 1].beginTime, s.userId, s.periods[n - 1].bundleStats);
    }
  }

  lemma RestoreStaysBehind(s: Service, forced: bool)
    requires s.Shaped() && DbBehind(s.db, s.periods)
    ensures DbBehind(s.RestoreStats(forced).db, s.RestoreStats(forced).periods)
  {
    SaveStaysBehind(s, 4);
  }

  lemma RereadStaysBehind(d: Database, i: nat, periods: seq<Period>)
    requires i < 4 && DbBehind(d, periods)
    ensures DbBehind(d.Reread(i), periods)
  {
    var begin := periods[i].beginTime;
    StoreStaysBehind(d.stores[i], begin, map[], 0, begin);
    EvictionStaysBehind(d.stores[i].HandleTableInfo(), MAX_FILES_EVERY_INTERVAL_TYPE[i], begin);
  }

  lemma DroppedStaysBehind(d: Database, i: nat, now: int, lengths: seq<int>, periods: seq<Period>)
    requires i < 4 && DbBehind(d, periods) && |lengths| == 4
    ensures DbBehind(d.Dropped(i, now, lengths), periods)
  {
  }

  lemma RemoveOldStaysBehind(d: Database, now: int, lengths: seq<int>, periods: seq<Period>)
    requires DbBehind(d, periods) && |lengths| == 4
    ensures DbBehind(d.RemoveOld(now, lengths), periods)
  {
    var d1 := d.Dropped(YEARLY, now, lengths);
    var d2 := d1.Dropped(MONTHLY, now, lengths);
    var d3 := d2.Dropped(WEEKLY, now, lengths);
    var d4 := d3.Dropped(DAILY, now, lengths);
    DroppedStaysBehind(d, YEARLY, now, lengths, periods);
    DroppedStaysBehind(d1, MONTHLY, now, lengths, periods);
    DroppedStaysBehind(d2, WEEKLY, now, lengths, periods);
    DroppedStaysBehind(d3, DAILY, now, lengths, periods);
    RereadStaysBehind(d4, DAILY, periods);
    RereadStaysBehind(d4.Reread(DAILY), WEEKLY, periods);
    RereadStaysBehind(d4.Reread(DAILY).Reread(WEEKLY), MONTHLY, periods);
    RereadStaysBehind(d4.Reread(DAILY).Reread(WEEKLY).Reread(MONTHLY), YEARLY, periods);
  }

  // ----- the invariant -----

  /** The periods start on their marks, no table is ahead of them, and the day has not expired. */
  ghost predicate TimesOk(s: Service, now: int) {
    && s.Shaped() && Aligned(s.lengths) && DbBehind(s.db, s.periods)
    && 0 <= now < s.expiry && s.expiry == s.periods[DAILY].beginTime + s.lengths[DAILY]
    && forall i :: 0 <= i < 4 ==> IsMultiple(s.periods[i].beginTime, s.lengths[i]) && s.periods[i].beginTime <= now
  }

  /** The entries of one bundle are exact in all four periods. */
  ghost predicate BundleOk(periods: seq<Period>, history: seq<Event>, accounts: seq<Account>, now: int, k: Key) {
    && |periods| == |accounts| == 4
    && (forall i :: 0 <= i < 4 ==> accounts[i].origin <= now)
    && forall i {:trigger EntryOk(periods[i], k, history, accounts[i], now)} :: 0 <= i < 4 ==>
         EntryOk(periods[i], k, history, accounts[i], now)
  }

  lemma EntryAt(periods: seq<Period>, history: seq<Event>, accounts: seq<Account>, now: int, i: nat, k: Key)
    requires BundleOk(periods, history, accounts, now, k) && i < 4
    ensures EntryOk(periods[i], k, history, accounts[i], now) && accounts[i].origin <= now
  {
  }

  ghost predicate AllKnown(periods: seq<Period>, known: set<Key>) {
    forall i, k :: 0 <= i < |periods| && k in periods[i].bundleStats ==> k in known
  }

  /** One bundle is in step: the times are right, and its entries are exact. */
  ghost predicate BundleInSync(s: Service, history: seq<Event>, accounts: seq<Account>, now: int, k: Key) {
    TimesOk(s, now) && HistoryOk(history, now) && BundleOk(s.periods, history, accounts, now, k)
  }

  ghost predicate InSync(s: Service, history: seq<Event>, accounts: seq<Account>, now: int) {
    forall k :: BundleInSync(s, history, accounts, now, k)
  }

  /** What the invariant says of a bundle: all periods agree with the events, and each count is exact. */
  lemma InSyncMeans(s: Service, history: seq<Event>, accounts: seq<Account>, now: int, i: nat, k: Key, t: int)
    requires BundleInSync(s, history, accounts, now, k) && i < 4 && now <= t
    ensures s.periods[i].FrontOf(k) == InFront(history, k)
    ensures s.periods[i].TasksOf(k) == Running(history, k)
    ensures Accounted(FrontMeterOf(s.periods[i], k), t)
         == BaseOf(accounts[i].fronts, k) + Millis({}, FrontLog(history, k), accounts[i].origin, t)
    ensures Accounted(TaskMeterOf(s.periods[i], k), t)
         == BaseOf(accounts[i].tasks, k) + Millis({}, TaskLog(history, k), accounts[i].origin, t)
  {
    EntryAt(s.periods, history, accounts, now, i, k);
  }

  // ----- what continues -----

  lemma {:induction false} ContinuedAbilities(periods: seq<Period>, k: Key, front: set<string>)
    requires forall i :: 0 <= i < |periods| ==> periods[i].FrontOf(k) == front
    ensures k in ContinueAbilities(periods) ==> FrontIn(ContinueAbilities(periods)[k]) == front
    ensures periods != [] && front != {} ==> k in ContinueAbilities(periods)
  {
    if periods == [] {
    } else {
      var last := periods[|periods| - 1];
      ContinuedAbilities(periods[..|periods| - 1], k, front);
      assert last.FrontOf(k) == front;
      if k in AbilitiesOf(last) {
        assert FrontIn(AbilitiesOf(last)[k]) == last.bundleStats[k].Front();
      } else {
        assert last.FrontOf(k) == {};
      }
    }
  }

  lemma {:induction false} ContinuedServices(periods: seq<Period>, k: Key, tasks: set<string>)
    requires forall i :: 0 <= i < |periods| ==> periods[i].TasksOf(k) == tasks
    ensures k in ContinueServices(periods) ==> ContinueServices(periods)[k].Keys == tasks
    ensures periods != [] && tasks != {} ==> k in ContinueServices(periods)
  {
    if periods == [] {
    } else {
      var last := periods[|periods| - 1];
      ContinuedServices(periods[..|periods| - 1], k, tasks);
      assert last.TasksOf(k) == tasks;
      if k in ServicesOf(last) {
        assert ServicesOf(last)[k].Keys == last.bundleStats[k].longTimeTasks.Keys;
      } else {
        assert last.TasksOf(k) == {};
      }
    }
  }

  /** What a replay reports for a bundle: everything that was in front, or nothing when it is not reached. */
  lemma ReplayIsAllOrNothing(s: Service, known: set<Key>, history: seq<Event>, accounts: seq<Account>, now: int, k: Key)
    requires BundleOk(s.periods, history, accounts, now, k)
    ensures var abilities, services := ContinueAbilities(s.periods), ContinueServices(s.periods);
            && SetAt(FrontsToReplay(abilities, known), k)
               == (if Reached(abilities, known, k) then InFront(history, k) else {})
            && SetAt(TasksToReplay(services, known), k)
               == (if Reached(services, known, k) then Running(history, k) else {})
  {
    forall i | 0 <= i < 4
      ensures s.periods[i].FrontOf(k) == InFront(history, k) && s.periods[i].TasksOf(k) == Running(history, k)
    {
      assert EntryOk(s.periods[i], k, history, accounts[i], now);
    }
    ContinuedAbilities(s.periods, k, InFront(history, k));
    ContinuedServices(s.periods, k, Running(history, k));
    var services := ContinueServices(s.periods);
    if k in services {
      assert services[k] == map[] <==> services[k].Keys == {};
    }
  }

  lemma NothingEmpty(abilities: map<Key, AbilityMap>, services: map<Key, AbilityMap>, known: set<Key>)
    ensures NoEmptySets(FrontsToReplay(abilities, known)) && NoEmptySets(TasksToReplay(services, known))
  {
    forall k | k in TasksToReplay(services, known)
      ensures TasksToReplay(services, known)[k] != {}
    {
      assert services[k] != map[];
      var t :| t in services[k];
    }
  }

  // ----- the rollover, step by step -----

  function Saved(s: Service): Service
    requires s.Shaped()
  {
    s.FlushDataInMem().RestoreStats(true)
  }

  function Reloaded(s: Service, timeStamp: int): Service
    requires s.Shaped()
  {
    Saved(s).RemoveOldData(timeStamp).LoadActiveStats(timeStamp, false, false)
  }

  /** The uids that the replay goes through: those known before, and those of the tables it looked at. */
  function KnownAtReplay(s: Service, timeStamp: int): set<Key>
    requires s.Shaped()
  {
    Reloaded(s, timeStamp).known
  }

  predicate Rolls(s: Service, i: nat, timeStamp: int)
    requires s.Shaped() && i < 4
  {
    Truncate(timeStamp, s.lengths[i]) != s.periods[i].beginTime
  }

  lemma RestoreKeepsPeriods(s: Service, forced: bool, i: nat)
    requires s.Shaped() && i < 4
    ensures var s' := s.RestoreStats(forced);
            && s'.periods[i].bundleStats == s.periods[i].bundleStats && s'.periods[i].beginTime == s.periods[i].beginTime
            && s'.periods[i].endTime == s.periods[i].endTime
            && s'.lengths == s.lengths && s'.known == s.known && s'.expiry == s.expiry && s'.userId == s.userId
  {
  }

  lemma SavedPeriodsAre(s: Service, i: nat)
    requires s.Shaped() && i < 4
    ensures Saved(s).periods[i].bundleStats == EndOfDay(s.periods[i], s.expiry).bundleStats
    ensures Saved(s).periods[i].beginTime == s.periods[i].beginTime
    ensures Saved(s).lengths == s.lengths && Saved(s).known == s.known && Saved(s).expiry == s.expiry
  {
    RestoreKeepsPeriods(s.FlushDataInMem(), true, i);
  }

  lemma MidnightSaveStaysBehind(s: Service)
    requires s.Shaped() && DbBehind(s.db, s.periods)
    ensures DbBehind(Saved(s).db, s.periods)
  {
    var flushed := s.FlushDataInMem();
    assert DbBehind(flushed.db, flushed.periods);
    RestoreStaysBehind(flushed, true);
  }

  lemma SavedStaysBehind(s: Service, timeStamp: int)
    requires s.Shaped() && DbBehind(s.db, s.periods)
    ensures DbBehind(Saved(s).RemoveOldData(timeStamp).db, s.periods)
  {
    var flushed := s.FlushDataInMem();
    assert DbBehind(flushed.db, flushed.periods);
    RestoreStaysBehind(flushed, true);
    RemoveOldStaysBehind(Saved(s).db, timeStamp, Saved(s).lengths, Saved(s).periods);
  }

  /** A table of an earlier period is never taken for the new one: its window has passed. */
  lemma NewPeriodIsFresh(s: Service, now: int, timeStamp: int, i: nat)
    requires TimesOk(s, now) && s.expiry <= timeStamp && i < 4
    ensures var p := Reloaded(s, timeStamp).periods[i];
            && p.beginTime == Truncate(timeStamp, s.lengths[i])
            && p.bundleStats == if Rolls(s, i, timeStamp) then map[]
                                else EndOfDay(s.periods[i], s.expiry).bundleStats
  {
    SavedPeriodsAre(s, i);
    SavedStaysBehind(s, timeStamp);
    TruncateAdvances(timeStamp, s.lengths[i], s.periods[i].beginTime);
    var cleaned := Saved(s).RemoveOldData(timeStamp);
    assert cleaned.periods[i].beginTime == s.periods[i].beginTime;
    if Rolls(s, i, timeStamp) {
      TruncateIsPeriodStart(timeStamp, s.lengths[i], Truncate(timeStamp, s.lengths[i]));
      assert Behind(cleaned.db.stores[i], s.periods[i].beginTime);
      var loaded := cleaned.db.Current(i, cleaned.userId);
      if loaded.Stats? {
        var index := cleaned.db.stores[i].index;
        assert index[|index| - 1] in index;
        assert timeStamp >= loaded.beginTime + s.lengths[i];
      }
    }
    assert Reloaded(s, timeStamp).periods[i] == cleaned.LoadedPeriod(i, timeStamp, false);
  }

  /** The day always rolls over, to a day that does not start before the expiry. */
  lemma DayRolls(s: Service, now: int, timeStamp: int)
    requires TimesOk(s, now) && s.expiry <= timeStamp
    ensures Rolls(s, DAILY, timeStamp) && s.expiry <= Truncate(timeStamp, s.lengths[DAILY]) <= timeStamp
    ensures timeStamp < s.expiry + s.lengths[DAILY] ==> Truncate(timeStamp, s.lengths[DAILY]) == s.expiry
  {
    var day := s.lengths[DAILY];
    var q :| s.periods[DAILY].beginTime == Times(day, q);
    assert s.expiry == Times(day, q + 1);
    TruncateAdvances(timeStamp, day, s.expiry);
    TruncateIsPeriodStart(timeStamp, day, Truncate(timeStamp, day));
    TruncateIsPeriodStart(timeStamp, day, s.expiry);
  }

  lemma EntryLater(p: Period, k: Key, history: seq<Event>, a: Account, now: int, later: int)
    requires EntryOk(p, k, history, a, now) && now <= later
    ensures EntryOk(p, k, history, a, later)
  {
  }

  /** The two periods hold the same for one bundle. */
  predicate SameEntry(p: Period, q: Period, k: Key) {
    (k in p.bundleStats <==> k in q.bundleStats) && (k in p.bundleStats ==> p.bundleStats[k] == q.bundleStats[k])
  }

  lemma SameStats(p: Period, q: Period, k: Key, history: seq<Event>, a: Account, now: int)
    requires EntryOk(p, k, history, a, now) && SameEntry(p, q, k)
    ensures EntryOk(q, k, history, a, now)
  {
  }

  lemma RenewedPeriods(s: Service, timeStamp: int, i: nat)
    requires s.Shaped() && i < 4
    ensures var reloaded, known := Reloaded(s, timeStamp), KnownAtReplay(s, timeStamp);
            var p := Reported(reloaded.periods[i], FrontsToReplay(ContinueAbilities(s.periods), known),
                              TasksToReplay(ContinueServices(s.periods), known), reloaded.periods[DAILY].beginTime);
            s.RenewStatsInMemory(timeStamp).periods[i].bundleStats == p.bundleStats
            && s.RenewStatsInMemory(timeStamp).periods[i].beginTime == p.beginTime
  {
    RestoreKeepsPeriods(Reloaded(s, timeStamp).Replayed(ContinueAbilities(s.periods), ContinueServices(s.periods)), true, i);
  }

  /** A replay reports everything of a bundle or nothing. */
  ghost predicate AllOrNothing(fronts: map<Key, set<string>>, tasks: map<Key, set<string>>, history: seq<Event>, k: Key) {
    && NoEmptySets(fronts) && NoEmptySets(tasks)
    && (SetAt(fronts, k) == InFront(history, k) || SetAt(fronts, k) == {})
    && (SetAt(tasks, k) == Running(history, k) || SetAt(tasks, k) == {})
  }

  /** The way of an entry through a period that goes on: end of the day, replay, first event of the new day. */
  lemma KeptEntry(p: Period, reloaded: Period, q: Period, fronts: map<Key, set<string>>, tasks: map<Key, set<string>>,
                  expiry: int, begin: int, timeStamp: int, k: Key, history: seq<Event>, a: Account, now: int)
    requires EntryOk(p, k, history, a, now) && now < expiry <= begin <= timeStamp
    requires AllOrNothing(fronts, tasks, history, k)
    requires SameEntry(EndOfDay(p, expiry), reloaded, k)
    requires SameEntry(Reported(reloaded, fronts, tasks, begin), q, k)
    ensures EntryOk(q, k, history, a, timeStamp)
  {
    EndOfDayKeepsEntry(p, expiry, k, history, a, now);
    SameStats(EndOfDay(p, expiry), reloaded, k, history, a, expiry - 1);
    KeptReplay(reloaded, fronts, tasks, begin, k, history, a, expiry - 1);
    SameStats(Reported(reloaded, fronts, tasks, begin), q, k, history, a, begin);
    EntryLater(q, k, history, a, begin, timeStamp);
  }

  lemma ReplayFits(s: Service, known: set<Key>, history: seq<Event>, accounts: seq<Account>, now: int, k: Key)
    requires BundleOk(s.periods, history, accounts, now, k)
    ensures AllOrNothing(FrontsToReplay(ContinueAbilities(s.periods), known),
                         TasksToReplay(ContinueServices(s.periods), known), history, k)
  {
    ReplayIsAllOrNothing(s, known, history, accounts, now, k);
    NothingEmpty(ContinueAbilities(s.periods), ContinueServices(s.periods), known);
  }

  /** An entry of a period that goes on stays exact through the rollover, whether or not its replay is reached. */
  lemma KeptThroughRollover(s: Service, history: seq<Event>, accounts: seq<Account>, now: int, timeStamp: int, i: nat, k: Key)
    requires TimesOk(s, now) && BundleOk(s.periods, history, accounts, now, k)
    requires s.expiry <= timeStamp && i < 4 && !Rolls(s, i, timeStamp)
    ensures EntryOk(s.RenewStatsInMemory(timeStamp).periods[i], k, history, accounts[i], timeStamp)
  {
    var known := KnownAtReplay(s, timeStamp);
    NewPeriodIsFresh(s, now, timeStamp, i);
    NewPeriodIsFresh(s, now, timeStamp, DAILY);
    DayRolls(s, now, timeStamp);
    RenewedPeriods(s, timeStamp, i);
    ReplayFits(s, known, history, accounts, now, k);
    EntryAt(s.periods, history, accounts, now, i, k);
    KeptEntry(s.periods[i], Reloaded(s, timeStamp).periods[i], s.RenewStatsInMemory(timeStamp).periods[i],
              FrontsToReplay(ContinueAbilities(s.periods), known), TasksToReplay(ContinueServices(s.periods), known),
              s.expiry, Truncate(timeStamp, s.lengths[DAILY]), timeStamp, k, history, accounts[i], now);
  }

  /** An entry of a new period starts at the begin of the new day. */
  lemma NewThroughRollover(s: Service, history: seq<Event>, accounts: seq<Account>, now: int, timeStamp: int, i: nat, k: Key)
    requires TimesOk(s, now) && HistoryOk(history, now) && BundleOk(s.periods, history, accounts, now, k)
    requires s.expiry <= timeStamp && i < 4 && Rolls(s, i, timeStamp)
    requires InFront(history, k) != {} ==> Reached(ContinueAbilities(s.periods), KnownAtReplay(s, timeStamp), k)
    requires Running(history, k) != {} ==> Reached(ContinueServices(s.periods), KnownAtReplay(s, timeStamp), k)
    ensures EntryOk(s.RenewStatsInMemory(timeStamp).periods[i], k, history,
                    Account(Truncate(timeStamp, s.lengths[DAILY]), map[], map[]), timeStamp)
  {
    var known, reloaded := KnownAtReplay(s, timeStamp), Reloaded(s, timeStamp);
    var abilities, services := ContinueAbilities(s.periods), ContinueServices(s.periods);
    var fronts, tasks := FrontsToReplay(abilities, known), TasksToReplay(services, known);
    var begin := Truncate(timeStamp, s.lengths[DAILY]);
    NewPeriodIsFresh(s, now, timeStamp, i);
    NewPeriodIsFresh(s, now, timeStamp, DAILY);
    DayRolls(s, now, timeStamp);
    ReplayIsAllOrNothing(s, known, history, accounts, now, k);
    NothingEmpty(abilities, services, known);
    FreshReplay(reloaded.periods[i], fronts, tasks, begin, k, history);
    RenewedPeriods(s, timeStamp, i);
    SameStats(Reported(reloaded.periods[i], fronts, tasks, begin), s.RenewStatsInMemory(timeStamp).periods[i],
              k, history, Account(begin, map[], map[]), begin);
    EntryLater(s.RenewStatsInMemory(timeStamp).periods[i], k, history, Account(begin, map[], map[]), begin, timeStamp);
  }
}
