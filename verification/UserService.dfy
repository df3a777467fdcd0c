/**
 The usage service of one user as a value: four parallel periods (day, week, month, year), the expiry of the
 day, and the database (services/packageusage/src/bundle_active_user_service.cpp).
 */
module UserService {
  import opened Events
  import opened PackageStats
  import opened PeriodStats
  import opened Replay
  import opened Calendar
  import opened UsageStore
  import opened UsageQuery
  import opened UsageDatabase
  import E = EventStore

  type AbilityMap = map<string, int>

  predicate IsTrackerEvent(eventId: int) {
    eventId in {SCREEN_INTERACTIVE, SCREEN_NON_INTERACTIVE, KEYGUARD_SHOWN, KEYGUARD_HIDDEN}
  }

  // ----- what continues over midnight -----

  /** The entries of one period that have abilities, or tasks. */
  function AbilitiesOf(p: Period): map<Key, AbilityMap> {
    map k | k in p.bundleStats && p.bundleStats[k].abilities != map[] :: p.bundleStats[k].abilities
  }

  function ServicesOf(p: Period): map<Key, AbilityMap> {
    map k | k in p.bundleStats && p.bundleStats[k].longTimeTasks != map[] :: p.bundleStats[k].longTimeTasks
  }

  /** A longer period overwrites what a shorter one noted for the same entry. */
  function ContinueAbilities(periods: seq<Period>): map<Key, AbilityMap> {
    if periods == [] then map[] else ContinueAbilities(periods[..|periods| - 1]) + AbilitiesOf(periods[|periods| - 1])
  }

  function ContinueServices(periods: seq<Period>): map<Key, AbilityMap> {
    if periods == [] then map[] else ContinueServices(periods[..|periods| - 1]) + ServicesOf(periods[|periods| - 1])
  }

  /**
   The replay goes through the known uids of a bundle in ascending order and gives up at the first one that
   has nothing to continue; an entry is reached when nobody stops the loop before it.
   */
  predicate Reached(continued: map<Key, AbilityMap>, known: set<Key>, k: Key) {
    && k in known && k in continued
    && forall l :: l in known && l.bundleName == k.bundleName && l.uid < k.uid ==> l in continued
  }

  function FrontIn(abilities: AbilityMap): set<string> {
    set a | a in abilities && abilities[a] == ABILITY_FOREGROUND
  }

  function FrontsToReplay(continued: map<Key, AbilityMap>, known: set<Key>): map<Key, set<string>> {
    map k | k in continued && Reached(continued, known, k) && FrontIn(continued[k]) != {} :: FrontIn(continued[k])
  }

  function TasksToReplay(continued: map<Key, AbilityMap>, known: set<Key>): map<Key, set<string>> {
    map k | k in continued && Reached(continued, known, k) && continued[k] != map[] :: continued[k].Keys
  }

  function SetAt(sets: map<Key, set<string>>, k: Key): set<string> {
    if k in sets then sets[k] else {}
  }

  function ReportedEntry(p: Period, fronts: map<Key, set<string>>, tasks: map<Key, set<string>>, time: int, k: Key): Usage {
    ReplayTasks(ReplayAbilities(p.GetOrCreate(k), SetAt(fronts, k), time), SetAt(tasks, k), time)
  }

  /** A period after the continuing abilities and tasks have been reported to it. */
  function Reported(p: Period, fronts: map<Key, set<string>>, tasks: map<Key, set<string>>, time: int): Period {
    p.(bundleStats := map k | k in p.bundleStats.Keys + fronts.Keys + tasks.Keys
                            :: if k in fronts || k in tasks then ReportedEntry(p, fronts, tasks, time, k)
                               else p.bundleStats[k],
       endTime := if (fronts == map[] && tasks == map[]) || time <= p.endTime then p.endTime else time)
  }

  // ----- the service -----

  datatype UsageAnswer = BadInterval | UsageOutOfRange | Usages(reports: multiset<Report>)

  function UsageReport(userId: int, k: Key, u: Usage): Report {
    Report(userId, k, u.startCount, u.lastTimeUsed, u.lastContinuousTaskUsed, u.totalInFrontTime,
           u.totalContinuousTaskUsedTime)
  }

  function InMemory(p: Period, beginTime: int, endTime: int, userId: int, bundleName: string): set<Report> {
    set k | k in p.bundleStats && HasUsage(p.bundleStats[k])
            && beginTime <= p.bundleStats[k].lastTimeUsed <= endTime && (bundleName == "" || k.bundleName == bundleName)
          :: UsageReport(userId, k, p.bundleStats[k])
  }

  datatype Service = Service(periods: seq<Period>, expiry: int, statsChanged: bool, lastForeground: string,
                             known: set<Key>, db: Database, userId: int, lengths: seq<int>)
  {
    predicate Shaped() {
      && |periods| == 4 && |lengths| == 4 && |db.stores| == 4
      && lengths[0] > 0 && lengths[1] > 0 && lengths[2] > 0 && lengths[3] > 0
    }

    ghost predicate Valid() {
      Shaped() && db.Valid()
    }

    /** Every period gets the event; a foreground event may also count a launch. */
    function UpdatePeriodStats(e: Event, incrementBundleLaunch: bool): (s': Service)
      ensures Shaped() ==> s'.Shaped()
    {
      var k := e.KeyOf();
      var updated := if IsTrackerEvent(e.eventId) then periods
                     else seq(|periods|, i requires 0 <= i < |periods| => UpdatedPeriod(periods[i], e, incrementBundleLaunch));
      var created := !IsTrackerEvent(e.eventId) && IsBundleEvent(e.eventId) && exists p :: p in periods && k !in p.bundleStats;
      this.(periods := updated, known := if created then known + {k} else known,
            statsChanged := statsChanged || e.eventId != FLUSH)
    }

    /** One flush to the database; only the daily period has events. */
    function SavedPeriod(i: nat): Service
      requires i < |periods| && i < 4 && |db.stores| == 4
    {
      var p := periods[i];
      var d := if p.bundleStats != map[] then db.UpdateUsage(i, p.beginTime, userId, p.bundleStats) else db;
      this.(db := if i == DAILY && p.events != [] then d.UpdateEvents(p.beginTime, userId, p.events) else d)
    }

    function SavedPeriods(n: nat): (s': Service)
      requires n <= |periods| == 4 && |db.stores| == 4
      ensures |s'.db.stores| == 4 && s' == this.(db := s'.db)
    {
      if n == 0 then this else SavedPeriods(n - 1).SavedPeriod(n - 1)
    }

    function RestoreStats(forced: bool): (s': Service)
      requires Shaped()
      ensures s'.Shaped()
    {
      if statsChanged || forced then
        var saved := SavedPeriods(4);
        saved.(periods := periods[DAILY := periods[DAILY].(events := [])], statsChanged := false)
      else this
    }

    /** The period of interval `i` that contains `timeStamp`: kept, loaded, or new. */
    function LoadedPeriod(i: nat, timeStamp: int, force: bool): Period
      requires Shaped() && i < 4
    {
      var begin := Truncate(timeStamp, lengths[i]);
      if !force && periods[i].beginTime == begin then periods[i]
      else
        var loaded := db.Current(i, userId);
        if loaded.Stats? && loaded.beginTime < timeStamp < loaded.beginTime + lengths[i]
        then Period(begin, timeStamp, loaded.bundleStats, [])
        else Period(begin, timeStamp, map[], [])
    }

    function LearnedAt(i: nat, timeStamp: int, force: bool): set<Key>
      requires Shaped() && i < 4
    {
      var loaded := db.Current(i, userId);
      if (!force && periods[i].beginTime == Truncate(timeStamp, lengths[i])) || loaded.NoStats? then {}
      else loaded.bundleStats.Keys
    }

    function LoadedPeriods(timeStamp: int, force: bool): (loaded: seq<Period>)
      requires Shaped()
      ensures |loaded| == 4 && forall i :: 0 <= i < 4 ==> loaded[i] == LoadedPeriod(i, timeStamp, force)
    {
      [LoadedPeriod(DAILY, timeStamp, force), LoadedPeriod(WEEKLY, timeStamp, force),
       LoadedPeriod(MONTHLY, timeStamp, force), LoadedPeriod(YEARLY, timeStamp, force)]
    }

    /** Reading a table makes the uids of its rows known, even when the period is not taken over. */
    function Learned(timeStamp: int, force: bool): (learned: set<Key>)
      requires Shaped()
      ensures forall i :: 0 <= i < 4 ==> LearnedAt(i, timeStamp, force) <= learned
    {
      LearnedAt(DAILY, timeStamp, force) + LearnedAt(WEEKLY, timeStamp, force)
      + LearnedAt(MONTHLY, timeStamp, force) + LearnedAt(YEARLY, timeStamp, force)
    }

    function LoadActiveStats(timeStamp: int, force: bool, timeChanged: bool): (s': Service)
      requires Shaped()
      ensures s'.Shaped()
    {
      var loaded := LoadedPeriods(timeStamp, force);
      var d := if !force && periods[DAILY].beginTime == Truncate(timeStamp, lengths[DAILY]) then db else db.AfterCurrent(DAILY);
      this.(periods := loaded,
            known := known + Learned(timeStamp, force),
            db := d,
            statsChanged := false,
            expiry := if timeChanged then loaded[DAILY].beginTime + lengths[DAILY]
                      else Tomorrow(timeStamp, lengths[DAILY]))
    }

    /** Start-up: the tables are read and checked, the periods loaded, and the start is noted. */
    function Init(timeStamp: int): (s': Service)
      requires Shaped()
      ensures s'.Shaped()
    {
      this.(db := db.Init(timeStamp)).LoadActiveStats(timeStamp, true, false).Noted(StartupEvent(timeStamp))
    }

    /** Every entry is brought forward to the last millisecond before the expiry. */
    function FlushDataInMem(): (s': Service)
      ensures Shaped() ==> s'.Shaped()
    {
      this.(periods := seq(|periods|, i requires 0 <= i < |periods| => EndOfDay(periods[i], expiry)),
            statsChanged := statsChanged || exists p :: p in periods && p.bundleStats != map[])
    }

    function Replayed(abilities: map<Key, AbilityMap>, services: map<Key, AbilityMap>): (s': Service)
      requires Shaped()
      ensures s'.Shaped()
    {
      var fronts, tasks := FrontsToReplay(abilities, known), TasksToReplay(services, known);
      this.(periods := seq(|periods|, i requires 0 <= i < |periods| =>
                             Reported(periods[i], fronts, tasks, periods[DAILY].beginTime)))
    }

    function RemoveOldData(timeStamp: int): (s': Service)
      requires Shaped()
      ensures s'.Shaped()
    {
      this.(db := db.RemoveOld(timeStamp, lengths))
    }

    /** Midnight: snapshot, save, drop old tables, load the new periods, replay, save again. */
    function RenewStatsInMemory(timeStamp: int): (s': Service)
      requires Shaped()
      ensures s'.Shaped()
    {
      FlushDataInMem().RestoreStats(true).RemoveOldData(timeStamp).LoadActiveStats(timeStamp, false, false)
        .Replayed(ContinueAbilities(periods), ContinueServices(periods)).RestoreStats(true)
    }

    /** An event in the current day. */
    function ReportToday(e: Event): (s': Service)
      requires Shaped()
      ensures s'.Shaped()
    {
      var daily := if e.eventId != SYSTEM_INTERACTIVE && e.eventId != FLUSH then periods[DAILY].AddEvent(e)
                   else periods[DAILY];
      var launch := e.eventId == ABILITY_FOREGROUND && e.bundleName != "" && e.bundleName != lastForeground;
      this.(periods := periods[DAILY := daily], lastForeground := if launch then e.bundleName else lastForeground)
        .UpdatePeriodStats(e, launch)
    }

    function ReportEvent(e: Event): (s': Service)
      requires Shaped()
      ensures s'.Shaped()
    {
      (if e.timeStamp >= expiry then RenewStatsInMemory(e.timeStamp) else this).ReportToday(e)
    }

    function Noted(e: Event): (s': Service)
      requires Shaped()
      ensures s'.Shaped()
    {
      this.(periods := periods[DAILY := periods[DAILY].AddEvent(e)])
    }

    function ShutDownToday(e: Event): (s': Service)
      requires Shaped()
      ensures s'.Shaped()
    {
      this.(periods := seq(|periods|, i requires 0 <= i < |periods| => UpdatedPeriod(periods[i], e, false)),
            statsChanged := true)
    }

    /** The shutdown event is noted before a rollover, so it is saved with the day that ends. */
    function ReportForShutdown(e: Event): (s': Service)
      requires Shaped()
      ensures s'.Shaped()
    {
      if e.eventId != SHUTDOWN then this
      else
        var noted := Noted(e);
        (if e.timeStamp >= expiry then noted.RenewStatsInMemory(e.timeStamp) else noted).ShutDownToday(e)
    }

    function QueryBundleStatsInfos(intervalType: int, beginTime: int, endTime: int, bundleName: string): UsageAnswer
      requires Shaped()
    {
      if intervalType < 0 || intervalType >= 4 then BadInterval
      else
        var p := periods[intervalType];
        if p.endTime == 0 then
          if beginTime > p.beginTime + lengths[intervalType] then UsageOutOfRange
          else Usages(db.QueryUsage(intervalType, beginTime, endTime, userId, bundleName))
        else if beginTime >= p.endTime then UsageOutOfRange
        else
          var truncatedEnd := if p.beginTime < endTime then p.beginTime else endTime;
          Usages(db.QueryUsage(intervalType, beginTime, truncatedEnd, userId, bundleName)
                 + multiset(if endTime > p.beginTime then InMemory(p, beginTime, endTime, userId, bundleName) else {}))
    }

    function QueryBundleEvents(beginTime: int, endTime: int, bundleName: string): E.Answer
      requires |periods| == 4
    {
      var p := periods[DAILY];
      E.QueryEvents(db.events, p.events, p.beginTime, p.endTime, beginTime, endTime, userId, bundleName)
    }
  }

  function UpdatedPeriod(p: Period, e: Event, incrementBundleLaunch: bool): Period {
    var updated := p.Update(e.KeyOf(), e.taskName, e.timeStamp, e.eventId, e.abilityId);
    if incrementBundleLaunch then updated.Launched(e.KeyOf()) else updated
  }

  /** The end-of-day event for every entry, in the last millisecond before the expiry. */
  function EndOfDay(p: Period, expiry: int): Period {
    p.(bundleStats := map k | k in p.bundleStats :: p.bundleStats[k].Update("", expiry - 1, END_OF_THE_DAY, ""),
       endTime := if p.bundleStats == map[] || expiry - 1 <= p.endTime then p.endTime else expiry - 1)
  }

  // ----- what a save writes -----

  lemma {:induction false} EmptyPeriodSavesNothing(s: Service, n: nat, i: nat)
    requires s.Shaped() && i < 4 && n <= 4 && (n <= i || s.periods[i].bundleStats == map[])
    ensures s.SavedPeriods(n).db.stores[i] == s.db.stores[i]
  {
    if n == 0 {
    } else {
      EmptyPeriodSavesNothing(s, n - 1, i);
    }
  }

  lemma {:induction false} SavedStore(s: Service, n: nat, i: nat)
    requires s.Shaped() && i < n <= 4 && s.periods[i].bundleStats != map[]
    ensures s.SavedPeriods(n).db.stores[i]
         == s.db.stores[i].Updated(s.periods[i].beginTime, s.userId, s.periods[i].bundleStats, MAX_FILES_EVERY_INTERVAL_TYPE[i])
    decreases n
  {
    if i == n - 1 {
      EmptyPeriodSavesNothing(s, n - 1, i);
    } else {
      SavedStore(s, n - 1, i);
    }
  }

  // ----- the database stays well formed -----

  lemma UpdateUsageIsValid(d: Database, i: nat, begin: int, userId: int, bundleStats: map<Key, Usage>)
    requires d.Valid() && i < 4
    ensures d.UpdateUsage(i, begin, userId, bundleStats).Valid()
  {
    var s := d.stores[i];
    if begin !in s.index {
      InsertStartKeepsOrder(s.index, begin);
    }
    assert TableIndex.StrictlyIncreasing(s.WithTable(begin, MAX_FILES_EVERY_INTERVAL_TYPE[i]).index);
  }

  lemma {:induction false} SavedPeriodsAreValid(s: Service, n: nat)
    requires n <= |s.periods| == 4 && s.db.Valid()
    ensures s.SavedPeriods(n).db.Valid()
  {
    if n == 0 {
    } else {
      SavedPeriodsAreValid(s, n - 1);
      SavedPeriodIsValid(s.SavedPeriods(n - 1), n - 1);
    }
  }

  lemma SavedPeriodIsValid(s: Service, i: nat)
    requires i < |s.periods| == 4 && s.db.Valid()
    ensures s.SavedPeriod(i).db.Valid()
  {
    UpdateUsageIsValid(s.db, i, s.periods[i].beginTime, s.userId, s.periods[i].bundleStats);
  }

  lemma RestoreIsValid(s: Service, forced: bool)
    requires s.Valid()
    ensures s.RestoreStats(forced).Valid()
  {
    SavedPeriodsAreValid(s, 4);
  }

  lemma RereadIsValid(d: Database, i: nat)
    requires d.Valid() && i < 4
    ensures d.Reread(i).Valid()
  {
    TableIndex.SortedStartsAreSorted(d.stores[i].tables.Keys);
    assert TableIndex.StrictlyIncreasing(d.stores[i].HandleTableInfo().index);
  }

  lemma RemoveOldIsValid(d: Database, now: int, lengths: seq<int>)
    requires d.Valid() && |lengths| == 4
    ensures d.RemoveOld(now, lengths).Valid()
  {
    var d0 := d.Dropped(YEARLY, now, lengths).Dropped(MONTHLY, now, lengths).Dropped(WEEKLY, now, lengths)
               .Dropped(DAILY, now, lengths);
    RereadIsValid(d0, DAILY);
    RereadIsValid(d0.Reread(DAILY), WEEKLY);
    RereadIsValid(d0.Reread(DAILY).Reread(WEEKLY), MONTHLY);
    RereadIsValid(d0.Reread(DAILY).Reread(WEEKLY).Reread(MONTHLY), YEARLY);
  }

  lemma LoadIsValid(s: Service, timeStamp: int, force: bool, timeChanged: bool)
    requires s.Valid()
    ensures s.LoadActiveStats(timeStamp, force, timeChanged).Valid()
  {
  }

  lemma RenewIsValid(s: Service, timeStamp: int)
    requires s.Valid()
    ensures s.RenewStatsInMemory(timeStamp).Valid()
  {
    var flushed := s.FlushDataInMem();
    assert flushed.Valid();
    var saved := flushed.RestoreStats(true);
    RestoreIsValid(flushed, true);
    var cleaned := saved.RemoveOldData(timeStamp);
    RemoveOldIsValid(saved.db, timeStamp, saved.lengths);
    var loaded := cleaned.LoadActiveStats(timeStamp, false, false);
    LoadIsValid(cleaned, timeStamp, false, false);
    RestoreIsValid(loaded.Replayed(ContinueAbilities(s.periods), ContinueServices(s.periods)), true);
  }
}
