/**
 Runs in which a bundle has one uid (services/packageusage/src/bundle_active_user_service.cpp): the uids that a
 service ever knows come from its events, from what it learns and from the tables of its user, so when these name
 one uid of a bundle, no midnight misses it.
 */
module OneUid {
  import opened Events
  import opened PeriodStats
  import opened TableIndex
  import opened Occupancy
  import PackageStats
  import opened UsageDatabase
  import opened UserService
  import opened Intervals
  import opened Rollover
  import opened UsageRuns
  import opened Midnight
  import S = UsageStore

  // ----- where uids come from -----

  predicate TableAllowed(table: S.Table, userId: int, allowed: Key -> bool) {
    forall rk :: rk in table && rk.userId == userId ==> allowed(rk.key)
  }

  predicate StoreAllowed(s: S.Store, userId: int, allowed: Key -> bool) {
    forall n :: n in s.tables ==> TableAllowed(s.tables[n], userId, allowed)
  }

  predicate StatsAllowed(keys: set<Key>, allowed: Key -> bool) {
    forall k :: k in keys ==> allowed(k)
  }

  /** Every uid that is known, has an entry, or has a row of this user in a table, is among those allowed. */
  predicate Allows(s: Service, allowed: Key -> bool) {
    && s.Shaped() && StatsAllowed(s.known, allowed)
    && (forall i :: 0 <= i < 4 ==> StatsAllowed(s.periods[i].bundleStats.Keys, allowed))
    && forall i :: 0 <= i < 4 ==> StoreAllowed(s.db.stores[i], s.userId, allowed)
  }

  /** The step names no other uid. */
  predicate Names(op: Op, allowed: Key -> bool) {
    match op
    case Report(e) => IsBundleEvent(e.eventId) ==> allowed(e.KeyOf())
    case Learn(k) => allowed(k)
    case _ => true
  }

  lemma UpdatedAllowed(s: S.Store, t: int, userId: int, stats: map<Key, PackageStats.Usage>, max: nat, allowed: Key -> bool)
    requires StoreAllowed(s, userId, allowed) && StatsAllowed(stats.Keys, allowed)
    ensures StoreAllowed(s.Updated(t, userId, stats, max), userId, allowed)
  {
    var rows := S.FlushedRows(t, userId, stats);
    forall rk | rk in rows
      ensures allowed(rk.key)
    {
      S.FlushedRowsAt(t, userId, stats, rk);
    }
    assert StoreAllowed(s.WithTable(t, max), userId, allowed);
  }

  lemma RemovedAllowed(s: S.Store, cutoff: int, max: nat, userId: int, allowed: Key -> bool)
    requires StoreAllowed(s, userId, allowed)
    ensures StoreAllowed(s.RemovedOld(cutoff, max), userId, allowed)
  {
    assert StoreAllowed(s.DropBefore(cutoff).HandleTableInfo(), userId, allowed);
  }

  lemma SavedAllowed(s: Service, i: nat, allowed: Key -> bool)
    requires Allows(s, allowed) && i < 4
    ensures StoreAllowed(s.SavedPeriods(4).db.stores[i], s.userId, allowed)
  {
    if s.periods[i].bundleStats == map[] {
      EmptyPeriodSavesNothing(s, 4, i);
    } else {
      SavedStore(s, 4, i);
      UpdatedAllowed(s.db.stores[i], s.periods[i].beginTime, s.userId, s.periods[i].bundleStats,
                     MAX_FILES_EVERY_INTERVAL_TYPE[i], allowed);
    }
  }

  lemma RestoreAllows(s: Service, forced: bool, allowed: Key -> bool)
    requires Allows(s, allowed)
    ensures Allows(s.RestoreStats(forced), allowed)
  {
    forall i | 0 <= i < 4
      ensures s.RestoreStats(forced).periods[i].bundleStats == s.periods[i].bundleStats
      ensures StoreAllowed(s.RestoreStats(forced).db.stores[i], s.userId, allowed)
    {
      RestoreKeepsPeriods(s, forced, i);
      SavedAllowed(s, i, allowed);
    }
  }

  lemma EndOfDayAllows(s: Service, allowed: Key -> bool)
    requires Allows(s, allowed)
    ensures Allows(s.FlushDataInMem(), allowed)
  {
    forall i | 0 <= i < 4
      ensures s.FlushDataInMem().periods[i].bundleStats.Keys == s.periods[i].bundleStats.Keys
    {
    }
  }

  lemma CleanedAllowed(s: Service, timeStamp: int, i: nat, allowed: Key -> bool)
    requires Allows(s, allowed) && i < 4
    ensures StoreAllowed(s.RemoveOldData(timeStamp).db.stores[i], s.userId, allowed)
  {
    RemoveOldIsRemovedOld(s.db, timeStamp, s.lengths, i);
    RemovedAllowed(s.db.stores[i], Cutoff(i, timeStamp, s.lengths[i]), MAX_FILES_EVERY_INTERVAL_TYPE[i], s.userId, allowed);
  }

  lemma CleanedAllows(s: Service, timeStamp: int, allowed: Key -> bool)
    requires Allows(s, allowed)
    ensures Allows(s.RemoveOldData(timeStamp), allowed)
  {
    forall i | 0 <= i < 4
      ensures StoreAllowed(s.RemoveOldData(timeStamp).db.stores[i], s.userId, allowed)
    {
      CleanedAllowed(s, timeStamp, i, allowed);
    }
  }

  lemma CurrentAllowed(s: Service, i: nat, allowed: Key -> bool)
    requires Allows(s, allowed) && i < 4
    ensures s.db.Current(i, s.userId).Stats? ==> StatsAllowed(s.db.Current(i, s.userId).bundleStats.Keys, allowed)
  {
    var loaded := s.db.Current(i, s.userId);
    if loaded.Stats? {
      var table := s.db.stores[i].tables[PackageLog(loaded.beginTime)];
      assert TableAllowed(table, s.userId, allowed);
      forall k | k in loaded.bundleStats
        ensures allowed(k)
      {
        var rk :| rk in table && rk.userId == s.userId && rk.key == k;
      }
    }
  }

  /** What a load learns, and what it takes over, comes from the tables. */
  lemma LoadAllows(s: Service, timeStamp: int, force: bool, allowed: Key -> bool)
    requires Allows(s, allowed)
    ensures Allows(s.LoadActiveStats(timeStamp, force, false), allowed)
  {
    var loaded := s.LoadActiveStats(timeStamp, force, false);
    forall i | 0 <= i < 4
      ensures StatsAllowed(s.LearnedAt(i, timeStamp, force), allowed)
      ensures StatsAllowed(s.LoadedPeriod(i, timeStamp, force).bundleStats.Keys, allowed)
    {
      CurrentAllowed(s, i, allowed);
    }
    assert StatsAllowed(s.Learned(timeStamp, force), allowed);
    forall i | 0 <= i < 4
      ensures loaded.periods[i] == s.LoadedPeriod(i, timeStamp, force) && loaded.db.stores[i] == s.db.stores[i]
    {
    }
  }

  lemma ReloadedAllows(s: Service, timeStamp: int, allowed: Key -> bool)
    requires Allows(s, allowed)
    ensures Allows(Reloaded(s, timeStamp), allowed)
  {
    EndOfDayAllows(s, allowed);
    RestoreAllows(s.FlushDataInMem(), true, allowed);
    CleanedAllows(Saved(s), timeStamp, allowed);
    LoadAllows(Saved(s).RemoveOldData(timeStamp), timeStamp, false, allowed);
  }

  lemma {:induction false} ContinuedAllowed(periods: seq<Period>, allowed: Key -> bool)
    requires forall i :: 0 <= i < |periods| ==> StatsAllowed(periods[i].bundleStats.Keys, allowed)
    ensures StatsAllowed(ContinueAbilities(periods).Keys, allowed) && StatsAllowed(ContinueServices(periods).Keys, allowed)
  {
    if periods == [] {
    } else {
      ContinuedAllowed(periods[..|periods| - 1], allowed);
      assert StatsAllowed(periods[|periods| - 1].bundleStats.Keys, allowed);
    }
  }

  lemma ReplayAllows(s: Service, abilities: map<Key, AbilityMap>, services: map<Key, AbilityMap>, allowed: Key -> bool)
    requires Allows(s, allowed) && StatsAllowed(abilities.Keys, allowed) && StatsAllowed(services.Keys, allowed)
    ensures Allows(s.Replayed(abilities, services), allowed)
  {
    var fronts, tasks := FrontsToReplay(abilities, s.known), TasksToReplay(services, s.known);
    forall i | 0 <= i < 4
      ensures StatsAllowed(s.Replayed(abilities, services).periods[i].bundleStats.Keys, allowed)
    {
      assert s.Replayed(abilities, services).periods[i].bundleStats.Keys
          == s.periods[i].bundleStats.Keys + fronts.Keys + tasks.Keys;
      assert StatsAllowed(s.periods[i].bundleStats.Keys, allowed);
    }
  }

  lemma RenewAllows(s: Service, timeStamp: int, allowed: Key -> bool)
    requires Allows(s, allowed)
    ensures Allows(s.RenewStatsInMemory(timeStamp), allowed)
  {
    var abilities, services := ContinueAbilities(s.periods), ContinueServices(s.periods);
    ReloadedAllows(s, timeStamp, allowed);
    ContinuedAllowed(s.periods, allowed);
    ReplayAllows(Reloaded(s, timeStamp), abilities, services, allowed);
    RestoreAllows(Reloaded(s, timeStamp).Replayed(abilities, services), true, allowed);
  }

  // ----- steps -----

  lemma NotedAllows(s: Service, e: Event, allowed: Key -> bool)
    requires Allows(s, allowed)
    ensures Allows(s.Noted(e), allowed)
  {
  }

  lemma InitAllowed(s: S.Store, currentTime: int, max: nat, userId: int, allowed: Key -> bool)
    requires StoreAllowed(s, userId, allowed)
    ensures StoreAllowed(s.Init(currentTime, max), userId, allowed)
  {
    assert StoreAllowed(s.HandleTableInfo().DeleteExcessive(max), userId, allowed);
  }

  lemma InitAllows(s: Service, timeStamp: int, allowed: Key -> bool)
    requires Allows(s, allowed)
    ensures Allows(s.Init(timeStamp), allowed)
  {
    var read := s.(db := s.db.Init(timeStamp));
    forall i | 0 <= i < 4
      ensures StoreAllowed(read.db.stores[i], s.userId, allowed)
    {
      InitIsInit(s.db, timeStamp, i);
      InitAllowed(s.db.stores[i], timeStamp, MAX_FILES_EVERY_INTERVAL_TYPE[i], s.userId, allowed);
    }
    LoadAllows(read, timeStamp, true, allowed);
    NotedAllows(read.LoadActiveStats(timeStamp, true, false), StartupEvent(timeStamp), allowed);
  }

  lemma TodayAllows(s: Service, e: Event, allowed: Key -> bool)
    requires Allows(s, allowed) && (IsBundleEvent(e.eventId) ==> allowed(e.KeyOf()))
    ensures Allows(s.ReportToday(e), allowed)
  {
    forall i | 0 <= i < 4
      ensures StatsAllowed(s.ReportToday(e).periods[i].bundleStats.Keys, allowed)
    {
      TodayPeriods(s, e, i);
      PeriodAfterKeys(Bases(s, e)[i], e, CountsLaunch(s, e));
      assert StatsAllowed(s.periods[i].bundleStats.Keys, allowed);
    }
  }

  lemma ShutDownAllows(s: Service, e: Event, allowed: Key -> bool)
    requires Allows(s, allowed) && e.eventId == SHUTDOWN
    ensures Allows(s.ShutDownToday(e), allowed)
  {
    forall i | 0 <= i < 4
      ensures s.ShutDownToday(e).periods[i].bundleStats.Keys == s.periods[i].bundleStats.Keys
    {
    }
  }

  lemma ReportAllows(s: Service, e: Event, allowed: Key -> bool)
    requires Allows(s, allowed) && (IsBundleEvent(e.eventId) ==> allowed(e.KeyOf()))
    ensures Allows(s.ReportEvent(e), allowed)
  {
    RenewAllows(s, e.timeStamp, allowed);
    TodayAllows(if e.timeStamp >= s.expiry then s.RenewStatsInMemory(e.timeStamp) else s, e, allowed);
  }

  lemma ReportShutdownAllows(s: Service, e: Event, allowed: Key -> bool)
    requires Allows(s, allowed)
    ensures Allows(s.ReportForShutdown(e), allowed)
  {
    if e.eventId == SHUTDOWN {
      var noted := s.Noted(e);
      NotedAllows(s, e, allowed);
      RenewAllows(noted, e.timeStamp, allowed);
      ShutDownAllows(if e.timeStamp >= s.expiry then noted.RenewStatsInMemory(e.timeStamp) else noted, e, allowed);
    }
  }

  lemma StepAllows(w: World, op: Op, allowed: Key -> bool)
    requires w.Shaped() && Allows(w.s, allowed) && Names(op, allowed)
    ensures Allows(w.Step(op).s, allowed)
  {
    match op
    case Report(e) => ReportAllows(w.s, e, allowed);
    case ShutDown(e) => ReportShutdownAllows(w.s, e, allowed);
    case Restore(forced) => RestoreAllows(w.s, forced, allowed);
    case Learn(k) =>
  }

  // ----- midnights -----

  /** Among the uids allowed, a bundle has one. */
  ghost predicate Unique(allowed: Key -> bool, k: Key) {
    allowed(k) ==> forall l :: allowed(l) && l.bundleName == k.bundleName ==> l == k
  }

  lemma AllowedIsCarried(s: Service, history: seq<Event>, accounts: seq<Account>, now: int, timeStamp: int, k: Key,
                         allowed: Key -> bool)
    requires Allows(s, allowed) && BundleOk(s.periods, history, accounts, now, k) && AllKnown(s.periods, s.known)
    requires Unique(allowed, k)
    ensures Carries(s, history, timeStamp, k)
  {
    ReloadedAllows(s, timeStamp, allowed);
    if allowed(k) {
      OneUidIsEnough(s, history, accounts, now, timeStamp, k);
    } else {
      EntryAt(s.periods, history, accounts, now, DAILY, k);
      assert k !in s.periods[DAILY].bundleStats by {
        assert StatsAllowed(s.periods[DAILY].bundleStats.Keys, allowed);
      }
    }
  }

  lemma StepIsCarried(w: World, op: Op, k: Key, allowed: Key -> bool)
    requires w.Shaped() && Allows(w.s, allowed) && w.GoodFor(k) && w.Knows() && Unique(allowed, k)
    ensures w.StepCarries(op, k)
  {
    if w.IsMidnight(op) {
      if op.ShutDown? {
        NotedAllows(w.s, op.event, allowed);
        NotedKeepsSync(w.s, op.event, w.history, w.accounts, w.now, k);
      }
      AllowedIsCarried(w.Before(op), w.history, w.accounts, w.now, op.event.timeStamp, k, allowed);
    }
  }

  // ----- whole runs -----

  lemma {:induction false} AllowedStaysInSync(states: seq<World>, ops: seq<Op>, n: nat, k: Key, allowed: Key -> bool)
    requires IsRun(states, ops) && states[0].GoodFor(k) && states[0].Knows() && n <= |ops|
    requires Allows(states[0].s, allowed) && Unique(allowed, k) && forall op :: op in ops ==> Names(op, allowed)
    ensures states[n].GoodFor(k) && states[n].Knows() && Allows(states[n].s, allowed)
  {
    if n == 0 {
    } else {
      AllowedStaysInSync(states, ops, n - 1, k, allowed);
      var w, op := states[n - 1], ops[n - 1];
      StepIsCarried(w, op, k, allowed);
      StepStaysInSync(w, op, k);
      StepKeepsKnown(w, op);
      StepAllows(w, op, allowed);
    }
  }

  /** Of the bundle, this uid alone. */
  function OnlyOf(k: Key): Key -> bool {
    (l: Key) => l.bundleName == k.bundleName ==> l == k
  }

  /**
   A bundle with one uid, whatever other bundles have: in every state of every run the four periods agree with the
   reported events on who of it is in front and which of its tasks run, and each period accounts exactly for the time
   since its origin.
   */
  lemma OneUidStaysInSync(states: seq<World>, ops: seq<Op>, n: nat, k: Key)
    requires IsRun(states, ops) && states[0].GoodFor(k) && states[0].Knows() && n <= |ops|
    requires Allows(states[0].s, OnlyOf(k)) && forall op :: op in ops ==> Names(op, OnlyOf(k))
    ensures states[n].GoodFor(k)
  {
    AllowedStaysInSync(states, ops, n, k, OnlyOf(k));
  }

  /** No midnight of such a run misses the bundle. */
  lemma OneUidIsCarried(states: seq<World>, ops: seq<Op>, n: nat, k: Key)
    requires IsRun(states, ops) && states[0].GoodFor(k) && states[0].Knows() && n <= |ops|
    requires Allows(states[0].s, OnlyOf(k)) && forall op :: op in ops ==> Names(op, OnlyOf(k))
    ensures CarriedThrough(states, ops, n, k)
  {
    forall m | 0 <= m < n
      ensures states[m].StepCarries(ops[m], k)
    {
      AllowedStaysInSync(states, ops, m, k, OnlyOf(k));
      StepIsCarried(states[m], ops[m], k, OnlyOf(k));
    }
  }

  /** One uid for every bundle. */
  predicate OneEach(uids: set<Key>) {
    forall k, l :: k in uids && l in uids && k.bundleName == l.bundleName ==> k == l
  }

  /** When every bundle has one uid, all of them are in step in every state of every run. */
  lemma RunStaysInSync(states: seq<World>, ops: seq<Op>, n: nat, uids: set<Key>)
    requires IsRun(states, ops) && states[0].Good() && states[0].Knows() && n <= |ops| && OneEach(uids)
    requires Allows(states[0].s, l => l in uids) && forall op :: op in ops ==> Names(op, l => l in uids)
    ensures states[n].Good()
  {
    forall k
      ensures states[n].GoodFor(k)
    {
      assert states[0].GoodFor(k);
      AllowedStaysInSync(states, ops, n, k, l => l in uids);
    }
  }

  /** What this means: any two periods hold the same for the bundle, which is what the events say, and count exactly. */
  lemma PeriodsAgreeInEveryState(states: seq<World>, ops: seq<Op>, n: nat, i: nat, j: nat, k: Key, t: int)
    requires IsRun(states, ops) && states[0].GoodFor(k) && states[0].Knows() && n <= |ops|
    requires Allows(states[0].s, OnlyOf(k)) && forall op :: op in ops ==> Names(op, OnlyOf(k))
    requires i < 4 && j < 4 && states[n].now <= t
    ensures var w := states[n];
            && w.s.periods[i].FrontOf(k) == w.s.periods[j].FrontOf(k) == InFront(w.history, k)
            && w.s.periods[i].TasksOf(k) == w.s.periods[j].TasksOf(k) == Running(w.history, k)
            && Accounted(FrontMeterOf(w.s.periods[i], k), t)
               == BaseOf(w.accounts[i].fronts, k)
                  + Millis({}, FrontLog(w.history, k), w.accounts[i].origin, t)
            && Accounted(TaskMeterOf(w.s.periods[i], k), t)
               == BaseOf(w.accounts[i].tasks, k)
                  + Millis({}, TaskLog(w.history, k), w.accounts[i].origin, t)
  {
    OneUidStaysInSync(states, ops, n, k);
    PeriodsAgree(states[n], i, j, k, t);
  }
}
