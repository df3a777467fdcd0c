/**
 Queries, flushes and loads in every state of every run (services/packageusage/src/bundle_active_user_service.cpp):
 what a query returns, that a flush does not show, and that what is saved is read back.
 */
module RunQueries {
  import opened Events
  import opened PackageStats
  import opened PeriodStats
  import opened Calendar
  import opened TableIndex
  import opened UsageStore
  import opened UsageQuery
  import opened UsageDatabase
  import opened UserService
  import opened Rollover
  import opened Tidiness
  import opened FlushTransparency
  import opened TidyRuns
  import R = UsageRuns
  import M = Midnight
  import O = OneUid
  import C = Conservation
  import E = EventStore
  import L = EventList

  // ----- the start -----

  lemma InitStaysIn(s: Store, currentTime: int, max: nat, length: int)
    requires StoreIn(s, length) && s.index == []
    ensures StoreIn(s.Init(currentTime, max), length)
  {
    var read := s.HandleTableInfo();
    ReadStaysIn(s, length);
    EvictionStaysIn(read, max, length);
    HandledIsOk(s);
    DeleteExcessiveKeepsIndex(read, max);
    DropFromKeepsIndex(read.DeleteExcessive(max), currentTime);
    var s' := s.Init(currentTime, max);
    assert forall t :: t in s'.index ==> t in read.DeleteExcessive(max).index;
  }

  /** A store that has been read and checked: no table is ahead of the period that contains the time. */
  lemma InitIsBehind(s: Store, currentTime: int, max: nat, length: int)
    requires StoreIn(s, length) && s.index == [] && length > 0 && 0 <= currentTime
    ensures var s' := s.Init(currentTime, max);
            && StoreIn(s', length) && StrictlyIncreasing(s'.index) && Behind(s', Truncate(currentTime, length))
            && Present(s', Truncate(currentTime, length))
  {
    var s' := s.Init(currentTime, max);
    InitKeepsIndex(s, currentTime, max);
    InitStaysIn(s, currentTime, max, length);
    forall n | n in s'.tables
      ensures n.startTime <= Truncate(currentTime, length)
    {
      TruncateAdvances(currentTime, length, n.startTime);
    }
    forall t | t in s'.index
      ensures t <= Truncate(currentTime, length) && PackageLog(t) in s'.tables
    {
      InNames(s'.index, t);
    }
  }

  lemma LoadedStatsIn(tableTime: int, length: int, userId: int, table: Table)
    requires TableIn(table, length)
    ensures forall k :: k in LoadedStats(tableTime, userId, table) ==>
              EntryIn(LoadedStats(tableTime, userId, table)[k], tableTime, length)
  {
    forall rk | rk in table
      ensures EntryIn(UsageOf(tableTime, table[rk]), tableTime, length)
    {
      assert RowIn(table[rk], length);
    }
  }

  /** A table is taken over only as the period that it was saved from. */
  lemma LoadedPeriodIn(s: Service, i: nat, timeStamp: int)
    requires s.Shaped() && i < 4 && 0 < timeStamp && StoreIn(s.db.stores[i], s.lengths[i])
    ensures var p := s.LoadedPeriod(i, timeStamp, true);
            PeriodIn(p, s.lengths[i]) && p.endTime > 0 && p.events == [] && p.beginTime == Truncate(timeStamp, s.lengths[i])
  {
    var loaded := s.db.Current(i, s.userId);
    if loaded.Stats? && loaded.beginTime < timeStamp < loaded.beginTime + s.lengths[i] {
      TruncateIsPeriodStart(timeStamp, s.lengths[i], loaded.beginTime);
      LoadedStatsIn(loaded.beginTime, s.lengths[i], s.userId, s.db.stores[i].tables[PackageLog(loaded.beginTime)]);
    }
  }

  /** A service about to start: tables of its periods' times, and no index yet. */
  ghost predicate Starts(s: Service) {
    && s.Shaped() && Aligned(s.lengths)
    && forall i :: 0 <= i < 4 ==> s.db.stores[i].index == [] && StoreIn(s.db.stores[i], s.lengths[i])
  }

  function Read(s: Service, timeStamp: int): (s': Service)
    requires s.Shaped()
    ensures s'.Shaped()
  {
    s.(db := s.db.Init(timeStamp))
  }

  lemma ReadStore(s: Service, timeStamp: int, i: nat)
    requires Starts(s) && i < 4 && 0 <= timeStamp
    ensures var store, begin := Read(s, timeStamp).db.stores[i], Truncate(timeStamp, s.lengths[i]);
            && StoreIn(store, s.lengths[i]) && StrictlyIncreasing(store.index)
            && Behind(store, begin) && Present(store, begin)
  {
    InitIsInit(s.db, timeStamp, i);
    InitIsBehind(s.db.stores[i], timeStamp, MAX_FILES_EVERY_INTERVAL_TYPE[i], s.lengths[i]);
  }

  /** What the load of a start leaves, apart from the entries. */
  lemma LoadedParts(s: Service, timeStamp: int)
    requires s.Shaped() && 0 < timeStamp
    ensures var loaded := s.LoadActiveStats(timeStamp, true, false);
            && loaded.db.stores == s.db.stores && loaded.db.events == s.db.events && loaded.lengths == s.lengths
            && loaded.expiry == Truncate(timeStamp, s.lengths[DAILY]) + s.lengths[DAILY]
            && forall i :: 0 <= i < 4 ==> loaded.periods[i] == s.LoadedPeriod(i, timeStamp, true)
  {
    TomorrowIsNextDay(timeStamp, s.lengths[DAILY]);
  }

  lemma LoadedTidy(s: Service, timeStamp: int)
    requires Starts(s) && 0 < timeStamp
    ensures var loaded := Read(s, timeStamp).LoadActiveStats(timeStamp, true, false);
            Tidy(loaded, timeStamp) && loaded.periods[DAILY].events == []
            && loaded.periods[DAILY].beginTime == Truncate(timeStamp, s.lengths[DAILY])
  {
    var read := Read(s, timeStamp);
    var loaded := read.LoadActiveStats(timeStamp, true, false);
    LoadedParts(read, timeStamp);
    forall i | 0 <= i < 4
      ensures var store, begin := read.db.stores[i], Truncate(timeStamp, s.lengths[i]);
              && StoreIn(store, s.lengths[i]) && StrictlyIncreasing(store.index)
              && Behind(store, begin) && Present(store, begin)
      ensures var p := loaded.periods[i];
              PeriodIn(p, s.lengths[i]) && p.endTime > 0 && p.events == [] && p.beginTime == Truncate(timeStamp, s.lengths[i])
    {
      ReadStore(s, timeStamp, i);
      LoadedPeriodIn(read, i, timeStamp);
    }
    M.LoadedTimes(read, timeStamp);
    RenewedSpan(s.lengths, timeStamp, loaded.periods, loaded.expiry);
  }

  /** The world of a process that has just started. */
  function StartWorld(s: Service, timeStamp: int): (w: R.World)
    requires s.Shaped()
    ensures w.Shaped()
  {
    R.World(s.Init(timeStamp), [], M.LoadedAccounts(s.Init(timeStamp).periods, timeStamp), timeStamp)
  }

  lemma SameAccounts(s: Service, e: Event, timeStamp: int)
    requires s.Shaped()
    ensures M.LoadedAccounts(s.Noted(e).periods, timeStamp) == M.LoadedAccounts(s.periods, timeStamp)
  {
    forall i | 0 <= i < 4
      ensures s.Noted(e).periods[i].bundleStats == s.periods[i].bundleStats
    {
    }
  }

  lemma LoadedIsGood(s: Service, timeStamp: int, k: Key)
    requires Starts(s) && 0 < timeStamp
    ensures var loaded := Read(s, timeStamp).LoadActiveStats(timeStamp, true, false);
            && BundleInSync(loaded, [], M.LoadedAccounts(loaded.periods, timeStamp), timeStamp, k)
            && AllKnown(loaded.periods, loaded.known)
  {
    var read := Read(s, timeStamp);
    forall i | 0 <= i < 4
      ensures Behind(read.db.stores[i], Truncate(timeStamp, s.lengths[i]))
    {
      ReadStore(s, timeStamp, i);
    }
    M.LoadStartsInSync(read, timeStamp);
  }

  lemma StartIsNoted(s: Service, timeStamp: int)
    requires s.Shaped()
    ensures s.Init(timeStamp)
         == Read(s, timeStamp).LoadActiveStats(timeStamp, true, false).Noted(StartupEvent(timeStamp))
    ensures s.Init(timeStamp).known == Read(s, timeStamp).LoadActiveStats(timeStamp, true, false).known
  {
  }

  lemma NotedKnows(s: Service, e: Event)
    requires s.Shaped() && AllKnown(s.periods, s.known)
    ensures AllKnown(s.Noted(e).periods, s.Noted(e).known)
  {
    forall i | 0 <= i < 4
      ensures s.Noted(e).periods[i].bundleStats == s.periods[i].bundleStats
    {
    }
  }

  lemma StartIsGoodFor(s: Service, timeStamp: int, k: Key)
    requires Starts(s) && 0 < timeStamp
    ensures StartWorld(s, timeStamp).GoodFor(k) && StartWorld(s, timeStamp).Knows()
  {
    var loaded := Read(s, timeStamp).LoadActiveStats(timeStamp, true, false);
    LoadedIsGood(s, timeStamp, k);
    StartIsNoted(s, timeStamp);
    NotedKnows(loaded, StartupEvent(timeStamp));
    SameAccounts(loaded, StartupEvent(timeStamp), timeStamp);
    R.NotedKeepsSync(loaded, StartupEvent(timeStamp), [], M.LoadedAccounts(loaded.periods, timeStamp), timeStamp, k);
  }

  lemma StartIsGood(s: Service, timeStamp: int)
    requires Starts(s) && 0 < timeStamp
    ensures StartWorld(s, timeStamp).Good() && StartWorld(s, timeStamp).Knows()
  {
    StartIsGoodFor(s, timeStamp, Key("", 0));
    forall k
      ensures StartWorld(s, timeStamp).GoodFor(k)
    {
      StartIsGoodFor(s, timeStamp, k);
    }
  }

  /**
   From the start of a process on, whatever it finds in its tables: a bundle of which the tables of the user and the
   events name one uid is in step in every state.
   */
  lemma StartedStaysInSync(s: Service, timeStamp: int, states: seq<R.World>, ops: seq<R.Op>, n: nat, k: Key)
    requires Starts(s) && 0 < timeStamp && R.IsRun(states, ops) && states[0] == StartWorld(s, timeStamp) && n <= |ops|
    requires O.Allows(s, O.OnlyOf(k)) && forall op :: op in ops ==> O.Names(op, O.OnlyOf(k))
    ensures states[n].GoodFor(k)
  {
    StartIsGoodFor(s, timeStamp, k);
    O.InitAllows(s, timeStamp, O.OnlyOf(k));
    O.OneUidStaysInSync(states, ops, n, k);
  }

  /** The events in memory are of the day, or at most a second older. */
  predicate EventsRecent(s: Service)
    requires s.Shaped()
  {
    forall i :: 0 <= i < |s.periods[DAILY].events| ==>
      s.periods[DAILY].beginTime - ONE_SECOND_MILLISECONDS <= s.periods[DAILY].events[i].timeStamp
  }

  lemma StartIsRecent(s: Service, timeStamp: int)
    requires s.Shaped() && 0 <= timeStamp
    requires s.periods[DAILY].events == [] && s.periods[DAILY].beginTime == Truncate(timeStamp, s.lengths[DAILY])
    ensures EventsRecent(s.Noted(StartupEvent(timeStamp)))
  {
    TruncateIsPeriodStart(timeStamp, s.lengths[DAILY], Truncate(timeStamp, s.lengths[DAILY]));
  }

  /** Start-up over tables with times of their periods: the service, with its start noted, is in step and tidy. */
  lemma StartIsTidy(s: Service, timeStamp: int)
    requires Starts(s) && 0 < timeStamp
    ensures var w := StartWorld(s, timeStamp); w.Good() && w.Knows() && Tidy(w.s, w.now) && EventsRecent(w.s)
  {
    StartIsGood(s, timeStamp);
    LoadedTidy(s, timeStamp);
    var loaded := Read(s, timeStamp).LoadActiveStats(timeStamp, true, false);
    LoadedParts(Read(s, timeStamp), timeStamp);
    NotedStaysTidy(loaded, StartupEvent(timeStamp), timeStamp);
    StartIsRecent(loaded, timeStamp);
  }

  /** Conservation from the start of a process on, for a bundle of which tables and events name one uid. */
  lemma StartedConserves(s: Service, timeStamp: int, states: seq<R.World>, ops: seq<R.Op>, n: nat, i: nat, k: Key, t: int)
    requires Starts(s) && 0 < timeStamp && R.IsRun(states, ops) && states[0] == StartWorld(s, timeStamp) && n <= |ops|
    requires O.Allows(s, O.OnlyOf(k)) && forall op :: op in ops ==> O.Names(op, O.OnlyOf(k))
    requires i < 4 && states[n].now <= t
    ensures C.Conserved(states, ops, n, i, k, t)
  {
    StartIsTidy(s, timeStamp);
    StartIsGoodFor(s, timeStamp, k);
    O.InitAllows(s, timeStamp, O.OnlyOf(k));
    O.OneUidIsCarried(states, ops, n, k);
    C.RunConserves(states, ops, n, i, k, t);
  }

  // ----- what every state gives -----

  lemma TidyRows(s: Store, length: int)
    requires StoreIn(s, length) && StrictlyIncreasing(s.index) && length > 0
    ensures RowsInPeriod(s)
  {
    forall i, rk | 0 <= i < |s.index| && rk in TableAt(s, s.index[i])
      ensures var lastTime := TableAt(s, s.index[i])[rk].lastTime;
              lastTime == -1 || (0 <= lastTime && (i + 1 < |s.index| ==> s.index[i] + lastTime < s.index[i + 1]))
    {
      assert RowIn(TableAt(s, s.index[i])[rk], length);
      if i + 1 < |s.index| {
        StartsAreApart(s.index[i], s.index[i + 1], length);
      }
    }
  }

  lemma StartsAreApart(x: int, y: int, length: int)
    requires IsMultiple(x, length) && IsMultiple(y, length) && x < y && length > 0
    ensures x + length <= y
  {
    var p :| x == Times(length, p);
    var q :| y == Times(length, q);
    if p < q {
      TimesGrows(length, p, q);
    } else if q < p {
      TimesGrows(length, q, p);
    }
  }

  /** What a query for usage reads from the tables: everything up to the begin of the current period. */
  function StoredUntil(p: Period, endTime: int): int {
    if p.beginTime < endTime then p.beginTime else endTime
  }

  /** The reference answer of the tables, with the never-used rows that a query returns besides. */
  ghost function FromTables(s: Store, beginTime: int, endTime: int, userId: int, bundleName: string): multiset<Report> {
    if beginTime < endTime
    then Naive(s, 0, beginTime, endTime, userId, bundleName) + Stray(s, beginTime, endTime, userId, bundleName)
    else multiset{}
  }

  lemma TidyQuery(s: Service, now: int, i: nat, beginTime: int, endTime: int, bundleName: string)
    requires Tidy(s, now) && i < 4
    ensures s.db.QueryUsage(i, beginTime, endTime, s.userId, bundleName)
         == FromTables(s.db.stores[i], beginTime, endTime, s.userId, bundleName)
  {
    var store := s.db.stores[i];
    TidyRows(store, s.lengths[i]);
    if beginTime < endTime {
      QueryIsNaive(store, beginTime, endTime, s.userId, bundleName);
    }
  }

  /**
   In every state of every run a usage query returns the rows of a plain filter over all tables up to the begin of
   the current period (with the never-used rows besides), and from there on the entries in memory.
   */
  lemma UsageAnswerInEveryState(states: seq<R.World>, ops: seq<R.Op>, n: nat, i: nat, beginTime: int, endTime: int,
                                bundleName: string)
    requires R.IsRun(states, ops) && Tidy(states[0].s, states[0].now) && n <= |ops| && i < 4
    ensures var s := states[n].s; var p := s.periods[i];
            s.QueryBundleStatsInfos(i, beginTime, endTime, bundleName)
            == if beginTime >= p.endTime then UsageOutOfRange
               else Usages(FromTables(s.db.stores[i], beginTime, StoredUntil(p, endTime), s.userId, bundleName)
                           + multiset(if endTime > p.beginTime then InMemory(p, beginTime, endTime, s.userId, bundleName)
                                      else {}))
  {
    RunStaysTidy(states, ops, n);
    var s := states[n].s;
    TidyQuery(s, states[n].now, i, beginTime, StoredUntil(s.periods[i], endTime), bundleName);
  }

  /** In every state of every run a flush that evicts no table changes no answer of a usage query. */
  lemma UsageFlushInEveryState(states: seq<R.World>, ops: seq<R.Op>, n: nat, forced: bool, i: nat, beginTime: int,
                               endTime: int, bundleName: string)
    requires R.IsRun(states, ops) && Tidy(states[0].s, states[0].now) && n <= |ops| && i < 4
    requires states[n].s.periods[i].beginTime in states[n].s.db.stores[i].index
          || |states[n].s.db.stores[i].index| < MAX_FILES_EVERY_INTERVAL_TYPE[i]
    ensures states[n].s.RestoreStats(forced).QueryBundleStatsInfos(i, beginTime, endTime, bundleName)
         == states[n].s.QueryBundleStatsInfos(i, beginTime, endTime, bundleName)
  {
    RunStaysTidy(states, ops, n);
    UsageFlushIsTransparent(states[n].s, forced, i, beginTime, endTime, bundleName);
  }

  // ----- events -----

  lemma NotedStaysRecent(s: Service, e: Event)
    requires s.Shaped() && EventsRecent(s) && s.periods[DAILY].beginTime <= e.timeStamp
    ensures EventsRecent(s.Noted(e)) && EventsRecent(s.ShutDownToday(e))
  {
  }

  lemma TodayStaysRecent(s: Service, e: Event)
    requires s.Shaped() && EventsRecent(s) && s.periods[DAILY].beginTime <= e.timeStamp
    ensures EventsRecent(s.ReportToday(e))
  {
    NotedStaysRecent(s, e);
    R.TodayPeriods(s, e, DAILY);
  }

  lemma RenewedHasNoEvents(s: Service, timeStamp: int)
    requires s.Shaped()
    ensures s.RenewStatsInMemory(timeStamp).periods[DAILY].events == []
  {
  }

  lemma ReportStaysRecent(s: Service, e: Event, now: int)
    requires TimesOk(s, now) && EventsRecent(s) && now <= e.timeStamp
    ensures EventsRecent(s.ReportEvent(e))
  {
    if e.timeStamp >= s.expiry {
      R.RenewedTimes(s, now, e.timeStamp);
      RenewedHasNoEvents(s, e.timeStamp);
      TodayStaysRecent(s.RenewStatsInMemory(e.timeStamp), e);
    } else {
      TodayStaysRecent(s, e);
    }
  }

  lemma ShutdownStaysRecent(s: Service, e: Event, now: int)
    requires TimesOk(s, now) && EventsRecent(s) && now <= e.timeStamp && e.eventId == SHUTDOWN
    ensures EventsRecent(s.ReportForShutdown(e))
  {
    var noted := s.Noted(e);
    NotedStaysRecent(s, e);
    if e.timeStamp >= s.expiry {
      R.RenewedTimes(noted, now, e.timeStamp);
      RenewedHasNoEvents(noted, e.timeStamp);
      NotedStaysRecent(noted.RenewStatsInMemory(e.timeStamp), e);
    } else {
      NotedStaysRecent(noted, e);
    }
  }

  lemma StepStaysRecent(w: R.World, op: R.Op)
    requires w.Shaped() && TimesOk(w.s, w.now) && EventsRecent(w.s) && w.Forward(op)
    ensures EventsRecent(w.Step(op).s)
  {
    match op
    case Report(e) => ReportStaysRecent(w.s, e, w.now);
    case ShutDown(e) =>
      if e.eventId == SHUTDOWN {
        ShutdownStaysRecent(w.s, e, w.now);
      }
    case Restore(forced) => RestoreKeepsPeriods(w.s, forced, DAILY);
    case Learn(_) =>
  }

  lemma {:induction false} RunStaysRecent(states: seq<R.World>, ops: seq<R.Op>, n: nat)
    requires R.IsRun(states, ops) && Tidy(states[0].s, states[0].now) && EventsRecent(states[0].s) && n <= |ops|
    ensures EventsRecent(states[n].s)
  {
    if n == 0 {
    } else {
      RunStaysRecent(states, ops, n - 1);
      RunStaysTidy(states, ops, n - 1);
      StepStaysRecent(states[n - 1], ops[n - 1]);
    }
  }

  /**
   In every state of every run a flush leaves an event query out of range as it was. It keeps the answer to a range
   that ends after the begin of the day if and only if it purges no row of the range and no event of the range in
   memory is older than the event table; to a range that ends by then, if and only if it purges no row of the range
   and no event of the range waits in memory.
   */
  lemma EventFlushInEveryState(states: seq<R.World>, ops: seq<R.Op>, n: nat, beginTime: int, endTime: int,
                               bundleName: string)
    requires R.IsRun(states, ops) && Tidy(states[0].s, states[0].now) && EventsRecent(states[0].s)
    requires n <= |ops| && beginTime < endTime
    ensures var s := states[n].s;
            var before := s.QueryBundleEvents(beginTime, endTime, bundleName);
            var after := s.RestoreStats(true).QueryBundleEvents(beginTime, endTime, bundleName);
            var p, lost := s.periods[DAILY], PurgedFrom(s, beginTime, endTime, bundleName);
            if beginTime >= p.endTime then before == after == E.OutOfRange
            else before.Found? && after.Found?
                 && (multiset(after.events) == multiset(before.events) <==>
                     lost == []
                     && (if endTime > p.beginTime
                         then E.TooOld(s.db.events, p.beginTime, p.events, beginTime, endTime, bundleName)
                         else E.Findable(s.db.events, p.beginTime, p.events, beginTime, endTime, bundleName)) == [])
  {
    RunStaysTidy(states, ops, n);
    RunStaysRecent(states, ops, n);
    var s := states[n].s;
    RestoreKeepsPeriods(s, true, DAILY);
    assert E.Recent(s.periods[DAILY].events, s.periods[DAILY].beginTime, s.db.Retention());
    if beginTime < s.periods[DAILY].endTime {
      EventFlushIsTransparent(s, beginTime, endTime, bundleName);
    }
  }

  lemma LoadedEvents(s: Service, timeStamp: int)
    requires s.Shaped() && s.db.events.NoTable? && 0 < timeStamp
    ensures var loaded := Read(s, timeStamp).LoadActiveStats(timeStamp, true, false); var p := loaded.periods[DAILY];
            && loaded.db.events == E.DeviceEventLog(timeStamp, []) && p.events == [] && p.endTime == timeStamp
            && p.beginTime == Truncate(timeStamp, s.lengths[DAILY])
  {
    LoadedParts(Read(s, timeStamp), timeStamp);
  }

  lemma StartedEvents(s: Service, timeStamp: int)
    requires s.Shaped() && s.db.events.NoTable? && 0 < timeStamp
    ensures var started := s.Init(timeStamp); var p := started.periods[DAILY];
            && started.db.events == E.DeviceEventLog(timeStamp, []) && p.events == [StartupEvent(timeStamp)]
            && p.beginTime == Truncate(timeStamp, s.lengths[DAILY]) && p.endTime == timeStamp
  {
    LoadedEvents(s, timeStamp);
  }

  lemma NothingSelected(userId: int, e: Event, start: int, begin: int, beginTime: int, endTime: int, bundleName: string)
    requires e.timeStamp < start
    ensures var flushed := E.Flushed(E.DeviceEventLog(start, []), begin, userId, [e]);
            E.QueryTable(flushed, beginTime, endTime, userId, bundleName) == []
  {
    E.SelectedOne(start, userId, e, beginTime, endTime, bundleName);
    assert [] + E.RowsOf(start, userId, [e]) == E.RowsOf(start, userId, [e]);
  }

  lemma FoundInMemory(s: Service, e: Event, time: int)
    requires s.Shaped() && s.db.events == E.DeviceEventLog(time, []) && s.periods[DAILY].events == [e]
    requires e.timeStamp < time == s.periods[DAILY].endTime && 0 < time && s.periods[DAILY].beginTime < time
    ensures s.QueryBundleEvents(e.timeStamp, time, "") == E.Found([E.Record(e)])
  {
    assert [e][1..] == [] && [e][..0] == [];
    assert L.NotBefore([e], e.timeStamp) == [e] + L.NotBefore([], e.timeStamp) == [e];
    assert E.Between([e], e.timeStamp, time, "") == E.Between([], e.timeStamp, time, "") + [E.Record(e)] == [E.Record(e)];
  }

  lemma NothingPurged(s: Service, start: int, beginTime: int, endTime: int, bundleName: string)
    requires s.Shaped() && s.db.events == E.DeviceEventLog(start, [])
    ensures PurgedFrom(s, beginTime, endTime, bundleName) == []
    ensures E.Purged(s.db.events, s.periods[DAILY].beginTime, s.db.Retention()) == s.db.events
  {
  }

  /**
   What a first process loses: with no event table yet, the start-up event is a second older than the table that is
   made. A query finds it until the first flush, unless the process starts exactly at the begin of a day, and no query
   finds it afterwards.
   */
  lemma StartupIsLost(s: Service, timeStamp: int, beginTime: int, endTime: int, bundleName: string)
    requires Starts(s) && s.db.events.NoTable? && 0 < timeStamp
    ensures var started, e := s.Init(timeStamp), StartupEvent(timeStamp);
            && (Truncate(timeStamp, s.lengths[DAILY]) < timeStamp ==>
                  started.QueryBundleEvents(e.timeStamp, timeStamp, "") == E.Found([E.Record(e)]))
            && PurgedFrom(started, e.timeStamp, timeStamp, "") == []
            && (var after := started.RestoreStats(true).QueryBundleEvents(beginTime, endTime, bundleName);
                after.Found? ==> after.events == [])
  {
    var started, e := s.Init(timeStamp), StartupEvent(timeStamp);
    StartedEvents(s, timeStamp);
    if Truncate(timeStamp, s.lengths[DAILY]) < timeStamp {
      FoundInMemory(started, e, timeStamp);
    }
    NothingPurged(started, timeStamp, e.timeStamp, timeStamp, "");
    FirstFlush(started, e, timeStamp, beginTime, endTime, bundleName);
  }

  lemma FirstFlush(s: Service, e: Event, start: int, beginTime: int, endTime: int, bundleName: string)
    requires s.Shaped() && s.db.events == E.DeviceEventLog(start, []) && s.periods[DAILY].events == [e] && e.timeStamp < start
    ensures var after := s.RestoreStats(true).QueryBundleEvents(beginTime, endTime, bundleName);
            after.Found? ==> after.events == []
  {
    SavedEvents(s);
    NothingPurged(s, start, beginTime, endTime, bundleName);
    NothingSelected(s.userId, e, start, s.periods[DAILY].beginTime, beginTime, endTime, bundleName);
    RestoreKeepsPeriods(s, true, DAILY);
    assert s.RestoreStats(true).periods[DAILY].events == [];
  }

  // ----- save and load -----

  lemma TidyIsEncodable(p: Period, length: int, k: Key)
    requires PeriodIn(p, length) && k in p.bundleStats
    ensures Encodable(p.beginTime, p.bundleStats[k])
  {
    assert EntryIn(p.bundleStats[k], p.beginTime, length);
  }

  /** The entry comes back: the persisted fields, and nothing in front. */
  predicate Restored(loaded: map<Key, Usage>, k: Key, u: Usage) {
    && k in loaded && SamePersisted(loaded[k], u) && loaded[k].abilities == map[] && loaded[k].longTimeTasks == map[]
  }

  /** What the table of the current period holds after a save. */
  lemma SavedIsRestored(s: Service, now: int, i: nat, k: Key)
    requires Tidy(s, now) && i < 4 && k in s.periods[i].bundleStats && HasUsage(s.periods[i].bundleStats[k])
    ensures var tables, begin := s.RestoreStats(true).db.stores[i].tables, s.periods[i].beginTime;
            && PackageLog(begin) in tables
            && Restored(LoadedStats(begin, s.userId, tables[PackageLog(begin)]), k, s.periods[i].bundleStats[k])
  {
    var p, store, max := s.periods[i], s.db.stores[i], MAX_FILES_EVERY_INTERVAL_TYPE[i];
    SavedStore(s, 4, i);
    ManyTablesAreKept(i);
    NewestSurvives(store, p.beginTime, max);
    TidyIsEncodable(p, s.lengths[i], k);
    FlushThenLoad(p.beginTime, s.userId, p.bundleStats, store.WithTable(p.beginTime, max).tables[PackageLog(p.beginTime)], k);
  }

  lemma NothingAhead(s: Store, last: int, currentTime: int)
    requires StrictlyIncreasing(s.index) && s.index != [] && s.index[|s.index| - 1] == last && last < currentTime
    ensures s.DropFrom(currentTime) == s
  {
    forall i | 0 <= i < |s.index|
      ensures s.index[i] < currentTime
    {
      assert i < |s.index| - 1 ==> s.index[i] < s.index[|s.index| - 1];
    }
    LowerBoundIsUnique(s.index, currentTime, |s.index|);
    assert s.index[|s.index|..] == [] && s.index[..|s.index|] == s.index;
    NamesOfEmpty([]);
  }

  lemma KeptAscends(s: Store, max: nat)
    requires s.index == []
    ensures StrictlyIncreasing(s.HandleTableInfo().DeleteExcessive(max).index)
  {
    HandledIsOk(s);
    DeleteExcessiveKeepsIndex(s.HandleTableInfo(), max);
  }

  /** Start-up keeps the newest table when it starts before the current time. */
  lemma InitKeepsNewest(tables: map<TableName, Table>, begin: int, currentTime: int, max: nat)
    requires PackageLog(begin) in tables && begin < currentTime && max > 0
    requires forall n :: n in tables ==> n.startTime <= begin
    ensures var s := Store([], tables).Init(currentTime, max);
            && s.index != [] && s.index[|s.index| - 1] == begin
            && PackageLog(begin) in s.tables && s.tables[PackageLog(begin)] == tables[PackageLog(begin)]
  {
    var read := Store([], tables).HandleTableInfo();
    M.NewestIsRead(Store([], tables), begin);
    M.LastIsKept(read, max);
    KeptAscends(Store([], tables), max);
    NothingAhead(read.DeleteExcessive(max), begin, currentTime);
  }

  /** A start within the period of the newest table takes it over. */
  lemma NewestIsTakenOver(s: Service, i: nat, timeStamp: int, begin: int, k: Key, u: Usage)
    requires s.Shaped() && i < 4 && begin < timeStamp < begin + s.lengths[i]
    requires var store := s.db.stores[i];
             && store.index != [] && store.index[|store.index| - 1] == begin && PackageLog(begin) in store.tables
             && Restored(LoadedStats(begin, s.userId, store.tables[PackageLog(begin)]), k, u)
    ensures Restored(s.LoadActiveStats(timeStamp, true, false).periods[i].bundleStats, k, u)
    ensures s.LoadActiveStats(timeStamp, true, false).periods[i].beginTime == Truncate(timeStamp, s.lengths[i])
  {
    assert s.LoadActiveStats(timeStamp, true, false).periods[i] == s.LoadedPeriod(i, timeStamp, true);
  }

  lemma SavedIsBehind(s: Service, now: int, i: nat)
    requires Tidy(s, now) && i < 4
    ensures Behind(s.RestoreStats(true).db.stores[i], s.periods[i].beginTime)
  {
    RestoreStaysBehind(s, true);
    RestoreKeepsPeriods(s, true, i);
  }

  const NO_PERIOD := Period(0, 0, map[], [])

  /** The next process: the tables that the last one left, and nothing in memory. */
  function Next(last: Service): (s: Service)
    requires last.Shaped()
    ensures s.Shaped()
  {
    var stores := seq(4, i requires 0 <= i < 4 => Store([], last.db.stores[i].tables));
    Service([NO_PERIOD, NO_PERIOD, NO_PERIOD, NO_PERIOD], 0, false, "", {},
            Database(stores, last.db.events, E.EVENT_BEGIN_TIME_INITIAL_VALUE, last.db.debug), last.userId, last.lengths)
  }

  /** The tables that a tidy process leaves are such as the next one can start from. */
  lemma NextStarts(last: Service, now: int)
    requires Tidy(last, now)
    ensures Starts(Next(last))
  {
    forall i | 0 <= i < 4
      ensures StoreIn(Next(last).db.stores[i], last.lengths[i])
    {
      assert StoreIn(last.db.stores[i], last.lengths[i]);
    }
  }

  lemma StartedEntries(s: Service, timeStamp: int, i: nat)
    requires s.Shaped() && i < 4
    ensures var p, loaded := s.Init(timeStamp).periods[i], Read(s, timeStamp).LoadActiveStats(timeStamp, true, false);
            p.bundleStats == loaded.periods[i].bundleStats && p.beginTime == loaded.periods[i].beginTime
  {
  }

  lemma SaveThenStart(s: Service, now: int, timeStamp: int, i: nat, k: Key)
    requires Tidy(s, now) && i < 4 && k in s.periods[i].bundleStats && HasUsage(s.periods[i].bundleStats[k])
    requires s.periods[i].beginTime < timeStamp < s.periods[i].beginTime + s.lengths[i]
    ensures var q := Next(s.RestoreStats(true)).Init(timeStamp).periods[i];
            q.beginTime == Truncate(timeStamp, s.lengths[i]) && Restored(q.bundleStats, k, s.periods[i].bundleStats[k])
  {
    var begin, next := s.periods[i].beginTime, Next(s.RestoreStats(true));
    SavedIsRestored(s, now, i, k);
    SavedIsBehind(s, now, i);
    ManyTablesAreKept(i);
    RestoreKeepsPeriods(s, true, i);
    InitKeepsNewest(s.RestoreStats(true).db.stores[i].tables, begin, timeStamp, MAX_FILES_EVERY_INTERVAL_TYPE[i]);
    InitIsInit(next.db, timeStamp, i);
    NewestIsTakenOver(Read(next, timeStamp), i, timeStamp, begin, k, s.periods[i].bundleStats[k]);
    StartedEntries(next, timeStamp, i);
  }

  /**
   In every state of every run: when the service saves and the next process starts before the period ends, the
   period goes on with every entry that has usage as it was saved.
   */
  lemma SaveThenStartInEveryState(states: seq<R.World>, ops: seq<R.Op>, n: nat, timeStamp: int, i: nat, k: Key)
    requires R.IsRun(states, ops) && Tidy(states[0].s, states[0].now) && n <= |ops| && i < 4
    requires k in states[n].s.periods[i].bundleStats && HasUsage(states[n].s.periods[i].bundleStats[k])
    requires states[n].now <= timeStamp
    requires states[n].s.periods[i].beginTime < timeStamp < states[n].s.periods[i].beginTime + states[n].s.lengths[i]
    ensures var p, q := states[n].s.periods[i], Next(states[n].s.RestoreStats(true)).Init(timeStamp).periods[i];
            q.beginTime == p.beginTime && Restored(q.bundleStats, k, p.bundleStats[k])
  {
    var s := states[n].s;
    RunStaysTidy(states, ops, n);
    SaveThenStart(s, states[n].now, timeStamp, i, k);
    TruncateIsPeriodStart(timeStamp, s.lengths[i], s.periods[i].beginTime);
  }
}
