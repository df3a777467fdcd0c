/**
 The usage service keeps its times tidy over whole runs, whether or not a midnight replays everything
 (services/packageusage/src/bundle_active_user_service.cpp).
 */
module TidyRuns {
  import opened Events
  import opened PeriodStats
  import opened Calendar
  import opened TableIndex
  import opened UsageStore
  import opened UsageDatabase
  import opened UserService
  import opened Intervals
  import opened Rollover
  import opened Tidiness
  import R = UsageRuns
  import M = Midnight

  ghost predicate PeriodsIn(periods: seq<Period>, lengths: seq<int>) {
    |periods| == 4 == |lengths| && forall i :: 0 <= i < 4 ==> PeriodIn(periods[i], lengths[i]) && periods[i].endTime > 0
  }

  /** No period starts after the day, and none ends before it. */
  ghost predicate SpanDay(periods: seq<Period>, lengths: seq<int>, expiry: int) {
    && |periods| == 4 == |lengths|
    && forall i :: 0 <= i < 4 ==>
         periods[i].beginTime <= periods[DAILY].beginTime && expiry <= periods[i].beginTime + lengths[i]
  }

  ghost predicate StorageOk(d: Database, periods: seq<Period>, lengths: seq<int>) {
    && d.Valid() && |periods| == 4 == |lengths|
    && forall i :: 0 <= i < 4 ==> StoreIn(d.stores[i], lengths[i]) && Present(d.stores[i], periods[i].beginTime)
  }

  ghost predicate Tidy(s: Service, now: int) {
    && TimesOk(s, now) && PeriodsIn(s.periods, s.lengths) && SpanDay(s.periods, s.lengths, s.expiry)
    && StorageOk(s.db, s.periods, s.lengths)
  }

  /** What `MidnightLoss` asks of the table of a period holds in every tidy state. */
  lemma TidyTableInOrder(s: Service, now: int, i: nat)
    requires Tidy(s, now) && i < 4
    ensures M.TableInOrder(s, i)
  {
  }

  // ----- events within the day -----

  lemma PeriodAfterIn(base: Period, e: Event, launch: bool, length: int)
    requires PeriodIn(base, length) && base.endTime > 0 && base.beginTime <= e.timeStamp < base.beginTime + length
    ensures var p := PeriodAfter(base, e, launch); PeriodIn(p, length) && p.endTime > 0
  {
    if !IsTrackerEvent(e.eventId) {
      EventStaysIn(base, e, launch, length);
    }
  }

  /** A step that leaves tables and times alone and gives each period the event. */
  lemma StepStaysTidy(s: Service, s': Service, bases: seq<Period>, e: Event, launch: bool, now: int)
    requires Tidy(s, now) && now <= e.timeStamp < s.expiry
    requires s'.Shaped() && s'.lengths == s.lengths && s'.db == s.db && s'.expiry == s.expiry
    requires PeriodsIn(bases, s.lengths)
    requires forall i :: 0 <= i < 4 ==>
               bases[i].beginTime == s.periods[i].beginTime && s'.periods[i] == PeriodAfter(bases[i], e, launch)
    ensures Tidy(s', e.timeStamp)
  {
    forall i | 0 <= i < 4
      ensures PeriodIn(s'.periods[i], s.lengths[i]) && s'.periods[i].endTime > 0
      ensures s'.periods[i].beginTime == s.periods[i].beginTime
    {
      PeriodAfterIn(bases[i], e, launch, s.lengths[i]);
      R.PeriodAfterKeys(bases[i], e, launch);
    }
  }

  /** Noting an event, of whatever time, touches neither entries nor tables. */
  lemma NotedStaysTidy(s: Service, e: Event, now: int)
    requires Tidy(s, now)
    ensures Tidy(s.Noted(e), now) && PeriodsIn(s.Noted(e).periods, s.lengths)
    ensures forall i :: 0 <= i < 4 ==> s.Noted(e).periods[i].beginTime == s.periods[i].beginTime
  {
  }

  lemma TodayStaysTidy(s: Service, e: Event, now: int)
    requires Tidy(s, now) && now <= e.timeStamp < s.expiry
    ensures Tidy(s.ReportToday(e), e.timeStamp)
  {
    NotedStaysTidy(s, e, now);
    forall i | 0 <= i < 4
      ensures s.ReportToday(e).periods[i] == PeriodAfter(R.Bases(s, e)[i], e, R.CountsLaunch(s, e))
    {
      R.TodayPeriods(s, e, i);
    }
    StepStaysTidy(s, s.ReportToday(e), R.Bases(s, e), e, R.CountsLaunch(s, e), now);
  }

  lemma ShutDownTodayStaysTidy(s: Service, e: Event, now: int)
    requires Tidy(s, now) && now <= e.timeStamp < s.expiry && e.eventId == SHUTDOWN
    ensures Tidy(s.ShutDownToday(e), e.timeStamp)
  {
    StepStaysTidy(s, s.ShutDownToday(e), s.periods, e, false, now);
  }

  // ----- a flush -----

  lemma UpdateStaysOk(d: Database, i: nat, userId: int, periods: seq<Period>, lengths: seq<int>)
    requires i < 4 && StorageOk(d, periods, lengths) && PeriodIn(periods[i], lengths[i])
    requires IsMultiple(periods[i].beginTime, lengths[i])
    ensures StorageOk(d.UpdateUsage(i, periods[i].beginTime, userId, periods[i].bundleStats), periods, lengths)
  {
    var s, begin, max := d.stores[i], periods[i].beginTime, MAX_FILES_EVERY_INTERVAL_TYPE[i];
    var rows := FlushedRows(begin, userId, periods[i].bundleStats);
    FlushedRowsIn(begin, lengths[i], userId, periods[i]);
    TableStaysIn(s, begin, max, lengths[i]);
    TableIsPresent(s, begin, max);
    RowsStayIn(s.WithTable(begin, max), begin, rows, lengths[i]);
    UpdateIsUpdated(d, i, begin, userId, periods[i].bundleStats);
    UpdateUsageIsValid(d, i, begin, userId, periods[i].bundleStats);
  }

  lemma {:induction false} SavedStaysOk(s: Service, n: nat)
    requires n <= 4 && StorageOk(s.db, s.periods, s.lengths) && PeriodsIn(s.periods, s.lengths)
    requires forall i :: 0 <= i < 4 ==> IsMultiple(s.periods[i].beginTime, s.lengths[i])
    ensures StorageOk(s.SavedPeriods(n).db, s.periods, s.lengths)
  {
    if n == 0 {
    } else {
      SavedStaysOk(s, n - 1);
      UpdateStaysOk(s.SavedPeriods(n - 1).db, n - 1, s.userId, s.periods, s.lengths);
    }
  }

  lemma RestoredTimes(s: Service, forced: bool, now: int)
    requires TimesOk(s, now)
    ensures TimesOk(s.RestoreStats(forced), now)
  {
    RestoreStaysBehind(s, forced);
  }

  lemma RestoreStaysTidy(s: Service, forced: bool, now: int)
    requires Tidy(s, now)
    ensures Tidy(s.RestoreStats(forced), now)
  {
    SavedStaysOk(s, 4);
    RestoredTimes(s, forced, now);
    forall i | 0 <= i < 4
      ensures s.RestoreStats(forced).periods[i].bundleStats == s.periods[i].bundleStats
      ensures s.RestoreStats(forced).periods[i].beginTime == s.periods[i].beginTime
      ensures s.RestoreStats(forced).periods[i].endTime == s.periods[i].endTime
    {
      RestoreKeepsPeriods(s, forced, i);
    }
  }

  // ----- midnight -----

  lemma EndOfDayPeriods(s: Service, now: int)
    requires Tidy(s, now)
    ensures PeriodsIn(s.FlushDataInMem().periods, s.lengths)
    ensures forall i :: 0 <= i < 4 ==> s.FlushDataInMem().periods[i].beginTime == s.periods[i].beginTime
  {
    forall i | 0 <= i < 4
      ensures PeriodIn(EndOfDay(s.periods[i], s.expiry), s.lengths[i])
    {
      EndOfDayStaysIn(s.periods[i], s.expiry, s.lengths[i]);
    }
  }

  lemma MidnightSaveStaysOk(s: Service, now: int)
    requires Tidy(s, now)
    ensures StorageOk(Saved(s).db, s.periods, s.lengths)
  {
    EndOfDayPeriods(s, now);
    SavedStaysOk(s.FlushDataInMem(), 4);
  }

  lemma CutoffIsEarlier(i: nat, length: int, timeStamp: int, begin: int)
    requires i < 4 && length > 0 && timeStamp < begin + length
    ensures Cutoff(i, timeStamp, length) <= begin
  {
  }

  lemma RemovalStaysTidy(s: Store, i: nat, length: int, timeStamp: int, begin: int, begin': int)
    requires i < 4 && length > 0 && StrictlyIncreasing(s.index) && StoreIn(s, length) && Present(s, begin)
    requires begin' == begin || (begin < begin' && Behind(s, begin))
    requires begin' == begin ==> timeStamp < begin + length
    ensures var s' := s.RemovedOld(Cutoff(i, timeStamp, length), MAX_FILES_EVERY_INTERVAL_TYPE[i]);
            StoreIn(s', length) && Present(s', begin')
  {
    var max, cutoff := MAX_FILES_EVERY_INTERVAL_TYPE[i], Cutoff(i, timeStamp, length);
    RemovalStaysIn(s, cutoff, max, length);
    if begin' == begin {
      CutoffIsEarlier(i, length, timeStamp, begin);
      RemovalKeepsPresent(s, cutoff, max, begin);
    } else {
      RemovalStaysBehind(s, cutoff, max, begin);
    }
  }

  lemma MidnightSavedStore(s: Service, now: int, i: nat)
    requires Tidy(s, now) && i < 4
    ensures var store := Saved(s).db.stores[i];
            && StrictlyIncreasing(store.index) && StoreIn(store, s.lengths[i])
            && Present(store, s.periods[i].beginTime) && Behind(store, s.periods[i].beginTime)
  {
    MidnightSaveStaysOk(s, now);
    MidnightSaveStaysBehind(s);
  }

  lemma NextBegin(timeStamp: int, length: int, begin: int)
    requires length > 0 && 0 <= timeStamp && begin <= timeStamp && IsMultiple(begin, length)
    ensures begin <= Truncate(timeStamp, length)
    ensures Truncate(timeStamp, length) == begin ==> timeStamp < begin + length
  {
    TruncateIsPeriodStart(timeStamp, length, Truncate(timeStamp, length));
    TruncateAdvances(timeStamp, length, begin);
  }

  lemma CleanedTidy(d: Database, timeStamp: int, lengths: seq<int>, i: nat, begin: int, begin': int)
    requires |d.stores| == 4 == |lengths| && i < 4 && lengths[i] > 0
    requires StrictlyIncreasing(d.stores[i].index) && StoreIn(d.stores[i], lengths[i]) && Present(d.stores[i], begin)
    requires begin' == begin || (begin < begin' && Behind(d.stores[i], begin))
    requires begin' == begin ==> timeStamp < begin + lengths[i]
    ensures StoreIn(d.RemoveOld(timeStamp, lengths).stores[i], lengths[i])
    ensures Present(d.RemoveOld(timeStamp, lengths).stores[i], begin')
  {
    RemoveOldIsRemovedOld(d, timeStamp, lengths, i);
    RemovalStaysTidy(d.stores[i], i, lengths[i], timeStamp, begin, begin');
  }

  /** After the removal of old tables, the table of the period that is about to be loaded is there if it is listed. */
  lemma CleanedStore(s: Service, now: int, timeStamp: int, i: nat)
    requires Tidy(s, now) && s.expiry <= timeStamp && i < 4
    ensures var store := Saved(s).RemoveOldData(timeStamp).db.stores[i];
            StoreIn(store, s.lengths[i]) && Present(store, Truncate(timeStamp, s.lengths[i]))
  {
    MidnightSavedStore(s, now, i);
    SavedPeriodsAre(s, i);
    NextBegin(timeStamp, s.lengths[i], s.periods[i].beginTime);
    CleanedTidy(Saved(s).db, timeStamp, s.lengths, i, s.periods[i].beginTime, Truncate(timeStamp, s.lengths[i]));
  }

  lemma ReloadedDatabase(s: Service, now: int, timeStamp: int)
    requires Tidy(s, now) && s.expiry <= timeStamp
    ensures Reloaded(s, timeStamp).db.Valid()
    ensures Reloaded(s, timeStamp).db.stores == Saved(s).RemoveOldData(timeStamp).db.stores
  {
    var saved := Saved(s);
    MidnightSaveStaysOk(s, now);
    SavedPeriodsAre(s, DAILY);
    RemoveOldIsValid(saved.db, timeStamp, saved.lengths);
    R.LoadKeepsStores(saved.RemoveOldData(timeStamp), timeStamp);
  }

  /** What a midnight loads: times within the period, and an end time. */
  lemma ReloadedPeriod(s: Service, now: int, timeStamp: int, i: nat)
    requires Tidy(s, now) && s.expiry <= timeStamp && i < 4
    ensures var p := Reloaded(s, timeStamp).periods[i];
            && p.beginTime == Truncate(timeStamp, s.lengths[i]) && PeriodIn(p, s.lengths[i]) && p.endTime > 0
  {
    NewPeriodIsFresh(s, now, timeStamp, i);
    DayRolls(s, now, timeStamp);
    EndOfDayStaysIn(s.periods[i], s.expiry, s.lengths[i]);
    SavedPeriodsAre(s, i);
    var cleaned := Saved(s).RemoveOldData(timeStamp);
    assert cleaned.periods[i].endTime == EndOfDay(s.periods[i], s.expiry).endTime > 0;
    assert Reloaded(s, timeStamp).periods[i] == cleaned.LoadedPeriod(i, timeStamp, false);
  }

  /** The service of a midnight just before its second save. */
  function ReplayedAt(s: Service, timeStamp: int): (s': Service)
    requires s.Shaped()
    ensures s'.Shaped()
  {
    Reloaded(s, timeStamp).Replayed(ContinueAbilities(s.periods), ContinueServices(s.periods))
  }

  lemma ReplayedPeriod(s: Service, now: int, timeStamp: int, i: nat)
    requires Tidy(s, now) && s.expiry <= timeStamp && i < 4
    ensures var p := ReplayedAt(s, timeStamp).periods[i];
            && p.beginTime == Truncate(timeStamp, s.lengths[i]) && PeriodIn(p, s.lengths[i]) && p.endTime > 0
  {
    var reloaded := Reloaded(s, timeStamp);
    ReloadedPeriod(s, now, timeStamp, i);
    ReloadedPeriod(s, now, timeStamp, DAILY);
    var p, begin := reloaded.periods[i], reloaded.periods[DAILY].beginTime;
    LongerStartsNoLater(timeStamp, s.lengths, i);
    TruncateIsPeriodStart(timeStamp, s.lengths[i], p.beginTime);
    TruncateIsPeriodStart(timeStamp, s.lengths[DAILY], begin);
    ReportedStaysIn(p, FrontsToReplay(ContinueAbilities(s.periods), reloaded.known),
                    TasksToReplay(ContinueServices(s.periods), reloaded.known), begin, s.lengths[i]);
  }

  lemma ReplayedStorage(s: Service, now: int, timeStamp: int)
    requires Tidy(s, now) && s.expiry <= timeStamp
    ensures var x := ReplayedAt(s, timeStamp);
            && x.lengths == s.lengths && PeriodsIn(x.periods, s.lengths) && StorageOk(x.db, x.periods, s.lengths)
            && forall i :: 0 <= i < 4 ==> x.periods[i].beginTime == Truncate(timeStamp, s.lengths[i])
  {
    var x := ReplayedAt(s, timeStamp);
    ReloadedDatabase(s, now, timeStamp);
    R.ReloadedExpiry(s, timeStamp);
    NextBegin(timeStamp, s.lengths[DAILY], s.periods[DAILY].beginTime);
    forall i | 0 <= i < 4
      ensures x.periods[i].beginTime == Truncate(timeStamp, s.lengths[i])
      ensures PeriodIn(x.periods[i], s.lengths[i]) && x.periods[i].endTime > 0
      ensures StoreIn(x.db.stores[i], s.lengths[i]) && Present(x.db.stores[i], x.periods[i].beginTime)
    {
      ReplayedPeriod(s, now, timeStamp, i);
      CleanedStore(s, now, timeStamp, i);
    }
  }

  lemma RenewedSpan(lengths: seq<int>, timeStamp: int, periods: seq<Period>, expiry: int)
    requires Aligned(lengths) && 0 <= timeStamp && |periods| == 4
    requires forall i :: 0 <= i < 4 ==> periods[i].beginTime == Truncate(timeStamp, lengths[i])
    requires expiry == Truncate(timeStamp, lengths[DAILY]) + lengths[DAILY]
    ensures SpanDay(periods, lengths, expiry)
    ensures forall i :: 0 <= i < 4 ==> IsMultiple(periods[i].beginTime, lengths[i])
  {
    forall i | 0 <= i < 4
      ensures periods[i].beginTime <= periods[DAILY].beginTime && expiry <= periods[i].beginTime + lengths[i]
      ensures IsMultiple(periods[i].beginTime, lengths[i])
    {
      LongerStartsNoLater(timeStamp, lengths, i);
      LongerEndsNoEarlier(timeStamp, lengths, i);
      TruncateIsPeriodStart(timeStamp, lengths[i], periods[i].beginTime);
    }
  }

  lemma SaveKeepsTidyParts(x: Service, s': Service, expiry: int)
    requires x.Shaped() && s' == x.RestoreStats(true) && x.expiry == expiry
    requires PeriodsIn(x.periods, x.lengths) && StorageOk(x.db, x.periods, x.lengths)
    requires SpanDay(x.periods, x.lengths, expiry)
    requires forall i :: 0 <= i < 4 ==> IsMultiple(x.periods[i].beginTime, x.lengths[i])
    ensures PeriodsIn(s'.periods, s'.lengths) && StorageOk(s'.db, s'.periods, s'.lengths)
    ensures SpanDay(s'.periods, s'.lengths, expiry) && s'.expiry == expiry
  {
    SavedStaysOk(x, 4);
  }

  lemma RenewStaysTidy(s: Service, now: int, timeStamp: int)
    requires Tidy(s, now) && s.expiry <= timeStamp
    ensures Tidy(s.RenewStatsInMemory(timeStamp), timeStamp)
  {
    var x := ReplayedAt(s, timeStamp);
    R.RenewedTimes(s, now, timeStamp);
    R.ReloadedExpiry(s, timeStamp);
    ReplayedStorage(s, now, timeStamp);
    RenewedSpan(s.lengths, timeStamp, x.periods, x.expiry);
    SaveKeepsTidyParts(x, s.RenewStatsInMemory(timeStamp), x.expiry);
  }

  // ----- whole runs -----

  lemma ReportStaysTidy(s: Service, e: Event, now: int)
    requires Tidy(s, now) && now <= e.timeStamp
    ensures Tidy(s.ReportEvent(e), e.timeStamp)
  {
    if e.timeStamp >= s.expiry {
      RenewStaysTidy(s, now, e.timeStamp);
      TodayStaysTidy(s.RenewStatsInMemory(e.timeStamp), e, e.timeStamp);
    } else {
      TodayStaysTidy(s, e, now);
    }
  }

  lemma LastShutDownStaysTidy(noted: Service, e: Event, now: int)
    requires Tidy(noted, now) && noted.expiry <= e.timeStamp && e.eventId == SHUTDOWN
    ensures Tidy(noted.RenewStatsInMemory(e.timeStamp).ShutDownToday(e), e.timeStamp)
  {
    RenewStaysTidy(noted, now, e.timeStamp);
    ShutDownTodayStaysTidy(noted.RenewStatsInMemory(e.timeStamp), e, e.timeStamp);
  }

  lemma ShutDownStaysTidy(s: Service, e: Event, now: int)
    requires Tidy(s, now) && now <= e.timeStamp && e.eventId == SHUTDOWN
    ensures Tidy(s.ReportForShutdown(e), e.timeStamp)
  {
    NotedStaysTidy(s, e, now);
    if e.timeStamp >= s.expiry {
      LastShutDownStaysTidy(s.Noted(e), e, now);
    } else {
      ShutDownTodayStaysTidy(s.Noted(e), e, now);
    }
  }

  lemma StepStaysTidyInRun(w: R.World, op: R.Op)
    requires w.Shaped() && Tidy(w.s, w.now) && w.Forward(op)
    ensures Tidy(w.Step(op).s, w.Step(op).now)
  {
    match op
    case Report(e) => ReportStaysTidy(w.s, e, w.now);
    case ShutDown(e) =>
      if e.eventId == SHUTDOWN {
        ShutDownStaysTidy(w.s, e, w.now);
      }
    case Restore(forced) => RestoreStaysTidy(w.s, forced, w.now);
    case Learn(k) =>
  }

  /**
   In every state of every run with time going forward, whatever the midnights miss: each last-used time lies in the
   period of its entry, each table starts where a period can start and holds times of that period, the table of the
   current period is there when the index names it, and every period has an end time.
   */
  lemma {:induction false} RunStaysTidy(states: seq<R.World>, ops: seq<R.Op>, n: nat)
    requires R.IsRun(states, ops) && Tidy(states[0].s, states[0].now) && n <= |ops|
    ensures Tidy(states[n].s, states[n].now)
  {
    if n == 0 {
    } else {
      RunStaysTidy(states, ops, n - 1);
      StepStaysTidyInRun(states[n - 1], ops[n - 1]);
    }
  }
}
