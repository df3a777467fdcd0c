/**
 A flush is invisible to queries (services/packageusage/src/bundle_active_user_service.cpp): usage of the
 current period always comes from memory and older usage from the tables, and events move from memory to
 their table.
 */
module FlushTransparency {
  import opened Events
  import opened PackageStats
  import opened TableIndex
  import opened UsageStore
  import opened UsageQuery
  import opened UsageDatabase
  import opened UserService
  import opened Rollover
  import opened Tidiness
  import E = EventStore

  // ----- usage: the table of the current period is out of reach of a truncated query -----

  lemma LowerBoundExtends(index: seq<int>, t: int, x: int)
    requires (forall i :: 0 <= i < |index| ==> index[i] < t) && x <= t
    ensures LowerBound(index + [t], x) == LowerBound(index, x)
  {
    LowerBoundIsUnique(index + [t], x, LowerBound(index, x));
  }

  /** A table that starts at or after the end of the range does not change which tables are read. */
  lemma RangeExtends(index: seq<int>, t: int, beginTime: int, endTime: int)
    requires (forall i :: 0 <= i < |index| ==> index[i] < t) && endTime <= t
    ensures DbRange(index + [t], beginTime, endTime) == DbRange(index, beginTime, endTime)
  {
    if beginTime < endTime {
      LowerBoundExtends(index, t, beginTime);
      LowerBoundExtends(index, t, endTime);
      var n := LowerBound(index, beginTime);
      assert n < |index| ==> (index + [t])[n] == index[n];
    }
  }

  lemma {:induction false} PickedFromSame(s: Store, s': Store, i: nat, r: Range, beginTime: int, endTime: int, userId: int,
                                          bundleName: string)
    requires r.Tables? && r.end < |s.index| && r.end < |s'.index|
    requires forall j :: 0 <= j <= r.end ==> s'.index[j] == s.index[j] && TableAt(s', s.index[j]) == TableAt(s, s.index[j])
    ensures PickedFrom(s', i, r, beginTime, endTime, userId, bundleName)
         == PickedFrom(s, i, r, beginTime, endTime, userId, bundleName)
    decreases r.end + 1 - i
  {
    if i > r.end {
    } else {
      PickedFromSame(s, s', i + 1, r, beginTime, endTime, userId, bundleName);
    }
  }

  lemma TableMade(s: Store, t: int, max: nat)
    requires StrictlyIncreasing(s.index) && Behind(s, t) && (t in s.index || |s.index| < max)
    ensures var s' := s.WithTable(t, max);
            && (t in s.index ==> s' == s)
            && (t !in s.index ==> s'.index == s.index + [t] && (forall i :: 0 <= i < |s.index| ==> s.index[i] < t))
            && forall n :: n in s.tables && n.startTime < t ==> n in s'.tables && s'.tables[n] == s.tables[n]
    ensures forall x :: x < t ==> TableAt(s.WithTable(t, max), x) == TableAt(s, x)
  {
    if t !in s.index {
      forall i | 0 <= i < |s.index|
        ensures s.index[i] < t
      {
        assert s.index[i] in s.index;
      }
      InsertLast(s.index, t);
    }
  }

  /** A query that ends by the begin of the current period does not see what a flush writes. */
  lemma QueryIgnoresCurrent(s: Store, t: int, rows: Table, max: nat, beginTime: int, endTime: int, userId: int,
                            bundleName: string)
    requires StrictlyIncreasing(s.index) && Behind(s, t) && (t in s.index || |s.index| < max) && endTime <= t
    ensures Query(s.WithTable(t, max).WithRows(t, rows), beginTime, endTime, userId, bundleName)
         == Query(s, beginTime, endTime, userId, bundleName)
  {
    var s' := s.WithTable(t, max).WithRows(t, rows);
    TableMade(s, t, max);
    if t !in s.index {
      RangeExtends(s.index, t, beginTime, endTime);
    }
    var r := DbRange(s.index, beginTime, endTime);
    if r.Tables? {
      DbRangeIsProper(s.index, beginTime, endTime);
      forall j | 0 <= j <= r.end
        ensures s'.index[j] == s.index[j] && TableAt(s', s.index[j]) == TableAt(s, s.index[j])
      {
        assert s.index[j] < endTime;
      }
      PickedFromSame(s, s', r.start, r, beginTime, endTime, userId, bundleName);
    }
  }

  lemma SavedTablesAnswer(s: Service, forced: bool, i: nat, beginTime: int, endTime: int, bundleName: string)
    requires s.Shaped() && i < 4 && (s.statsChanged || forced) && endTime <= s.periods[i].beginTime
    requires StrictlyIncreasing(s.db.stores[i].index) && Behind(s.db.stores[i], s.periods[i].beginTime)
    requires s.periods[i].beginTime in s.db.stores[i].index
          || |s.db.stores[i].index| < MAX_FILES_EVERY_INTERVAL_TYPE[i]
    ensures s.RestoreStats(forced).db.QueryUsage(i, beginTime, endTime, s.userId, bundleName)
         == s.db.QueryUsage(i, beginTime, endTime, s.userId, bundleName)
  {
    var saved, p := s.RestoreStats(forced), s.periods[i];
    assert saved.db.stores[i] == s.SavedPeriods(4).db.stores[i];
    if p.bundleStats == map[] {
      EmptyPeriodSavesNothing(s, 4, i);
    } else {
      SavedStore(s, 4, i);
      QueryIgnoresCurrent(s.db.stores[i], p.beginTime, FlushedRows(p.beginTime, s.userId, p.bundleStats),
                          MAX_FILES_EVERY_INTERVAL_TYPE[i], beginTime, endTime, s.userId, bundleName);
    }
  }

  /**
   Flush transparency of usage queries: for every interval, range and bundle name the answer is the same
   before and after a flush, provided that no table is evicted and none starts after the current period.
   */
  lemma UsageFlushIsTransparent(s: Service, forced: bool, i: nat, beginTime: int, endTime: int, bundleName: string)
    requires s.Shaped() && i < 4 && s.periods[i].endTime != 0
    requires StrictlyIncreasing(s.db.stores[i].index) && Behind(s.db.stores[i], s.periods[i].beginTime)
    requires s.periods[i].beginTime in s.db.stores[i].index
          || |s.db.stores[i].index| < MAX_FILES_EVERY_INTERVAL_TYPE[i]
    ensures s.RestoreStats(forced).QueryBundleStatsInfos(i, beginTime, endTime, bundleName)
         == s.QueryBundleStatsInfos(i, beginTime, endTime, bundleName)
  {
    RestoreKeepsPeriods(s, forced, i);
    if s.statsChanged || forced {
      SavedTablesAnswer(s, forced, i, beginTime, if s.periods[i].beginTime < endTime then s.periods[i].beginTime else endTime,
                        bundleName);
    }
  }

  /**
   A saved entry is reported from its table exactly as it was from memory, unless one of its last-used times
   is the millisecond before the table.
   */
  lemma SavedReportIsMemoryReport(tableTime: int, userId: int, k: Key, u: Usage)
    ensures ReportOf(tableTime, RowKey(userId, k), RowOf(tableTime, u)) == UsageReport(userId, k, u)
       <==> Encodable(tableTime, u)
  {
    EncodeRoundTrip(tableTime, u.lastTimeUsed);
    EncodeRoundTrip(tableTime, u.lastContinuousTaskUsed);
  }

  // ----- events -----

  /** A flush makes the daily table when it is missing, and then old events go. */
  predicate Purges(s: Service)
    requires s.Shaped()
  {
    s.periods[DAILY].bundleStats != map[] && s.periods[DAILY].beginTime !in s.db.stores[DAILY].index
  }

  lemma {:induction false} LaterPeriodsKeepEvents(s: Service, n: nat)
    requires s.Shaped() && 1 <= n <= 4
    ensures s.SavedPeriods(n).db.events == s.SavedPeriods(1).db.events
  {
    if n <= 1 {
    } else {
      LaterPeriodsKeepEvents(s, n - 1);
    }
  }

  lemma SavedEvents(s: Service)
    requires s.Shaped()
    ensures var p := s.periods[DAILY];
            var purged := if Purges(s) then E.Purged(s.db.events, p.beginTime, s.db.Retention()) else s.db.events;
            s.RestoreStats(true).db.events
            == if p.events == [] then purged else E.Flushed(purged, p.beginTime, s.userId, p.events)
  {
    LaterPeriodsKeepEvents(s, 4);
    assert s.SavedPeriods(1) == s.SavedPeriods(0).SavedPeriod(0);
  }

  /** What a flush purges from the answer of an event query. */
  function PurgedFrom(s: Service, beginTime: int, endTime: int, bundleName: string): seq<E.Recorded>
    requires s.Shaped()
  {
    if Purges(s) then
      E.Lost(s.db.events, s.periods[DAILY].beginTime, s.db.Retention(), beginTime, endTime, s.userId, bundleName)
    else []
  }

  /**
   Flush transparency of event queries. A flush leaves the answer to a range that ends after the begin of the day the
   same if and only if it purges no row of the range and no event of the range in memory is older than the event
   table; the answer to a range that ends by then, with the events of memory younger than the retention time, if and
   only if it purges no row of the range and no event of the range waits in memory.
   */
  lemma EventFlushIsTransparent(s: Service, beginTime: int, endTime: int, bundleName: string)
    requires s.Shaped() && beginTime < endTime
    requires beginTime < s.periods[DAILY].endTime && s.periods[DAILY].endTime != 0
    ensures var before := s.QueryBundleEvents(beginTime, endTime, bundleName);
            var after := s.RestoreStats(true).QueryBundleEvents(beginTime, endTime, bundleName);
            var p, lost := s.periods[DAILY], PurgedFrom(s, beginTime, endTime, bundleName);
            before.Found? && after.Found?
            && (endTime > p.beginTime ==>
                  (multiset(after.events) == multiset(before.events) <==>
                   lost == [] && E.TooOld(s.db.events, p.beginTime, p.events, beginTime, endTime, bundleName) == []))
            && (endTime <= p.beginTime && E.Recent(p.events, p.beginTime, s.db.Retention()) ==>
                  (multiset(after.events) == multiset(before.events) <==>
                   lost == [] && E.Findable(s.db.events, p.beginTime, p.events, beginTime, endTime, bundleName) == []))
  {
    var p, retention := s.periods[DAILY], s.db.Retention();
    var purged := if Purges(s) then E.Purged(s.db.events, p.beginTime, retention) else s.db.events;
    RestoreKeepsPeriods(s, true, DAILY);
    SavedEvents(s);
    assert s.RestoreStats(true).periods[DAILY].events == [];
    E.FlushIsTransparent(s.db.events, p.events, p.beginTime, p.endTime, retention, Purges(s), beginTime, endTime, s.userId,
                         bundleName);
    if p.events == [] {
      E.FlushAddsEvents(purged, p.beginTime, s.userId, [], beginTime, endTime, bundleName);
      assert E.Between([], beginTime, endTime, bundleName) == [];
    }
  }
}
