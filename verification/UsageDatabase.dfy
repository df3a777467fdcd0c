/**
 The usage database: four stores of usage tables and one event table
 (services/common/src/bundle_active_usage_database.cpp). `Database` is its value; the class runs the loops
 and searches of the source over it.
 */
module UsageDatabase {
  import opened Events
  import opened PackageStats
  import opened TableIndex
  import opened UsageStore
  import opened UsageQuery
  import opened PackageTable
  import E = EventStore

  const DAILY := 0
  const WEEKLY := 1
  const MONTHLY := 2
  const YEARLY := 3

  const MAX_FILES_EVERY_INTERVAL_TYPE: seq<nat> := [30, 30, 12, 10]

  lemma ManyTablesAreKept(i: nat)
    requires i < 4
    ensures MAX_FILES_EVERY_INTERVAL_TYPE[i] > 1
  {
  }

  const SEVEN_DAY_IN_MILLIS_MAX := 7 * 24 * 60 * 60 * 1000
  const SIX_DAY_IN_MILLIS_MAX_DEBUG := 6 * 1 * 10 * 60 * 1000

  datatype Loaded = NoStats | Stats(beginTime: int, bundleStats: map<Key, Usage>)

  /** A table is old when it starts so many periods before now. */
  function Cutoff(i: nat, now: int, length: int): int
    requires i < 4
  {
    now - MAX_FILES_EVERY_INTERVAL_TYPE[i] * length
  }

  datatype Database = Database(stores: seq<Store>, events: E.EventTable, eventBeginTime: int, debug: bool)
  {
    ghost predicate Valid() {
      |stores| == 4 && forall i :: 0 <= i < 4 ==> StrictlyIncreasing(stores[i].index)
    }

    function Retention(): int {
      if debug then SIX_DAY_IN_MILLIS_MAX_DEBUG else SEVEN_DAY_IN_MILLIS_MAX
    }

    /** Reading the names of the daily tables also notes the begin of the latest one. */
    function HandleTableInfo(i: nat): Database
      requires i < |stores|
    {
      var s := stores[i].HandleTableInfo();
      var begin := if i == DAILY && stores[i].tables != map[] && s.index != [] then s.index[|s.index| - 1]
                   else eventBeginTime;
      this.(stores := stores[i := s], eventBeginTime := begin)
    }

    /** The table of a period is made on first need; a new daily table also deletes old events. */
    function WithTable(i: nat, begin: int): Database
      requires i < 4 && |stores| == 4
    {
      if begin in stores[i].index then this
      else
        var made := this.(stores := stores[i := stores[i].WithTable(begin, MAX_FILES_EVERY_INTERVAL_TYPE[i])]);
        if i == DAILY then made.(eventBeginTime := begin, events := E.Purged(events, begin, Retention())) else made
    }

    function WithRows(i: nat, begin: int, rows: Table): Database
      requires i < 4 && |stores| == 4
    {
      this.(stores := stores[i := stores[i].WithRows(begin, rows)])
    }

    /** Usage rows of one interval. */
    function UpdateUsage(i: nat, begin: int, userId: int, bundleStats: map<Key, Usage>): (d: Database)
      requires i < 4 && |stores| == 4
      ensures |d.stores| == 4
    {
      WithTable(i, begin).WithRows(i, begin, FlushedRows(begin, userId, bundleStats))
    }

    function UpdateEvents(begin: int, userId: int, pending: seq<Event>): Database {
      this.(events := E.Flushed(events, begin, userId, pending))
    }

    /** The newest table of one interval, as the period that it was saved from. */
    function Current(i: nat, userId: int): Loaded
      requires i < |stores|
    {
      var s := stores[i];
      if s.index == [] || PackageLog(s.index[|s.index| - 1]) !in s.tables then NoStats
      else
        var t := s.index[|s.index| - 1];
        Stats(t, LoadedStats(t, userId, s.tables[PackageLog(t)]))
    }

    function AfterCurrent(i: nat): Database
      requires i < |stores|
    {
      var s := stores[i];
      if i != DAILY || s.index == [] || PackageLog(s.index[|s.index| - 1]) !in s.tables then this
      else this.(eventBeginTime := s.index[|s.index| - 1])
    }

    /** Old tables go: `lengths[i]` is the length of a period of interval `i`. */
    function Dropped(i: nat, now: int, lengths: seq<int>): Database
      requires i < 4 && |stores| == 4 && |lengths| == 4
    {
      this.(stores := stores[i := stores[i].DropBefore(Cutoff(i, now, lengths[i]))])
    }

    function Reread(i: nat): (d': Database)
      requires i < 4 && |stores| == 4
      ensures |d'.stores| == 4
    {
      var d := HandleTableInfo(i);
      d.(stores := d.stores[i := d.stores[i].DeleteExcessive(MAX_FILES_EVERY_INTERVAL_TYPE[i])])
    }

    function RemoveOld(now: int, lengths: seq<int>): (d: Database)
      requires |stores| == 4 && |lengths| == 4
      ensures |d.stores| == 4
    {
      Dropped(YEARLY, now, lengths).Dropped(MONTHLY, now, lengths).Dropped(WEEKLY, now, lengths)
        .Dropped(DAILY, now, lengths).Reread(DAILY).Reread(WEEKLY).Reread(MONTHLY).Reread(YEARLY)
    }

    /** Start-up reads the names of the first `n` databases and bounds their number. */
    function RereadUpTo(n: nat): (d: Database)
      requires n <= 4 && |stores| == 4
      ensures |d.stores| == 4 && d.events == events && d.debug == debug
    {
      if n == 0 then this else RereadUpTo(n - 1).Reread(n - 1)
    }

    /** ... and then drops what lies in the future. */
    function Init(currentTime: int): (d: Database)
      requires |stores| == 4
      ensures |d.stores| == 4
    {
      var read := RereadUpTo(4);
      Database([read.stores[DAILY].DropFrom(currentTime), read.stores[WEEKLY].DropFrom(currentTime),
                read.stores[MONTHLY].DropFrom(currentTime), read.stores[YEARLY].DropFrom(currentTime)],
               E.Initialised(E.Purged(events, read.eventBeginTime, Retention()), currentTime), read.eventBeginTime, debug)
    }

    /** The time shift of one interval. */
    function RenewedStore(i: nat, diff: int): (d: Database)
      requires i < 4 && |stores| == 4
      ensures |d.stores| == 4
    {
      if stores[i].index == [] then this
      else
        var renamed := Store([], RenamedAll(stores[i].tables, stores[i].index, diff));
        this.(stores := stores[i := renamed]).Reread(i)
    }

    function RenewedEvents(diff: int): Database {
      if events.NoTable? then this
      else if events.start + diff < 0 then this.(events := E.NoTable)
      else this.(events := events.(start := events.start + diff))
    }

    function Renewed(diff: int): (d: Database)
      requires |stores| == 4
      ensures |d.stores| == 4
    {
      RenewedStore(DAILY, diff).RenewedStore(WEEKLY, diff).RenewedStore(MONTHLY, diff).RenewedStore(YEARLY, diff)
        .RenewedEvents(diff)
    }

    function QueryUsage(i: nat, beginTime: int, endTime: int, userId: int, bundleName: string): multiset<Report>
      requires i < |stores|
    {
      Query(stores[i], beginTime, endTime, userId, bundleName)
    }
  }

  // ----- each store on its own -----

  lemma UpdateIsUpdated(d: Database, i: nat, begin: int, userId: int, bundleStats: map<Key, Usage>)
    requires |d.stores| == 4 && i < 4
    ensures var d' := d.UpdateUsage(i, begin, userId, bundleStats);
            && d'.stores == d.stores[i := d.stores[i].Updated(begin, userId, bundleStats, MAX_FILES_EVERY_INTERVAL_TYPE[i])]
            && d'.debug == d.debug && d'.events.DeviceEventLog? == d.events.DeviceEventLog?
            && (d.events.DeviceEventLog? ==> d'.events.start == d.events.start)
  {
  }

  lemma DroppedStore(d: Database, j: nat, now: int, lengths: seq<int>, i: nat)
    requires |d.stores| == 4 && j < 4 && i < 4 && |lengths| == 4
    ensures var d' := d.Dropped(j, now, lengths);
            |d'.stores| == 4
            && d'.stores[i] == if i == j then d.stores[i].DropBefore(Cutoff(i, now, lengths[i]))
                               else d.stores[i]
  {
  }

  lemma RereadStore(d: Database, j: nat, i: nat)
    requires |d.stores| == 4 && j < 4 && i < 4
    ensures d.Reread(j).stores[i]
         == if i == j then d.stores[i].HandleTableInfo().DeleteExcessive(MAX_FILES_EVERY_INTERVAL_TYPE[i]) else d.stores[i]
  {
  }

  /** Dropping the old tables of all intervals first and reading the names afterwards treats each store alone. */
  lemma RemoveOldIsRemovedOld(d: Database, now: int, lengths: seq<int>, i: nat)
    requires |d.stores| == 4 && |lengths| == 4 && i < 4
    ensures d.RemoveOld(now, lengths).stores[i]
         == d.stores[i].RemovedOld(Cutoff(i, now, lengths[i]), MAX_FILES_EVERY_INTERVAL_TYPE[i])
  {
    var d1 := d.Dropped(YEARLY, now, lengths);
    DroppedStore(d, YEARLY, now, lengths, i);
    var d2 := d1.Dropped(MONTHLY, now, lengths);
    DroppedStore(d1, MONTHLY, now, lengths, i);
    var d3 := d2.Dropped(WEEKLY, now, lengths);
    DroppedStore(d2, WEEKLY, now, lengths, i);
    var d4 := d3.Dropped(DAILY, now, lengths);
    DroppedStore(d3, DAILY, now, lengths, i);
    RereadStore(d4, DAILY, i);
    RereadStore(d4.Reread(DAILY), WEEKLY, i);
    RereadStore(d4.Reread(DAILY).Reread(WEEKLY), MONTHLY, i);
    RereadStore(d4.Reread(DAILY).Reread(WEEKLY).Reread(MONTHLY), YEARLY, i);
  }

  lemma {:induction false} RereadUpToAt(d: Database, n: nat, i: nat)
    requires |d.stores| == 4 && n <= 4 && i < 4
    ensures d.RereadUpTo(n).stores[i]
         == if i < n then d.stores[i].HandleTableInfo().DeleteExcessive(MAX_FILES_EVERY_INTERVAL_TYPE[i]) else d.stores[i]
  {
    if n == 0 {
    } else {
      RereadUpToAt(d, n - 1, i);
      RereadUpToAt(d, n - 1, n - 1);
      RereadStore(d.RereadUpTo(n - 1), n - 1, i);
    }
  }

  /** Start-up treats each store alone. */
  lemma InitIsInit(d: Database, currentTime: int, i: nat)
    requires |d.stores| == 4 && i < 4
    ensures d.Init(currentTime).stores[i] == d.stores[i].Init(currentTime, MAX_FILES_EVERY_INTERVAL_TYPE[i])
  {
    RereadUpToAt(d, 4, i);
  }

  /** Purging at start-up is relative to the begin of the latest daily table that is read. */
  lemma {:induction false} LatestDayIsRead(d: Database, n: nat)
    requires |d.stores| == 4 && 0 < n <= 4
    ensures d.RereadUpTo(n).eventBeginTime
         == if d.stores[DAILY].tables != map[] then Latest(d.stores[DAILY].tables.Keys) else d.eventBeginTime
  {
    if n == 1 {
      assert d.RereadUpTo(0) == d;
      SortedStartsAreSorted(d.stores[DAILY].tables.Keys);
    } else {
      LatestDayIsRead(d, n - 1);
    }
  }

  function Latest(tables: set<TableName>): int
    requires tables != {}
  {
    SortedStartsAreSorted(tables);
    SortedStarts(tables)[|tables| - 1]
  }

  lemma RenewedStoreAt(d: Database, j: nat, diff: int, i: nat)
    requires |d.stores| == 4 && j < 4 && i < 4
    ensures d.RenewedStore(j, diff).stores[i]
         == if i == j then d.stores[i].Renewed(diff, MAX_FILES_EVERY_INTERVAL_TYPE[i]) else d.stores[i]
  {
    if d.stores[j].index != [] {
      var renamed := Store([], RenamedAll(d.stores[j].tables, d.stores[j].index, diff));
      RereadStore(d.(stores := d.stores[j := renamed]), j, i);
    }
  }

  lemma RenewedHalf(d: Database, j: nat, l: nat, diff: int, i: nat)
    requires |d.stores| == 4 && j < 4 && l < 4 && j != l && i < 4
    ensures d.RenewedStore(j, diff).RenewedStore(l, diff).stores[i]
         == if i == j || i == l then d.stores[i].Renewed(diff, MAX_FILES_EVERY_INTERVAL_TYPE[i]) else d.stores[i]
  {
    RenewedStoreAt(d, j, diff, i);
    RenewedStoreAt(d.RenewedStore(j, diff), l, diff, i);
  }

  lemma RenewedIsHalves(d: Database, half: Database, diff: int)
    requires |d.stores| == 4 && half == d.RenewedStore(DAILY, diff).RenewedStore(WEEKLY, diff)
    ensures d.Renewed(diff).stores == half.RenewedStore(MONTHLY, diff).RenewedStore(YEARLY, diff).stores
  {
  }

  /** The time shift treats each store alone. */
  lemma RenewedIsRenewed(d: Database, diff: int, i: nat)
    requires |d.stores| == 4 && i < 4
    ensures d.Renewed(diff).stores[i] == d.stores[i].Renewed(diff, MAX_FILES_EVERY_INTERVAL_TYPE[i])
  {
    var half := d.RenewedStore(DAILY, diff).RenewedStore(WEEKLY, diff);
    RenewedHalf(d, DAILY, WEEKLY, diff, i);
    RenewedHalf(half, MONTHLY, YEARLY, diff, i);
    RenewedIsHalves(d, half, diff);
  }

  lemma HandledIsValid(d: Database, i: nat)
    requires d.Valid() && i < 4
    ensures d.HandleTableInfo(i).Valid()
  {
    SortedStartsAreSorted(d.stores[i].tables.Keys);
  }

  lemma WithoutMiddle(index: seq<int>, start: nat, j: nat)
    requires start <= j < |index|
    ensures var rest := index[..start] + index[j..];
            && rest[start] == index[j]
            && rest[..start] + rest[start + 1..] == index[..start] + index[j + 1..]
  {
  }

  lemma CutAt(index: seq<int>, start: nat)
    requires start <= |index|
    ensures index[..start] + index[start..] == index
    ensures index[start..|index|] == index[start..] && index[..start] + index[|index|..] == index[..start]
  {
  }

  // ----- the object -----

  class UsageDatabase {
    var stores: seq<Store>
    var events: E.EventTable
    var eventBeginTime: int
    var debug: bool

    function View(): Database
      reads this
    {
      Database(stores, events, eventBeginTime, debug)
    }

    constructor (debug: bool)
      ensures View() == Database([EMPTY, EMPTY, EMPTY, EMPTY], E.NoTable, E.EVENT_BEGIN_TIME_INITIAL_VALUE, debug)
      ensures View().Valid()
    {
      stores := [EMPTY, EMPTY, EMPTY, EMPTY];
      events, eventBeginTime := E.NoTable, E.EVENT_BEGIN_TIME_INITIAL_VALUE;
      this.debug := debug;
    }

    /** `drop table`; the index is the caller's business. */
    method DeleteInvalidTable(databaseType: nat, tableTimeMillis: int)
      requires databaseType < |stores|
      modifies this`stores
      ensures stores == old(stores)[databaseType := old(stores[databaseType]).(
                          tables := old(stores[databaseType].tables) - {PackageLog(tableTimeMillis)})]
    {
      var s := stores[databaseType];
      stores := stores[databaseType := s.(tables := s.tables - {PackageLog(tableTimeMillis)})];
    }

    method HandleTableInfo(databaseType: nat)
      requires View().Valid() && databaseType < 4
      modifies this
      ensures View() == old(View()).HandleTableInfo(databaseType) && View().Valid()
    {
      HandledIsValid(View(), databaseType);
      var s := stores[databaseType];
      if s.tables == map[] {
        return;
      }
      var index := SortedStarts(s.tables.Keys);
      stores := stores[databaseType := s.(index := index)];
      if databaseType == DAILY && index != [] {
        eventBeginTime := index[|index| - 1];
      }
    }

    method DeleteExcessiveTableData(databaseType: nat)
      requires View().Valid() && databaseType < 4
      modifies this`stores
      ensures View().Valid()
      ensures stores == old(stores)[databaseType := old(stores[databaseType])
                                      .DeleteExcessive(MAX_FILES_EVERY_INTERVAL_TYPE[databaseType])]
    {
      ghost var s0 := stores[databaseType];
      if stores[databaseType].index == [] {
        return;
      }
      var existingNumber := |stores[databaseType].index|;
      var deleteNumber := existingNumber - MAX_FILES_EVERY_INTERVAL_TYPE[databaseType];
      if deleteNumber > 0 {
        NothingDropped(s0.index, 0, s0.tables);
        for i := 0 to deleteNumber
          invariant |stores| == 4
          invariant stores == old(stores)[databaseType := Store(s0.index[i..], s0.tables - NamesOf(s0.index[0..i]))]
        {
          OneMoreDropped(s0.index, 0, i, s0.tables);
          DeleteInvalidTable(databaseType, stores[databaseType].index[0]);
          var s := stores[databaseType];
          stores := stores[databaseType := s.(index := s.index[1..])];
        }
        assert s0.index[0..deleteNumber] == s0.index[..deleteNumber];
      }
    }

    /** Whatever the index held, start-up leaves no table at or after the current time. */
    method InitDatabaseTableInfo(currentTime: int)
      requires View().Valid()
      modifies this
      ensures View() == old(View()).Init(currentTime) && View().Valid()
    {
      ghost var d := View();
      for i := 0 to 4
        invariant View().Valid() && View() == d.RereadUpTo(i)
      {
        HandleTableInfo(i);
        DeleteExcessiveTableData(i);
      }
      events := E.Purged(events, eventBeginTime, View().Retention());
      ghost var read := stores;
      for i := 0 to 4
        invariant View().Valid() && debug == d.debug && eventBeginTime == d.RereadUpTo(4).eventBeginTime
        invariant events == E.Purged(d.events, eventBeginTime, d.Retention()) && |read| == 4
        invariant forall j :: 0 <= j < 4 ==> stores[j] == if j < i then read[j].DropFrom(currentTime) else read[j]
      {
        DropFrom(i, currentTime);
      }
      assert stores == d.Init(currentTime).stores;
      events := E.Initialised(events, currentTime);
    }

    method DropFrom(databaseType: nat, currentTime: int)
      requires View().Valid() && databaseType < 4
      modifies this`stores
      ensures View().Valid()
      ensures stores == old(stores)[databaseType := old(stores[databaseType]).DropFrom(currentTime)]
    {
      ghost var s0 := stores[databaseType];
      var startIndex := NearIndexOnOrAfterCurrentTime(currentTime, stores[databaseType].index);
      if startIndex < 0 {
        CutAt(s0.index, |s0.index|);
        NothingDropped(s0.index, |s0.index|, s0.tables);
        return;
      }
      var tableNumber := |stores[databaseType].index|;
      NothingDropped(s0.index, startIndex, s0.tables);
      CutAt(s0.index, startIndex);
      for j := startIndex to tableNumber
        invariant |stores| == 4
        invariant stores == old(stores)[databaseType := Store(s0.index[..startIndex] + s0.index[j..],
                                                              s0.tables - NamesOf(s0.index[startIndex..j]))]
      {
        OneMoreDropped(s0.index, startIndex, j, s0.tables);
        WithoutMiddle(s0.index, startIndex, j);
        DeleteInvalidTable(databaseType, stores[databaseType].index[startIndex]);
        var s := stores[databaseType];
        stores := stores[databaseType := s.(index := s.index[..startIndex] + s.index[startIndex + 1..])];
      }
    }

    method UpdateBundleUsageData(databaseType: nat, beginTime: int, userId: int, bundleStats: map<Key, Usage>)
      requires View().Valid() && databaseType < 4
      modifies this
      ensures View() == old(View()).UpdateUsage(databaseType, beginTime, userId, bundleStats)
      ensures View().Valid()
    {
      var packageTableIndex := BinarySearch(stores[databaseType].index, beginTime);
      if packageTableIndex < 0 {
        AddPackageLogTable(databaseType, beginTime);
      }
      FlushPackageInfo(databaseType, beginTime, userId, bundleStats);
    }

    method AddPackageLogTable(databaseType: nat, beginTime: int)
      requires View().Valid() && databaseType < 4 && beginTime !in stores[databaseType].index
      modifies this
      ensures View() == old(View()).WithTable(databaseType, beginTime)
      ensures View().Valid()
    {
      // CREATE TABLE IF NOT EXISTS
      var s := stores[databaseType];
      var table := if PackageLog(beginTime) in s.tables then s.tables[PackageLog(beginTime)] else map[];
      s := s.(tables := s.tables[PackageLog(beginTime) := table]);
      if databaseType == DAILY {
        eventBeginTime := beginTime;
        events := E.Purged(events, eventBeginTime, View().Retention());
      }
      InsertStartKeepsOrder(s.index, beginTime);
      stores := stores[databaseType := s.(index := InsertStart(s.index, beginTime))];
      DeleteExcessiveTableData(databaseType);
    }

    /** The rows are updated or inserted one by one; a missing table makes every statement fail. */
    method FlushPackageInfo(databaseType: nat, beginTime: int, userId: int, bundleStats: map<Key, Usage>)
      requires databaseType < |stores|
      modifies this`stores
      ensures stores == old(stores)[databaseType := old(stores[databaseType])
                                      .WithRows(beginTime, FlushedRows(beginTime, userId, bundleStats))]
    {
      var s := stores[databaseType];
      if PackageLog(beginTime) in s.tables {
        var table := s.tables[PackageLog(beginTime)];
        var packageLog := new PackageLogTable(table);
        packageLog.FlushPackageInfo(userId, beginTime, bundleStats, table);
        var flushed := packageLog.Contents(table + FlushedRows(beginTime, userId, bundleStats));
        stores := stores[databaseType := s.(tables := s.tables[PackageLog(beginTime) := flushed])];
      }
    }

    method UpdateEventData(databaseType: nat, beginTime: int, userId: int, pending: seq<Event>)
      modifies this`events
      ensures View() == if databaseType == DAILY && pending != []
                        then old(View()).UpdateEvents(beginTime, userId, pending) else old(View())
    {
      if databaseType != DAILY {
        return;
      }
      if |pending| != 0 {
        events := E.Opened(events, beginTime);
        var rows: seq<E.EventRow> := [];
        for i := 0 to |pending|
          invariant rows == E.RowsOf(events.start, userId, pending[..i])
        {
          rows := rows + [E.RowOf(events.start, userId, pending[i])];
        }
        assert pending[..|pending|] == pending;
        events := events.(rows := events.rows + rows);
      }
    }

    method GetCurrentUsageData(databaseType: nat, userId: int) returns (stats: Loaded)
      requires databaseType < |stores|
      modifies this`eventBeginTime
      ensures stats == old(View()).Current(databaseType, userId)
      ensures View() == old(View()).AfterCurrent(databaseType)
    {
      var s := stores[databaseType];
      var tableNumber := |s.index|;
      if tableNumber == 0 {
        return NoStats;
      }
      var currentPackageTime := s.index[tableNumber - 1];
      if PackageLog(currentPackageTime) !in s.tables {
        return NoStats;
      }
      var bundleStats := GetCurrentBundleStats(currentPackageTime, userId, s.tables[PackageLog(currentPackageTime)]);
      if databaseType == DAILY {
        eventBeginTime := currentPackageTime;
      }
      return Stats(currentPackageTime, bundleStats);
    }

    method GetCurrentBundleStats(currentPackageTime: int, userId: int, table: Table)
      returns (bundleStats: map<Key, Usage>)
      ensures bundleStats == LoadedStats(currentPackageTime, userId, table)
    {
      bundleStats := map[];
      var rows := set rk | rk in table && rk.userId == userId;
      ghost var done: set<RowKey> := {};
      while rows != {}
        invariant rows + done == set rk | rk in table && rk.userId == userId
        invariant forall rk :: rk in done ==> rk in table && rk.userId == userId
        invariant forall k :: k in bundleStats <==> RowKey(userId, k) in done
        invariant forall k :: k in bundleStats ==> bundleStats[k] == UsageOf(currentPackageTime, table[RowKey(userId, k)])
        decreases rows
      {
        var rk :| rk in rows;
        bundleStats := bundleStats[rk.key := UsageOf(currentPackageTime, table[rk])];
        rows := rows - {rk};
        done := done + {rk};
      }
      forall k
        ensures k in bundleStats <==> k in LoadedStats(currentPackageTime, userId, table)
      {
        LoadedAt(currentPackageTime, userId, table, k);
      }
    }

    method RemoveOldData(currentTime: int, lengths: seq<int>)
      requires View().Valid() && |lengths| == 4
      modifies this
      ensures View() == old(View()).RemoveOld(currentTime, lengths) && View().Valid()
    {
      DeleteOverdue(YEARLY, currentTime, lengths);
      DeleteOverdue(MONTHLY, currentTime, lengths);
      DeleteOverdue(WEEKLY, currentTime, lengths);
      DeleteOverdue(DAILY, currentTime, lengths);
      Reread(DAILY);
      Reread(WEEKLY);
      Reread(MONTHLY);
      Reread(YEARLY);
    }

    method Reread(databaseType: nat)
      requires View().Valid() && databaseType < 4
      modifies this
      ensures View() == old(View()).Reread(databaseType) && View().Valid()
    {
      HandleTableInfo(databaseType);
      DeleteExcessiveTableData(databaseType);
    }

    method DeleteOverdue(databaseType: nat, currentTime: int, lengths: seq<int>)
      requires View().Valid() && databaseType < 4 && |lengths| == 4
      modifies this`stores
      ensures View() == old(View()).Dropped(databaseType, currentTime, lengths) && View().Valid()
    {
      var cutoff := currentTime - MAX_FILES_EVERY_INTERVAL_TYPE[databaseType] * lengths[databaseType];
      ghost var s0 := stores[databaseType];
      var overdue := set n | n in stores[databaseType].tables && n.startTime < cutoff;
      while overdue != {}
        invariant |stores| == 4 && stores == old(stores)[databaseType := stores[databaseType]]
        invariant stores[databaseType].index == s0.index && stores[databaseType].tables.Keys <= s0.tables.Keys
        invariant forall n :: n in overdue ==> n.startTime < cutoff
        invariant forall n :: n in s0.tables ==>
                    (n in stores[databaseType].tables <==> n.startTime >= cutoff || n in overdue)
        invariant forall n :: n in stores[databaseType].tables ==> stores[databaseType].tables[n] == s0.tables[n]
        decreases overdue
      {
        var n :| n in overdue;
        DeleteInvalidTable(databaseType, n.startTime);
        overdue := overdue - {n};
      }
      assert stores[databaseType].tables == s0.DropBefore(cutoff).tables;
    }

    method RenewTableTime(timeDiffMillis: int)
      requires View().Valid()
      modifies this
      ensures View() == old(View()).Renewed(timeDiffMillis) && View().Valid()
    {
      RenewStore(DAILY, timeDiffMillis);
      RenewStore(WEEKLY, timeDiffMillis);
      RenewStore(MONTHLY, timeDiffMillis);
      RenewStore(YEARLY, timeDiffMillis);
      if events.DeviceEventLog? {
        var newTime := events.start + timeDiffMillis;
        if newTime < 0 {
          events := E.NoTable;
        } else {
          events := events.(start := newTime);
        }
      }
    }

    method RenewStore(databaseType: nat, timeDiffMillis: int)
      requires View().Valid() && databaseType < 4
      modifies this
      ensures View() == old(View()).RenewedStore(databaseType, timeDiffMillis) && View().Valid()
    {
      if stores[databaseType].index == [] {
        return;
      }
      RenameTables(databaseType, stores[databaseType].index, timeDiffMillis);
      stores := stores[databaseType := stores[databaseType].(index := [])];
      Reread(databaseType);
    }

    method RenameTables(databaseType: nat, tableArray: seq<int>, timeDiffMillis: int)
      requires databaseType < |stores|
      modifies this`stores
      ensures stores == old(stores)[databaseType := old(stores[databaseType]).(
                          tables := RenamedAll(old(stores[databaseType]).tables, tableArray, timeDiffMillis))]
    {
      ghost var s0 := stores[databaseType];
      for j := 0 to |tableArray|
        invariant |stores| == |old(stores)|
        invariant stores == old(stores)[databaseType := s0.(tables := RenamedAll(s0.tables, tableArray[..j], timeDiffMillis))]
      {
        assert tableArray[..j + 1][..j] == tableArray[..j];
        var newTime := tableArray[j] + timeDiffMillis;
        if newTime < 0 {
          DeleteInvalidTable(databaseType, tableArray[j]);
        } else {
          RenameTableName(databaseType, tableArray[j], newTime);
        }
      }
      assert tableArray[..|tableArray|] == tableArray;
    }

    /** `alter table ... rename to` fails when the old table is missing or the new name is taken. */
    method RenameTableName(databaseType: nat, tableOldTime: int, tableNewTime: int)
      requires databaseType < |stores| && tableNewTime >= 0
      modifies this`stores
      ensures stores == old(stores)[databaseType := old(stores[databaseType]).(
                          tables := RenamedOne(old(stores[databaseType].tables), tableOldTime, tableNewTime))]
    {
      var s := stores[databaseType];
      if PackageLog(tableOldTime) in s.tables && PackageLog(tableNewTime) !in s.tables {
        var renamed := (s.tables - {PackageLog(tableOldTime)})[PackageLog(tableNewTime) := s.tables[PackageLog(tableOldTime)]];
        stores := stores[databaseType := s.(tables := renamed)];
      }
    }

    method GetQuerySqlCommand(beginTime: int, endTime: int, databaseType: nat, index: nat, startIndex: nat, endIndex: nat)
      returns (bounds: Bounds)
      requires databaseType < |stores| && index < |stores[databaseType].index|
      ensures bounds == BoundsFor(stores[databaseType].index[index], index, Tables(startIndex, endIndex), beginTime, endTime)
    {
      var packageTableTime := stores[databaseType].index[index];
      var diff := beginTime - packageTableTime;
      if startIndex == endIndex {
        return Between(if diff >= 0 then diff else LAST_TIME_IN_MILLIS_MIN, endTime - packageTableTime);
      } else if index == startIndex {
        return AtLeast(if diff >= 0 then diff else LAST_TIME_IN_MILLIS_MIN);
      } else if index == endIndex {
        return AtMost(endTime - packageTableTime);
      } else {
        return Anything;
      }
    }

    method QueryDatabaseUsageStats(databaseType: nat, beginTime: int, endTime: int, userId: int, bundleName: string)
      returns (databaseUsageStats: seq<Report>)
      requires View().Valid() && databaseType < 4
      ensures multiset(databaseUsageStats) == View().QueryUsage(databaseType, beginTime, endTime, userId, bundleName)
    {
      databaseUsageStats := [];
      var s := stores[databaseType];
      var ok, startIndex, endIndex := GetDbIndex(beginTime, endTime, s.index);
      if !ok {
        return;
      }
      ghost var r := DbRange(s.index, beginTime, endTime);
      DbRangeIsProper(s.index, beginTime, endTime);
      ghost var all := View().QueryUsage(databaseType, beginTime, endTime, userId, bundleName);
      var i := startIndex;
      while i <= endIndex
        invariant r.start <= i <= r.end + 1
        invariant multiset(databaseUsageStats) + PickedFrom(s, i, r, beginTime, endTime, userId, bundleName) == all
      {
        var bounds := GetQuerySqlCommand(beginTime, endTime, databaseType, i, startIndex, endIndex);
        var rows := Picked(TableAt(s, s.index[i]), s.index[i], userId, bundleName, bounds);
        databaseUsageStats := ReadRows(databaseUsageStats, rows);
        i := i + 1;
      }
    }

    method ReadRows(before: seq<Report>, rows: set<Report>) returns (after: seq<Report>)
      ensures multiset(after) == multiset(before) + multiset(rows)
    {
      after := before;
      var todo := rows;
      while todo != {}
        invariant multiset(after) + multiset(todo) == multiset(before) + multiset(rows)
        decreases todo
      {
        var row :| row in todo;
        after := after + [row];
        todo := todo - {row};
      }
    }

    method QueryDatabaseEvents(beginTime: int, endTime: int, userId: int, bundleName: string)
      returns (databaseEvents: seq<E.Recorded>)
      ensures databaseEvents == E.QueryTable(events, beginTime, endTime, userId, bundleName)
    {
      databaseEvents := [];
      if events.NoTable? || endTime <= beginTime || endTime < events.start {
        return;
      }
      for i := 0 to |events.rows|
        invariant databaseEvents == E.Selected(events.start, events.rows[..i], beginTime, endTime, userId, bundleName)
      {
        assert events.rows[..i + 1][..i] == events.rows[..i];
        if E.Selects(events.start, events.rows[i], beginTime, endTime, userId, bundleName) {
          databaseEvents := databaseEvents + [E.Read(events.start, events.rows[i])];
        }
      }
      assert events.rows[..|events.rows|] == events.rows;
    }
  }

  lemma NothingDropped(s: seq<int>, i: nat, tables: map<TableName, Table>)
    requires i <= |s|
    ensures tables - NamesOf(s[i..i]) == tables
  {
    NamesOfEmpty(s[i..i]);
  }

  lemma OneMoreDropped(s: seq<int>, i: nat, j: nat, tables: map<TableName, Table>)
    requires i <= j < |s|
    ensures tables - NamesOf(s[i..j + 1]) == tables - NamesOf(s[i..j]) - {PackageLog(s[j])}
  {
    assert s[i..j + 1] == s[i..j] + [s[j]];
    assert NamesOf(s[i..j + 1]) == NamesOf(s[i..j]) + {PackageLog(s[j])} by {
      forall x
        ensures x in NamesOf(s[i..j + 1]) <==> x in NamesOf(s[i..j]) || x == PackageLog(s[j])
      {
        assert x.startTime in s[i..j + 1] <==> x.startTime in s[i..j] || x.startTime == s[j];
      }
    }
  }

  lemma LoadedAt(tableTime: int, userId: int, table: Table, k: Key)
    ensures k in LoadedStats(tableTime, userId, table) <==> RowKey(userId, k) in table
    ensures k in LoadedStats(tableTime, userId, table) ==>
              LoadedStats(tableTime, userId, table)[k] == UsageOf(tableTime, table[RowKey(userId, k)])
  {
  }
}
