/**
 One usage database file as a value: the tables, named by their start times, and the sorted index over
 them (services/common/src/bundle_active_usage_database.cpp). A row holds its last-used times relative to
 the start of its table; -1 stands for "never".
 */
module UsageStore {
  import opened Events
  import opened PackageStats
  import opened TableIndex

  datatype RowKey = RowKey(userId: int, key: Key)

  datatype Row = Row(startCount: int, lastTime: int, lastTask: int, totalTime: int, totalTask: int)

  type Table = map<RowKey, Row>

  function Encode(tableTime: int, t: int): int {
    if t == -1 then -1 else t - tableTime
  }

  function Decode(tableTime: int, relative: int): int {
    if relative == -1 then -1 else relative + tableTime
  }

  /** Encoding loses exactly the instant one millisecond before the table starts. */
  lemma EncodeRoundTrip(tableTime: int, t: int)
    ensures Decode(tableTime, Encode(tableTime, t)) == t <==> t == -1 || t != tableTime - 1
  {
  }

  predicate HasUsage(u: Usage) {
    u.totalInFrontTime != 0 || u.totalContinuousTaskUsedTime != 0
  }

  function RowOf(tableTime: int, u: Usage): Row {
    Row(u.startCount, Encode(tableTime, u.lastTimeUsed), Encode(tableTime, u.lastContinuousTaskUsed),
        u.totalInFrontTime, u.totalContinuousTaskUsedTime)
  }

  /** The entry that loading a row creates: the persisted counters, and nothing in front. */
  function UsageOf(tableTime: int, r: Row): Usage {
    NEW_USAGE.(startCount := r.startCount,
               lastTimeUsed := Decode(tableTime, r.lastTime),
               lastContinuousTaskUsed := Decode(tableTime, r.lastTask),
               totalInFrontTime := r.totalTime,
               totalContinuousTaskUsedTime := r.totalTask)
  }

  function FlushedRows(tableTime: int, userId: int, stats: map<Key, Usage>): Table {
    map rk | rk in RowKeys(userId, stats.Keys) && rk.key in stats && HasUsage(stats[rk.key])
           :: RowOf(tableTime, stats[rk.key])
  }

  function RowKeys(userId: int, keys: set<Key>): set<RowKey> {
    set k | k in keys :: RowKey(userId, k)
  }

  lemma FlushedRowsAt(tableTime: int, userId: int, stats: map<Key, Usage>, rk: RowKey)
    ensures rk in FlushedRows(tableTime, userId, stats) <==>
              rk.userId == userId && rk.key in stats && HasUsage(stats[rk.key])
    ensures rk in FlushedRows(tableTime, userId, stats) ==>
              FlushedRows(tableTime, userId, stats)[rk] == RowOf(tableTime, stats[rk.key])
  {
    if rk.userId == userId && rk.key in stats {
      assert rk == RowKey(userId, rk.key);
    }
  }

  function LoadedStats(tableTime: int, userId: int, table: Table): map<Key, Usage> {
    map rk | rk in table && rk.userId == userId :: rk.key := UsageOf(tableTime, table[rk])
  }

  /** What survives a save and a load. */
  predicate SamePersisted(u: Usage, v: Usage) {
    && u.startCount == v.startCount && u.lastTimeUsed == v.lastTimeUsed
    && u.lastContinuousTaskUsed == v.lastContinuousTaskUsed
    && u.totalInFrontTime == v.totalInFrontTime
    && u.totalContinuousTaskUsedTime == v.totalContinuousTaskUsedTime
  }

  predicate Encodable(tableTime: int, u: Usage) {
    && (u.lastTimeUsed == -1 || u.lastTimeUsed != tableTime - 1)
    && (u.lastContinuousTaskUsed == -1 || u.lastContinuousTaskUsed != tableTime - 1)
  }

  /**
   Save and load: an entry with usage comes back with every persisted field if and only if neither of its
   last-used times is the instant just before the table; every other entry keeps what the table held.
   */
  lemma FlushThenLoad(tableTime: int, userId: int, stats: map<Key, Usage>, table: Table, key: Key)
    ensures var loaded := LoadedStats(tableTime, userId, table + FlushedRows(tableTime, userId, stats));
            if key in stats && HasUsage(stats[key]) then
              key in loaded && (SamePersisted(loaded[key], stats[key]) <==> Encodable(tableTime, stats[key]))
              && loaded[key].abilities == map[] && loaded[key].longTimeTasks == map[]
            else if RowKey(userId, key) in table then
              key in loaded && loaded[key] == UsageOf(tableTime, table[RowKey(userId, key)])
            else key !in loaded
  {
    var flushed := table + FlushedRows(tableTime, userId, stats);
    FlushedRowsAt(tableTime, userId, stats, RowKey(userId, key));
    assert RowKey(userId, key) in flushed <==>
             RowKey(userId, key) in table || (key in stats && HasUsage(stats[key]));
    var loaded := LoadedStats(tableTime, userId, flushed);
    assert key in loaded <==> RowKey(userId, key) in flushed;
  }

  /** A flush of one user does not touch the rows of another. */
  lemma FlushFrames(tableTime: int, userId: int, stats: map<Key, Usage>, table: Table, other: RowKey)
    requires other.userId != userId
    ensures var flushed := table + FlushedRows(tableTime, userId, stats);
            (other in flushed <==> other in table) && (other in table ==> flushed[other] == table[other])
  {
  }

  // ----- the store -----

  function InsertStart(index: seq<int>, t: int): seq<int> {
    var n := LowerBound(index, t);
    index[..n] + [t] + index[n..]
  }

  datatype Store = Store(index: seq<int>, tables: map<TableName, Table>)
  {
    /** The index is the ascending list of exactly the stored tables. */
    ghost predicate IndexOk() {
      StrictlyIncreasing(index) && NamesOf(index) == tables.Keys
    }

    /** Reading the table names: an empty store leaves the index as it was. */
    function HandleTableInfo(): Store {
      if tables == map[] then this else Store(SortedStarts(tables.Keys), tables)
    }

    function DeleteExcessive(max: nat): Store {
      if |index| <= max then this
      else
        var n := |index| - max;
        Store(index[n..], tables - NamesOf(index[..n]))
    }

    function DropFrom(t: int): Store {
      var n := LowerBound(index, t);
      Store(index[..n], tables - NamesOf(index[n..]))
    }

    function Init(currentTime: int, max: nat): Store {
      HandleTableInfo().DeleteExcessive(max).DropFrom(currentTime)
    }

    /** `CREATE TABLE IF NOT EXISTS` and its entry in the index. */
    function WithTable(t: int, max: nat): Store {
      if t in index then this
      else
        var table := if PackageLog(t) in tables then tables[PackageLog(t)] else map[];
        Store(InsertStart(index, t), tables[PackageLog(t) := table]).DeleteExcessive(max)
    }

    /** Rows go to a table that exists; statements on a missing table fail and change nothing. */
    function WithRows(t: int, rows: Table): Store {
      if PackageLog(t) in tables then this.(tables := tables[PackageLog(t) := tables[PackageLog(t)] + rows]) else this
    }

    function Updated(t: int, userId: int, stats: map<Key, Usage>, max: nat): Store {
      WithTable(t, max).WithRows(t, FlushedRows(t, userId, stats))
    }

    /** Old tables are dropped; the index is not touched. */
    function DropBefore(cutoff: int): Store {
      this.(tables := map n | n in tables && n.startTime >= cutoff :: tables[n])
    }

    function RemovedOld(cutoff: int, max: nat): Store {
      DropBefore(cutoff).HandleTableInfo().DeleteExcessive(max)
    }

    function Renewed(diff: int, max: nat): Store {
      if index == [] then this
      else Store([], RenamedAll(tables, index, diff)).HandleTableInfo().DeleteExcessive(max)
    }
  }

  const EMPTY := Store([], map[])

  /** Renaming a table fails when a table of the new name exists. */
  function RenamedOne(tables: map<TableName, Table>, oldTime: int, newTime: int): map<TableName, Table> {
    if newTime < 0 then tables - {PackageLog(oldTime)}
    else if PackageLog(oldTime) !in tables || PackageLog(newTime) in tables then tables
    else (tables - {PackageLog(oldTime)})[PackageLog(newTime) := tables[PackageLog(oldTime)]]
  }

  function RenamedAll(tables: map<TableName, Table>, order: seq<int>, diff: int): map<TableName, Table> {
    if order == [] then tables
    else
      var t := order[|order| - 1];
      RenamedOne(RenamedAll(tables, order[..|order| - 1], diff), t, t + diff)
  }

  // ----- the index -----

  lemma HandledIsOk(s: Store)
    requires s.tables != map[] || s.index == []
    ensures s.HandleTableInfo().IndexOk() && s.HandleTableInfo().tables == s.tables
  {
    SortedStartsAreSorted(s.tables.Keys);
    assert s.tables != map[] <==> s.tables.Keys != {};
    NamesOfEmpty(s.index);
  }

  /** Reading the names of a store that agrees with its index changes nothing. */
  lemma HandledIsIdentity(s: Store)
    requires s.IndexOk()
    ensures s.HandleTableInfo() == s
  {
    if s.tables != map[] {
      SortedStartsAreSorted(s.tables.Keys);
      SortedIsUnique(s.index, SortedStarts(s.tables.Keys));
    }
  }

  lemma NamesSplit(s: seq<int>, n: nat)
    requires n <= |s| && StrictlyIncreasing(s)
    ensures NamesOf(s[..n]) + NamesOf(s[n..]) == NamesOf(s) && NamesOf(s[..n]) !! NamesOf(s[n..])
  {
    assert s == s[..n] + s[n..];
    forall x
      ensures x in NamesOf(s) <==> x in NamesOf(s[..n]) || x in NamesOf(s[n..])
    {
      assert x.startTime in s <==> x.startTime in s[..n] || x.startTime in s[n..];
    }
  }

  lemma CutIsByAge(index: seq<int>, n: nat, gone: TableName, kept: TableName)
    requires StrictlyIncreasing(index) && n <= |index| && gone in NamesOf(index[..n]) && kept in NamesOf(index[n..])
    ensures gone.startTime < kept.startTime
  {
    var i :| 0 <= i < n && index[..n][i] == gone.startTime;
    var j :| 0 <= j < |index| - n && index[n..][j] == kept.startTime;
    assert index[i] < index[n + j];
  }

  /** Eviction keeps the agreement and the bound, and removes only the oldest tables. */
  lemma DeleteExcessiveKeepsIndex(s: Store, max: nat)
    requires s.IndexOk()
    ensures var s' := s.DeleteExcessive(max);
            && s'.IndexOk() && |s'.index| <= max && s'.tables.Keys <= s.tables.Keys
            && (|s.index| <= max ==> s' == s)
            && (forall n :: n in s'.tables ==> s'.tables[n] == s.tables[n])
            && (forall gone, kept :: gone in s.tables && gone !in s'.tables && kept in s'.tables ==>
                  gone.startTime < kept.startTime)
  {
    if |s.index| > max {
      var n := |s.index| - max;
      NamesSplit(s.index, n);
      forall gone, kept | gone in NamesOf(s.index[..n]) && kept in NamesOf(s.index[n..])
        ensures gone.startTime < kept.startTime
      {
        CutIsByAge(s.index, n, gone, kept);
      }
    }
  }

  lemma DropFromKeepsIndex(s: Store, t: int)
    requires s.IndexOk()
    ensures var s' := s.DropFrom(t);
            && s'.IndexOk() && |s'.index| <= |s.index|
            && (forall n :: n in s'.tables <==> n in s.tables && n.startTime < t)
            && (forall n :: n in s'.tables ==> s'.tables[n] == s.tables[n])
  {
    var n := LowerBound(s.index, t);
    NamesSplit(s.index, n);
    forall name | name in s.tables
      ensures name in NamesOf(s.index[..n]) <==> name.startTime < t
    {
      if name in NamesOf(s.index[..n]) {
        var i :| 0 <= i < n && s.index[..n][i] == name.startTime;
      } else {
        assert name in NamesOf(s.index[n..]);
        var j :| 0 <= j < |s.index| - n && s.index[n..][j] == name.startTime;
        assert s.index[n] <= s.index[n + j];
      }
    }
  }

  /**
   Initialisation makes the index agree, whatever it held before, unless no table exists; after it no table
   starts at or after the current time.
   */
  lemma InitKeepsIndex(s: Store, currentTime: int, max: nat)
    requires s.tables != map[] || s.index == []
    ensures var s' := s.Init(currentTime, max);
            && s'.IndexOk() && |s'.index| <= max
            && forall n :: n in s'.tables ==> n.startTime < currentTime
  {
    HandledIsOk(s);
    DeleteExcessiveKeepsIndex(s.HandleTableInfo(), max);
    DropFromKeepsIndex(s.HandleTableInfo().DeleteExcessive(max), currentTime);
  }

  lemma InsertStartKeepsOrder(index: seq<int>, t: int)
    requires StrictlyIncreasing(index) && t !in index
    ensures StrictlyIncreasing(InsertStart(index, t))
    ensures NamesOf(InsertStart(index, t)) == NamesOf(index) + {PackageLog(t)}
    ensures |InsertStart(index, t)| == |index| + 1
  {
    var n := LowerBound(index, t);
    assert n < |index| ==> index[n] in index;
    InsertStartNames(index, t);
  }

  lemma InsertStartNames(index: seq<int>, t: int)
    ensures NamesOf(InsertStart(index, t)) == NamesOf(index) + {PackageLog(t)}
  {
    var n := LowerBound(index, t);
    assert index == index[..n] + index[n..];
    forall x
      ensures x in NamesOf(InsertStart(index, t)) <==> x in NamesOf(index) || x == PackageLog(t)
    {
      assert x.startTime in index <==> x.startTime in index[..n] || x.startTime in index[n..];
      InNames(InsertStart(index, t), x.startTime);
      InNames(index, x.startTime);
    }
  }

  lemma WithTableKeepsIndex(s: Store, t: int, max: nat)
    requires s.IndexOk() && |s.index| <= max
    ensures s.WithTable(t, max).IndexOk() && |s.WithTable(t, max).index| <= max
    ensures forall n :: n in s.WithTable(t, max).tables && n.startTime != t ==>
              n in s.tables && s.WithTable(t, max).tables[n] == s.tables[n]
    ensures |s.index| < max || t in s.index ==>
              s.WithTable(t, max).tables.Keys == s.tables.Keys + {PackageLog(t)}
  {
    InNames(s.index, t);
    if t !in s.index {
      InsertStartKeepsOrder(s.index, t);
      DeleteExcessiveKeepsIndex(Store(InsertStart(s.index, t), s.tables[PackageLog(t) := map[]]), max);
    }
  }

  lemma UpdateKeepsIndex(s: Store, t: int, userId: int, stats: map<Key, Usage>, max: nat)
    requires s.IndexOk() && |s.index| <= max
    ensures s.Updated(t, userId, stats, max).IndexOk() && |s.Updated(t, userId, stats, max).index| <= max
  {
    WithTableKeepsIndex(s, t, max);
    var s1 := s.WithTable(t, max);
    assert s1.WithRows(t, FlushedRows(t, userId, stats)).tables.Keys == s1.tables.Keys;
  }

  /**
   Removing old data keeps the agreement exactly when a table is left (or there was none before): an empty
   store returns early and leaves the stale index behind.
   */
  lemma RemovedOldKeepsIndex(s: Store, cutoff: int, max: nat)
    requires s.IndexOk() && |s.index| <= max
    ensures s.RemovedOld(cutoff, max).IndexOk() <==> s.index == [] || LeavesTable(s, cutoff)
    ensures |s.RemovedOld(cutoff, max).index| <= max
    ensures forall n :: n in s.RemovedOld(cutoff, max).tables <==> n in s.tables && n.startTime >= cutoff
  {
    var kept := map n | n in s.tables && n.startTime >= cutoff :: s.tables[n];
    var s1 := s.DropBefore(cutoff);
    NamesOfEmpty(s.index);
    if LeavesTable(s, cutoff) || s.index == [] {
      if s.index != [] {
        var n :| n in s.tables && n.startTime >= cutoff;
        assert n in kept;
      }
      HandledIsOk(s1);
      IndexSize(s);
      IndexSize(s1.HandleTableInfo());
      SubsetSize(kept.Keys, s.tables.Keys);
      DeleteExcessiveKeepsIndex(s1.HandleTableInfo(), max);
    } else {
      assert kept == map[] && kept.Keys == {};
    }
  }

  predicate LeavesTable(s: Store, cutoff: int) {
    exists n :: n in s.tables && n.startTime >= cutoff
  }

  lemma {:induction false} SubsetSize(a: set<TableName>, b: set<TableName>)
    requires a <= b
    ensures |a| <= |b|
  {
    if a == {} {
    } else {
      var x :| x in a;
      SubsetSize(a - {x}, b - {x});
    }
  }

  // ----- the time shift -----

  function ShiftedNames(names: set<TableName>, diff: int): set<TableName> {
    set n | n in names && n.startTime + diff >= 0 :: PackageLog(n.startTime + diff)
  }

  lemma InShiftedNames(names: set<TableName>, diff: int, x: TableName)
    ensures x in ShiftedNames(names, diff) <==> PackageLog(x.startTime - diff) in names && x.startTime >= 0
  {
    assert x == PackageLog(PackageLog(x.startTime - diff).startTime + diff);
  }

  /** Every table under its new name; a table that would start before 0 is gone. */
  function ShiftedTables(tables: map<TableName, Table>, diff: int): map<TableName, Table> {
    map x | x in ShiftedNames(tables.Keys, diff) && PackageLog(x.startTime - diff) in tables
          :: tables[PackageLog(x.startTime - diff)]
  }

  predicate CollidesAt(tables: map<TableName, Table>, diff: int, n: TableName) {
    n in tables && PackageLog(n.startTime + diff) in tables
  }

  /** Two tables lie exactly `diff` apart. */
  predicate Collides(tables: map<TableName, Table>, diff: int) {
    exists n :: n in tables && CollidesAt(tables, diff, n)
  }

  predicate Moved(tables: map<TableName, Table>, done: seq<int>, diff: int, x: TableName) {
    PackageLog(x.startTime - diff) in tables && x.startTime - diff in done && x.startTime >= 0
  }

  /** Part of the way through a shift, name by name: `done` tables under new names, others under old ones. */
  ghost predicate MidwayAt(tables: map<TableName, Table>, done: seq<int>, diff: int, x: TableName,
                           now: map<TableName, Table>)
  {
    && (x in now <==> Moved(tables, done, diff, x) || (x in tables && x.startTime !in done))
    && (x in now ==> now[x] == if Moved(tables, done, diff, x) then tables[PackageLog(x.startTime - diff)] else tables[x])
  }

  lemma RenamedOneStep(tables: map<TableName, Table>, done: seq<int>, t: int, diff: int, x: TableName,
                       now: map<TableName, Table>)
    requires diff <= 0 || !Collides(tables, diff)
    requires PackageLog(t) in tables && t !in done
    requires forall d :: d in done ==> d < t
    requires forall n :: n in tables && n.startTime < t ==> n.startTime in done
    requires MidwayAt(tables, done, diff, x, now)
    requires MidwayAt(tables, done, diff, PackageLog(t), now)
    requires MidwayAt(tables, done, diff, PackageLog(t + diff), now)
    ensures MidwayAt(tables, done + [t], diff, x, RenamedOne(now, t, t + diff))
  {
    assert diff > 0 ==> !CollidesAt(tables, diff, PackageLog(t)) && !CollidesAt(tables, diff, PackageLog(t - diff));
    assert !Moved(tables, done, diff, PackageLog(t));
    assert diff != 0 ==> PackageLog(t + diff) !in now;
    assert x.startTime - diff in done + [t] <==> x.startTime - diff in done || x.startTime == t + diff;
    assert x.startTime in done + [t] <==> x.startTime in done || x.startTime == t;
  }

  lemma {:induction false} RenamedAllIsMidway(tables: map<TableName, Table>, index: seq<int>, diff: int, j: nat, x: TableName)
    requires diff <= 0 || !Collides(tables, diff)
    requires StrictlyIncreasing(index) && NamesOf(index) == tables.Keys && j <= |index|
    ensures MidwayAt(tables, index[..j], diff, x, RenamedAll(tables, index[..j], diff))
  {
    if j == 0 {
    } else {
      var done, t := index[..j - 1], index[j - 1];
      RenamedAllIsMidway(tables, index, diff, j - 1, x);
      RenamedAllIsMidway(tables, index, diff, j - 1, PackageLog(t));
      RenamedAllIsMidway(tables, index, diff, j - 1, PackageLog(t + diff));
      assert index[..j][..j - 1] == done && index[..j] == done + [t];
      NextInIndex(tables, index, j - 1);
      RenamedOneStep(tables, done, t, diff, x, RenamedAll(tables, done, diff));
    }
  }

  lemma NextInIndex(tables: map<TableName, Table>, index: seq<int>, j: nat)
    requires StrictlyIncreasing(index) && NamesOf(index) == tables.Keys && j < |index|
    ensures PackageLog(index[j]) in tables && index[j] !in index[..j]
    ensures forall d :: d in index[..j] ==> d < index[j]
    ensures forall n :: n in tables && n.startTime < index[j] ==> n.startTime in index[..j]
  {
    assert PackageLog(index[j]) in NamesOf(index);
    forall n | n in tables && n.startTime < index[j]
      ensures n.startTime in index[..j]
    {
      var k :| 0 <= k < |index| && index[k] == n.startTime;
      assert index[..j][k] == n.startTime;
    }
  }

  lemma RenamedAllAt(tables: map<TableName, Table>, index: seq<int>, diff: int, x: TableName)
    requires diff <= 0 || !Collides(tables, diff)
    requires StrictlyIncreasing(index) && NamesOf(index) == tables.Keys
    ensures var now, shifted := RenamedAll(tables, index, diff), ShiftedTables(tables, diff);
            (x in now <==> x in shifted) && (x in now ==> now[x] == shifted[x])
  {
    assert index[..|index|] == index;
    RenamedAllIsMidway(tables, index, diff, |index|, x);
    MidwayIsShifted(tables, index, diff, x, RenamedAll(tables, index, diff));
  }

  lemma MidwayIsShifted(tables: map<TableName, Table>, index: seq<int>, diff: int, x: TableName, now: map<TableName, Table>)
    requires NamesOf(index) == tables.Keys && MidwayAt(tables, index, diff, x, now)
    ensures var shifted := ShiftedTables(tables, diff); (x in now <==> x in shifted) && (x in now ==> now[x] == shifted[x])
  {
    InNames(index, x.startTime);
    InNames(index, x.startTime - diff);
    ShiftedAt(tables, diff, x);
  }

  /** Without a collision the renames, taken in ascending order, move every table at once. */
  lemma RenamedAllIsShifted(tables: map<TableName, Table>, index: seq<int>, diff: int)
    requires diff <= 0 || !Collides(tables, diff)
    requires StrictlyIncreasing(index) && NamesOf(index) == tables.Keys
    ensures RenamedAll(tables, index, diff) == ShiftedTables(tables, diff)
  {
    forall x {
      RenamedAllAt(tables, index, diff, x);
    }
  }

  lemma ShiftedAt(tables: map<TableName, Table>, diff: int, x: TableName)
    ensures x in ShiftedTables(tables, diff) <==> PackageLog(x.startTime - diff) in tables && x.startTime >= 0
    ensures x in ShiftedTables(tables, diff) ==>
              ShiftedTables(tables, diff)[x] == tables[PackageLog(x.startTime - diff)]
  {
    InShiftedNames(tables.Keys, diff, x);
  }

  lemma {:induction false} UnprocessedStays(tables: map<TableName, Table>, order: seq<int>, diff: int, n: TableName)
    requires n in tables && n.startTime !in order
    ensures n in RenamedAll(tables, order, diff)
  {
    if order == [] {
    } else {
      UnprocessedStays(tables, order[..|order| - 1], diff, n);
    }
  }

  /** A table whose new name is taken by a later table keeps its old name. */
  lemma {:induction false} BlockedStays(tables: map<TableName, Table>, index: seq<int>, diff: int, n: TableName, j: nat)
    requires StrictlyIncreasing(index) && NamesOf(index) == tables.Keys && j <= |index|
    requires diff > 0 && n in tables && n.startTime >= 0 && PackageLog(n.startTime + diff) in tables
    ensures n in RenamedAll(tables, index[..j], diff)
  {
    if j == 0 {
    } else {
      BlockedStays(tables, index, diff, n, j - 1);
      assert index[..j][..j - 1] == index[..j - 1];
      if index[j - 1] == n.startTime {
        assert forall k :: 0 <= k < j - 1 ==> index[k] < index[j - 1];
        UnprocessedStays(tables, index[..j - 1], diff, PackageLog(n.startTime + diff));
      }
    }
  }

  lemma {:induction false} RenamedAllSize(tables: map<TableName, Table>, order: seq<int>, diff: int)
    ensures |RenamedAll(tables, order, diff).Keys| <= |tables.Keys|
  {
    if order == [] {
    } else {
      var before, t := RenamedAll(tables, order[..|order| - 1], diff), order[|order| - 1];
      RenamedAllSize(tables, order[..|order| - 1], diff);
      var after := RenamedOne(before, t, t + diff);
      if after != before {
        assert after.Keys == before.Keys - {PackageLog(t)}
            || after.Keys == before.Keys - {PackageLog(t)} + {PackageLog(t + diff)};
      }
    }
  }

  /** The start times that survive a shift, shifted; the order is kept. */
  function ShiftedIndex(index: seq<int>, diff: int): seq<int> {
    var n := LowerBound(index, -diff);
    seq(|index| - n, i requires 0 <= i < |index| - n => index[n + i] + diff)
  }

  lemma ShiftedIndexContains(index: seq<int>, diff: int, t: int)
    requires StrictlyIncreasing(index)
    ensures t in ShiftedIndex(index, diff) <==> t - diff in index && t >= 0
  {
    var n, shifted := LowerBound(index, -diff), ShiftedIndex(index, diff);
    if t - diff in index && t >= 0 {
      var k :| 0 <= k < |index| && index[k] == t - diff;
      assert shifted[k - n] == t;
    }
    if t in shifted {
      var i :| 0 <= i < |shifted| && shifted[i] == t;
      assert index[n + i] == t - diff && index[n] <= index[n + i];
    }
  }

  lemma ShiftedIndexNames(index: seq<int>, tables: map<TableName, Table>, diff: int)
    requires StrictlyIncreasing(index) && NamesOf(index) == tables.Keys
    ensures StrictlyIncreasing(ShiftedIndex(index, diff))
    ensures NamesOf(ShiftedIndex(index, diff)) == ShiftedTables(tables, diff).Keys
  {
    forall x
      ensures x in NamesOf(ShiftedIndex(index, diff)) <==> x in ShiftedTables(tables, diff).Keys
    {
      ShiftedIndexContains(index, diff, x.startTime);
      InNames(ShiftedIndex(index, diff), x.startTime);
      InNames(index, x.startTime - diff);
      ShiftedAt(tables, diff, x);
    }
  }

  /** A shift leaves an exact index of what it kept, whether or not renames failed. */
  lemma RenewedKeepsIndex(s: Store, diff: int, max: nat)
    requires s.IndexOk() && |s.index| <= max
    ensures s.Renewed(diff, max).IndexOk() && |s.Renewed(diff, max).index| <= max
    ensures s.Renewed(diff, max).tables == RenamedAll(s.tables, s.index, diff)
  {
    if s.index != [] {
      var renamed := Store([], RenamedAll(s.tables, s.index, diff));
      HandledIsOk(renamed);
      IndexSize(s);
      IndexSize(renamed.HandleTableInfo());
      RenamedAllSize(s.tables, s.index, diff);
      DeleteExcessiveKeepsIndex(renamed.HandleTableInfo(), max);
    }
  }

  lemma IndexSize(s: Store)
    requires s.IndexOk()
    ensures |s.index| == |s.tables.Keys|
  {
    SortedStartsAreSorted(s.tables.Keys);
    SortedIsUnique(s.index, SortedStarts(s.tables.Keys));
  }

  /**
   The time shift is exact - every table moves by `diff`, those that would start before 0 go, the order is
   kept - if and only if the clock moves back or no two tables lie `diff` apart.
   */
  lemma RenewedIsShifted(s: Store, diff: int, max: nat)
    requires s.IndexOk() && |s.index| <= max && forall n :: n in s.tables ==> n.startTime >= 0
    ensures s.Renewed(diff, max) == Store(ShiftedIndex(s.index, diff), ShiftedTables(s.tables, diff))
       <==> diff <= 0 || !Collides(s.tables, diff)
  {
    RenewedKeepsIndex(s, diff, max);
    if diff <= 0 || !Collides(s.tables, diff) {
      RenamedAllIsShifted(s.tables, s.index, diff);
      ShiftedIndexNames(s.index, s.tables, diff);
      SortedIsUnique(s.Renewed(diff, max).index, ShiftedIndex(s.index, diff));
    } else {
      FirstBlocked(s, diff);
    }
  }

  lemma FirstColliding(tables: map<TableName, Table>, diff: int) returns (first: TableName)
    requires diff > 0 && Collides(tables, diff)
    ensures first in tables && CollidesAt(tables, diff, first) && PackageLog(first.startTime - diff) !in tables
  {
    var colliding := set n | n in tables && CollidesAt(tables, diff, n);
    var some :| some in tables && CollidesAt(tables, diff, some);
    assert some in colliding;
    first := Least(colliding);
    var before := PackageLog(first.startTime - diff);
    assert before !in colliding;
  }

  lemma FirstBlocked(s: Store, diff: int)
    requires s.IndexOk() && forall n :: n in s.tables ==> n.startTime >= 0
    requires diff > 0 && Collides(s.tables, diff)
    ensures RenamedAll(s.tables, s.index, diff) != ShiftedTables(s.tables, diff)
  {
    var first := FirstColliding(s.tables, diff);
    BlockedStays(s.tables, s.index, diff, first, |s.index|);
    assert s.index[..|s.index|] == s.index;
    ShiftedAt(s.tables, diff, first);
  }

  /** A shift moves what a row means by exactly `diff`; "never" stays "never". */
  lemma ShiftMovesDecodedTimes(tables: map<TableName, Table>, diff: int, n: TableName, rk: RowKey)
    requires n in tables && rk in tables[n] && n.startTime + diff >= 0
    ensures var n' := PackageLog(n.startTime + diff);
            && n' in ShiftedTables(tables, diff) && rk in ShiftedTables(tables, diff)[n']
            && (var r, r' := tables[n][rk], ShiftedTables(tables, diff)[n'][rk];
                Decode(n'.startTime, r'.lastTime)
                == if r.lastTime == -1 then -1 else Decode(n.startTime, r.lastTime) + diff)
  {
    ShiftedAt(tables, diff, PackageLog(n.startTime + diff));
  }

  // ----- whole runs -----

  datatype Op =
    | InitAt(time: int)
    | Update(begin: int, userId: int, stats: map<Key, Usage>)
    | Shift(diff: int)
    | RemoveOld(cutoff: int)

  function Step(s: Store, op: Op, max: nat): Store {
    match op
    case InitAt(time) => s.Init(time, max)
    case Update(begin, userId, stats) => s.Updated(begin, userId, stats, max)
    case Shift(diff) => s.Renewed(diff, max)
    case RemoveOld(cutoff) => s.RemovedOld(cutoff, max)
  }

  /** An update names a period that starts at 0 or later, and old-data removal leaves a table. */
  predicate Enabled(s: Store, op: Op) {
    && (op.Update? ==> op.begin >= 0)
    && (op.RemoveOld? ==> s.index == [] || LeavesTable(s, op.cutoff))
  }

  ghost predicate Good(s: Store, max: nat) {
    s.IndexOk() && |s.index| <= max && forall n :: n in s.tables ==> n.startTime >= 0
  }

  lemma StepKeepsGood(s: Store, op: Op, max: nat)
    requires Good(s, max) && Enabled(s, op)
    ensures Good(Step(s, op, max), max)
  {
    match op
    case InitAt(time) =>
      HandledIsIdentity(s);
      DeleteExcessiveKeepsIndex(s, max);
      DropFromKeepsIndex(s, time);
    case Update(begin, userId, stats) =>
      UpdateKeepsIndex(s, begin, userId, stats, max);
      WithTableKeepsIndex(s, begin, max);
      assert Step(s, op, max).tables.Keys == s.WithTable(begin, max).tables.Keys;
    case Shift(diff) =>
      RenewedKeepsIndex(s, diff, max);
      RenamedAllNonNegative(s.tables, s.index, diff);
    case RemoveOld(cutoff) =>
      RemovedOldKeepsIndex(s, cutoff, max);
  }

  lemma {:induction false} RenamedAllNonNegative(tables: map<TableName, Table>, order: seq<int>, diff: int)
    requires forall n :: n in tables ==> n.startTime >= 0
    ensures forall n :: n in RenamedAll(tables, order, diff) ==> n.startTime >= 0
  {
    if order == [] {
    } else {
      RenamedAllNonNegative(tables, order[..|order| - 1], diff);
    }
  }

  ghost predicate IsRun(states: seq<Store>, ops: seq<Op>, max: nat) {
    && |states| == |ops| + 1
    && forall i :: 0 <= i < |ops| ==> Enabled(states[i], ops[i]) && states[i + 1] == Step(states[i], ops[i], max)
  }

  /**
   Through any run of initialisations, updates, time shifts and old-data removals that leave a table: in
   every state the index is the ascending list of exactly the stored tables and stays within its bound.
   */
  lemma {:induction false} RunKeepsIndex(states: seq<Store>, ops: seq<Op>, max: nat, n: nat)
    requires IsRun(states, ops, max) && Good(states[0], max) && n <= |ops|
    ensures Good(states[n], max)
  {
    if n == 0 {
    } else {
      RunKeepsIndex(states, ops, max, n - 1);
      StepKeepsGood(states[n - 1], ops[n - 1], max);
    }
  }
}
