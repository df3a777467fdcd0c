/**
 Usage queries over the table store (services/common/src/bundle_active_usage_database.cpp). A query reads
 the tables that the index searches give and filters each with its own condition; the reference looks at
 every row of every table. Rows come without an order, so answers are multisets.
 */
module UsageQuery {
  import opened Events
  import opened TableIndex
  import opened UsageStore

  datatype Report = Report(userId: int, key: Key, startCount: int, lastTimeUsed: int, lastContinuousTaskUsed: int,
                           totalInFrontTime: int, totalContinuousTaskUsedTime: int)

  function ReportOf(tableTime: int, rk: RowKey, r: Row): Report {
    Report(rk.userId, rk.key, r.startCount, Decode(tableTime, r.lastTime), Decode(tableTime, r.lastTask),
           r.totalTime, r.totalTask)
  }

  const LAST_TIME_IN_MILLIS_MIN := 0

  /** The bounds on the relative last-used time in one statement. */
  datatype Bounds = Between(low: int, high: int) | AtLeast(low: int) | AtMost(high: int) | Anything
  {
    predicate Admits(lastTime: int) {
      match this
      case Between(low, high) => low <= lastTime <= high
      case AtLeast(low) => low <= lastTime
      case AtMost(high) => lastTime <= high
      case Anything => true
    }
  }

  /** The statement for table `i` of the range `r`: only the first and the last table are filtered. */
  function BoundsFor(tableTime: int, i: nat, r: Range, beginTime: int, endTime: int): Bounds
    requires r.Tables?
  {
    var low := if beginTime - tableTime >= 0 then beginTime - tableTime else LAST_TIME_IN_MILLIS_MIN;
    if r.start == r.end then Between(low, endTime - tableTime)
    else if i == r.start then AtLeast(low)
    else if i == r.end then AtMost(endTime - tableTime)
    else Anything
  }

  /** An empty bundle name asks for every bundle. */
  predicate Asked(rk: RowKey, userId: int, bundleName: string) {
    rk.userId == userId && (bundleName == "" || rk.key.bundleName == bundleName)
  }

  function Picked(table: Table, tableTime: int, userId: int, bundleName: string, bounds: Bounds): set<Report> {
    set rk | rk in table && Asked(rk, userId, bundleName) && bounds.Admits(table[rk].lastTime)
           :: ReportOf(tableTime, rk, table[rk])
  }

  function TableAt(s: Store, t: int): Table {
    if PackageLog(t) in s.tables then s.tables[PackageLog(t)] else map[]
  }

  /** What the tables `i`..`r.end` contribute. */
  function PickedFrom(s: Store, i: nat, r: Range, beginTime: int, endTime: int, userId: int, bundleName: string)
    : multiset<Report>
    requires r.Tables? && r.end < |s.index|
    decreases r.end + 1 - i
  {
    if i > r.end then multiset{}
    else
      multiset(Picked(TableAt(s, s.index[i]), s.index[i], userId, bundleName,
                      BoundsFor(s.index[i], i, r, beginTime, endTime)))
      + PickedFrom(s, i + 1, r, beginTime, endTime, userId, bundleName)
  }

  function Query(s: Store, beginTime: int, endTime: int, userId: int, bundleName: string): multiset<Report> {
    var r := DbRange(s.index, beginTime, endTime);
    if r.NoTables? then multiset{} else PickedFrom(s, r.start, r, beginTime, endTime, userId, bundleName)
  }

  // ----- the reference -----

  /** The rows of one table that were last used in the time asked for. */
  ghost function Matching(table: Table, tableTime: int, userId: int, bundleName: string, beginTime: int, endTime: int)
    : set<Report>
  {
    set rk | rk in table && Asked(rk, userId, bundleName) && table[rk].lastTime != -1
             && beginTime <= Decode(tableTime, table[rk].lastTime) <= endTime
           :: ReportOf(tableTime, rk, table[rk])
  }

  /** Rows that were never in front: background work alone. */
  ghost function NeverUsed(table: Table, tableTime: int, userId: int, bundleName: string): set<Report> {
    set rk | rk in table && Asked(rk, userId, bundleName) && table[rk].lastTime == -1
           :: ReportOf(tableTime, rk, table[rk])
  }

  /** A plain filter over all tables from `i` on that start before the end. */
  ghost function Naive(s: Store, i: nat, beginTime: int, endTime: int, userId: int, bundleName: string)
    : multiset<Report>
    decreases |s.index| - i
  {
    if i >= |s.index| then multiset{}
    else
      multiset(if s.index[i] < endTime
               then Matching(TableAt(s, s.index[i]), s.index[i], userId, bundleName, beginTime, endTime) else {})
      + Naive(s, i + 1, beginTime, endTime, userId, bundleName)
  }

  ghost function NeverUsedFrom(s: Store, i: nat, last: nat, userId: int, bundleName: string): multiset<Report>
    requires last < |s.index|
    decreases last + 1 - i
  {
    if i > last then multiset{}
    else multiset(NeverUsed(TableAt(s, s.index[i]), s.index[i], userId, bundleName))
         + NeverUsedFrom(s, i + 1, last, userId, bundleName)
  }

  /** A row is "never", or it was last used in the period of its own table. */
  ghost predicate RowsInPeriod(s: Store) {
    forall i, rk :: 0 <= i < |s.index| && rk in TableAt(s, s.index[i]) ==>
      var lastTime := TableAt(s, s.index[i])[rk].lastTime;
      lastTime == -1 || (0 <= lastTime && (i + 1 < |s.index| ==> s.index[i] + lastTime < s.index[i + 1]))
  }

  // ----- one table -----

  lemma PickedAt(table: Table, tableTime: int, userId: int, bundleName: string, bounds: Bounds, r: Report)
    ensures var rk := RowKey(r.userId, r.key);
            r in Picked(table, tableTime, userId, bundleName, bounds) <==>
            rk in table && Asked(rk, userId, bundleName) && bounds.Admits(table[rk].lastTime)
            && r == ReportOf(tableTime, rk, table[rk])
  {
  }

  lemma MatchingAt(table: Table, tableTime: int, userId: int, bundleName: string, beginTime: int, endTime: int, r: Report)
    ensures var rk := RowKey(r.userId, r.key);
            r in Matching(table, tableTime, userId, bundleName, beginTime, endTime) <==>
            rk in table && Asked(rk, userId, bundleName) && table[rk].lastTime != -1
            && beginTime <= Decode(tableTime, table[rk].lastTime) <= endTime
            && r == ReportOf(tableTime, rk, table[rk])
  {
  }

  lemma NeverUsedAt(table: Table, tableTime: int, userId: int, bundleName: string, r: Report)
    ensures var rk := RowKey(r.userId, r.key);
            r in NeverUsed(table, tableTime, userId, bundleName) <==>
            rk in table && Asked(rk, userId, bundleName) && table[rk].lastTime == -1
            && r == ReportOf(tableTime, rk, table[rk])
  {
  }

  /** The range covers the last table at or before the begin and every later one that starts before the end. */
  ghost predicate Covers(s: Store, r: Range, beginTime: int, endTime: int) {
    && StrictlyIncreasing(s.index) && r.Tables? && r.start <= r.end < |s.index|
    && (forall i :: 0 < i <= r.start ==> s.index[i] <= beginTime)
    && (forall i :: r.start < i < |s.index| ==> beginTime < s.index[i])
    && (forall i :: 0 <= i < |s.index| ==> (i <= r.end <==> s.index[i] < endTime))
  }

  lemma AdmitsIsMatching(s: Store, r: Range, i: nat, beginTime: int, endTime: int, lastTime: int)
    requires Covers(s, r, beginTime, endTime) && r.start <= i <= r.end
    requires lastTime == -1 || (0 <= lastTime && (i + 1 < |s.index| ==> s.index[i] + lastTime < s.index[i + 1]))
    ensures BoundsFor(s.index[i], i, r, beginTime, endTime).Admits(lastTime) <==>
            if lastTime == -1 then i > r.start else beginTime <= s.index[i] + lastTime <= endTime
  {
    assert i < r.end ==> s.index[i + 1] <= s.index[r.end] < endTime;
  }

  /** In one table of the range, the statement picks the matching rows and, after the first table, "never" rows. */
  lemma PickedIsMatching(s: Store, r: Range, i: nat, beginTime: int, endTime: int, userId: int, bundleName: string)
    requires Covers(s, r, beginTime, endTime) && RowsInPeriod(s) && r.start <= i <= r.end
    ensures var t := s.index[i];
            multiset(Picked(TableAt(s, t), t, userId, bundleName, BoundsFor(t, i, r, beginTime, endTime)))
            == multiset(Matching(TableAt(s, t), t, userId, bundleName, beginTime, endTime))
             + multiset(if i > r.start then NeverUsed(TableAt(s, t), t, userId, bundleName) else {})
  {
    var t := s.index[i];
    var table, bounds := TableAt(s, t), BoundsFor(t, i, r, beginTime, endTime);
    var never := if i > r.start then NeverUsed(table, t, userId, bundleName) else {};
    forall rk | rk in table
      ensures bounds.Admits(table[rk].lastTime) <==>
              if table[rk].lastTime == -1 then i > r.start else beginTime <= t + table[rk].lastTime <= endTime
    {
      AdmitsIsMatching(s, r, i, beginTime, endTime, table[rk].lastTime);
    }
    forall report
      ensures report in Picked(table, t, userId, bundleName, bounds) <==>
              report in Matching(table, t, userId, bundleName, beginTime, endTime) || report in never
      ensures !(report in Matching(table, t, userId, bundleName, beginTime, endTime) && report in never)
    {
      PickedAt(table, t, userId, bundleName, bounds, report);
      MatchingAt(table, t, userId, bundleName, beginTime, endTime, report);
      NeverUsedAt(table, t, userId, bundleName, report);
    }
  }

  /** A table before the range holds no matching row. */
  lemma NothingBefore(s: Store, r: Range, i: nat, beginTime: int, endTime: int, userId: int, bundleName: string)
    requires Covers(s, r, beginTime, endTime) && RowsInPeriod(s) && i < r.start
    ensures Matching(TableAt(s, s.index[i]), s.index[i], userId, bundleName, beginTime, endTime) == {}
  {
    assert s.index[i + 1] <= beginTime;
  }

  // ----- all tables -----

  lemma {:induction false} NaiveAfterRange(s: Store, i: nat, beginTime: int, endTime: int, userId: int, bundleName: string)
    requires forall j :: i <= j < |s.index| ==> s.index[j] >= endTime
    ensures Naive(s, i, beginTime, endTime, userId, bundleName) == multiset{}
    decreases |s.index| - i
  {
    if i >= |s.index| {
    } else {
      NaiveAfterRange(s, i + 1, beginTime, endTime, userId, bundleName);
    }
  }

  lemma {:induction false} PickedFromIsNaive(
    s: Store, r: Range, i: nat, beginTime: int, endTime: int, userId: int, bundleName: string)
    requires Covers(s, r, beginTime, endTime) && RowsInPeriod(s) && r.start < i <= r.end + 1
    ensures PickedFrom(s, i, r, beginTime, endTime, userId, bundleName)
         == Naive(s, i, beginTime, endTime, userId, bundleName) + NeverUsedFrom(s, i, r.end, userId, bundleName)
    decreases |s.index| - i
  {
    if i > r.end {
      NaiveAfterRange(s, i, beginTime, endTime, userId, bundleName);
    } else {
      PickedFromIsNaive(s, r, i + 1, beginTime, endTime, userId, bundleName);
      PickedIsMatching(s, r, i, beginTime, endTime, userId, bundleName);
      var t := s.index[i];
      var picked := Picked(TableAt(s, t), t, userId, bundleName, BoundsFor(t, i, r, beginTime, endTime));
      var matching := Matching(TableAt(s, t), t, userId, bundleName, beginTime, endTime);
      var never := NeverUsed(TableAt(s, t), t, userId, bundleName);
      Regroup(multiset(picked), PickedFrom(s, i + 1, r, beginTime, endTime, userId, bundleName),
              multiset(matching), multiset(never), Naive(s, i + 1, beginTime, endTime, userId, bundleName),
              NeverUsedFrom(s, i + 1, r.end, userId, bundleName));
    }
  }

  lemma Regroup(here: multiset<Report>, rest: multiset<Report>, a: multiset<Report>, b: multiset<Report>,
                c: multiset<Report>, d: multiset<Report>)
    requires here == a + b && rest == c + d
    ensures here + rest == (a + c) + (b + d)
  {
  }

  lemma {:induction false} NaiveBeforeRange(
    s: Store, r: Range, i: nat, beginTime: int, endTime: int, userId: int, bundleName: string)
    requires Covers(s, r, beginTime, endTime) && RowsInPeriod(s) && i <= r.start
    ensures Naive(s, i, beginTime, endTime, userId, bundleName)
         == Naive(s, r.start, beginTime, endTime, userId, bundleName)
    decreases |s.index| - i
  {
    if i == r.start {
    } else {
      NaiveBeforeRange(s, r, i + 1, beginTime, endTime, userId, bundleName);
      NothingBefore(s, r, i, beginTime, endTime, userId, bundleName);
    }
  }

  /** The "never" rows that a query returns although nobody asked for them. */
  ghost function Stray(s: Store, beginTime: int, endTime: int, userId: int, bundleName: string): multiset<Report> {
    var r := DbRange(s.index, beginTime, endTime);
    if r.NoTables? || r.end >= |s.index| then multiset{}
    else NeverUsedFrom(s, r.start + 1, r.end, userId, bundleName)
  }

  /**
   The indexed query returns the matching rows of all tables started before the end, each once, and besides
   them exactly the "never" rows of the range's tables after the first.
   */
  lemma QueryIsNaive(s: Store, beginTime: int, endTime: int, userId: int, bundleName: string)
    requires StrictlyIncreasing(s.index) && RowsInPeriod(s) && beginTime < endTime
    ensures Query(s, beginTime, endTime, userId, bundleName)
         == Naive(s, 0, beginTime, endTime, userId, bundleName) + Stray(s, beginTime, endTime, userId, bundleName)
  {
    var r := DbRange(s.index, beginTime, endTime);
    if r.NoTables? {
      assert |s.index| > 0 ==> s.index[0] >= endTime;
      forall j | 0 <= j < |s.index|
        ensures s.index[j] >= endTime
      {
        assert s.index[0] <= s.index[j];
      }
      NaiveAfterRange(s, 0, beginTime, endTime, userId, bundleName);
    } else {
      DbRangeIsProper(s.index, beginTime, endTime);
      RangeIsNaive(s, r, beginTime, endTime, userId, bundleName);
    }
  }

  lemma RangeIsNaive(s: Store, r: Range, beginTime: int, endTime: int, userId: int, bundleName: string)
    requires Covers(s, r, beginTime, endTime) && RowsInPeriod(s)
    ensures PickedFrom(s, r.start, r, beginTime, endTime, userId, bundleName)
         == Naive(s, 0, beginTime, endTime, userId, bundleName) + NeverUsedFrom(s, r.start + 1, r.end, userId, bundleName)
  {
    NaiveBeforeRange(s, r, 0, beginTime, endTime, userId, bundleName);
    PickedIsMatching(s, r, r.start, beginTime, endTime, userId, bundleName);
    PickedFromIsNaive(s, r, r.start + 1, beginTime, endTime, userId, bundleName);
    var t := s.index[r.start];
    var matching := multiset(Matching(TableAt(s, t), t, userId, bundleName, beginTime, endTime));
    assert Naive(s, r.start, beginTime, endTime, userId, bundleName)
        == matching + Naive(s, r.start + 1, beginTime, endTime, userId, bundleName);
    assert matching + multiset({}) == matching;
  }

  lemma EmptySum(a: multiset<Report>, b: multiset<Report>)
    ensures a + b == multiset{} <==> a == multiset{} && b == multiset{}
  {
    assert forall r :: (a + b)[r] == a[r] + b[r];
  }

  lemma SumIsSame(a: multiset<Report>, b: multiset<Report>)
    ensures a + b == a <==> b == multiset{}
  {
    if a + b == a {
      assert forall r :: (a + b)[r] == a[r] + b[r];
    }
  }

  lemma NeverUsedIsEmpty(table: Table, tableTime: int, userId: int, bundleName: string)
    ensures multiset(NeverUsed(table, tableTime, userId, bundleName)) == multiset{} <==>
              forall rk :: rk in table && Asked(rk, userId, bundleName) ==> table[rk].lastTime != -1
  {
    var here := NeverUsed(table, tableTime, userId, bundleName);
    if rk :| rk in table && Asked(rk, userId, bundleName) && table[rk].lastTime == -1 {
      assert ReportOf(tableTime, rk, table[rk]) in here;
      assert ReportOf(tableTime, rk, table[rk]) in multiset(here);
    } else {
      assert here == {};
    }
  }

  lemma {:induction false} NeverUsedFromIsEmpty(s: Store, i: nat, last: nat, userId: int, bundleName: string)
    requires last < |s.index|
    ensures NeverUsedFrom(s, i, last, userId, bundleName) == multiset{} <==>
              forall j, rk :: i <= j <= last && rk in TableAt(s, s.index[j]) && Asked(rk, userId, bundleName) ==>
                TableAt(s, s.index[j])[rk].lastTime != -1
    decreases last + 1 - i
  {
    if i > last {
    } else {
      NeverUsedFromIsEmpty(s, i + 1, last, userId, bundleName);
      NeverUsedIsEmpty(TableAt(s, s.index[i]), s.index[i], userId, bundleName);
      EmptySum(multiset(NeverUsed(TableAt(s, s.index[i]), s.index[i], userId, bundleName)),
               NeverUsedFrom(s, i + 1, last, userId, bundleName));
    }
  }

  /**
   The query equals the plain filter if and only if no table of the range after the first holds a "never"
   row that was asked for.
   */
  lemma QueryIsExact(s: Store, beginTime: int, endTime: int, userId: int, bundleName: string)
    requires StrictlyIncreasing(s.index) && RowsInPeriod(s) && DbRange(s.index, beginTime, endTime).Tables?
    ensures var r := DbRange(s.index, beginTime, endTime);
            r.end < |s.index|
            && (Query(s, beginTime, endTime, userId, bundleName) == Naive(s, 0, beginTime, endTime, userId, bundleName)
                <==> forall j, rk :: r.start < j <= r.end && rk in TableAt(s, s.index[j]) && Asked(rk, userId, bundleName)
                       ==> TableAt(s, s.index[j])[rk].lastTime != -1)
  {
    var r := DbRange(s.index, beginTime, endTime);
    DbRangeIsProper(s.index, beginTime, endTime);
    QueryIsNaive(s, beginTime, endTime, userId, bundleName);
    NeverUsedFromIsEmpty(s, r.start + 1, r.end, userId, bundleName);
    SumIsSame(Naive(s, 0, beginTime, endTime, userId, bundleName), Stray(s, beginTime, endTime, userId, bundleName));
  }

  function TwoTables(userId: int, key: Key): Store {
    Store([100, 200], map[PackageLog(100) := map[], PackageLog(200) := map[RowKey(userId, key) := Row(0, -1, 5, 0, 20)]])
  }

  lemma TwoTablesRange(userId: int, key: Key)
    ensures TwoTables(userId, key).IndexOk() && RowsInPeriod(TwoTables(userId, key))
    ensures DbRange([100, 200], 150, 250) == Tables(0, 1)
  {
    var s := TwoTables(userId, key);
    assert forall t :: t in s.index <==> t == 100 || t == 200 by {
      assert s.index[0] == 100 && s.index[1] == 200;
    }
    LowerBoundIsUnique(s.index, 250, 2);
    LowerBoundIsUnique(s.index, 150, 1);
  }

  /** The last table gives the row to the query, and nothing to the plain filter. */
  lemma LastTableGivesRow(userId: int, key: Key)
    ensures var row, table := Row(0, -1, 5, 0, 20), TableAt(TwoTables(userId, key), 200);
            && Picked(table, 200, userId, "", AtMost(50)) == {ReportOf(200, RowKey(userId, key), row)}
            && Matching(table, 200, userId, "", 150, 250) == {}
  {
    var row, table := Row(0, -1, 5, 0, 20), TableAt(TwoTables(userId, key), 200);
    assert table == map[RowKey(userId, key) := row];
    forall report {
      PickedAt(table, 200, userId, "", AtMost(50), report);
    }
  }

  lemma FirstTableGivesNothing(userId: int, key: Key)
    ensures var table := TableAt(TwoTables(userId, key), 100);
            && Picked(table, 100, userId, "", AtLeast(50)) == {}
            && Matching(table, 100, userId, "", 150, 250) == {}
  {
    assert TableAt(TwoTables(userId, key), 100) == map[];
  }

  /** A query over two tables returns a row that was never in front. */
  lemma NeverRowIsReturned(userId: int, key: Key)
    ensures var row := Row(0, -1, 5, 0, 20);
            var s := Store([100, 200], map[PackageLog(100) := map[], PackageLog(200) := map[RowKey(userId, key) := row]]);
            && s.IndexOk() && RowsInPeriod(s)
            && Query(s, 150, 250, userId, "") == multiset{ReportOf(200, RowKey(userId, key), row)}
            && Naive(s, 0, 150, 250, userId, "") == multiset{}
  {
    var s, r := TwoTables(userId, key), Tables(0, 1);
    TwoTablesRange(userId, key);
    LastTableGivesRow(userId, key);
    FirstTableGivesNothing(userId, key);
    assert PickedFrom(s, 2, r, 150, 250, userId, "") == multiset{} && Naive(s, 2, 150, 250, userId, "") == multiset{};
    assert PickedFrom(s, 1, r, 150, 250, userId, "") == multiset{ReportOf(200, RowKey(userId, key), Row(0, -1, 5, 0, 20))};
    assert Naive(s, 1, 150, 250, userId, "") == multiset{};
  }
}
