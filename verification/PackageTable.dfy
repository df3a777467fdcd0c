/**
 One usage table at the level of its rows (services/common/src/bundle_active_usage_database.cpp). The rows
 are a list, as the store keeps them; a flush updates each row it finds and inserts the others in one batch
 at the end. The contracts show that this is a map update: no key ever gets a second row.
 */
module PackageTable {
  import opened Events
  import opened PackageStats
  import opened UsageStore

  datatype Record = Record(key: RowKey, row: Row)

  /** The list holds exactly the entries of the map, one row a key. */
  ghost predicate Represents(records: seq<Record>, table: Table) {
    && (forall i, j :: 0 <= i < j < |records| ==> records[i].key != records[j].key)
    && (forall i :: 0 <= i < |records| ==> records[i].key in table && table[records[i].key] == records[i].row)
    && (forall k :: k in table ==> HasKey(records, k))
  }

  predicate HasKey(records: seq<Record>, key: RowKey) {
    exists i :: 0 <= i < |records| && records[i].key == key
  }

  /** The `UPDATE ... WHERE` statement. */
  function UpdatedWhere(records: seq<Record>, key: RowKey, row: Row): (updated: seq<Record>)
    ensures |updated| == |records|
    ensures forall i :: 0 <= i < |records| ==>
              updated[i] == if records[i].key == key then Record(key, row) else records[i]
  {
    if records == [] then []
    else
      var last := records[|records| - 1];
      UpdatedWhere(records[..|records| - 1], key, row) + [if last.key == key then Record(key, row) else last]
  }

  /** The number of rows that the statement reports as changed. */
  function CountOf(records: seq<Record>, key: RowKey): (n: nat)
    ensures n == 0 <==> forall i :: 0 <= i < |records| ==> records[i].key != key
  {
    if records == [] then 0
    else CountOf(records[..|records| - 1], key) + (if records[|records| - 1].key == key then 1 else 0)
  }

  lemma UpdateMisses(records: seq<Record>, table: Table, key: RowKey, row: Row)
    requires Represents(records, table)
    ensures CountOf(records, key) == 0 <==> key !in table
    ensures key !in table ==> UpdatedWhere(records, key, row) == records
  {
    assert key in table ==> HasKey(records, key);
  }

  lemma UpdateRepresents(records: seq<Record>, table: Table, key: RowKey, row: Row)
    requires Represents(records, table) && key in table
    ensures Represents(UpdatedWhere(records, key, row), table[key := row])
  {
    var updated := UpdatedWhere(records, key, row);
    assert forall i :: 0 <= i < |records| ==> updated[i].key == records[i].key;
    forall k | k in table
      ensures HasKey(updated, k)
    {
      UpdateKeepsKey(records, table, key, row, k);
    }
  }

  lemma UpdateKeepsKey(records: seq<Record>, table: Table, key: RowKey, row: Row, k: RowKey)
    requires Represents(records, table) && k in table
    ensures HasKey(UpdatedWhere(records, key, row), k)
  {
    assert HasKey(records, k);
    var i :| 0 <= i < |records| && records[i].key == k;
    assert UpdatedWhere(records, key, row)[i].key == k;
  }

  lemma AppendRepresents(records: seq<Record>, table: Table, more: seq<Record>, moreTable: Table)
    requires Represents(records, table) && Represents(more, moreTable) && table.Keys !! moreTable.Keys
    ensures Represents(records + more, table + moreTable)
  {
    var all := records + more;
    forall k | k in table + moreTable
      ensures HasKey(all, k)
    {
      if k in table {
        assert HasKey(records, k);
        var i :| 0 <= i < |records| && records[i].key == k;
        assert all[i].key == k;
      } else {
        assert HasKey(more, k);
        var i :| 0 <= i < |more| && more[i].key == k;
        assert all[|records| + i].key == k;
      }
    }
    forall i | 0 <= i < |all|
      ensures all[i].key in table + moreTable && (table + moreTable)[all[i].key] == all[i].row
    {
      assert all[i] == if i < |records| then records[i] else more[i - |records|];
    }
  }

  lemma AppendOneRepresents(records: seq<Record>, table: Table, key: RowKey, row: Row)
    requires Represents(records, table) && key !in table
    ensures Represents(records + [Record(key, row)], table[key := row])
  {
    var one := [Record(key, row)];
    assert one[0].key == key;
    assert HasKey(one, key);
    AppendRepresents(records, table, one, map[key := row]);
    assert table + map[key := row] == table[key := row];
  }

  /** The rows of the entries met so far, in the order in which the loop meets them. */
  ghost function RowsFor(userId: int, beginTime: int, bundleStats: map<Key, Usage>, order: seq<Key>): Table
    requires forall k :: k in order ==> k in bundleStats
  {
    if order == [] then map[]
    else
      var key, rows := order[|order| - 1], RowsFor(userId, beginTime, bundleStats, order[..|order| - 1]);
      if HasUsage(bundleStats[key]) then rows[RowKey(userId, key) := RowOf(beginTime, bundleStats[key])] else rows
  }

  lemma {:induction false} RowsForAt(userId: int, beginTime: int, bundleStats: map<Key, Usage>, order: seq<Key>, rk: RowKey)
    requires forall k :: k in order ==> k in bundleStats
    ensures var rows := RowsFor(userId, beginTime, bundleStats, order);
            && (rk in rows <==> rk.userId == userId && rk.key in order && HasUsage(bundleStats[rk.key]))
            && (rk in rows ==> rows[rk] == RowOf(beginTime, bundleStats[rk.key]))
  {
    if order == [] {
    } else {
      RowsForAt(userId, beginTime, bundleStats, order[..|order| - 1], rk);
      assert rk.key in order <==> rk.key in order[..|order| - 1] || rk.key == order[|order| - 1];
      assert RowKey(rk.userId, rk.key) == rk;
    }
  }

  /** Once every entry has been met, these are the rows of the whole flush. */
  lemma RowsForAll(userId: int, beginTime: int, bundleStats: map<Key, Usage>, order: seq<Key>)
    requires forall k :: k in order <==> k in bundleStats
    ensures RowsFor(userId, beginTime, bundleStats, order) == FlushedRows(beginTime, userId, bundleStats)
  {
    var rows, flushed := RowsFor(userId, beginTime, bundleStats, order), FlushedRows(beginTime, userId, bundleStats);
    forall rk
      ensures SameAt(rows, flushed, rk)
    {
      RowsForAt(userId, beginTime, bundleStats, order, rk);
      FlushedRowsAt(beginTime, userId, bundleStats, rk);
    }
    SameEverywhere(rows, flushed);
  }

  predicate SameAt(a: Table, b: Table, rk: RowKey) {
    (rk in a <==> rk in b) && (rk in a ==> a[rk] == b[rk])
  }

  lemma SameEverywhere(a: Table, b: Table)
    requires forall rk :: SameAt(a, b, rk)
    ensures a == b
  {
    assert forall rk :: SameAt(a, b, rk) ==> (rk in a <==> rk in b);
  }

  lemma UnionUpdate<K, V>(a: map<K, V>, b: map<K, V>, key: K, value: V)
    ensures a + b[key := value] == (a + b)[key := value]
    ensures key !in b ==> a[key := value] + b == (a + b)[key := value]
  {
  }

  /** The rows determine the map. */
  lemma RepresentedIsUnique(records: seq<Record>, a: Table, b: Table)
    requires Represents(records, a) && Represents(records, b)
    ensures a == b
  {
    forall rk
      ensures SameAt(a, b, rk)
    {
      assert rk in a ==> HasKey(records, rk);
      assert rk in b ==> HasKey(records, rk);
    }
    SameEverywhere(a, b);
  }

  lemma EmptyTakeRepresents(records: seq<Record>)
    ensures Represents(records[..0], map[])
  {
  }

  class PackageLogTable {
    var records: seq<Record>

    /** A table with the given rows, in any order. */
    constructor (table: Table)
      ensures Represents(records, table)
    {
      var rows: seq<Record> := [];
      var done: Table := map[];
      var todo := table.Keys;
      while todo != {}
        invariant todo <= table.Keys && done.Keys == table.Keys - todo && Represents(rows, done)
        invariant forall key :: key in done ==> done[key] == table[key]
        decreases todo
      {
        var key :| key in todo;
        todo := todo - {key};
        AppendOneRepresents(rows, done, key, table[key]);
        rows, done := rows + [Record(key, table[key])], done[key := table[key]];
      }
      assert done == table;
      records := rows;
    }

    method Contents(ghost table: Table) returns (contents: Table)
      requires Represents(records, table)
      ensures contents == table
    {
      contents := map[];
      EmptyTakeRepresents(records);
      for i := 0 to |records|
        invariant Represents(records[..i], contents)
      {
        assert records[..i + 1] == records[..i] + [records[i]];
        assert records[i].key !in contents by {
          assert records[i].key in contents ==> HasKey(records[..i], records[i].key);
        }
        AppendOneRepresents(records[..i], contents, records[i].key, records[i].row);
        contents := contents[records[i].key := records[i].row];
      }
      assert records[..|records|] == records;
      RepresentedIsUnique(records, contents, table);
    }

    method Update(key: RowKey, row: Row) returns (changeRow: nat)
      modifies this
      ensures changeRow == CountOf(old(records), key)
      ensures records == UpdatedWhere(old(records), key, row)
    {
      changeRow := CountOf(records, key);
      records := UpdatedWhere(records, key, row);
    }

    method BatchInsert(valuesBuckets: seq<Record>)
      modifies this
      ensures records == old(records) + valuesBuckets
    {
      records := records + valuesBuckets;
    }

    /** A row that exists is updated at once; any other one waits for the batch. */
    method Upsert(key: RowKey, row: Row, valuesBuckets: seq<Record>, ghost now: Table, ghost pending: Table)
      returns (valuesBuckets': seq<Record>, ghost now': Table, ghost pending': Table)
      requires Represents(records, now) && Represents(valuesBuckets, pending) && now.Keys !! pending.Keys
      requires key !in pending
      modifies this
      ensures Represents(records, now') && Represents(valuesBuckets', pending') && now'.Keys !! pending'.Keys
      ensures now' + pending' == (now + pending)[key := row] && pending'.Keys <= pending.Keys + {key}
    {
      UpdateMisses(records, now, key, row);
      if key in now {
        UpdateRepresents(records, now, key, row);
      }
      UnionUpdate(now, pending, key, row);
      var changeRow := Update(key, row);
      if changeRow == 0 {
        AppendOneRepresents(valuesBuckets, pending, key, row);
        valuesBuckets', now', pending' := valuesBuckets + [Record(key, row)], now, pending[key := row];
      } else {
        valuesBuckets', now', pending' := valuesBuckets, now[key := row], pending;
      }
    }

    /** A flush keeps one row a key and is the map update that the store works with. */
    method FlushPackageInfo(userId: int, beginTime: int, bundleStats: map<Key, Usage>, ghost table: Table)
      requires Represents(records, table)
      modifies this
      ensures Represents(records, table + FlushedRows(beginTime, userId, bundleStats))
    {
      var valuesBuckets: seq<Record> := [];
      var todo := bundleStats.Keys;
      ghost var order: seq<Key> := [];
      ghost var now, pending, rows: Table := table, map[], map[];
      while todo != {}
        invariant forall k :: k in bundleStats <==> k in todo || k in order
        invariant forall k :: k in order ==> k !in todo
        invariant rows == RowsFor(userId, beginTime, bundleStats, order)
        invariant Represents(records, now) && Represents(valuesBuckets, pending) && now.Keys !! pending.Keys
        invariant now + pending == table + rows && pending.Keys <= rows.Keys
        decreases todo
      {
        var key :| key in todo;
        todo := todo - {key};
        var stats := bundleStats[key];
        RowsForAt(userId, beginTime, bundleStats, order, RowKey(userId, key));
        assert (order + [key])[..|order|] == order;
        order := order + [key];
        if stats.totalInFrontTime == 0 && stats.totalContinuousTaskUsedTime == 0 {
          continue;
        }
        var rowKey, row := RowKey(userId, key), RowOf(beginTime, stats);
        UnionUpdate(table, rows, rowKey, row);
        rows := rows[rowKey := row];
        valuesBuckets, now, pending := Upsert(rowKey, row, valuesBuckets, now, pending);
      }
      AppendRepresents(records, now, valuesBuckets, pending);
      BatchInsert(valuesBuckets);
      RowsForAll(userId, beginTime, bundleStats, order);
    }
  }
}
