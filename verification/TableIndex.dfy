/**
 The sorted list of table start times and the searches over it
 (services/common/src/bundle_active_usage_database.cpp, services/common/src/bundle_active_binary_search.cpp).
 */
module TableIndex {

  ghost predicate StrictlyIncreasing(s: seq<int>) {
    forall i, j :: 0 <= i < j < |s| ==> s[i] < s[j]
  }

  /** The name of a usage table carries its start time. */
  datatype TableName = PackageLog(startTime: int)

  function NamesOf(s: seq<int>): set<TableName> {
    set t | t in s :: PackageLog(t)
  }

  /** How many elements a plain scan passes before it meets one that is not below `t`. */
  function LowerBound(s: seq<int>, t: int): (n: nat)
    ensures n <= |s|
    ensures n < |s| ==> s[n] >= t
    ensures forall i :: 0 <= i < n ==> s[i] < t
  {
    if s == [] || s[0] >= t then 0 else 1 + LowerBound(s[1..], t)
  }

  lemma {:induction false} LowerBoundIsUnique(s: seq<int>, t: int, n: nat)
    requires n <= |s|
    requires forall i :: 0 <= i < n ==> s[i] < t
    requires n < |s| ==> s[n] >= t
    ensures n == LowerBound(s, t)
  {
    if n == 0 {
    } else {
      LowerBoundIsUnique(s[1..], t, n - 1);
    }
  }

  /** The index of the last element at or before `t`; -1 if there is none. */
  function OnOrBefore(s: seq<int>, t: int): int {
    var n := LowerBound(s, t);
    if n < |s| && s[n] == t then n else n - 1
  }

  /** The range of tables that a query reads, if it reads any. */
  datatype Range = NoTables | Tables(start: nat, end: nat)

  function DbRange(s: seq<int>, beginTime: int, endTime: int): Range {
    if endTime <= beginTime || LowerBound(s, endTime) == 0 then NoTables
    else Tables(if OnOrBefore(s, beginTime) < 0 then 0 else OnOrBefore(s, beginTime), LowerBound(s, endTime) - 1)
  }

  /** The range is a proper one: it covers every table from the last one at or before the begin on, up to the end. */
  lemma DbRangeIsProper(s: seq<int>, beginTime: int, endTime: int)
    requires StrictlyIncreasing(s) && DbRange(s, beginTime, endTime).Tables?
    ensures var r := DbRange(s, beginTime, endTime);
            && 0 <= r.start <= r.end < |s|
            && (forall i :: 0 < i <= r.start ==> s[i] <= beginTime)
            && (forall i :: r.start < i < |s| ==> beginTime < s[i])
            && (forall i :: 0 <= i < |s| ==> (i <= r.end <==> s[i] < endTime))
  {
    var n := LowerBound(s, endTime);
    var r := DbRange(s, beginTime, endTime);
    forall i | r.start < i < |s|
      ensures beginTime < s[i]
    {
      assert s[LowerBound(s, beginTime)] >= beginTime || LowerBound(s, beginTime) == |s|;
    }
  }

  method NearIndexOnOrAfterCurrentTime(currentTime: int, sortedTableArray: seq<int>) returns (index: int)
    requires StrictlyIncreasing(sortedTableArray)
    ensures index == if LowerBound(sortedTableArray, currentTime) < |sortedTableArray|
                     then LowerBound(sortedTableArray, currentTime) else -1
  {
    var low, high := 0, |sortedTableArray| - 1;
    var mid, tableTime := -1, -1;
    while low <= high
      invariant 0 <= low <= high + 1 <= |sortedTableArray|
      invariant forall i :: 0 <= i < low ==> sortedTableArray[i] < currentTime
      invariant forall i :: high < i < |sortedTableArray| ==> currentTime < sortedTableArray[i]
      invariant mid == -1 <==> low == 0 && high == |sortedTableArray| - 1
      invariant mid != -1 ==> 0 <= mid < |sortedTableArray| && tableTime == sortedTableArray[mid] != currentTime
      invariant mid != -1 ==> (tableTime < currentTime ==> low == mid + 1) && (currentTime < tableTime ==> high == mid - 1)
    {
      mid := (high + low) / 2;
      tableTime := sortedTableArray[mid];
      if currentTime > tableTime {
        low := mid + 1;
      } else if currentTime < tableTime {
        high := mid - 1;
      } else {
        LowerBoundIsUnique(sortedTableArray, currentTime, mid);
        return mid;
      }
    }
    LowerBoundIsUnique(sortedTableArray, currentTime, low);
    if currentTime < tableTime {
      return mid;
    } else if currentTime > tableTime && low < |sortedTableArray| {
      return low;
    } else {
      return -1;
    }
  }

  method NearIndexOnOrBeforeCurrentTime(currentTime: int, sortedTableArray: seq<int>) returns (index: int)
    requires StrictlyIncreasing(sortedTableArray)
    ensures index == OnOrBefore(sortedTableArray, currentTime)
  {
    index := NearIndexOnOrAfterCurrentTime(currentTime, sortedTableArray);
    if index < 0 {
      return |sortedTableArray| - 1;
    }
    if sortedTableArray[index] == currentTime {
      return index;
    }
    return index - 1;
  }

  method BinarySearch(tableNameArray: seq<int>, targetValue: int) returns (index: int)
    requires StrictlyIncreasing(tableNameArray)
    ensures -1 <= index < |tableNameArray|
    ensures index >= 0 ==> tableNameArray[index] == targetValue
    ensures index < 0 ==> targetValue !in tableNameArray
  {
    var low, high := 0, |tableNameArray| - 1;
    while low <= high
      invariant 0 <= low <= high + 1 <= |tableNameArray|
      invariant forall i :: 0 <= i < |tableNameArray| && tableNameArray[i] == targetValue ==> low <= i <= high
    {
      var mid := (low + high) / 2;
      var midValue := tableNameArray[mid];
      if midValue < targetValue {
        low := mid + 1;
      } else if midValue > targetValue {
        high := mid - 1;
      } else {
        return mid;
      }
    }
    return -1;
  }

  method GetDbIndex(beginTime: int, endTime: int, sortedTableArray: seq<int>)
    returns (ok: bool, startIndex: int, endIndex: int)
    requires StrictlyIncreasing(sortedTableArray)
    ensures var r := DbRange(sortedTableArray, beginTime, endTime);
            && (ok <==> r.Tables?)
            && (ok ==> startIndex == r.start && endIndex == r.end)
  {
    startIndex, endIndex := 0, 0;
    if endTime <= beginTime {
      return false, startIndex, endIndex;
    }
    startIndex := NearIndexOnOrBeforeCurrentTime(beginTime, sortedTableArray);
    if startIndex < 0 {
      startIndex := 0;
    }
    endIndex := NearIndexOnOrBeforeCurrentTime(endTime, sortedTableArray);
    if endIndex < 0 {
      return false, startIndex, endIndex;
    }
    if sortedTableArray[endIndex] == endTime {
      endIndex := endIndex - 1;
      if endIndex < 0 {
        return false, startIndex, endIndex;
      }
    }
    return true, startIndex, endIndex;
  }

  // ----- the sorted list of a set -----

  predicate IsLeast(m: TableName, s: set<TableName>) {
    m in s && forall x :: x in s ==> m.startTime <= x.startTime
  }

  lemma {:induction false} LeastExists(s: set<TableName>)
    requires s != {}
    ensures exists m :: IsLeast(m, s)
  {
    var pick :| pick in s;
    var others := s - {pick};
    if others == {} {
      assert s == {pick};
      assert IsLeast(pick, s);
    } else {
      LeastExists(others);
      var rest :| IsLeast(rest, others);
      var m := if pick.startTime <= rest.startTime then pick else rest;
      forall x | x in s
        ensures m.startTime <= x.startTime
      {
        assert x == pick || x in others;
      }
      assert IsLeast(m, s);
    }
  }

  function Least(s: set<TableName>): (m: TableName)
    requires s != {}
    ensures IsLeast(m, s)
  {
    LeastExists(s);
    var m :| IsLeast(m, s);
    m
  }

  /** The start times of the tables, in ascending order. */
  function SortedStarts(s: set<TableName>): seq<int> {
    if s == {} then [] else [Least(s).startTime] + SortedStarts(s - {Least(s)})
  }

  lemma NamesOfCons(t: int, rest: seq<int>)
    ensures NamesOf([t] + rest) == {PackageLog(t)} + NamesOf(rest)
  {
    var all := [t] + rest;
    assert all[0] == t;
    forall x | x in NamesOf(rest)
      ensures x in NamesOf(all)
    {
      var i :| 0 <= i < |rest| && rest[i] == x.startTime;
      assert all[i + 1] == x.startTime;
    }
  }

  lemma IncreasingCons(t: int, rest: seq<int>)
    requires StrictlyIncreasing(rest) && forall x :: x in NamesOf(rest) ==> t < x.startTime
    ensures StrictlyIncreasing([t] + rest)
  {
    var all := [t] + rest;
    forall i, j | 0 <= i < j < |all|
      ensures all[i] < all[j]
    {
      assert PackageLog(rest[j - 1]) in NamesOf(rest);
    }
  }

  lemma LeastFirst(s: set<TableName>, m: TableName, rest: seq<int>)
    requires IsLeast(m, s) && StrictlyIncreasing(rest) && NamesOf(rest) == s - {m}
    ensures StrictlyIncreasing([m.startTime] + rest) && NamesOf([m.startTime] + rest) == s
  {
    forall x | x in NamesOf(rest)
      ensures m.startTime < x.startTime
    {
      assert x.startTime != m.startTime;
    }
    IncreasingCons(m.startTime, rest);
    NamesOfCons(m.startTime, rest);
    assert PackageLog(m.startTime) == m && {m} + (s - {m}) == s;
  }

  lemma {:induction false} SortedStartsAreSorted(s: set<TableName>)
    ensures StrictlyIncreasing(SortedStarts(s)) && NamesOf(SortedStarts(s)) == s && |SortedStarts(s)| == |s|
  {
    if s == {} {
    } else {
      var m := Least(s);
      SortedStartsAreSorted(s - {m});
      LeastFirst(s, m, SortedStarts(s - {m}));
    }
  }

  lemma NamesOfEmpty(s: seq<int>)
    ensures NamesOf(s) == {} <==> s == []
  {
    if s != [] {
      assert PackageLog(s[0]) in NamesOf(s);
    }
  }

  lemma InNames(s: seq<int>, t: int)
    ensures t in s <==> PackageLog(t) in NamesOf(s)
  {
  }

  lemma NamesOfTail(a: seq<int>)
    requires a != [] && StrictlyIncreasing(a)
    ensures NamesOf(a[1..]) == NamesOf(a) - {PackageLog(a[0])} && StrictlyIncreasing(a[1..])
  {
    forall x
      ensures x in NamesOf(a[1..]) <==> x in NamesOf(a) - {PackageLog(a[0])}
    {
      if x in NamesOf(a) && x.startTime != a[0] {
        var i :| 0 <= i < |a| && a[i] == x.startTime;
        assert a[1..][i - 1] == x.startTime;
      }
    }
  }

  /** There is one ascending list of given start times. */
  lemma {:induction false} SortedIsUnique(a: seq<int>, b: seq<int>)
    requires StrictlyIncreasing(a) && StrictlyIncreasing(b) && NamesOf(a) == NamesOf(b)
    ensures a == b
  {
    NamesOfEmpty(a);
    NamesOfEmpty(b);
    if a == [] {
    } else {
      assert PackageLog(a[0]) in NamesOf(b) && PackageLog(b[0]) in NamesOf(a);
      assert a[0] == b[0];
      NamesOfTail(a);
      NamesOfTail(b);
      SortedIsUnique(a[1..], b[1..]);
    }
  }
}
