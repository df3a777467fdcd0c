/**
 What memory and tables hold of times (services/packageusage/src/bundle_active_user_service.cpp): every last-used
 time lies in the period of its entry, every table starts where a period can start, and the table of the current
 period is there when the index names it. Each step of the service keeps this, also a midnight whose replay stops
 early.
 */
module Tidiness {
  import opened Events
  import opened PackageStats
  import opened PeriodStats
  import opened Replay
  import opened Calendar
  import opened TableIndex
  import opened UsageStore
  import opened UserService
  import opened Rollover

  // ----- entries -----

  /** Never, or within the period. */
  predicate TimeIn(t: int, begin: int, length: int) {
    t == -1 || begin <= t < begin + length
  }

  predicate EntryIn(u: Usage, begin: int, length: int) {
    TimeIn(u.lastTimeUsed, begin, length) && TimeIn(u.lastContinuousTaskUsed, begin, length)
  }

  predicate PeriodIn(p: Period, length: int) {
    forall k :: k in p.bundleStats ==> EntryIn(p.bundleStats[k], p.beginTime, length)
  }

  lemma UpdateStaysIn(u: Usage, taskName: string, timeStamp: int, eventId: int, abilityId: string, begin: int, length: int)
    requires EntryIn(u, begin, length) && begin <= timeStamp < begin + length
    ensures EntryIn(u.Update(taskName, timeStamp, eventId, abilityId), begin, length)
  {
  }

  lemma EventStaysIn(p: Period, e: Event, launch: bool, length: int)
    requires PeriodIn(p, length) && p.beginTime <= e.timeStamp < p.beginTime + length
    ensures PeriodIn(UpdatedPeriod(p, e, launch), length)
  {
    var p1 := p.Update(e.KeyOf(), e.taskName, e.timeStamp, e.eventId, e.abilityId);
    forall k | k in p1.bundleStats
      ensures EntryIn(p1.bundleStats[k], p.beginTime, length)
    {
      if e.eventId == SHUTDOWN || e.eventId == FLUSH {
        UpdateStaysIn(p.bundleStats[k], "", e.timeStamp, e.eventId, e.abilityId, p.beginTime, length);
      } else if IsBundleEvent(e.eventId) && k == e.KeyOf() {
        UpdateStaysIn(p.GetOrCreate(k), e.taskName, e.timeStamp, e.eventId, e.abilityId, p.beginTime, length);
      }
    }
  }

  lemma EndOfDayStaysIn(p: Period, expiry: int, length: int)
    requires PeriodIn(p, length) && p.beginTime < expiry <= p.beginTime + length
    ensures PeriodIn(EndOfDay(p, expiry), length)
  {
    forall k | k in p.bundleStats
      ensures EntryIn(EndOfDay(p, expiry).bundleStats[k], p.beginTime, length)
    {
      UpdateStaysIn(p.bundleStats[k], "", expiry - 1, END_OF_THE_DAY, "", p.beginTime, length);
    }
  }

  lemma ReportedStaysIn(p: Period, fronts: map<Key, set<string>>, tasks: map<Key, set<string>>, time: int, length: int)
    requires PeriodIn(p, length) && p.beginTime <= time < p.beginTime + length
    ensures PeriodIn(Reported(p, fronts, tasks, time), length)
  {
    forall k
      ensures EntryIn(ReportedEntry(p, fronts, tasks, time, k), p.beginTime, length)
    {
      ReplayStaysIn(p.GetOrCreate(k), SetAt(fronts, k), SetAt(tasks, k), time, p.beginTime, length);
    }
  }

  lemma ReplayStaysIn(u: Usage, front: set<string>, tasks: set<string>, time: int, begin: int, length: int)
    requires EntryIn(u, begin, length) && begin <= time < begin + length
    ensures EntryIn(ReplayTasks(ReplayAbilities(u, front, time), tasks, time), begin, length)
  {
    assert EntryIn(ReplayAbilities(u, front, time), begin, length);
  }

  // ----- tables -----

  /** Never, or within a period length of the start of the table. */
  predicate RowIn(r: Row, length: int) {
    TimeIn(r.lastTime, 0, length) && TimeIn(r.lastTask, 0, length)
  }

  predicate TableIn(table: Table, length: int) {
    forall rk :: rk in table ==> RowIn(table[rk], length)
  }

  ghost predicate StoreIn(s: Store, length: int) {
    && (forall t :: t in s.index ==> IsMultiple(t, length))
    && (forall n :: n in s.tables ==> IsMultiple(n.startTime, length) && TableIn(s.tables[n], length))
  }

  lemma FlushedRowsIn(begin: int, length: int, userId: int, p: Period)
    requires PeriodIn(p, length) && begin == p.beginTime
    ensures TableIn(FlushedRows(begin, userId, p.bundleStats), length)
  {
    forall rk | rk in FlushedRows(begin, userId, p.bundleStats)
      ensures RowIn(FlushedRows(begin, userId, p.bundleStats)[rk], length)
    {
      FlushedRowsAt(begin, userId, p.bundleStats, rk);
      assert EntryIn(p.bundleStats[rk.key], begin, length);
    }
  }

  lemma EvictionStaysIn(s: Store, max: nat, length: int)
    requires StoreIn(s, length)
    ensures StoreIn(s.DeleteExcessive(max), length)
  {
    var s' := s.DeleteExcessive(max);
    assert forall t :: t in s'.index ==> t in s.index;
  }

  lemma TableStaysIn(s: Store, t: int, max: nat, length: int)
    requires StoreIn(s, length) && IsMultiple(t, length)
    ensures StoreIn(s.WithTable(t, max), length)
  {
    if t !in s.index {
      var table := if PackageLog(t) in s.tables then s.tables[PackageLog(t)] else map[];
      var made := Store(InsertStart(s.index, t), s.tables[PackageLog(t) := table]);
      var n := LowerBound(s.index, t);
      forall x | x in made.index
        ensures IsMultiple(x, length)
      {
        assert x in s.index[..n] || x == t || x in s.index[n..];
        assert x in s.index || x == t;
      }
      EvictionStaysIn(made, max, length);
    }
  }

  lemma RowsStayIn(s: Store, t: int, rows: Table, length: int)
    requires StoreIn(s, length) && TableIn(rows, length)
    ensures StoreIn(s.WithRows(t, rows), length)
  {
  }

  lemma ReadStaysIn(s: Store, length: int)
    requires StoreIn(s, length)
    ensures StoreIn(s.HandleTableInfo(), length)
  {
    SortedStartsAreSorted(s.tables.Keys);
    forall t | t in SortedStarts(s.tables.Keys)
      ensures IsMultiple(t, length)
    {
      InNames(SortedStarts(s.tables.Keys), t);
      assert PackageLog(t) in s.tables;
    }
  }

  lemma RemovalStaysIn(s: Store, cutoff: int, max: nat, length: int)
    requires StoreIn(s, length)
    ensures StoreIn(s.RemovedOld(cutoff, max), length)
  {
    assert StoreIn(s.DropBefore(cutoff), length);
    ReadStaysIn(s.DropBefore(cutoff), length);
    EvictionStaysIn(s.DropBefore(cutoff).HandleTableInfo(), max, length);
  }

  // ----- the table of the current period -----

  predicate Present(s: Store, t: int) {
    t in s.index ==> PackageLog(t) in s.tables
  }

  lemma EvictionKeepsPresent(s: Store, max: nat, t: int)
    requires StrictlyIncreasing(s.index) && Present(s, t)
    ensures Present(s.DeleteExcessive(max), t)
  {
    if |s.index| > max {
      var n := |s.index| - max;
      if t in s.index[n..] {
        var j :| 0 <= j < |s.index| - n && s.index[n..][j] == t;
        assert forall i :: 0 <= i < n ==> s.index[..n][i] < s.index[n + j];
        InNames(s.index[..n], t);
      }
    }
  }

  lemma TableIsPresent(s: Store, t: int, max: nat)
    requires StrictlyIncreasing(s.index) && Present(s, t)
    ensures Present(s.WithTable(t, max), t) && StrictlyIncreasing(s.WithTable(t, max).index)
  {
    if t !in s.index {
      InsertStartKeepsOrder(s.index, t);
      var table := if PackageLog(t) in s.tables then s.tables[PackageLog(t)] else map[];
      EvictionKeepsPresent(Store(InsertStart(s.index, t), s.tables[PackageLog(t) := table]), max, t);
    }
  }

  lemma RemovalKeepsPresent(s: Store, cutoff: int, max: nat, t: int)
    requires StrictlyIncreasing(s.index) && Present(s, t) && cutoff <= t
    ensures Present(s.RemovedOld(cutoff, max), t)
  {
    var dropped := s.DropBefore(cutoff);
    SortedStartsAreSorted(dropped.tables.Keys);
    InNames(SortedStarts(dropped.tables.Keys), t);
    assert t in s.index ==> PackageLog(t) in dropped.tables;
    EvictionKeepsPresent(dropped.HandleTableInfo(), max, t);
  }

  lemma InsertLast(index: seq<int>, t: int)
    requires forall i :: 0 <= i < |index| ==> index[i] < t
    ensures InsertStart(index, t) == index + [t]
  {
    LowerBoundIsUnique(index, t, |index|);
    assert index[..|index|] == index && index[|index|..] == [];
  }

  /** The table of the current period is the newest, and is never evicted. */
  lemma NewestSurvives(s: Store, t: int, max: nat)
    requires StrictlyIncreasing(s.index) && Behind(s, t) && Present(s, t) && max > 0
    ensures var s' := s.WithTable(t, max);
            PackageLog(t) in s'.tables && s'.index != [] && s'.index[|s'.index| - 1] == t
  {
    if t in s.index {
      var j :| 0 <= j < |s.index| && s.index[j] == t;
      assert s.index[|s.index| - 1] in s.index;
    } else {
      forall i | 0 <= i < |s.index|
        ensures s.index[i] < t
      {
        assert s.index[i] in s.index;
      }
      InsertLast(s.index, t);
      TableIsPresent(s, t, max);
      assert t in s.WithTable(t, max).index by {
        assert s.WithTable(t, max).index[|s.WithTable(t, max).index| - 1] == t;
      }
    }
  }
}
