/**
 The statistics of one period: an entry for every bundle, and for the daily period the pending events
 (services/packageusage/src/bundle_active_period_stats.cpp).
 */
module PeriodStats {
  import opened Events
  import opened PackageStats
  import L = EventList

  datatype Period = Period(beginTime: int, endTime: int, bundleStats: map<Key, Usage>, events: seq<Event>)
  {
    function GetOrCreate(key: Key): Usage {
      if key in bundleStats then bundleStats[key] else NEW_USAGE.(endTimeStamp := endTime)
    }

    /** Flush and shutdown reach every entry, a bundle event its own one, any other event none. */
    function Update(key: Key, taskName: string, timeStamp: int, eventId: int, abilityId: string): Period {
      var stats := if eventId == SHUTDOWN || eventId == FLUSH then
                     map k | k in bundleStats :: bundleStats[k].Update("", timeStamp, eventId, abilityId)
                   else if IsBundleEvent(eventId) then
                     bundleStats[key := GetOrCreate(key).Update(taskName, timeStamp, eventId, abilityId)]
                   else bundleStats;
      this.(bundleStats := stats, endTime := if timeStamp > endTime then timeStamp else endTime)
    }

    function AddEvent(e: Event): Period {
      this.(events := L.Inserted(events, e), endTime := if e.timeStamp > endTime then e.timeStamp else endTime)
    }

    function Launched(key: Key): Period {
      if key !in bundleStats then this
      else
        var u := bundleStats[key];
        this.(bundleStats := bundleStats[key := u.(bundleStartedCount := u.bundleStartedCount + 1)])
    }

    /** Who of the bundle is in front, and which tasks run; nobody for a bundle without an entry. */
    function FrontOf(key: Key): set<string> {
      if key in bundleStats then bundleStats[key].Front() else {}
    }

    function TasksOf(key: Key): set<string> {
      if key in bundleStats then bundleStats[key].longTimeTasks.Keys else {}
    }
  }

  class PeriodStats {
    const beginTime: int
    var endTime: int
    var bundleStats: map<Key, PackageStats>
    const events: L.EventList
    ghost var entries: set<PackageStats>

    /** Every entry is an object of its own. */
    ghost predicate EntriesValid()
      reads this
    {
      && (forall k :: k in bundleStats ==> bundleStats[k] in entries)
      && (forall k, l :: k in bundleStats && l in bundleStats && k != l ==> bundleStats[k] != bundleStats[l])
    }

    ghost predicate Valid()
      reads this, events
    {
      EntriesValid() && OrderedByTime(events.events)
    }

    ghost function StatsView(): map<Key, Usage>
      requires EntriesValid()
      reads this, entries
    {
      map k | k in bundleStats :: bundleStats[k].View()
    }

    ghost function View(): Period
      requires Valid()
      reads this, events, entries
    {
      Period(beginTime, endTime, StatsView(), events.events)
    }

    constructor (beginTime: int)
      ensures Valid() && View() == Period(beginTime, 0, map[], []) && fresh(events) && fresh(entries)
    {
      this.beginTime := beginTime;
      endTime := 0;
      bundleStats := map[];
      events := new L.EventList();
      entries := {};
    }

    method GetOrCreateUsageStats(key: Key) returns (usageStats: PackageStats)
      requires EntriesValid()
      modifies this`bundleStats, this`entries
      ensures EntriesValid() && fresh(entries - old(entries)) && old(entries) <= entries
      ensures key in bundleStats && usageStats == bundleStats[key]
      ensures forall k :: k in old(bundleStats) ==> k in bundleStats && bundleStats[k] == old(bundleStats[k])
      ensures bundleStats.Keys == old(bundleStats.Keys) + {key}
      ensures key !in old(bundleStats) ==> usageStats.View() == NEW_USAGE.(endTimeStamp := endTime)
    {
      if key !in bundleStats {
        var insertedStats := new PackageStats();
        insertedStats.endTimeStamp := endTime;
        bundleStats := bundleStats[key := insertedStats];
        entries := entries + {insertedStats};
      }
      usageStats := bundleStats[key];
    }

    method UpdateAll(timeStamp: int, eventId: int, abilityId: string)
      requires EntriesValid()
      modifies entries
      ensures EntriesValid()
      ensures forall k :: k in bundleStats ==>
                bundleStats[k].View() == old(bundleStats[k].View()).Update("", timeStamp, eventId, abilityId)
      ensures StatsView()
           == map k | k in old(StatsView()) :: old(StatsView())[k].Update("", timeStamp, eventId, abilityId)
    {
      var todo := bundleStats.Keys;
      while todo != {}
        invariant todo <= bundleStats.Keys
        invariant forall k :: k in bundleStats ==>
                    bundleStats[k].View() == if k in todo then old(bundleStats[k].View())
                                             else old(bundleStats[k].View()).Update("", timeStamp, eventId, abilityId)
        decreases todo
      {
        var k :| k in todo;
        bundleStats[k].Update("", timeStamp, eventId, abilityId);
        todo := todo - {k};
      }
    }

    method UpdateOne(key: Key, taskName: string, timeStamp: int, eventId: int, abilityId: string)
      requires EntriesValid()
      modifies this`bundleStats, this`entries, entries
      ensures EntriesValid() && fresh(entries - old(entries)) && old(entries) <= entries
      ensures bundleStats.Keys == old(bundleStats.Keys) + {key}
      ensures bundleStats[key].View() == old(Entry(key)).Update(taskName, timeStamp, eventId, abilityId)
      ensures forall k :: k in old(bundleStats) && k != key ==> bundleStats[k].View() == old(bundleStats[k].View())
    {
      var usageStats := GetOrCreateUsageStats(key);
      usageStats.Update(taskName, timeStamp, eventId, abilityId);
      assert forall k :: k in bundleStats && k != key ==> bundleStats[k] != usageStats;
    }

    ghost function Entry(key: Key): Usage
      requires EntriesValid()
      reads this, entries
    {
      if key in bundleStats then bundleStats[key].View() else NEW_USAGE.(endTimeStamp := endTime)
    }

    method UpdateStats(key: Key, taskName: string, timeStamp: int, eventId: int, abilityId: string)
      requires EntriesValid()
      modifies this`bundleStats, this`entries, entries
      ensures EntriesValid() && fresh(entries - old(entries)) && old(entries) <= entries
      ensures (eventId == SHUTDOWN || eventId == FLUSH) ==>
                StatsView() == map k | k in old(StatsView()) :: old(StatsView())[k].Update("", timeStamp, eventId, abilityId)
      ensures !(eventId == SHUTDOWN || eventId == FLUSH) && IsBundleEvent(eventId) ==>
                StatsView() == old(StatsView())[key := old(Entry(key)).Update(taskName, timeStamp, eventId, abilityId)]
      ensures !(eventId == SHUTDOWN || eventId == FLUSH) && !IsBundleEvent(eventId) ==> StatsView() == old(StatsView())
    {
      if eventId == SHUTDOWN || eventId == FLUSH {
        UpdateAll(timeStamp, eventId, abilityId);
      } else if IsBundleEvent(eventId) {
        UpdateOne(key, taskName, timeStamp, eventId, abilityId);
      }
    }

    method ExtendTo(timeStamp: int)
      requires EntriesValid()
      modifies this`endTime
      ensures EntriesValid() && StatsView() == old(StatsView())
      ensures endTime == if timeStamp > old(endTime) then timeStamp else old(endTime)
    {
      if timeStamp > endTime {
        endTime := timeStamp;
      }
    }

    method Update(key: Key, taskName: string, timeStamp: int, eventId: int, abilityId: string)
      requires Valid()
      modifies this, entries
      ensures Valid() && View() == old(View()).Update(key, taskName, timeStamp, eventId, abilityId)
      ensures fresh(entries - old(entries))
    {
      ghost var before := View();
      assert before.GetOrCreate(key) == Entry(key);
      UpdateStats(key, taskName, timeStamp, eventId, abilityId);
      assert StatsView() == before.Update(key, taskName, timeStamp, eventId, abilityId).bundleStats;
      ExtendTo(timeStamp);
    }

    method AddEvent(event: Event)
      requires Valid()
      modifies this`endTime, events
      ensures Valid() && View() == old(View()).AddEvent(event)
    {
      ghost var stats := StatsView();
      events.Insert(event);
      assert StatsView() == stats;
      ExtendTo(event.timeStamp);
    }
  }
}
