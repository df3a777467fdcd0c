/**
 How the loops of a rollover build the closed forms of UserService: one replayed ability or task, one entry of
 a period, at a time.
 */
module ReplaySteps {
  import opened Events
  import opened PackageStats
  import opened PeriodStats
  import opened Replay
  import opened UserService

  lemma ReplayForgetsEndTime(u: Usage, front: set<string>, tasks: set<string>, x: int, time: int)
    requires front != {} || tasks != {}
    ensures ReplayTasks(ReplayAbilities(u.(endTimeStamp := x), front, time), tasks, time)
         == ReplayTasks(ReplayAbilities(u, front, time), tasks, time)
  {
  }

  /** One more ability of a bundle whose tasks are not replayed yet. */
  lemma AbilityReported(p: Period, fronts: map<Key, set<string>>, tasks: map<Key, set<string>>, time: int, k: Key, a: string)
    requires k !in tasks && a !in SetAt(fronts, k)
    ensures Reported(p, fronts, tasks, time).Update(k, "", time, ABILITY_FOREGROUND, a)
         == Reported(p, fronts[k := SetAt(fronts, k) + {a}], tasks, time)
  {
    var before, after := Reported(p, fronts, tasks, time), Reported(p, fronts[k := SetAt(fronts, k) + {a}], tasks, time);
    AbilityEntry(p, fronts, tasks, time, k, a);
    forall l | l != k
      ensures SameIn(before.bundleStats, after.bundleStats, l)
    {
      OthersStay(p, fronts, SetAt(fronts, k) + {a}, tasks, SetAt(tasks, k), time, k, l);
    }
    OneEntryChanged(before.bundleStats, after.bundleStats, k, before.GetOrCreate(k).Update("", time, ABILITY_FOREGROUND, a));
  }

  lemma OneEntryChanged(before: map<Key, Usage>, after: map<Key, Usage>, k: Key, u: Usage)
    requires k in after && after[k] == u
    requires forall l :: l != k ==> SameIn(before, after, l)
    ensures before[k := u] == after
  {
    assert forall l :: l in after && l != k ==> SameIn(before, after, l);
    assert forall l :: l in before && l != k ==> SameIn(before, after, l);
  }

  predicate SameIn(before: map<Key, Usage>, after: map<Key, Usage>, l: Key) {
    (l in before <==> l in after) && (l in before ==> before[l] == after[l])
  }

  lemma OthersStay(p: Period, fronts: map<Key, set<string>>, front: set<string>, tasks: map<Key, set<string>>,
                   task: set<string>, time: int, k: Key, l: Key)
    requires l != k
    ensures SameIn(Reported(p, fronts, tasks, time).bundleStats, Reported(p, fronts[k := front], tasks, time).bundleStats, l)
    ensures SameIn(Reported(p, fronts, tasks, time).bundleStats, Reported(p, fronts, tasks[k := task], time).bundleStats, l)
  {
    assert ReportedEntry(p, fronts, tasks, time, l) == ReportedEntry(p, fronts[k := front], tasks, time, l);
    assert ReportedEntry(p, fronts, tasks, time, l) == ReportedEntry(p, fronts, tasks[k := task], time, l);
  }

  lemma AbilityEntry(p: Period, fronts: map<Key, set<string>>, tasks: map<Key, set<string>>, time: int, k: Key, a: string)
    requires k !in tasks && a !in SetAt(fronts, k)
    ensures Reported(p, fronts, tasks, time).GetOrCreate(k).Update("", time, ABILITY_FOREGROUND, a)
         == ReportedEntry(p, fronts[k := SetAt(fronts, k) + {a}], tasks, time, k)
  {
    var front := SetAt(fronts, k);
    AbilityReplayed(p.GetOrCreate(k), front, a, time);
    var before := Reported(p, fronts, tasks, time);
    if k in p.bundleStats || k in fronts {
      assert before.GetOrCreate(k) == ReplayAbilities(p.GetOrCreate(k), front, time);
    } else {
      assert before.GetOrCreate(k) == p.GetOrCreate(k).(endTimeStamp := before.endTime);
      AbilityReplayed(before.GetOrCreate(k), {}, a, time);
      ReplayForgetsEndTime(p.GetOrCreate(k), {} + {a}, {}, before.endTime, time);
    }
  }

  lemma TaskReported(p: Period, fronts: map<Key, set<string>>, tasks: map<Key, set<string>>, time: int, k: Key, t: string)
    requires t !in SetAt(tasks, k)
    ensures Reported(p, fronts, tasks, time).Update(k, t, time, LONG_TIME_TASK_STARTED, "")
         == Reported(p, fronts, tasks[k := SetAt(tasks, k) + {t}], time)
  {
    var before, after := Reported(p, fronts, tasks, time), Reported(p, fronts, tasks[k := SetAt(tasks, k) + {t}], time);
    TaskEntry(p, fronts, tasks, time, k, t);
    forall l | l != k
      ensures SameIn(before.bundleStats, after.bundleStats, l)
    {
      OthersStay(p, fronts, SetAt(fronts, k), tasks, SetAt(tasks, k) + {t}, time, k, l);
    }
    OneEntryChanged(before.bundleStats, after.bundleStats, k,
                    before.GetOrCreate(k).Update(t, time, LONG_TIME_TASK_STARTED, ""));
  }

  lemma TaskEntry(p: Period, fronts: map<Key, set<string>>, tasks: map<Key, set<string>>, time: int, k: Key, t: string)
    requires t !in SetAt(tasks, k)
    ensures Reported(p, fronts, tasks, time).GetOrCreate(k).Update(t, time, LONG_TIME_TASK_STARTED, "")
         == ReportedEntry(p, fronts, tasks[k := SetAt(tasks, k) + {t}], time, k)
  {
    var v := ReplayAbilities(p.GetOrCreate(k), SetAt(fronts, k), time);
    TaskReplayed(v, SetAt(tasks, k), t, time);
    var before := Reported(p, fronts, tasks, time);
    if k in p.bundleStats || k in fronts || k in tasks {
      assert before.GetOrCreate(k) == ReplayTasks(v, SetAt(tasks, k), time);
    } else {
      assert before.GetOrCreate(k) == p.GetOrCreate(k).(endTimeStamp := before.endTime);
      TaskReplayed(before.GetOrCreate(k), {}, t, time);
      ReplayForgetsEndTime(p.GetOrCreate(k), {}, {} + {t}, before.endTime, time);
    }
  }

  lemma NothingReported(p: Period, time: int)
    ensures Reported(p, map[], map[], time) == p
  {
    assert Reported(p, map[], map[], time).bundleStats == p.bundleStats;
  }
}
