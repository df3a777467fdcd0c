/**
 What a rollover puts back into an entry: abilities still in front and tasks still running are reported
 again at the begin of the new day (services/packageusage/src/bundle_active_user_service.cpp). The source
 replays them one by one; the closed forms here do not depend on the order.
 */
module Replay {
  import opened Events
  import opened Occupancy
  import opened PackageStats

  function BackAmong(u: Usage, front: set<string>): set<string> {
    set a | a in front && a in u.abilities && u.abilities[a] == ABILITY_BACKGROUND
  }

  function AsFront(front: set<string>): map<string, int> {
    map a | a in front :: ABILITY_FOREGROUND
  }

  function AsRunning(tasks: set<string>): map<string, int> {
    map t | t in tasks :: LONG_TIME_TASK_STARTED
  }

  /** The time counter: it starts when nobody was in front, and moves on when a replayed ability was. */
  function ClockAfter(clock: Meter<string>, front: set<string>, time: int): Meter<string> {
    if front == {} then clock
    else if clock.inside == {} then Meter(clock.total, time, front)
    else if front * clock.inside != {} && time > clock.last then
      Meter(clock.total + (time - clock.last), time, clock.inside + front)
    else Meter(clock.total, clock.last, clock.inside + front)
  }

  function ReplayAbilities(u: Usage, front: set<string>, time: int): Usage {
    if front == {} then u
    else
      var clock := ClockAfter(u.FrontMeter(), front, time);
      u.(lastTimeUsed := clock.last,
         totalInFrontTime := clock.total,
         beginTimeStamp := if u.abilities == map[] then time else u.beginTimeStamp,
         startCount := u.startCount + (if u.abilities == map[] then 1 else 0) + |BackAmong(u, front)|,
         abilities := u.abilities + AsFront(front),
         endTimeStamp := time)
  }

  function ReplayTasks(u: Usage, tasks: set<string>, time: int): Usage {
    if tasks == {} then u
    else
      var v := if u.longTimeTasks == map[] then u.(lastContinuousTaskUsed := time)
               else if exists t :: t in tasks && t in u.longTimeTasks && u.longTimeTasks[t] == LONG_TIME_TASK_STARTED
               then u.IncrementServiceTimeUsed(time) else u;
      v.(longTimeTasks := u.longTimeTasks + AsRunning(tasks), endTimeStamp := time)
  }

  lemma FrontAfterReplay(u: Usage, front: set<string>, time: int)
    ensures ReplayAbilities(u, front, time).Front() == u.Front() + front
    ensures ReplayAbilities(u, front, time).longTimeTasks == u.longTimeTasks
  {
    var v := ReplayAbilities(u, front, time);
    assert forall a :: a in v.abilities <==> a in u.abilities || a in front;
  }

  lemma ClockOfOne(clock: Meter<string>, a: string, time: int)
    ensures ClockAfter(clock, {a}, time)
         == if clock.inside == {} then Meter(clock.total, time, {a})
            else if a in clock.inside && time > clock.last then
              Meter(clock.total + (time - clock.last), time, clock.inside + {a})
            else Meter(clock.total, clock.last, clock.inside + {a})
  {
    assert a in clock.inside ==> a in {a} * clock.inside;
  }

  /** A foreground event on its own. */
  lemma ForegroundIsReplayOfOne(u: Usage, a: string, time: int)
    ensures u.Update("", time, ABILITY_FOREGROUND, a) == ReplayAbilities(u, {a}, time)
  {
    assert a in u.abilities && u.abilities[a] == ABILITY_FOREGROUND <==> a in u.Front();
    BackGrows(u, {}, a);
    assert {} + {a} == {a};
    assert u.abilities + AsFront({a}) == u.abilities[a := ABILITY_FOREGROUND];
    ClockOfOne(u.FrontMeter(), a, time);
  }

  /** One more ability, whichever it is, extends the closed form. */
  lemma AbilityReplayed(u: Usage, front: set<string>, a: string, time: int)
    requires a !in front
    ensures ReplayAbilities(u, front, time).Update("", time, ABILITY_FOREGROUND, a)
         == ReplayAbilities(u, front + {a}, time)
  {
    var v := ReplayAbilities(u, front, time);
    ForegroundIsReplayOfOne(v, a, time);
    if front == {} {
      assert front + {a} == {a};
    } else {
      ReplayTwice(u, v, front, a, time);
    }
  }

  lemma ReplayTwice(u: Usage, v: Usage, front: set<string>, a: string, time: int)
    requires front != {} && a !in front && v == ReplayAbilities(u, front, time)
    ensures ReplayAbilities(v, {a}, time) == ReplayAbilities(u, front + {a}, time)
  {
    FrontAfterReplay(u, front, time);
    ClockTwice(u.FrontMeter(), front, a, time);
    assert v.FrontMeter() == ClockAfter(u.FrontMeter(), front, time);
    CountedTwice(u, v, front, a, time);
  }

  lemma CountedTwice(u: Usage, v: Usage, front: set<string>, a: string, time: int)
    requires front != {} && a !in front && v.abilities == u.abilities + AsFront(front)
    ensures v.abilities != map[] && v.abilities + AsFront({a}) == u.abilities + AsFront(front + {a})
    ensures |BackAmong(u, front)| + |BackAmong(v, {a})| == |BackAmong(u, front + {a})|
  {
    var some :| some in front;
    assert some in v.abilities;
    assert a in v.abilities <==> a in u.abilities;
    BackGrows(u, front, a);
    BackGrows(v, {}, a);
    assert {} + {a} == {a};
  }

  lemma ClockTwice(clock: Meter<string>, front: set<string>, a: string, time: int)
    requires a !in front
    ensures ClockAfter(ClockAfter(clock, front, time), {a}, time) == ClockAfter(clock, front + {a}, time)
  {
    var mid := ClockAfter(clock, front, time);
    assert (front + {a}) * clock.inside == front * clock.inside + (if a in clock.inside then {a} else {});
    assert {a} * mid.inside == if a in clock.inside then {a} else {};
    if front == {} {
      assert front + {a} == {a};
    } else {
      assert mid.inside == clock.inside + front && mid.inside != {};
      assert mid.inside + {a} == clock.inside + (front + {a});
    }
  }

  lemma BackGrows(u: Usage, front: set<string>, a: string)
    requires a !in front
    ensures |BackAmong(u, front + {a})|
         == |BackAmong(u, front)| + (if a in u.abilities && u.abilities[a] == ABILITY_BACKGROUND then 1 else 0)
    ensures |BackAmong(u, {})| == 0
  {
    if a in u.abilities && u.abilities[a] == ABILITY_BACKGROUND {
      assert BackAmong(u, front + {a}) == BackAmong(u, front) + {a};
    } else {
      assert BackAmong(u, front + {a}) == BackAmong(u, front);
    }
    assert BackAmong(u, {}) == {};
  }

  lemma TaskReplayed(u: Usage, tasks: set<string>, t: string, time: int)
    requires t !in tasks
    ensures ReplayTasks(u, tasks, time).Update(t, time, LONG_TIME_TASK_STARTED, "")
         == ReplayTasks(u, tasks + {t}, time)
  {
    var v := ReplayTasks(u, tasks, time);
    assert v.longTimeTasks[t := LONG_TIME_TASK_STARTED] == u.longTimeTasks + AsRunning(tasks + {t});
    assert t in v.longTimeTasks <==> t in u.longTimeTasks;
    if tasks != {} {
      var x :| x in tasks;
      assert x in v.longTimeTasks;
    }
  }

  // ----- what a replay does to the counters -----

  /** In an entry that already shows these abilities in front, the replay does not change what is shown. */
  lemma ReplayKeepsAccount(u: Usage, front: set<string>, time: int, now: int)
    requires u.Front() == front && (front != {} ==> u.lastTimeUsed <= time) && time <= now
    ensures var v := ReplayAbilities(u, front, time);
            v.Front() == front && Accounted(v.FrontMeter(), now) == Accounted(u.FrontMeter(), now)
            && (front != {} ==> v.lastTimeUsed == time)
  {
    FrontAfterReplay(u, front, time);
    assert front != {} ==> front * u.Front() == front;
  }

  /** In a new entry the counting starts at the replay. */
  lemma ReplayStartsAccount(u: Usage, front: set<string>, time: int, now: int)
    requires u.abilities == map[] && u.totalInFrontTime == 0
    ensures var v := ReplayAbilities(u, front, time);
            v.Front() == front && Accounted(v.FrontMeter(), now) == (if front != {} then now - time else 0)
            && (front != {} ==> v.lastTimeUsed == time)
  {
    FrontAfterReplay(u, front, time);
    assert u.Front() == {};
  }

  lemma TaskReplayKeepsAccount(u: Usage, tasks: set<string>, time: int, now: int)
    requires u.longTimeTasks.Keys == tasks && (tasks != {} ==> u.lastContinuousTaskUsed <= time) && time <= now
    requires forall t :: t in u.longTimeTasks ==> u.longTimeTasks[t] == LONG_TIME_TASK_STARTED
    ensures var v := ReplayTasks(u, tasks, time);
            v.longTimeTasks == u.longTimeTasks && v.abilities == u.abilities && v.FrontMeter() == u.FrontMeter()
            && Accounted(v.TaskMeter(), now) == Accounted(u.TaskMeter(), now)
            && (tasks != {} ==> v.lastContinuousTaskUsed == time)
  {
    assert u.longTimeTasks + AsRunning(tasks) == u.longTimeTasks;
    assert u.longTimeTasks != map[] <==> tasks != {};
    if tasks != {} {
      var t :| t in tasks;
      assert t in u.longTimeTasks;
    }
  }

  lemma TaskReplayStartsAccount(u: Usage, tasks: set<string>, time: int, now: int)
    requires u.longTimeTasks == map[] && u.totalContinuousTaskUsedTime == 0
    ensures var v := ReplayTasks(u, tasks, time);
            v.longTimeTasks == AsRunning(tasks) && v.abilities == u.abilities && v.FrontMeter() == u.FrontMeter()
            && Accounted(v.TaskMeter(), now) == (if tasks != {} then now - time else 0)
            && (tasks != {} ==> v.lastContinuousTaskUsed == time)
  {
    assert u.longTimeTasks + AsRunning(tasks) == AsRunning(tasks);
  }
}
