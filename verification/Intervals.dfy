/**
 What the entry of one bundle in one period shows, against the history of all reported events. Each period
 carries an account: the instant its counting goes back to, and what it had counted before.
 */
module Intervals {
  import opened Events
  import opened Occupancy
  import opened PackageStats
  import opened PeriodStats
  import opened Replay
  import opened UserService

  function KeyFrontChange(e: Event, k: Key): Change<string> {
    if IsBundleEvent(e.eventId) && e.KeyOf() == k then FrontChange(e) else Stay
  }

  function KeyTaskChange(e: Event, k: Key): Change<string> {
    if IsBundleEvent(e.eventId) && e.KeyOf() == k then TaskChange(e) else Stay
  }

  /** The changes of one bundle in the history of the whole device. */
  function FrontLog(history: seq<Event>, k: Key): seq<Timed<string>> {
    seq(|history|, i requires 0 <= i < |history| => At(history[i].timeStamp, KeyFrontChange(history[i], k)))
  }

  function TaskLog(history: seq<Event>, k: Key): seq<Timed<string>> {
    seq(|history|, i requires 0 <= i < |history| => At(history[i].timeStamp, KeyTaskChange(history[i], k)))
  }

  /** The reference: which abilities are in front, and which tasks run, after everything reported. */
  function InFront(history: seq<Event>, k: Key): set<string> {
    After({}, FrontLog(history, k))
  }

  function Running(history: seq<Event>, k: Key): set<string> {
    After({}, TaskLog(history, k))
  }

  datatype Account = Account(origin: int, fronts: map<Key, int>, tasks: map<Key, int>)

  function BaseOf(bases: map<Key, int>, k: Key): int {
    if k in bases then bases[k] else 0
  }

  function FrontMeterOf(p: Period, k: Key): Meter<string> {
    if k in p.bundleStats then p.bundleStats[k].FrontMeter() else Meter(0, 0, {})
  }

  function TaskMeterOf(p: Period, k: Key): Meter<string> {
    if k in p.bundleStats then p.bundleStats[k].TaskMeter() else Meter(0, 0, {})
  }

  ghost predicate HistoryOk(history: seq<Event>, now: int) {
    OrderedByTime(history) && forall i :: 0 <= i < |history| ==> 0 <= history[i].timeStamp <= now
  }

  ghost predicate EntryOk(p: Period, k: Key, history: seq<Event>, a: Account, now: int) {
    && (k in p.bundleStats ==> p.bundleStats[k].Valid(now))
    && Shows(FrontMeterOf(p, k), BaseOf(a.fronts, k), {}, FrontLog(history, k), a.origin, now)
    && Shows(TaskMeterOf(p, k), BaseOf(a.tasks, k), {}, TaskLog(history, k), a.origin, now)
  }

  lemma LogSnoc(history: seq<Event>, e: Event, k: Key)
    ensures FrontLog(history + [e], k) == FrontLog(history, k) + [At(e.timeStamp, KeyFrontChange(e, k))]
    ensures TaskLog(history + [e], k) == TaskLog(history, k) + [At(e.timeStamp, KeyTaskChange(e, k))]
  {
  }

  lemma LogIsOrdered(history: seq<Event>, k: Key, now: int)
    requires HistoryOk(history, now) && 0 <= now
    ensures Ordered(FrontLog(history, k), 0) && EndTime(FrontLog(history, k), 0) <= now
    ensures Ordered(TaskLog(history, k), 0) && EndTime(TaskLog(history, k), 0) <= now
  {
  }

  /** The entry after an event, given what the event does to its two counters. */
  lemma EntryStep(p: Period, p': Period, k: Key, e: Event, history: seq<Event>, a: Account, now: int)
    requires EntryOk(p, k, history, a, now) && HistoryOk(history, now)
    requires 0 <= now <= e.timeStamp && a.origin <= now
    requires k in p'.bundleStats ==> p'.bundleStats[k].Valid(e.timeStamp)
    requires FrontMeterOf(p', k).inside == Apply(FrontMeterOf(p, k).inside, KeyFrontChange(e, k))
    requires Accounted(FrontMeterOf(p', k), e.timeStamp) == Accounted(FrontMeterOf(p, k), e.timeStamp)
    requires TaskMeterOf(p', k).inside == Apply(TaskMeterOf(p, k).inside, KeyTaskChange(e, k))
    requires Accounted(TaskMeterOf(p', k), e.timeStamp) == Accounted(TaskMeterOf(p, k), e.timeStamp)
    ensures EntryOk(p', k, history + [e], a, e.timeStamp)
  {
    LogSnoc(history, e, k);
    LogIsOrdered(history, k, now);
    ShowsStep(FrontMeterOf(p, k), FrontMeterOf(p', k), BaseOf(a.fronts, k), {}, FrontLog(history, k), 0, a.origin, now,
              At(e.timeStamp, KeyFrontChange(e, k)));
    ShowsStep(TaskMeterOf(p, k), TaskMeterOf(p', k), BaseOf(a.tasks, k), {}, TaskLog(history, k), 0, a.origin, now,
              At(e.timeStamp, KeyTaskChange(e, k)));
  }

  /** An event or a commit moves the counters of an entry as its changes say. */
  lemma UsageStep(u: Usage, e: Event)
    requires u.Valid(e.timeStamp)
    ensures var u' := u.Update(e.taskName, e.timeStamp, e.eventId, e.abilityId);
            && u'.Valid(e.timeStamp)
            && u'.FrontMeter().inside == Apply(u.FrontMeter().inside, FrontChange(e))
            && Accounted(u'.FrontMeter(), e.timeStamp) == Accounted(u.FrontMeter(), e.timeStamp)
            && u'.TaskMeter().inside == Apply(u.TaskMeter().inside, TaskChange(e))
            && Accounted(u'.TaskMeter(), e.timeStamp) == Accounted(u.TaskMeter(), e.timeStamp)
  {
    FrontStep(u, e);
    TaskStep(u, e);
  }

  function PeriodAfter(p: Period, e: Event, launch: bool): Period {
    if IsTrackerEvent(e.eventId) then p else UpdatedPeriod(p, e, launch)
  }

  lemma LaunchKeepsMeters(p: Period, l: Key, k: Key, now: int)
    ensures FrontMeterOf(p.Launched(l), k) == FrontMeterOf(p, k) && TaskMeterOf(p.Launched(l), k) == TaskMeterOf(p, k)
    ensures k in p.Launched(l).bundleStats <==> k in p.bundleStats
    ensures k in p.bundleStats && p.bundleStats[k].Valid(now) ==> p.Launched(l).bundleStats[k].Valid(now)
  {
    if k in p.bundleStats && l == k {
      var u := p.bundleStats[k];
      var u' := p.Launched(l).bundleStats[k];
      assert u'.abilities == u.abilities && u'.longTimeTasks == u.longTimeTasks;
      assert u'.Front() == u.Front();
    }
  }

  /** Without a rollover an event keeps every entry of every period exact. */
  lemma EventKeepsEntry(p: Period, e: Event, launch: bool, k: Key, history: seq<Event>, a: Account, now: int)
    requires EntryOk(p, k, history, a, now) && HistoryOk(history, now)
    requires 0 <= now <= e.timeStamp && a.origin <= now
    ensures EntryOk(PeriodAfter(p, e, launch), k, history + [e], a, e.timeStamp)
  {
    var p1 := p.Update(e.KeyOf(), e.taskName, e.timeStamp, e.eventId, e.abilityId);
    if IsTrackerEvent(e.eventId) {
      EntryStep(p, p, k, e, history, a, now);
    } else {
      if e.eventId == SHUTDOWN || e.eventId == FLUSH {
        if k in p.bundleStats {
          UsageStep(p.bundleStats[k], e.(taskName := ""));
        }
      } else if IsBundleEvent(e.eventId) && k == e.KeyOf() {
        EntryIsCreated(p, k, e);
        UsageStep(p.GetOrCreate(k), e);
      }
      EntryStep(p, p1, k, e, history, a, now);
      LaunchKeepsMeters(p1, e.KeyOf(), k, e.timeStamp);
    }
  }

  /** A new entry shows what the missing one did: nothing. */
  lemma EntryIsCreated(p: Period, k: Key, e: Event)
    requires k in p.bundleStats ==> p.bundleStats[k].Valid(e.timeStamp)
    ensures p.GetOrCreate(k).Valid(e.timeStamp)
    ensures p.GetOrCreate(k).FrontMeter().inside == FrontMeterOf(p, k).inside
    ensures p.GetOrCreate(k).TaskMeter().inside == TaskMeterOf(p, k).inside
    ensures Accounted(p.GetOrCreate(k).FrontMeter(), e.timeStamp) == Accounted(FrontMeterOf(p, k), e.timeStamp)
    ensures Accounted(p.GetOrCreate(k).TaskMeter(), e.timeStamp) == Accounted(TaskMeterOf(p, k), e.timeStamp)
  {
  }

  // ----- the pieces of a rollover -----

  /** An entry whose counters go on showing the same is as exact as before. */
  lemma SameMeters(p: Period, p': Period, k: Key, history: seq<Event>, a: Account, now: int, time: int)
    requires EntryOk(p, k, history, a, now) && now <= time && (k in p'.bundleStats ==> p'.bundleStats[k].Valid(time))
    requires FrontMeterOf(p', k).inside == FrontMeterOf(p, k).inside
    requires TaskMeterOf(p', k).inside == TaskMeterOf(p, k).inside
    requires forall t :: time <= t ==> Accounted(FrontMeterOf(p', k), t) == Accounted(FrontMeterOf(p, k), t)
    requires forall t :: time <= t ==> Accounted(TaskMeterOf(p', k), t) == Accounted(TaskMeterOf(p, k), t)
    ensures EntryOk(p', k, history, a, time)
  {
  }

  lemma EndOfDayUsage(u: Usage, time: int)
    requires u.Valid(time)
    ensures var w := u.Update("", time, END_OF_THE_DAY, "");
            && w.Valid(time) && w.Front() == u.Front() && w.longTimeTasks.Keys == u.longTimeTasks.Keys
            && w.totalInFrontTime == Accounted(u.FrontMeter(), time)
            && w.totalContinuousTaskUsedTime == Accounted(u.TaskMeter(), time)
            && (forall t :: time <= t ==> Accounted(w.FrontMeter(), t) == Accounted(u.FrontMeter(), t))
            && (forall t :: time <= t ==> Accounted(w.TaskMeter(), t) == Accounted(u.TaskMeter(), t))
  {
    UsageStep(u, Event("", "", "", time, END_OF_THE_DAY, 0, ""));
    CommitSettles(u, END_OF_THE_DAY, time);
  }

  /** The end-of-day event settles the counters and changes nothing that they show. */
  lemma EndOfDayKeepsEntry(p: Period, expiry: int, k: Key, history: seq<Event>, a: Account, now: int)
    requires EntryOk(p, k, history, a, now) && now < expiry
    ensures EntryOk(EndOfDay(p, expiry), k, history, a, expiry - 1)
    ensures k in p.bundleStats ==>
              EndOfDay(p, expiry).bundleStats[k].totalInFrontTime == Accounted(FrontMeterOf(p, k), expiry - 1)
              && EndOfDay(p, expiry).bundleStats[k].totalContinuousTaskUsedTime == Accounted(TaskMeterOf(p, k), expiry - 1)
  {
    if k in p.bundleStats {
      EndOfDayUsage(p.bundleStats[k], expiry - 1);
    }
    SameMeters(p, EndOfDay(p, expiry), k, history, a, now, expiry - 1);
  }

  predicate NoEmptySets(sets: map<Key, set<string>>) {
    forall k :: k in sets ==> sets[k] != {}
  }

  lemma ReportedAt(p: Period, fronts: map<Key, set<string>>, tasks: map<Key, set<string>>, time: int, k: Key)
    requires NoEmptySets(fronts) && NoEmptySets(tasks)
    ensures var p' := Reported(p, fronts, tasks, time);
            && (k in p'.bundleStats <==> k in p.bundleStats || SetAt(fronts, k) != {} || SetAt(tasks, k) != {})
            && (k in p'.bundleStats ==> p'.bundleStats[k] == ReportedEntry(p, fronts, tasks, time, k))
  {
    if k in p.bundleStats && k !in fronts && k !in tasks {
      assert ReportedEntry(p, fronts, tasks, time, k) == p.bundleStats[k];
    }
  }

  /** In a period that goes on, a replay - complete or missed - changes nothing that an entry shows. */
  lemma KeptReplay(p: Period, fronts: map<Key, set<string>>, tasks: map<Key, set<string>>, time: int, k: Key,
                   history: seq<Event>, a: Account, now: int)
    requires EntryOk(p, k, history, a, now) && now <= time && NoEmptySets(fronts) && NoEmptySets(tasks)
    requires SetAt(fronts, k) == InFront(history, k) || SetAt(fronts, k) == {}
    requires SetAt(tasks, k) == Running(history, k) || SetAt(tasks, k) == {}
    ensures EntryOk(Reported(p, fronts, tasks, time), k, history, a, time)
  {
    ReportedAt(p, fronts, tasks, time, k);
    if k in p.bundleStats {
      KeptUsage(p.bundleStats[k], SetAt(fronts, k), SetAt(tasks, k), time);
    }
    SameMeters(p, Reported(p, fronts, tasks, time), k, history, a, now, time);
  }

  lemma KeptUsage(u: Usage, front: set<string>, tasks: set<string>, time: int)
    requires u.Valid(time) && (front == u.Front() || front == {}) && (tasks == u.longTimeTasks.Keys || tasks == {})
    ensures var w := ReplayTasks(ReplayAbilities(u, front, time), tasks, time);
            && w.Valid(time) && w.Front() == u.Front() && w.longTimeTasks.Keys == u.longTimeTasks.Keys
            && (forall t :: time <= t ==> Accounted(w.FrontMeter(), t) == Accounted(u.FrontMeter(), t))
            && (forall t :: time <= t ==> Accounted(w.TaskMeter(), t) == Accounted(u.TaskMeter(), t))
  {
    var v := ReplayAbilities(u, front, time);
    var w := ReplayTasks(v, tasks, time);
    KeptAbilities(u, front, time);
    KeptTasks(v, tasks, time);
    assert w.Front() == w.FrontMeter().inside;
  }

  lemma KeptAbilities(u: Usage, front: set<string>, time: int)
    requires u.Valid(time) && (front == u.Front() || front == {})
    ensures var v := ReplayAbilities(u, front, time);
            && v.Valid(time) && v.Front() == u.Front() && v.TaskMeter() == u.TaskMeter()
            && forall t :: time <= t ==> Accounted(v.FrontMeter(), t) == Accounted(u.FrontMeter(), t)
  {
    var v := ReplayAbilities(u, front, time);
    if front != {} {
      ReplayKeepsAccount(u, front, time, time);
      assert forall a :: a in v.abilities ==> v.abilities[a] in {ABILITY_FOREGROUND, ABILITY_BACKGROUND};
    }
  }

  lemma KeptTasks(u: Usage, tasks: set<string>, time: int)
    requires u.Valid(time) && (tasks == u.longTimeTasks.Keys || tasks == {})
    ensures var v := ReplayTasks(u, tasks, time);
            && v.Valid(time) && v.FrontMeter() == u.FrontMeter() && v.longTimeTasks == u.longTimeTasks
            && forall t :: time <= t ==> Accounted(v.TaskMeter(), t) == Accounted(u.TaskMeter(), t)
  {
    if tasks != {} {
      TaskReplayKeepsAccount(u, tasks, time, time);
    }
  }

  /** In a new period the replayed entry starts counting at the replay. */
  lemma FreshReplay(p: Period, fronts: map<Key, set<string>>, tasks: map<Key, set<string>>, time: int, k: Key,
                    history: seq<Event>)
    requires p.bundleStats == map[] && HistoryOk(history, time) && 0 <= time
    requires NoEmptySets(fronts) && NoEmptySets(tasks)
    requires SetAt(fronts, k) == InFront(history, k) && SetAt(tasks, k) == Running(history, k)
    ensures EntryOk(Reported(p, fronts, tasks, time), k, history, Account(time, map[], map[]), time)
  {
    var p' := Reported(p, fronts, tasks, time);
    ReportedAt(p, fronts, tasks, time, k);
    FreshEntry(p.GetOrCreate(k), SetAt(fronts, k), SetAt(tasks, k), time);
    LogIsOrdered(history, k, time);
    ShowsFresh(FrontMeterOf(p', k), {}, FrontLog(history, k), 0, time);
    ShowsFresh(TaskMeterOf(p', k), {}, TaskLog(history, k), 0, time);
  }

  lemma FreshEntry(u: Usage, front: set<string>, tasks: set<string>, time: int)
    requires u.abilities == map[] && u.longTimeTasks == map[]
    requires u.totalInFrontTime == 0 && u.totalContinuousTaskUsedTime == 0
    ensures var w := ReplayTasks(ReplayAbilities(u, front, time), tasks, time);
            && w.Valid(time) && w.Front() == front && w.longTimeTasks.Keys == tasks
            && (forall t :: time <= t ==> Accounted(w.FrontMeter(), t) == if front != {} then t - time else 0)
            && (forall t :: time <= t ==> Accounted(w.TaskMeter(), t) == if tasks != {} then t - time else 0)
  {
    var v := ReplayAbilities(u, front, time);
    var w := ReplayTasks(v, tasks, time);
    FrontAfterReplay(u, front, time);
    forall t | time <= t
      ensures Accounted(w.FrontMeter(), t) == if front != {} then t - time else 0
      ensures Accounted(w.TaskMeter(), t) == if tasks != {} then t - time else 0
    {
      ReplayStartsAccount(u, front, time, t);
      TaskReplayStartsAccount(v, tasks, time, t);
    }
    ReplayStartsAccount(u, front, time, time);
    TaskReplayStartsAccount(v, tasks, time, time);
    assert w.longTimeTasks != map[] <==> tasks != {};
  }
}
