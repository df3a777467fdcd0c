/**
 A run that shows what a midnight misses: of two uids of one bundle the lower one is stopped, the higher one is
 in front and runs a task, and the new day knows of neither.
 */
module SecondUid {
  import opened Events
  import opened Occupancy
  import opened PeriodStats
  import opened Calendar
  import UsageStore
  import opened UsageDatabase
  import opened UserService
  import opened Intervals
  import opened Rollover
  import opened UsageRuns
  import opened Midnight

  /** The lower uid opens an ability and is stopped; the higher one opens an ability and starts a task. */
  function Story(bundleName: string, low: int, high: int): seq<Event> {
    [Event(bundleName, "", "a", 1, ABILITY_FOREGROUND, low, ""),
     Event(bundleName, "", "a", 2, ABILITY_STOP, low, ""),
     Event(bundleName, "", "a", 3, ABILITY_FOREGROUND, high, ""),
     Event(bundleName, "t", "", 4, LONG_TIME_TASK_STARTED, high, "")]
  }

  function Reports(events: seq<Event>): seq<Op> {
    seq(|events|, i requires 0 <= i < |events| => Report(events[i]))
  }

  /** A service in step that has seen no event and has no entry. */
  ghost predicate Unused(w: World) {
    && w.Shaped() && w.Good() && w.Knows() && w.history == [] && w.now == 0 && 4 < w.s.expiry
    && forall i :: 0 <= i < 4 ==> w.s.periods[i].bundleStats == map[]
  }

  // ----- what the lower uid leaves behind -----

  predicate Opened(p: Period, k: Key, a: string) {
    && k in p.bundleStats && p.bundleStats[k].abilities == map[a := ABILITY_FOREGROUND]
    && p.bundleStats[k].longTimeTasks == map[]
  }

  predicate Idle(p: Period, k: Key) {
    k in p.bundleStats && p.bundleStats[k].abilities == map[] && p.bundleStats[k].longTimeTasks == map[]
  }

  lemma {:induction false} IdleContinuesNothing(periods: seq<Period>, k: Key)
    requires forall i :: 0 <= i < |periods| ==> Idle(periods[i], k)
    ensures k !in ContinueAbilities(periods) && k !in ContinueServices(periods)
  {
    if periods == [] {
    } else {
      IdleContinuesNothing(periods[..|periods| - 1], k);
      assert Idle(periods[|periods| - 1], k);
    }
  }

  lemma EventOfKey(p: Period, e: Event, launch: bool, k: Key)
    requires IsBundleEvent(e.eventId)
    ensures k !in p.bundleStats && e.KeyOf() == k && e.eventId == ABILITY_FOREGROUND ==>
              Opened(PeriodAfter(p, e, launch), k, e.abilityId)
    ensures e.KeyOf() == k && e.eventId == ABILITY_STOP && Opened(p, k, e.abilityId) ==> Idle(PeriodAfter(p, e, launch), k)
    ensures e.KeyOf() != k && Idle(p, k) ==> Idle(PeriodAfter(p, e, launch), k)
  {
    if e.KeyOf() == k && e.eventId == ABILITY_STOP && Opened(p, k, e.abilityId) {
      assert map[e.abilityId := ABILITY_FOREGROUND] - {e.abilityId} == map[];
    }
  }

  /** One event of a bundle within the first day. */
  lemma StepOfKey(w: World, e: Event, i: nat, k: Key)
    requires w.Shaped() && i < 4 && IsBundleEvent(e.eventId) && e.timeStamp < w.s.expiry
    ensures var p, p' := w.s.periods[i], w.Step(Report(e)).s.periods[i];
            && (k !in p.bundleStats && e.KeyOf() == k && e.eventId == ABILITY_FOREGROUND ==> Opened(p', k, e.abilityId))
            && (e.KeyOf() == k && e.eventId == ABILITY_STOP && Opened(p, k, e.abilityId) ==> Idle(p', k))
            && (e.KeyOf() != k && Idle(p, k) ==> Idle(p', k))
  {
    TodayPeriods(w.s, e, i);
    EventOfKey(Bases(w.s, e)[i], e, CountsLaunch(w.s, e), k);
  }

  lemma StepInDay(w: World, e: Event)
    requires w.Shaped() && w.Good() && w.Knows() && w.now <= e.timeStamp < w.s.expiry
    ensures var w' := w.Step(Report(e));
            && w.Forward(Report(e)) && w'.Good() && w'.Knows() && w'.s.expiry == w.s.expiry && w'.now == e.timeStamp
            && w'.history == w.history + [e]
  {
    forall k
      ensures w.Step(Report(e)).GoodFor(k)
    {
      assert w.GoodFor(k);
      StepStaysInSync(w, Report(e), k);
    }
    assert w.GoodFor(e.KeyOf());
    StepKeepsKnown(w, Report(e));
  }

  lemma HistorySnoc(history: seq<Event>, e: Event, k: Key)
    ensures InFront(history + [e], k) == Apply(InFront(history, k), KeyFrontChange(e, k))
    ensures Running(history + [e], k) == Apply(Running(history, k), KeyTaskChange(e, k))
  {
    LogSnoc(history, e, k);
    AfterSnoc({}, FrontLog(history, k), At(e.timeStamp, KeyFrontChange(e, k)));
    AfterSnoc({}, TaskLog(history, k), At(e.timeStamp, KeyTaskChange(e, k)));
  }

  // ----- the run -----

  /** The story up to event `n` is a run in which the lower uid is first opened and then idle. */
  ghost predicate InStory(w: World, story: seq<Event>, low: Key, n: nat)
    requires n <= |story|
  {
    && w.Shaped() && w.Good() && w.Knows() && 4 < w.s.expiry && w.now == n && w.history == story[..n]
    && (n == 0 ==> forall i :: 0 <= i < 4 ==> w.s.periods[i].bundleStats == map[])
    && (n == 1 ==> forall i :: 0 <= i < 4 ==> Opened(w.s.periods[i], low, "a"))
    && (n >= 2 ==> forall i :: 0 <= i < 4 ==> Idle(w.s.periods[i], low))
  }

  /** What event `n` of a story does to the entry of the lower uid. */
  predicate Tells(e: Event, low: Key, n: nat) {
    && IsBundleEvent(e.eventId)
    && (n == 0 ==> e.KeyOf() == low && e.eventId == ABILITY_FOREGROUND && e.abilityId == "a")
    && (n == 1 ==> e.KeyOf() == low && e.eventId == ABILITY_STOP && e.abilityId == "a")
    && (n >= 2 ==> e.KeyOf() != low)
  }

  lemma StoryEntry(w: World, e: Event, low: Key, n: nat, i: nat)
    requires w.Shaped() && i < 4 && e.timeStamp < w.s.expiry && Tells(e, low, n)
    requires n == 0 ==> w.s.periods[i].bundleStats == map[]
    requires n == 1 ==> Opened(w.s.periods[i], low, "a")
    requires n >= 2 ==> Idle(w.s.periods[i], low)
    ensures n == 0 ==> Opened(w.Step(Report(e)).s.periods[i], low, "a")
    ensures n >= 1 ==> Idle(w.Step(Report(e)).s.periods[i], low)
  {
    StepOfKey(w, e, i, low);
  }

  lemma EventStep(w: World, story: seq<Event>, low: Key, n: nat)
    requires n < |story| <= 4 && InStory(w, story, low, n) && Tells(story[n], low, n) && story[n].timeStamp == n + 1
    ensures w.Forward(Report(story[n])) && InStory(w.Step(Report(story[n])), story, low, n + 1)
  {
    StepInDay(w, story[n]);
    assert story[..n + 1] == story[..n] + [story[n]];
    forall i | 0 <= i < 4
      ensures n == 0 ==> Opened(w.Step(Report(story[n])).s.periods[i], low, "a")
      ensures n >= 1 ==> Idle(w.Step(Report(story[n])).s.periods[i], low)
    {
      StoryEntry(w, story[n], low, n, i);
    }
  }

  lemma StoryTells(bundleName: string, low: int, high: int, n: nat)
    requires low < high && n < 4
    ensures var e := Story(bundleName, low, high)[n]; Tells(e, Key(bundleName, low), n) && e.timeStamp == n + 1
  {
  }

  lemma StoryStep(w: World, bundleName: string, low: int, high: int, n: nat)
    requires low < high && n < 4 && InStory(w, Story(bundleName, low, high), Key(bundleName, low), n)
    ensures var story := Story(bundleName, low, high);
            w.Forward(Report(story[n])) && InStory(w.Step(Report(story[n])), story, Key(bundleName, low), n + 1)
  {
    StoryTells(bundleName, low, high, n);
    EventStep(w, Story(bundleName, low, high), Key(bundleName, low), n);
  }

  ghost predicate Follows(states: seq<World>, events: seq<Event>) {
    && |states| == |events| + 1 && states[0].Shaped()
    && forall n :: 0 <= n < |events| && states[n].Shaped() ==> states[n + 1] == states[n].Step(Report(events[n]))
  }

  lemma {:induction false} StoryRuns(states: seq<World>, bundleName: string, low: int, high: int, n: nat)
    requires Follows(states, Story(bundleName, low, high)) && Unused(states[0]) && low < high && n <= 4
    ensures InStory(states[n], Story(bundleName, low, high), Key(bundleName, low), n)
    ensures n < 4 ==> states[n].Forward(Report(Story(bundleName, low, high)[n]))
  {
    if n == 0 {
    } else {
      StoryRuns(states, bundleName, low, high, n - 1);
      StoryStep(states[n - 1], bundleName, low, high, n - 1);
    }
    if n < 4 {
      StoryStep(states[n], bundleName, low, high, n);
    }
  }

  lemma StoryIsRun(states: seq<World>, bundleName: string, low: int, high: int)
    requires Follows(states, Story(bundleName, low, high)) && Unused(states[0]) && low < high
    ensures IsRun(states, Reports(Story(bundleName, low, high)))
    ensures InStory(states[4], Story(bundleName, low, high), Key(bundleName, low), 4)
    ensures states[4].Good() && states[4].history == Story(bundleName, low, high)
  {
    var story := Story(bundleName, low, high);
    forall n | 0 <= n <= 4
      ensures states[n].Shaped() && (n < 4 ==> states[n].Forward(Report(story[n])))
    {
      StoryRuns(states, bundleName, low, high, n);
    }
    StoryRuns(states, bundleName, low, high, 4);
    assert story[..4] == story;
  }

  lemma StoryHolds(bundleName: string, low: int, high: int)
    requires low < high
    ensures InFront(Story(bundleName, low, high), Key(bundleName, high)) == {"a"}
    ensures Running(Story(bundleName, low, high), Key(bundleName, high)) == {"t"}
  {
    var story, k := Story(bundleName, low, high), Key(bundleName, high);
    assert FrontLog([], k) == [] && TaskLog([], k) == [];
    HistorySnoc([], story[0], k);
    HistorySnoc([story[0]], story[1], k);
    HistorySnoc([story[0], story[1]], story[2], k);
    HistorySnoc([story[0], story[1], story[2]], story[3], k);
    assert story == [story[0], story[1], story[2]] + [story[3]];
    assert [story[0], story[1], story[2]] == [story[0], story[1]] + [story[2]];
    assert [story[0], story[1]] == [story[0]] + [story[1]];
    assert [story[0]] == [] + [story[0]];
  }

  lemma MissedAfterStory(w: World, bundleName: string, low: int, high: int, timeStamp: int)
    requires low < high && InStory(w, Story(bundleName, low, high), Key(bundleName, low), 4) && w.s.expiry <= timeStamp
    ensures var renewed, k := w.s.RenewStatsInMemory(timeStamp), Key(bundleName, high);
            renewed.periods[DAILY].FrontOf(k) == {} && renewed.periods[DAILY].TasksOf(k) == {}
  {
    var l := Key(bundleName, low);
    assert Idle(w.s.periods[DAILY], l);
    IdleContinuesNothing(w.s.periods, l);
    assert w.GoodFor(Key(bundleName, high));
    LowerUidStopsReplay(w.s, w.history, w.accounts, w.now, timeStamp, l, Key(bundleName, high));
  }

  /**
   Two uids of one bundle: on the first day of any unused service the higher one comes to the front and starts a
   task, which the events and every period know; after midnight the day holds neither, because the lower uid was
   stopped.
   */
  lemma SecondUidIsMissed(states: seq<World>, bundleName: string, low: int, high: int, timeStamp: int)
    requires Follows(states, Story(bundleName, low, high)) && Unused(states[0]) && low < high
    requires states[4].Shaped() && states[4].s.expiry <= timeStamp
    ensures IsRun(states, Reports(Story(bundleName, low, high))) && states[4].Good()
    ensures var w, k := states[4], Key(bundleName, high); var renewed := w.s.RenewStatsInMemory(timeStamp);
            && InFront(w.history, k) == {"a"} && renewed.periods[DAILY].FrontOf(k) == {}
            && Running(w.history, k) == {"t"} && renewed.periods[DAILY].TasksOf(k) == {}
  {
    StoryIsRun(states, bundleName, low, high);
    StoryHolds(bundleName, low, high);
    MissedAfterStory(states[4], bundleName, low, high, timeStamp);
  }

  // ----- there is an unused service -----

  lemma LoadedIsEmpty(s: Service, i: nat)
    requires s.Shaped() && i < 4 && s.db.stores[i] == UsageStore.EMPTY
    ensures s.LoadActiveStats(0, true, false).periods[i].bundleStats == map[]
  {
    assert s.LoadActiveStats(0, true, false).periods[i] == s.LoadedPeriod(i, 0, true);
  }

  /** A service that has loaded its periods from an empty database at time 0. */
  lemma LoadedIsUnused(s: Service, loaded: Service)
    requires s.Shaped() && Aligned(s.lengths) && 4 < s.lengths[DAILY]
    requires forall i :: 0 <= i < 4 ==> s.db.stores[i] == UsageStore.EMPTY
    requires loaded == s.LoadActiveStats(0, true, false)
    ensures Unused(World(loaded, [], LoadedAccounts(loaded.periods, 0), 0))
  {
    LoadStartsInSync(s, 0);
    var w := World(loaded, [], LoadedAccounts(loaded.periods, 0), 0);
    forall k
      ensures w.GoodFor(k)
    {
      assert BundleInSync(loaded, [], LoadedAccounts(loaded.periods, 0), 0, k);
    }
    TomorrowIsNextDay(0, s.lengths[DAILY]);
    forall i | 0 <= i < 4
      ensures loaded.periods[i].bundleStats == map[]
    {
      LoadedIsEmpty(s, i);
    }
  }
}
