/**
 Usage counters of one bundle (interfaces/innerkits/src/bundle_active_package_stats.cpp).
 `Usage` is the value of the counters with the update functions; `PackageStats` is the object that
 changes in place. The lemmas show that the counters are exact whatever events are interleaved.
 */
module PackageStats {
  import opened Events
  import opened Occupancy

  datatype Usage = Usage(
    beginTimeStamp: int, endTimeStamp: int,
    lastTimeUsed: int, totalInFrontTime: int,
    lastContinuousTaskUsed: int, totalContinuousTaskUsedTime: int,
    startCount: int, bundleStartedCount: int,
    abilities: map<string, int>, longTimeTasks: map<string, int>)
  {
    function Front(): set<string> {
      set a | a in abilities && abilities[a] == ABILITY_FOREGROUND
    }

    function IncrementTimeUsed(timeStamp: int): Usage {
      if timeStamp > lastTimeUsed then
        this.(totalInFrontTime := totalInFrontTime + (timeStamp - lastTimeUsed), lastTimeUsed := timeStamp)
      else this
    }

    function IncrementServiceTimeUsed(timeStamp: int): Usage {
      if timeStamp > lastContinuousTaskUsed then
        this.(totalContinuousTaskUsedTime := totalContinuousTaskUsedTime + (timeStamp - lastContinuousTaskUsed),
              lastContinuousTaskUsed := timeStamp)
      else this
    }

    /** Bring both counters forward to `timeStamp` (flush, shutdown and end of the day). */
    function Commit(timeStamp: int): Usage {
      var u := if Front() != {} then IncrementTimeUsed(timeStamp) else this;
      if u.longTimeTasks != map[] then u.IncrementServiceTimeUsed(timeStamp) else u
    }

    function UpdateAbility(timeStamp: int, eventId: int, abilityId: string): Usage {
      if eventId !in {ABILITY_FOREGROUND, ABILITY_BACKGROUND, ABILITY_STOP} then this
      else
        var u0 := if abilities == map[] && eventId == ABILITY_FOREGROUND
                  then this.(beginTimeStamp := timeStamp, startCount := startCount + 1) else this;
        var u1 := if abilityId !in abilities then u0
                  else if abilities[abilityId] == ABILITY_FOREGROUND then u0.IncrementTimeUsed(timeStamp)
                  else if abilities[abilityId] == ABILITY_BACKGROUND && eventId == ABILITY_FOREGROUND
                  then u0.(startCount := u0.startCount + 1) else u0;
        if eventId == ABILITY_FOREGROUND then
          var u2 := if Front() == {} then u1.(lastTimeUsed := timeStamp) else u1;
          u2.(abilities := abilities[abilityId := eventId])
        else if eventId == ABILITY_BACKGROUND then u1.(abilities := abilities[abilityId := eventId])
        else u1.(abilities := abilities - {abilityId})
    }

    function UpdateLongTimeTask(taskName: string, timeStamp: int, eventId: int): Usage {
      if eventId !in {LONG_TIME_TASK_STARTED, LONG_TIME_TASK_ENDED} then this
      else
        var u := if taskName in longTimeTasks && longTimeTasks[taskName] == LONG_TIME_TASK_STARTED
                 then IncrementServiceTimeUsed(timeStamp) else this;
        if eventId == LONG_TIME_TASK_STARTED then
          u.(lastContinuousTaskUsed := if longTimeTasks == map[] then timeStamp else u.lastContinuousTaskUsed,
             longTimeTasks := longTimeTasks[taskName := eventId])
        else u.(longTimeTasks := longTimeTasks - {taskName})
    }

    function Update(taskName: string, timeStamp: int, eventId: int, abilityId: string): Usage {
      var u :=
        if eventId in {ABILITY_FOREGROUND, ABILITY_BACKGROUND, ABILITY_STOP} then
          UpdateAbility(timeStamp, eventId, abilityId)
        else if eventId in {LONG_TIME_TASK_STARTED, LONG_TIME_TASK_ENDED} then
          UpdateLongTimeTask(taskName, timeStamp, eventId)
        else if eventId in {END_OF_THE_DAY, SHUTDOWN, FLUSH} then Commit(timeStamp)
        else this;
      u.(endTimeStamp := timeStamp)
    }

    function FrontMeter(): Meter<string> {
      Meter(totalInFrontTime, lastTimeUsed, Front())
    }

    function TaskMeter(): Meter<string> {
      Meter(totalContinuousTaskUsedTime, lastContinuousTaskUsed, longTimeTasks.Keys)
    }

    /** What holds of the counters at any time `now` after their last update. */
    ghost predicate Valid(now: int) {
      && (Front() != {} ==> lastTimeUsed <= now)
      && (longTimeTasks != map[] ==> lastContinuousTaskUsed <= now)
      && (forall t :: t in longTimeTasks ==> longTimeTasks[t] == LONG_TIME_TASK_STARTED)
      && (forall a :: a in abilities ==> abilities[a] in {ABILITY_FOREGROUND, ABILITY_BACKGROUND})
    }
  }

  const NEW_USAGE := Usage(0, 0, -1, 0, -1, 0, 0, 0, map[], map[])

  // ----- the reference: who is in front, and which tasks run, according to the events alone -----

  function FrontChange(e: Event): Change<string> {
    if e.eventId == ABILITY_FOREGROUND then Enter(e.abilityId)
    else if e.eventId == ABILITY_BACKGROUND || e.eventId == ABILITY_STOP then Leave(e.abilityId)
    else Stay
  }

  function TaskChange(e: Event): Change<string> {
    if e.eventId == LONG_TIME_TASK_STARTED then Enter(e.taskName)
    else if e.eventId == LONG_TIME_TASK_ENDED then Leave(e.taskName)
    else Stay
  }

  function FrontChanges(events: seq<Event>): seq<Timed<string>> {
    seq(|events|, i requires 0 <= i < |events| => At(events[i].timeStamp, FrontChange(events[i])))
  }

  function TaskChanges(events: seq<Event>): seq<Timed<string>> {
    seq(|events|, i requires 0 <= i < |events| => At(events[i].timeStamp, TaskChange(events[i])))
  }

  /** An ability is known from its first event until it is stopped. */
  function KnownAfter(events: seq<Event>): set<string> {
    if events == [] then {}
    else
      var known := KnownAfter(events[..|events| - 1]);
      var e := events[|events| - 1];
      if e.eventId == ABILITY_FOREGROUND || e.eventId == ABILITY_BACKGROUND then known + {e.abilityId}
      else if e.eventId == ABILITY_STOP then known - {e.abilityId}
      else known
  }

  /** Event `i` starts the bundle: it opens the first ability, or brings a known ability back to front. */
  predicate IsStart(events: seq<Event>, i: nat)
    requires i < |events|
  {
    && events[i].eventId == ABILITY_FOREGROUND
    && (KnownAfter(events[..i]) == {}
        || events[i].abilityId in KnownAfter(events[..i]) - After({}, FrontChanges(events[..i])))
  }

  function Starts(events: seq<Event>): set<nat> {
    set i: nat | i < |events| && IsStart(events, i)
  }

  // ----- one event -----

  lemma IncrementAtInstant(u: Usage, timeStamp: int)
    requires u.Front() != {} && u.lastTimeUsed <= timeStamp
    ensures var u' := u.IncrementTimeUsed(timeStamp);
            u'.totalInFrontTime == Accounted(u.FrontMeter(), timeStamp) && u'.lastTimeUsed == timeStamp
  {
  }

  /** An ability event moves the front set as the reference says and leaves the shown time as it was. */
  lemma AbilityStep(u: Usage, timeStamp: int, eventId: int, abilityId: string)
    requires u.Valid(timeStamp)
    requires eventId in {ABILITY_FOREGROUND, ABILITY_BACKGROUND, ABILITY_STOP}
    ensures var u' := u.UpdateAbility(timeStamp, eventId, abilityId);
            && u'.Front() == (if eventId == ABILITY_FOREGROUND then u.Front() + {abilityId} else u.Front() - {abilityId})
            && (u'.Front() != {} ==> u'.lastTimeUsed <= timeStamp)
            && Accounted(u'.FrontMeter(), timeStamp) == Accounted(u.FrontMeter(), timeStamp)
  {
    var u' := u.UpdateAbility(timeStamp, eventId, abilityId);
    assert u'.Front() == (if eventId == ABILITY_FOREGROUND then u.Front() + {abilityId} else u.Front() - {abilityId});
    if abilityId in u.abilities && u.abilities[abilityId] == ABILITY_FOREGROUND {
      assert abilityId in u.Front();
      IncrementAtInstant(u, timeStamp);
    } else {
      assert abilityId !in u.Front();
    }
  }

  lemma FrontStep(u: Usage, e: Event)
    requires u.Valid(e.timeStamp)
    ensures var u' := u.Update(e.taskName, e.timeStamp, e.eventId, e.abilityId);
            && u'.Valid(e.timeStamp)
            && u'.Front() == Apply(u.Front(), FrontChange(e))
            && Accounted(u'.FrontMeter(), e.timeStamp) == Accounted(u.FrontMeter(), e.timeStamp)
  {
    var u' := u.Update(e.taskName, e.timeStamp, e.eventId, e.abilityId);
    if e.eventId in {ABILITY_FOREGROUND, ABILITY_BACKGROUND, ABILITY_STOP} {
      AbilityStep(u, e.timeStamp, e.eventId, e.abilityId);
      assert u'.Front() == u.UpdateAbility(e.timeStamp, e.eventId, e.abilityId).Front();
    } else {
      assert u'.Front() == u.Front();
    }
  }

  lemma TaskStep(u: Usage, e: Event)
    requires u.Valid(e.timeStamp)
    ensures var u' := u.Update(e.taskName, e.timeStamp, e.eventId, e.abilityId);
            && u'.longTimeTasks.Keys == Apply(u.longTimeTasks.Keys, TaskChange(e))
            && Accounted(u'.TaskMeter(), e.timeStamp) == Accounted(u.TaskMeter(), e.timeStamp)
  {
    var u' := u.Update(e.taskName, e.timeStamp, e.eventId, e.abilityId);
    assert u.longTimeTasks != map[] <==> u.longTimeTasks.Keys != {};
    assert u'.longTimeTasks.Keys == Apply(u.longTimeTasks.Keys, TaskChange(e));
  }

  // ----- whole runs -----

  function Run(u: Usage, events: seq<Event>): Usage {
    if events == [] then u
    else
      var e := events[|events| - 1];
      Run(u, events[..|events| - 1]).Update(e.taskName, e.timeStamp, e.eventId, e.abilityId)
  }

  lemma ChangesSnoc(events: seq<Event>, e: Event)
    ensures FrontChanges(events + [e]) == FrontChanges(events) + [At(e.timeStamp, FrontChange(e))]
    ensures TaskChanges(events + [e]) == TaskChanges(events) + [At(e.timeStamp, TaskChange(e))]
  {
  }

  lemma ChangesEnd(before: seq<Event>, e: Event, from: int)
    requires OrderedByTime(before + [e]) && from <= e.timeStamp
    ensures EndTime(FrontChanges(before), from) <= e.timeStamp && EndTime(TaskChanges(before), from) <= e.timeStamp
  {
    if before != [] {
      assert (before + [e])[|before| - 1] == before[|before| - 1] && (before + [e])[|before|] == e;
    }
  }

  /** One more event keeps both counters equal to their reference. */
  lemma EventTracks(u: Usage, m: Usage, before: seq<Event>, e: Event, from: int)
    requires m.Valid(e.timeStamp) && from <= e.timeStamp
    requires Tracks(m.FrontMeter(), Accounted(u.FrontMeter(), from), u.Front(), FrontChanges(before), from)
    requires Tracks(m.TaskMeter(), Accounted(u.TaskMeter(), from), u.longTimeTasks.Keys, TaskChanges(before), from)
    requires EndTime(FrontChanges(before), from) <= e.timeStamp && EndTime(TaskChanges(before), from) <= e.timeStamp
    ensures var m' := m.Update(e.taskName, e.timeStamp, e.eventId, e.abilityId);
            && m'.Valid(e.timeStamp)
            && Tracks(m'.FrontMeter(), Accounted(u.FrontMeter(), from), u.Front(), FrontChanges(before + [e]), from)
            && Tracks(m'.TaskMeter(), Accounted(u.TaskMeter(), from), u.longTimeTasks.Keys, TaskChanges(before + [e]), from)
  {
    var m' := m.Update(e.taskName, e.timeStamp, e.eventId, e.abilityId);
    ChangesSnoc(before, e);
    FrontStep(m, e);
    TaskStep(m, e);
    TracksStep(m.FrontMeter(), m'.FrontMeter(), Accounted(u.FrontMeter(), from), u.Front(), FrontChanges(before),
               from, At(e.timeStamp, FrontChange(e)));
    TracksStep(m.TaskMeter(), m'.TaskMeter(), Accounted(u.TaskMeter(), from), u.longTimeTasks.Keys,
               TaskChanges(before), from, At(e.timeStamp, TaskChange(e)));
  }

  /** After the events both counters follow their reference. */
  ghost predicate RunExact(u: Usage, m: Usage, events: seq<Event>, from: int) {
    && Tracks(m.FrontMeter(), Accounted(u.FrontMeter(), from), u.Front(), FrontChanges(events), from)
    && Tracks(m.TaskMeter(), Accounted(u.TaskMeter(), from), u.longTimeTasks.Keys, TaskChanges(events), from)
    && m.Valid(if events == [] then from else events[|events| - 1].timeStamp)
  }

  lemma NoEventsAreExact(u: Usage, from: int)
    requires u.Valid(from)
    ensures RunExact(u, u, [], from)
  {
    TracksStart(u.FrontMeter(), from);
    TracksStart(u.TaskMeter(), from);
    assert FrontChanges([]) == [] && TaskChanges([]) == [];
  }

  lemma EventStaysExact(u: Usage, m: Usage, before: seq<Event>, e: Event, from: int)
    requires RunExact(u, m, before, from) && OrderedByTime(before + [e]) && from <= e.timeStamp
    ensures RunExact(u, m.Update(e.taskName, e.timeStamp, e.eventId, e.abilityId), before + [e], from)
  {
    ChangesEnd(before, e, from);
    EventTracks(u, m, before, e, from);
  }

  lemma {:induction false} RunTracks(u: Usage, events: seq<Event>, from: int)
    requires u.Valid(from) && OrderedByTime(events)
    requires forall i :: 0 <= i < |events| ==> from <= events[i].timeStamp
    ensures RunExact(u, Run(u, events), events, from)
  {
    if events == [] {
      NoEventsAreExact(u, from);
    } else {
      var before, e := events[..|events| - 1], events[|events| - 1];
      assert events == before + [e];
      RunTracks(u, before, from);
      EventStaysExact(u, Run(u, before), before, e, from);
    }
  }

  /**
   Exact accounting: after any events in time order, the stored total plus the open stretch is what was
   shown at the start plus the milliseconds during which at least one ability was in front.
   */
  lemma ExactFrontTime(u: Usage, events: seq<Event>, from: int, now: int)
    requires u.Valid(from) && OrderedByTime(events)
    requires forall i :: 0 <= i < |events| ==> from <= events[i].timeStamp <= now
    requires from <= now
    ensures Accounted(Run(u, events).FrontMeter(), now)
         == Accounted(u.FrontMeter(), from) + Millis(u.Front(), FrontChanges(events), from, now)
  {
    RunTracks(u, events, from);
  }

  /** The same for continuous tasks. */
  lemma ExactTaskTime(u: Usage, events: seq<Event>, from: int, now: int)
    requires u.Valid(from) && OrderedByTime(events)
    requires forall i :: 0 <= i < |events| ==> from <= events[i].timeStamp <= now
    requires from <= now
    ensures Accounted(Run(u, events).TaskMeter(), now)
         == Accounted(u.TaskMeter(), from) + Millis(u.longTimeTasks.Keys, TaskChanges(events), from, now)
  {
    RunTracks(u, events, from);
  }

  /** A flush makes the stored totals themselves exact: nothing is left in the open stretch. */
  lemma CommitSettles(u: Usage, eventId: int, now: int)
    requires u.Valid(now) && eventId in {END_OF_THE_DAY, SHUTDOWN, FLUSH}
    ensures var u' := u.Update("", now, eventId, "");
            && u'.totalInFrontTime == Accounted(u.FrontMeter(), now)
            && u'.totalContinuousTaskUsedTime == Accounted(u.TaskMeter(), now)
            && u'.abilities == u.abilities && u'.longTimeTasks == u.longTimeTasks
            && u'.startCount == u.startCount
  {
    if u.Front() != {} {
      IncrementAtInstant(u, now);
    }
    assert u.longTimeTasks != map[] <==> u.longTimeTasks.Keys != {};
  }

  lemma KnownStep(u: Usage, e: Event)
    requires forall a :: a in u.abilities ==> u.abilities[a] in {ABILITY_FOREGROUND, ABILITY_BACKGROUND}
    ensures var u' := u.Update(e.taskName, e.timeStamp, e.eventId, e.abilityId);
            && u'.abilities.Keys == (if e.eventId == ABILITY_FOREGROUND || e.eventId == ABILITY_BACKGROUND
                                     then u.abilities.Keys + {e.abilityId}
                                     else if e.eventId == ABILITY_STOP then u.abilities.Keys - {e.abilityId}
                                     else u.abilities.Keys)
            && (forall a :: a in u'.abilities ==> u'.abilities[a] in {ABILITY_FOREGROUND, ABILITY_BACKGROUND})
            && u'.Front() == Apply(u.Front(), FrontChange(e))
  {
  }

  lemma {:induction false} RunKnown(events: seq<Event>)
    ensures Run(NEW_USAGE, events).abilities.Keys == KnownAfter(events)
    ensures Run(NEW_USAGE, events).Front() == After({}, FrontChanges(events))
    ensures forall a :: a in Run(NEW_USAGE, events).abilities ==>
              Run(NEW_USAGE, events).abilities[a] in {ABILITY_FOREGROUND, ABILITY_BACKGROUND}
  {
    if events == [] {
    } else {
      var before, e := events[..|events| - 1], events[|events| - 1];
      RunKnown(before);
      assert events == before + [e];
      ChangesSnoc(before, e);
      AfterSnoc({}, FrontChanges(before), At(e.timeStamp, FrontChange(e)));
      KnownStep(Run(NEW_USAGE, before), e);
    }
  }

  lemma StartsSnoc(before: seq<Event>, e: Event)
    ensures Starts(before + [e])
         == Starts(before) + (if IsStart(before + [e], |before|) then {|before|} else {})
  {
    var events := before + [e];
    forall i: nat | i < |before|
      ensures IsStart(events, i) <==> IsStart(before, i)
    {
      assert events[..i] == before[..i];
    }
  }

  lemma StartCountStep(u: Usage, e: Event)
    requires forall a :: a in u.abilities ==> u.abilities[a] in {ABILITY_FOREGROUND, ABILITY_BACKGROUND}
    ensures u.Update(e.taskName, e.timeStamp, e.eventId, e.abilityId).startCount
         == u.startCount + (if e.eventId == ABILITY_FOREGROUND
                               && (u.abilities.Keys == {} || e.abilityId in u.abilities.Keys - u.Front()) then 1 else 0)
  {
    assert u.abilities == map[] <==> u.abilities.Keys == {};
  }

  /** The start count of a new entry is the number of events that start the bundle. */
  lemma {:induction false} StartCountIsExact(events: seq<Event>)
    ensures Run(NEW_USAGE, events).startCount == |Starts(events)|
  {
    if events == [] {
    } else {
      var before, e := events[..|events| - 1], events[|events| - 1];
      assert events == before + [e];
      StartCountIsExact(before);
      RunKnown(before);
      StartsSnoc(before, e);
      StartCountStep(Run(NEW_USAGE, before), e);
      assert events[..|before|] == before;
      assert |before| !in Starts(before);
    }
  }

  // ----- the object -----

  class PackageStats {
    var beginTimeStamp: int
    var endTimeStamp: int
    var lastTimeUsed: int
    var totalInFrontTime: int
    var lastContinuousTaskUsed: int
    var totalContinuousTaskUsedTime: int
    var startCount: int
    var bundleStartedCount: int
    var abilities: map<string, int>
    var longTimeTasks: map<string, int>

    function View(): Usage
      reads this
    {
      Usage(beginTimeStamp, endTimeStamp, lastTimeUsed, totalInFrontTime, lastContinuousTaskUsed,
            totalContinuousTaskUsedTime, startCount, bundleStartedCount, abilities, longTimeTasks)
    }

    constructor ()
      ensures View() == NEW_USAGE
    {
      beginTimeStamp, endTimeStamp := 0, 0;
      lastTimeUsed, totalInFrontTime := -1, 0;
      lastContinuousTaskUsed, totalContinuousTaskUsedTime := -1, 0;
      startCount, bundleStartedCount := 0, 0;
      abilities, longTimeTasks := map[], map[];
    }

    method HasFrontAbility() returns (found: bool)
      ensures found <==> View().Front() != {}
    {
      var todo := abilities.Keys;
      while todo != {}
        invariant todo <= abilities.Keys
        invariant forall a :: a in abilities && a !in todo ==> abilities[a] != ABILITY_FOREGROUND
        decreases todo
      {
        var a :| a in todo;
        if abilities[a] == ABILITY_FOREGROUND {
          assert a in View().Front();
          return true;
        }
        todo := todo - {a};
      }
      return false;
    }

    method IncrementTimeUsed(timeStamp: int)
      modifies this`totalInFrontTime, this`lastTimeUsed
      ensures View() == old(View()).IncrementTimeUsed(timeStamp)
    {
      if timeStamp > lastTimeUsed {
        totalInFrontTime := totalInFrontTime + (timeStamp - lastTimeUsed);
        lastTimeUsed := timeStamp;
      }
    }

    method IncrementServiceTimeUsed(timeStamp: int)
      modifies this`totalContinuousTaskUsedTime, this`lastContinuousTaskUsed
      ensures View() == old(View()).IncrementServiceTimeUsed(timeStamp)
    {
      if timeStamp > lastContinuousTaskUsed {
        totalContinuousTaskUsedTime := totalContinuousTaskUsedTime + (timeStamp - lastContinuousTaskUsed);
        lastContinuousTaskUsed := timeStamp;
      }
    }

    method UpdateAbility(timeStamp: int, eventId: int, abilityId: string)
      modifies this
      ensures View() == old(View()).UpdateAbility(timeStamp, eventId, abilityId)
    {
      if eventId != ABILITY_FOREGROUND && eventId != ABILITY_BACKGROUND && eventId != ABILITY_STOP {
        return;
      }
      if |abilities| == 0 && eventId == ABILITY_FOREGROUND {
        beginTimeStamp := timeStamp;
        startCount := startCount + 1;
      }
      if abilityId in abilities {
        var lastEventId := abilities[abilityId];
        if lastEventId == ABILITY_FOREGROUND {
          IncrementTimeUsed(timeStamp);
        } else if lastEventId == ABILITY_BACKGROUND && eventId == ABILITY_FOREGROUND {
          startCount := startCount + 1;
        }
      }
      if eventId == ABILITY_FOREGROUND {
        var inFront := HasFrontAbility();
        if !inFront {
          lastTimeUsed := timeStamp;
        }
        abilities := abilities[abilityId := eventId];
      } else if eventId == ABILITY_BACKGROUND {
        abilities := abilities[abilityId := eventId];
      } else {
        abilities := abilities - {abilityId};
      }
    }

    method UpdateLongTimeTask(taskName: string, timeStamp: int, eventId: int)
      modifies this
      ensures View() == old(View()).UpdateLongTimeTask(taskName, timeStamp, eventId)
    {
      if eventId != LONG_TIME_TASK_STARTED && eventId != LONG_TIME_TASK_ENDED {
        return;
      }
      if taskName in longTimeTasks && longTimeTasks[taskName] == LONG_TIME_TASK_STARTED {
        IncrementServiceTimeUsed(timeStamp);
      }
      if eventId == LONG_TIME_TASK_STARTED {
        if |longTimeTasks| == 0 {
          lastContinuousTaskUsed := timeStamp;
        }
        longTimeTasks := longTimeTasks[taskName := eventId];
      } else {
        longTimeTasks := longTimeTasks - {taskName};
      }
    }

    method Update(taskName: string, timeStamp: int, eventId: int, abilityId: string)
      modifies this
      ensures View() == old(View()).Update(taskName, timeStamp, eventId, abilityId)
    {
      if eventId == ABILITY_FOREGROUND || eventId == ABILITY_BACKGROUND || eventId == ABILITY_STOP {
        UpdateAbility(timeStamp, eventId, abilityId);
      } else if eventId == LONG_TIME_TASK_STARTED || eventId == LONG_TIME_TASK_ENDED {
        UpdateLongTimeTask(taskName, timeStamp, eventId);
      } else if eventId == END_OF_THE_DAY || eventId == SHUTDOWN || eventId == FLUSH {
        var inFront := HasFrontAbility();
        if inFront {
          IncrementTimeUsed(timeStamp);
        }
        if |longTimeTasks| != 0 {
          IncrementServiceTimeUsed(timeStamp);
        }
      }
      endTimeStamp := timeStamp;
    }
  }
}
