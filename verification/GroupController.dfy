/** The controller that drives the histories (services/packagegroup/src/bundle_active_group_controller.cpp). */
module GroupController {
  import opened Events
  import opened Groups
  import opened UserHistory

  const EVENT_REASONS: map<int, int> := map[
    ABILITY_FOREGROUND := 4, ABILITY_BACKGROUND := 5, SYSTEM_INTERACTIVE := 1,
    USER_INTERACTIVE := 3, NOTIFICATION_SEEN := 2, LONG_TIME_TASK_STARTED := 7]

  /** What an event of a known kind reports: a seen notification leases the daily group, the rest the alive group. */
  function UseOf(config: Config, eventId: int, timeStamp: int): Use
    requires eventId in EVENT_REASONS
  {
    if eventId == NOTIFICATION_SEEN then Use(GROUP_DAILY, EVENT_REASONS[eventId], 0, timeStamp + config.notifySeen)
    else if eventId == SYSTEM_INTERACTIVE then
      Use(GROUP_ALIVE, EVENT_REASONS[eventId], 0, timeStamp + config.systemInteraction)
    else Use(GROUP_ALIVE, EVENT_REASONS[eventId], timeStamp, timeStamp + config.directUse)
  }

  lemma UseOfIsValid(config: Config, eventId: int, timeStamp: int)
    requires config.Valid() && eventId in EVENT_REASONS && timeStamp >= 0
    ensures UseOf(config, eventId, timeStamp).Valid(timeStamp)
  {
  }

  function CheckedEach(s: State, config: Config, user: int, keys: seq<Key>, timeStamp: int): State
    requires config.Valid()
  {
    if keys == [] then s
    else Step(CheckedEach(s, config, user, keys[..|keys| - 1], timeStamp), config,
              Op.Check(user, keys[|keys| - 1], timeStamp))
  }

  /**
   The lease that an event grants: right after it the bundle, unless forced, is in the leased group or a
   better one, and the lease runs for at least the configured time.
   */
  lemma EventGrantsLease(s: State, config: Config, user: int, event: Event, timeStamp: int)
    requires config.Valid() && AllGood(s, timeStamp) && timeStamp >= 0 && event.eventId in EVENT_REASONS
    ensures var use := UseOf(config, event.eventId, timeStamp);
            var s' := Step(s, config, Used(user, event.KeyOf(), event.timeStamp, use, timeStamp));
            var h := s'.Entry(user, event.KeyOf());
            && AllGood(s', timeStamp)
            && (h.Forced() ||
                if event.eventId == NOTIFICATION_SEEN
                then h.group <= GROUP_DAILY && h.dailyTimeout >= s'.clock.Boot(timeStamp) + config.notifySeen
                else h.group <= GROUP_ALIVE
                     && h.aliveTimeout >= s'.clock.Boot(timeStamp)
                                          + (if event.eventId == SYSTEM_INTERACTIVE then config.systemInteraction
                                             else config.directUse))
  {
    UseOfIsValid(config, event.eventId, timeStamp);
    var use := UseOf(config, event.eventId, timeStamp);
    StepKeepsAllGood(s, config, Used(user, event.KeyOf(), event.timeStamp, use, timeStamp), timeStamp);
  }

  lemma WithOwnEntry(s: State, user: int, key: Key)
    requires s.Has(user, key)
    ensures s.With(user, key, s.Entry(user, key)) == s
  {
    assert s.users[user][key := s.Entry(user, key)] == s.users[user];
  }

  class GroupController {
    const history: UserHistory
    var config: Config
    var eventIdMatchReason: map<int, int>
    var bundleGroupEnable: bool

    ghost predicate Valid()
      reads this
    {
      config.Valid() && eventIdMatchReason == EVENT_REASONS
    }

    constructor (history: UserHistory, debug: bool)
      ensures Valid() && this.history == history && config == InitConfig(debug) && bundleGroupEnable
    {
      this.history := history;
      config := InitConfig(debug);
      eventIdMatchReason := EVENT_REASONS;
      bundleGroupEnable := true;
    }

    /** -1 when no level applies. */
    method GetNewGroup(user: int, key: Key, timeStamp: int) returns (group: int)
      requires Valid()
      ensures var s := history.View();
              group == if s.Has(user, key) && s.Entry(user, key).Level(config, s.clock, timeStamp) >= 0
                       then LevelGroup(s.Entry(user, key).Level(config, s.clock, timeStamp)) else -1
    {
      var index := history.GetLevelIndex(user, key, timeStamp, config);
      if index < 0 {
        return -1;
      }
      ghost var s := history.View();
      LevelIsHighestReached(s.Entry(user, key), config, s.clock, timeStamp, 4);
      return [GROUP_ALIVE, GROUP_DAILY, GROUP_FIXED, GROUP_RARE][index];
    }

    /** `installed` is the answer of the bundle manager for the event's bundle. */
    method ReportEvent(event: Event, timeStamp: int, user: int, installed: bool)
      requires Valid()
      modifies history
      ensures history.View() ==
              if bundleGroupEnable && installed && event.eventId in EVENT_REASONS
              then Step(old(history.View()), config,
                        Used(user, event.KeyOf(), event.timeStamp, UseOf(config, event.eventId, timeStamp), timeStamp))
              else old(history.View())
    {
      if !bundleGroupEnable || !installed {
        return;
      }
      if event.eventId in eventIdMatchReason {
        history.GetUsageHistoryForBundle(user, event.KeyOf(), timeStamp);
        var eventReason := eventIdMatchReason[event.eventId];
        if event.eventId == NOTIFICATION_SEEN {
          history.ReportUsage(user, event.KeyOf(), event.timeStamp, GROUP_DAILY, eventReason, 0,
                              timeStamp + config.notifySeen);
        } else if event.eventId == SYSTEM_INTERACTIVE {
          history.ReportUsage(user, event.KeyOf(), event.timeStamp, GROUP_ALIVE, eventReason, 0,
                              timeStamp + config.systemInteraction);
        } else {
          history.ReportUsage(user, event.KeyOf(), event.timeStamp, GROUP_ALIVE, eventReason, timeStamp,
                              timeStamp + config.directUse);
        }
      }
    }

    /** The part of `CheckAndUpdateGroup` that decides: whether to set a group, which one and why. */
    method Decide(user: int, key: Key, timeStamp: int) returns (change: bool, newGroup: int, groupReason: Reason)
      requires Valid() && history.View().Has(user, key)
      ensures var s := history.View();
              var h := s.Entry(user, key);
              h.CheckAndUpdate(config, s.clock, timeStamp) == if change then h.SetGroup(newGroup, groupReason) else h
    {
      var h := history.userHistory[user][key];
      groupReason := h.reason;
      var oldControl := h.reason.control;
      var oldGroup := h.group;
      newGroup := if oldGroup >= GROUP_ALIVE then oldGroup else GROUP_ALIVE;
      if oldControl == CONTROL_FORCED {
        return false, newGroup, groupReason;
      }
      if oldControl == CONTROL_DEFAULT || oldControl == CONTROL_USAGE || oldControl == CONTROL_TIMEOUT {
        newGroup := GetNewGroup(user, key, timeStamp);
        if newGroup < 0 {
          return false, newGroup, groupReason;
        }
        groupReason := TIMEOUT_REASON;
      }
      var now := history.GetBootBasedTimeStamp(timeStamp);
      if newGroup >= GROUP_ALIVE && h.aliveTimeout > now {
        return true, GROUP_ALIVE, Reason(CONTROL_USAGE, EVENT_ALIVE_NOT_TIMEOUT);
      } else if newGroup >= GROUP_DAILY && h.dailyTimeout > now {
        return true, GROUP_DAILY, Reason(CONTROL_USAGE, EVENT_ALIVE_TIMEOUT);
      }
      return oldGroup < newGroup, newGroup, groupReason;
    }

    method CheckAndUpdateGroup(user: int, key: Key, timeStamp: int)
      requires Valid()
      modifies history
      ensures history.View() == Step(old(history.View()), config, Op.Check(user, key, timeStamp))
    {
      history.GetUsageHistoryForBundle(user, key, timeStamp);
      ghost var s := history.View();
      WithOwnEntry(s, user, key);
      var change, newGroup, groupReason := Decide(user, key, timeStamp);
      if change {
        var done := history.SetAppGroup(user, key, newGroup, groupReason, false);
      }
    }

    /** `keys` are the bundles the bundle manager lists for the user. */
    method CheckEachBundleState(user: int, keys: seq<Key>, timeStamp: int)
      requires Valid()
      modifies history
      ensures history.View() == CheckedEach(old(history.View()), config, user, keys, timeStamp)
    {
      for i := 0 to |keys|
        invariant history.View() == CheckedEach(old(history.View()), config, user, keys[..i], timeStamp)
      {
        CheckAndUpdateGroup(user, keys[i], timeStamp);
        assert keys[..i + 1][..i] == keys[..i];
      }
      assert keys[..|keys|] == keys;
    }

    method UpdateBootBasedAndScreenTime(on: bool, timeStamp: int)
      modifies history
      ensures history.View() == old(history.View()).ScreenSwitched(on, timeStamp, false)
    {
      history.UpdateBootBasedAndScreenTime(on, timeStamp, false);
    }

    method RestoreToDatabase(user: int)
      modifies history
      ensures history.View() == old(history.View()).Written(user)
    {
      history.WriteBundleUsage(user);
    }

    /** The checks read the boot time themselves, which may be later than the time of the shutdown. */
    method ShutDown(timeStamp: int, user: int, keys: seq<Key>, checkTime: int)
      requires Valid()
      modifies history
      ensures history.View()
           == Step(CheckedEach(old(history.View()), config, user, keys, checkTime), config, Shutdown(timeStamp))
    {
      CheckEachBundleState(user, keys, checkTime);
      history.UpdateBootBasedAndScreenTime(false, timeStamp, true);
    }
  }
}
