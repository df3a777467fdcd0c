/**
 The priority group of one bundle as a value: what a usage report, a check and a forced setting do to it
 (services/packagegroup/src/bundle_active_user_history.cpp and bundle_active_group_controller.cpp).
 */
module Groups {
  import opened Clocks

  const GROUP_ALIVE := 10
  const GROUP_DAILY := 20
  const GROUP_FIXED := 30
  const GROUP_RARE := 40
  const GROUP_NEVER := 60

  const CONTROL_DEFAULT := 0x0100
  const CONTROL_TIMEOUT := 0x0200
  const CONTROL_USAGE := 0x0300
  const CONTROL_FORCED := 0x0400
  const EVENT_ALIVE_TIMEOUT := 0x0006
  const EVENT_ALIVE_NOT_TIMEOUT := 0x0009

  /** The reason word, split into the two byte fields that the masks 0xFF00 and 0x00FF select. */
  datatype Reason = Reason(control: int, event: int)

  const DEFAULT_REASON := Reason(CONTROL_DEFAULT, 0)
  const TIMEOUT_REASON := Reason(CONTROL_TIMEOUT, 0)
  const FORCED_REASON := Reason(CONTROL_FORCED, 0)

  const NO_FIRST_USE := 0x7FFF_FFFF_FFFF_FFFF

  function Min(a: int, b: int): int {
    if a <= b then a else b
  }

  function Max(a: int, b: int): int {
    if a >= b then a else b
  }

  /** Thresholds on the two clocks, index 0 to 3, and the lengths of the leases. */
  datatype Config = Config(screenLevel: seq<int>, bootLevel: seq<int>,
                           directUse: int, notifySeen: int, systemInteraction: int)
  {
    predicate Valid() {
      && |screenLevel| == |bootLevel| == 4
      && screenLevel[0] == bootLevel[0] == 0
      && directUse > 0 && notifySeen > 0 && systemInteraction > 0
    }
  }

  const ONE_MINUTE := 60 * 1000
  const ONE_HOUR := 60 * ONE_MINUTE

  function InitConfig(debug: bool): (c: Config)
    ensures c.Valid()
  {
    if debug then
      Config([0, 0, 2 * ONE_MINUTE, 4 * ONE_MINUTE], [0, 2 * ONE_MINUTE, 4 * ONE_MINUTE, 16 * ONE_MINUTE],
             3 * ONE_MINUTE, ONE_MINUTE, ONE_MINUTE)
    else
      Config([0, 0, ONE_HOUR, 2 * ONE_HOUR], [0, 12 * ONE_HOUR, 24 * ONE_HOUR, 48 * ONE_HOUR],
             ONE_HOUR, 12 * ONE_HOUR, 10 * ONE_MINUTE)
  }

  function LevelGroup(level: int): int {
    if level == 0 then GROUP_ALIVE
    else if level == 1 then GROUP_DAILY
    else if level == 2 then GROUP_FIXED
    else GROUP_RARE
  }

  datatype History = History(
    lastBoot: int, lastScreen: int, group: int, reason: Reason,
    aliveTimeout: int, dailyTimeout: int, firstUse: int, isChanged: bool)
  {
    predicate Forced() {
      reason.control == CONTROL_FORCED
    }

    /** The highest level of `config` (below `below`) whose thresholds both clocks have reached; -1 if none. */
    function LevelBelow(config: Config, clock: Clock, timeStamp: int, below: nat): int
      requires config.Valid() && below <= 4
    {
      if below == 0 then -1
      else if clock.Screen(timeStamp) - lastScreen >= config.screenLevel[below - 1]
           && clock.Boot(timeStamp) - lastBoot >= config.bootLevel[below - 1] then below - 1
      else LevelBelow(config, clock, timeStamp, below - 1)
    }

    function Level(config: Config, clock: Clock, timeStamp: int): int
      requires config.Valid()
    {
      LevelBelow(config, clock, timeStamp, 4)
    }

    function SetGroup(newGroup: int, newReason: Reason): History {
      if group == newGroup && reason == newReason then this
      else this.(group := newGroup, reason := newReason, isChanged := true)
    }

    function ReportUsage(clock: Clock, eventTime: int, newGroup: int, eventReason: int,
                         bootTimeStamp: int, timeUntilNextCheck: int): History
    {
      var h := this.(firstUse := Min(firstUse, eventTime));
      if Forced() then h
      else if timeUntilNextCheck > bootTimeStamp && newGroup != GROUP_ALIVE && newGroup != GROUP_DAILY then h
      else
        var next := clock.bootDuration + (timeUntilNextCheck - clock.bootTimeStamp);
        var h1 := if timeUntilNextCheck <= bootTimeStamp then h
                  else if newGroup == GROUP_ALIVE then h.(aliveTimeout := Max(next, aliveTimeout))
                  else h.(dailyTimeout := Max(next, dailyTimeout));
        var h2 := if bootTimeStamp <= 0 then h1
                  else h1.(lastBoot := clock.bootDuration + (bootTimeStamp - clock.bootTimeStamp),
                           lastScreen := clock.Screen(bootTimeStamp));
        h2.(group := Min(group, newGroup), reason := Reason(CONTROL_USAGE, eventReason), isChanged := true)
    }

    function CheckAndUpdate(config: Config, clock: Clock, timeStamp: int): History
      requires config.Valid()
    {
      var measured := reason.control in {CONTROL_DEFAULT, CONTROL_USAGE, CONTROL_TIMEOUT};
      if Forced() || (measured && Level(config, clock, timeStamp) < 0) then this
      else
        var newGroup := if measured then LevelGroup(Level(config, clock, timeStamp)) else Max(group, GROUP_ALIVE);
        var now := clock.Boot(timeStamp);
        if newGroup >= GROUP_ALIVE && aliveTimeout > now then
          SetGroup(GROUP_ALIVE, Reason(CONTROL_USAGE, EVENT_ALIVE_NOT_TIMEOUT))
        else if newGroup >= GROUP_DAILY && dailyTimeout > now then
          SetGroup(GROUP_DAILY, Reason(CONTROL_USAGE, EVENT_ALIVE_TIMEOUT))
        else if group < newGroup then SetGroup(newGroup, if measured then TIMEOUT_REASON else reason)
        else this
    }

    /**
     The lease invariant: a bundle that is not forced and holds a lease that is still running sits in the
     leased group or a better one. The last use lies in the past of both clocks.
     */
    ghost predicate Good(clock: Clock, now: int) {
      && lastBoot <= clock.Boot(now) && lastScreen <= clock.Screen(now)
      && (!Forced() ==>
            && (aliveTimeout > clock.Boot(now) ==> group <= GROUP_ALIVE)
            && (dailyTimeout > clock.Boot(now) ==> group <= GROUP_DAILY)
            && group >= GROUP_ALIVE
            && reason.control in {CONTROL_DEFAULT, CONTROL_USAGE, CONTROL_TIMEOUT})
    }
  }

  /** A history entry made for a bundle without one. */
  function NewHistory(clock: Clock, timeStamp: int): History {
    History(clock.Boot(timeStamp), clock.Screen(timeStamp), GROUP_NEVER, DEFAULT_REASON, 0, 0, NO_FIRST_USE, false)
  }

  /** What one usage event asks `ReportUsage` to do. */
  datatype Use = Use(newGroup: int, eventReason: int, bootTimeStamp: int, timeUntilNextCheck: int)
  {
    predicate Valid(now: int) {
      && newGroup in {GROUP_ALIVE, GROUP_DAILY}
      && bootTimeStamp in {0, now} && bootTimeStamp < timeUntilNextCheck
    }
  }

  function Report(h: History, clock: Clock, eventTime: int, u: Use): History {
    h.ReportUsage(clock, eventTime, u.newGroup, u.eventReason, u.bootTimeStamp, u.timeUntilNextCheck)
  }

  // ----- levels -----

  predicate Reached(h: History, config: Config, clock: Clock, timeStamp: int, level: nat)
    requires config.Valid() && level < 4
  {
    && clock.Screen(timeStamp) - h.lastScreen >= config.screenLevel[level]
    && clock.Boot(timeStamp) - h.lastBoot >= config.bootLevel[level]
  }

  /** The level is the highest one whose thresholds are met, and there is one when the last use is past. */
  lemma {:induction false} LevelIsHighestReached(h: History, config: Config, clock: Clock, timeStamp: int, below: nat)
    requires config.Valid() && below <= 4
    ensures var level := h.LevelBelow(config, clock, timeStamp, below);
            && -1 <= level < below
            && (level >= 0 ==> Reached(h, config, clock, timeStamp, level))
            && (forall i :: level < i < below ==> !Reached(h, config, clock, timeStamp, i))
    ensures below > 0 && h.lastBoot <= clock.Boot(timeStamp) && h.lastScreen <= clock.Screen(timeStamp)
            ==> h.LevelBelow(config, clock, timeStamp, below) >= 0
  {
    if below == 0 {
    } else {
      LevelIsHighestReached(h, config, clock, timeStamp, below - 1);
    }
  }

  /** The level never goes down while the clocks run and the bundle is not used. */
  lemma LevelGrows(h: History, config: Config, clock: Clock, clock': Clock, earlier: int, later: int)
    requires config.Valid()
    requires clock.Screen(earlier) <= clock'.Screen(later) && clock.Boot(earlier) <= clock'.Boot(later)
    ensures h.Level(config, clock, earlier) <= h.Level(config, clock', later)
  {
    LevelIsHighestReached(h, config, clock, earlier, 4);
    LevelIsHighestReached(h, config, clock', later, 4);
    var level := h.Level(config, clock, earlier);
    assert level >= 0 ==> Reached(h, config, clock', later, level);
  }

  // ----- one step -----

  lemma NewIsGood(clock: Clock, now: int)
    requires clock.Valid(now)
    ensures NewHistory(clock, now).Good(clock, now)
  {
  }

  lemma ReportKeepsGood(h: History, clock: Clock, now: int, eventTime: int, u: Use)
    requires h.Good(clock, now) && clock.Valid(now) && u.Valid(now)
    ensures Report(h, clock, eventTime, u).Good(clock, now)
  {
  }

  lemma CheckKeepsGood(h: History, config: Config, clock: Clock, now: int)
    requires h.Good(clock, now) && config.Valid()
    ensures h.CheckAndUpdate(config, clock, now).Good(clock, now)
  {
    LevelIsHighestReached(h, config, clock, now, 4);
  }

  /** Time and switches of the screen cannot break the invariant. */
  lemma WaitKeepsGood(h: History, clock: Clock, now: int, clock': Clock, now': int)
    requires h.Good(clock, now)
    requires clock.Boot(now) <= clock'.Boot(now') && clock.Screen(now) <= clock'.Screen(now')
    ensures h.Good(clock', now')
  {
  }

  /** A check never improves a group: it only demotes. */
  lemma CheckOnlyDemotes(h: History, config: Config, clock: Clock, now: int)
    requires h.Good(clock, now) && config.Valid()
    ensures h.CheckAndUpdate(config, clock, now).group >= h.group
  {
    LevelIsHighestReached(h, config, clock, now, 4);
  }

  lemma ForcedStays(h: History, config: Config, clock: Clock, now: int, eventTime: int, u: Use)
    requires h.Forced() && config.Valid()
    ensures h.CheckAndUpdate(config, clock, now) == h
    ensures var h' := Report(h, clock, eventTime, u);
            h'.group == h.group && h'.reason == h.reason && h' == h.(firstUse := Min(h.firstUse, eventTime))
  {
  }

  // ----- between two usage reports -----

  /** The group that the clocks alone call for: the running lease first, then the thresholds. */
  function Target(h: History, config: Config, clock: Clock, now: int): int
    requires config.Valid()
  {
    var measured := LevelGroup(h.Level(config, clock, now));
    if h.aliveTimeout > clock.Boot(now) then GROUP_ALIVE
    else if measured >= GROUP_DAILY && h.dailyTimeout > clock.Boot(now) then GROUP_DAILY
    else measured
  }

  datatype Idle = Checked(time: int) | Switched(time: int, on: bool)

  function IdleRun(h: History, clock: Clock, config: Config, idles: seq<Idle>): (History, Clock)
    requires config.Valid()
  {
    if idles == [] then (h, clock)
    else
      var (h1, c1) := IdleRun(h, clock, config, idles[..|idles| - 1]);
      match idles[|idles| - 1]
      case Checked(t) => (h1.CheckAndUpdate(config, c1, t), c1)
      case Switched(t, on) => (h1, c1.Switched(on, t, false))
  }

  ghost predicate IdleInOrder(idles: seq<Idle>, from: int, now: int) {
    && from <= now
    && (forall i :: 0 <= i < |idles| ==> from <= idles[i].time <= now)
    && forall i, j :: 0 <= i < j < |idles| ==> idles[i].time <= idles[j].time
  }

  predicate SameUse(h: History, h': History) {
    h.lastBoot == h'.lastBoot && h.lastScreen == h'.lastScreen
    && h.aliveTimeout == h'.aliveTimeout && h.dailyTimeout == h'.dailyTimeout
  }

  lemma CheckReachesTarget(h: History, config: Config, clock: Clock, now: int)
    requires h.Good(clock, now) && config.Valid() && !h.Forced()
    requires h.group <= Target(h, config, clock, now)
    ensures var h' := h.CheckAndUpdate(config, clock, now);
            && h'.group == Target(h, config, clock, now) && SameUse(h, h') && !h'.Forced()
  {
    LevelIsHighestReached(h, config, clock, now, 4);
  }

  lemma {:induction false} SameUseSameLevel(h: History, h': History, config: Config, clock: Clock, now: int, below: nat)
    requires SameUse(h, h') && config.Valid() && below <= 4
    ensures h.LevelBelow(config, clock, now, below) == h'.LevelBelow(config, clock, now, below)
  {
    if below == 0 {
    } else {
      SameUseSameLevel(h, h', config, clock, now, below - 1);
    }
  }

  lemma TargetGrows(h: History, config: Config, clock: Clock, clock': Clock, earlier: int, later: int)
    requires config.Valid() && h.Good(clock, earlier)
    requires clock.Screen(earlier) <= clock'.Screen(later) && clock.Boot(earlier) <= clock'.Boot(later)
    ensures Target(h, config, clock, earlier) <= Target(h, config, clock', later)
  {
    LevelGrows(h, config, clock, clock', earlier, later);
    LevelIsHighestReached(h, config, clock, earlier, 4);
    LevelIsHighestReached(h, config, clock', later, 4);
  }

  /** Where an idle run has got to: the use data are untouched and the group is at most the target. */
  ghost predicate Follows(h: History, clock: Clock, config: Config, from: int, h': History, clock': Clock, now: int)
    requires config.Valid()
  {
    && SameUse(h, h') && !h'.Forced() && h'.Good(clock', now)
    && clock.Boot(from) <= clock'.Boot(now) && clock.Screen(from) <= clock'.Screen(now)
    && h'.group <= Target(h, config, clock', now)
  }

  lemma WaitFollows(h: History, clock: Clock, config: Config, from: int, h': History, clock': Clock, now: int,
                    clock'': Clock, later: int)
    requires config.Valid() && h.Good(clock, from)
    requires Follows(h, clock, config, from, h', clock', now)
    requires clock'.Screen(now) <= clock''.Screen(later) && clock'.Boot(now) <= clock''.Boot(later)
    ensures Follows(h, clock, config, from, h', clock'', later)
  {
    SameUseSameLevel(h, h', config, clock', now, 4);
    SameUseSameLevel(h, h', config, clock'', later, 4);
    TargetGrows(h', config, clock', clock'', now, later);
    WaitKeepsGood(h', clock', now, clock'', later);
  }

  lemma CheckFollows(h: History, clock: Clock, config: Config, from: int, h': History, clock': Clock, now: int)
    requires config.Valid() && Follows(h, clock, config, from, h', clock', now)
    ensures Follows(h, clock, config, from, h'.CheckAndUpdate(config, clock', now), clock', now)
    ensures h'.CheckAndUpdate(config, clock', now).group == Target(h, config, clock', now)
  {
    SameUseSameLevel(h, h', config, clock', now, 4);
    CheckReachesTarget(h', config, clock', now);
    CheckKeepsGood(h', config, clock', now);
  }

  lemma {:induction false} IdleRunFollows(
    h: History, clock: Clock, config: Config, idles: seq<Idle>, from: int, now: int)
    requires config.Valid() && h.Good(clock, from) && !h.Forced() && h.group == GROUP_ALIVE
    requires IdleInOrder(idles, from, now)
    ensures var (h', c') := IdleRun(h, clock, config, idles);
            Follows(h, clock, config, from, h', c', now)
  {
    if idles == [] {
      LevelIsHighestReached(h, config, clock, now, 4);
    } else {
      var init, last := idles[..|idles| - 1], idles[|idles| - 1];
      IdleRunFollows(h, clock, config, init, from, last.time);
      var (h1, c1) := IdleRun(h, clock, config, init);
      match last
      case Checked(t) =>
        CheckFollows(h, clock, config, from, h1, c1, t);
        WaitFollows(h, clock, config, from, h1.CheckAndUpdate(config, c1, t), c1, t, c1, now);
      case Switched(t, on) =>
        WaitFollows(h, clock, config, from, h1, c1, t, c1.Switched(on, t, false), now);
    }
  }

  /**
   Path independence: whatever checks and screen switches happen after a direct use, the group that a check
   leaves behind is what this check alone would have set, so checking more often changes nothing.
   */
  lemma OnlyTheLastCheckCounts(h: History, clock: Clock, config: Config, idles: seq<Idle>, from: int, now: int)
    requires config.Valid() && h.Good(clock, from) && !h.Forced() && h.group == GROUP_ALIVE
    requires IdleInOrder(idles, from, now)
    ensures var (h', c') := IdleRun(h, clock, config, idles + [Checked(now)]);
            h'.group == Target(h, config, c', now) == h.CheckAndUpdate(config, c', now).group
  {
    IdleRunFollows(h, clock, config, idles, from, now);
    var (h1, c1) := IdleRun(h, clock, config, idles);
    assert (idles + [Checked(now)])[..|idles|] == idles;
    CheckFollows(h, clock, config, from, h1, c1, now);
    WaitKeepsGood(h, clock, from, c1, now);
    LevelIsHighestReached(h, config, c1, now, 4);
    CheckReachesTarget(h, config, c1, now);
  }
}
