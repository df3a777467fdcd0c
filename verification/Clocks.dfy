/**
 The two virtual clocks of the priority groups (services/packagegroup/src/bundle_active_user_history.cpp):
 the boot clock runs whenever the device runs, the screen clock only while the screen is on.
 */
module Clocks {
  import opened Occupancy

  datatype Clock = Clock(
    bootTimeStamp: int, bootDuration: int, screenTimeStamp: int, screenDuration: int, screenOn: bool)
  {
    function Boot(timeStamp: int): int {
      timeStamp - bootTimeStamp + bootDuration
    }

    function Screen(timeStamp: int): int {
      screenDuration + (if screenOn then timeStamp - screenTimeStamp else 0)
    }

    function Switched(on: bool, timeStamp: int, isShutdown: bool): Clock {
      if screenOn == on && !isShutdown then this
      else if on then this.(screenOn := true, screenTimeStamp := timeStamp)
      else Clock(timeStamp, bootDuration + (timeStamp - bootTimeStamp),
                 screenTimeStamp, screenDuration + (timeStamp - screenTimeStamp), false)
    }

    function ScreenMeter(): Meter<()> {
      Meter(screenDuration, screenTimeStamp, if screenOn then {()} else {})
    }

    predicate Valid(now: int) {
      bootTimeStamp <= now && 0 <= bootDuration && screenTimeStamp <= now
    }
  }

  /** The clocks of a process started at `timeStamp` from the persisted durations. */
  function Started(timeStamp: int, bootDuration: int, screenDuration: int): Clock {
    Clock(timeStamp, bootDuration, timeStamp, screenDuration, false)
  }

  /** Switching never moves the boot clock, at any instant. */
  lemma BootClockIsContinuous(c: Clock, on: bool, timeStamp: int, isShutdown: bool, instant: int)
    ensures c.Switched(on, timeStamp, isShutdown).Boot(instant) == c.Boot(instant)
  {
  }

  /**
   Switching leaves the screen clock where it is, except in one family of calls: a shutdown that names
   the state the screen is already in counts the time since the last switch-on a second time (screen off)
   or drops it (screen on).
   */
  lemma ScreenClockIsContinuous(c: Clock, on: bool, timeStamp: int, isShutdown: bool)
    ensures c.Switched(on, timeStamp, isShutdown).Screen(timeStamp) == c.Screen(timeStamp)
       <==> (!isShutdown || on != c.screenOn || timeStamp == c.screenTimeStamp)
  {
  }

  lemma ShutdownWithScreenOffJumps()
    ensures var c := Started(0, 0, 0).Switched(true, 10, false).Switched(false, 30, false);
            c.Screen(50) == 20 && c.Switched(false, 50, true).Screen(50) == 60
  {
  }

  /** A shutdown persists both durations; the next process resumes the clocks at their shutdown values. */
  lemma ShutdownRoundTrip(c: Clock, timeStamp: int, nextStart: int)
    ensures var stored := c.Switched(false, timeStamp, true);
            var next := Started(nextStart, stored.bootDuration, stored.screenDuration);
            && next.Boot(nextStart) == c.Boot(timeStamp)
            && (next.Screen(nextStart) == c.Screen(timeStamp) <==> c.screenOn || timeStamp == c.screenTimeStamp)
  {
  }

  /** Without a shutdown the next process resumes both clocks where the last switch stored them. */
  lemma RestartRewinds(c: Clock, now: int, nextStart: int)
    ensures var next := Started(nextStart, c.bootDuration, c.screenDuration);
            && next.Boot(nextStart) == c.Boot(now) - (now - c.bootTimeStamp)
            && next.Screen(nextStart) == c.Screen(now) - (if c.screenOn then now - c.screenTimeStamp else 0)
            && (next.Boot(nextStart) == c.Boot(now) <==> now == c.bootTimeStamp)
  {
  }

  // ----- runs of screen switches -----

  datatype Switch = Switch(time: int, on: bool)

  function Run(c: Clock, switches: seq<Switch>): Clock {
    if switches == [] then c
    else
      var s := switches[|switches| - 1];
      Run(c, switches[..|switches| - 1]).Switched(s.on, s.time, false)
  }

  function ScreenChanges(switches: seq<Switch>): seq<Timed<()>> {
    seq(|switches|, i requires 0 <= i < |switches| =>
      At(switches[i].time, if switches[i].on then Enter(()) else Leave(())))
  }

  ghost predicate InOrder(switches: seq<Switch>, from: int, now: int) {
    && from <= now
    && (forall i :: 0 <= i < |switches| ==> from <= switches[i].time <= now)
    && forall i, j :: 0 <= i < j < |switches| ==> switches[i].time <= switches[j].time
  }

  lemma {:induction false} RunTracks(c: Clock, switches: seq<Switch>, from: int, now: int)
    requires InOrder(switches, from, now)
    ensures Tracks(Run(c, switches).ScreenMeter(), c.Screen(from), if c.screenOn then {()} else {},
                   ScreenChanges(switches), from)
  {
    if switches == [] {
      TracksStart(c.ScreenMeter(), from);
      assert ScreenChanges(switches) == [];
    } else {
      var init, s := switches[..|switches| - 1], switches[|switches| - 1];
      RunTracks(c, init, from, now);
      var at := ScreenChanges(switches)[|switches| - 1];
      assert ScreenChanges(switches) == ScreenChanges(init) + [at];
      TracksStep(Run(c, init).ScreenMeter(), Run(c, switches).ScreenMeter(), c.Screen(from),
                 if c.screenOn then {()} else {}, ScreenChanges(init), from, at);
    }
  }

  lemma {:induction false} MillisAtMostElapsed<T>(start: set<T>, changes: seq<Timed<T>>, from: int, until: int)
    requires from <= until
    ensures Millis(start, changes, from, until) <= until - from
    decreases until - from
  {
    if until <= from {
    } else {
      MillisAtMostElapsed(start, changes, from, until - 1);
    }
  }

  lemma {:induction false} RunKeepsBoot(c: Clock, switches: seq<Switch>, instant: int)
    ensures Run(c, switches).Boot(instant) == c.Boot(instant)
  {
    if switches == [] {
    } else {
      RunKeepsBoot(c, switches[..|switches| - 1], instant);
    }
  }

  /**
   Over any run of switches the screen clock advances by exactly the time the screen was on, and so never
   faster than the boot clock.
   */
  lemma ScreenClockIsOnTime(c: Clock, switches: seq<Switch>, from: int, now: int)
    requires InOrder(switches, from, now)
    ensures Run(c, switches).Screen(now)
         == c.Screen(from) + Millis(if c.screenOn then {()} else {}, ScreenChanges(switches), from, now)
    ensures Run(c, switches).Screen(now) - c.Screen(from) <= Run(c, switches).Boot(now) - c.Boot(from)
  {
    RunTracks(c, switches, from, now);
    RunKeepsBoot(c, switches, now);
    MillisAtMostElapsed(if c.screenOn then {()} else {}, ScreenChanges(switches), from, now);
  }
}
