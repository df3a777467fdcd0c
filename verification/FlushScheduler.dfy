/**
 The delayed flush of changed statistics: the changed flag of the user service, the handler's queue of
 task handles and the tasks that wait to run (services/packageusage/src/bundle_active_report_handler.cpp,
 services/common/src/bundle_active_core.cpp, services/packageusage/src/bundle_active_user_service.cpp).
 Handler tasks and locked methods are atomic steps, and there is one user.
 */
module FlushScheduler {

  const MSG_FLUSH_TO_DISK := 1

  function Members(queue: seq<nat>): set<nat> {
    set t | t in queue
  }

  /** `waiting` are the submitted tasks that have neither run nor been cancelled. */
  datatype Handler = Handler(handles: map<int, seq<nat>>, waiting: map<nat, int>, nextTask: nat)
  {
    function Sent(eventId: int): Handler {
      var queue := if eventId in handles then handles[eventId] else [];
      Handler(handles[eventId := queue + [nextTask]], waiting[nextTask := eventId], nextTask + 1)
    }

    function Removed(eventId: int): Handler {
      if eventId !in handles then this
      else
        this.(handles := handles - {eventId}, waiting := waiting - Members(handles[eventId]))
    }

    /** What a task does after its event has been processed. */
    function Finished(eventId: int): Handler {
      if eventId in handles && handles[eventId] != [] then
        this.(handles := handles[eventId := handles[eventId][1..]])
      else this
    }
  }

  datatype System = System(handler: Handler, statsChanged: bool)
  {
    function Notified(): System {
      if statsChanged then this
      else if MSG_FLUSH_TO_DISK in handler.handles then this.(statsChanged := true)
      else System(handler.Sent(MSG_FLUSH_TO_DISK), true)
    }

    function Restored(forced: bool): System {
      if statsChanged || forced then this.(statsChanged := false) else this
    }

    /** Day rollover; `hasBundles` says whether any interval holds a bundle. */
    function Renewed(hasBundles: bool): System {
      var s := if hasBundles then Notified() else this;
      s.Restored(true).(statsChanged := false).Restored(true)
    }

    function Reported(isFlush: bool, rollover: bool, hasBundles: bool): System {
      var s := if rollover then Renewed(hasBundles) else this;
      if isFlush then s else s.Notified()
    }

    function FlushRemoved(): System {
      this.(handler := handler.Removed(MSG_FLUSH_TO_DISK))
    }

    /** `RestoreToDatabase`: nothing happens while user space is short. */
    function Flushed(enoughSpace: bool, rollover: bool, hasBundles: bool): System {
      if !enoughSpace then this
      else Reported(true, rollover, hasBundles).Restored(false).FlushRemoved()
    }
  }

  datatype Op =
    | Report(rollover: bool, hasBundles: bool)
    | RunFlush(task: nat, enoughSpace: bool, rollover: bool, hasBundles: bool)
    | RestoreAll
    | TimeChange(rollover: bool, hasBundles: bool)
    | Shutdown(rollover: bool, hasBundles: bool)

  predicate Enabled(s: System, op: Op) {
    op.RunFlush? ==> op.task in s.handler.waiting && s.handler.waiting[op.task] == MSG_FLUSH_TO_DISK
  }

  function Step(s: System, op: Op): System {
    match op
    case Report(rollover, hasBundles) => s.Reported(false, rollover, hasBundles)
    case RunFlush(task, enoughSpace, rollover, hasBundles) =>
      var started := s.(handler := s.handler.(waiting := s.handler.waiting - {task}));
      var done := started.Flushed(enoughSpace, rollover, hasBundles);
      done.(handler := done.handler.Finished(MSG_FLUSH_TO_DISK))
    case RestoreAll => s.Restored(true).FlushRemoved()
    case TimeChange(rollover, hasBundles) =>
      s.Reported(true, rollover, hasBundles).Restored(true).(statsChanged := false).FlushRemoved()
    case Shutdown(rollover, hasBundles) => s.Reported(false, rollover, hasBundles)
  }

  predicate IsFlushTask(s: System, task: nat) {
    task in s.handler.waiting && s.handler.waiting[task] == MSG_FLUSH_TO_DISK
  }

  ghost predicate FreshIds(s: System) {
    && (forall t :: t in s.handler.waiting ==> t < s.handler.nextTask)
  }

  /**
   No flush is lost and none is doubled: the queue entry exists exactly while one flush task waits, and
   while the statistics have changed there is one.
   */
  ghost predicate Healthy(s: System) {
    && FreshIds(s)
    && (MSG_FLUSH_TO_DISK in s.handler.handles ==>
          exists t: nat :: s.handler.handles[MSG_FLUSH_TO_DISK] == [t] && IsFlushTask(s, t))
    && (forall t: nat :: IsFlushTask(s, t) ==>
          MSG_FLUSH_TO_DISK in s.handler.handles && s.handler.handles[MSG_FLUSH_TO_DISK] == [t])
    && (s.statsChanged ==> MSG_FLUSH_TO_DISK in s.handler.handles)
  }

  /** The queue entry is there but empty: no flush waits, and none will be sent. */
  ghost predicate Stuck(s: System) {
    && FreshIds(s)
    && MSG_FLUSH_TO_DISK in s.handler.handles && s.handler.handles[MSG_FLUSH_TO_DISK] == []
    && forall t: nat :: !IsFlushTask(s, t)
  }

  /** The guard of the branch that loses flushes. */
  predicate ShortOfSpace(op: Op) {
    op.RunFlush? && !op.enoughSpace
  }

  predicate Repairs(op: Op) {
    op.RestoreAll? || op.TimeChange?
  }

  lemma NotifiedHealthy(s: System)
    requires Healthy(s)
    ensures Healthy(s.Notified())
  {
    var s' := s.Notified();
    if !s.statsChanged && MSG_FLUSH_TO_DISK !in s.handler.handles {
      assert s'.handler.handles[MSG_FLUSH_TO_DISK] == [s.handler.nextTask];
      assert IsFlushTask(s', s.handler.nextTask);
      forall t: nat | IsFlushTask(s', t)
        ensures t == s.handler.nextTask
      {
        assert t != s.handler.nextTask ==> IsFlushTask(s, t);
      }
    } else {
      assert forall t: nat :: IsFlushTask(s', t) <==> IsFlushTask(s, t);
    }
  }

  lemma QuietHealthy(s: System)
    requires Healthy(s)
    ensures Healthy(s.(statsChanged := false))
  {
    var s' := s.(statsChanged := false);
    assert forall t: nat :: IsFlushTask(s', t) <==> IsFlushTask(s, t);
  }

  lemma ReportedHealthy(s: System, isFlush: bool, rollover: bool, hasBundles: bool)
    requires Healthy(s)
    ensures Healthy(s.Reported(isFlush, rollover, hasBundles))
  {
    NotifiedHealthy(s);
    QuietHealthy(s);
    QuietHealthy(s.Notified());
    NotifiedHealthy(s.(statsChanged := false));
    NotifiedHealthy(s.Notified().(statsChanged := false));
  }

  lemma RemovedHealthy(s: System)
    requires Healthy(s) || Stuck(s)
    requires !s.statsChanged
    ensures Healthy(s.FlushRemoved())
    ensures MSG_FLUSH_TO_DISK !in s.FlushRemoved().handler.handles
  {
    var s' := s.FlushRemoved();
    forall t: nat
      ensures !IsFlushTask(s', t)
    {
      assert IsFlushTask(s', t) ==> IsFlushTask(s, t);
    }
  }

  lemma ReportedStuck(s: System, isFlush: bool, rollover: bool, hasBundles: bool)
    requires Stuck(s)
    ensures Stuck(s.Reported(isFlush, rollover, hasBundles))
  {
    var s' := s.Reported(isFlush, rollover, hasBundles);
    assert s'.handler == s.handler;
    assert forall t: nat :: IsFlushTask(s', t) <==> IsFlushTask(s, t);
  }

  /** While a flush task runs its handle is still queued, so nothing it reports is sent a second time. */
  lemma RunFlushClears(s: System, op: Op)
    requires Healthy(s) && op.RunFlush? && op.enoughSpace && Enabled(s, op)
    ensures var s' := Step(s, op);
            Healthy(s') && !s'.statsChanged && MSG_FLUSH_TO_DISK !in s'.handler.handles
  {
    var task := op.task;
    assert IsFlushTask(s, task);
    var started := s.(handler := s.handler.(waiting := s.handler.waiting - {task}));
    var reported := started.Reported(true, op.rollover, op.hasBundles).Restored(false);
    assert reported.handler == started.handler;
    var s' := Step(s, op);
    assert s'.handler == started.handler.Removed(MSG_FLUSH_TO_DISK);
    forall t: nat
      ensures !IsFlushTask(s', t)
    {
      assert t == task || !IsFlushTask(s, t);
    }
  }

  lemma RunFlushWithoutSpace(s: System, op: Op)
    requires Healthy(s) && ShortOfSpace(op) && Enabled(s, op)
    ensures Stuck(Step(s, op)) && Step(s, op).statsChanged == s.statsChanged
  {
    var task := op.task;
    assert IsFlushTask(s, task);
    var s' := Step(s, op);
    forall t: nat
      ensures !IsFlushTask(s', t)
    {
      assert t == task || !IsFlushTask(s, t);
    }
  }

  lemma StuckIsNotHealthy(s: System)
    requires Stuck(s)
    ensures !Healthy(s)
  {
    assert forall t: nat :: [t] != [];
  }

  /** A step from a healthy state keeps it healthy unless it runs a flush without space; then it is stuck. */
  lemma StepFromHealthy(s: System, op: Op)
    requires Healthy(s) && Enabled(s, op)
    ensures if ShortOfSpace(op) then Stuck(Step(s, op)) else Healthy(Step(s, op))
  {
    match op
    case Report(rollover, hasBundles) => ReportedHealthy(s, false, rollover, hasBundles);
    case Shutdown(rollover, hasBundles) => ReportedHealthy(s, false, rollover, hasBundles);
    case RunFlush(_, enoughSpace, _, _) =>
      if enoughSpace {
        RunFlushClears(s, op);
      } else {
        RunFlushWithoutSpace(s, op);
      }
    case RestoreAll =>
      QuietHealthy(s);
      RemovedHealthy(s.Restored(true));
    case TimeChange(rollover, hasBundles) =>
      ReportedHealthy(s, true, rollover, hasBundles);
      QuietHealthy(s.Reported(true, rollover, hasBundles));
      RemovedHealthy(s.Reported(true, rollover, hasBundles).(statsChanged := false));
  }

  /** A stuck state stays stuck, whatever is reported, until everything is restored or the time changes. */
  lemma StepFromStuck(s: System, op: Op)
    requires Stuck(s) && Enabled(s, op)
    ensures if Repairs(op) then Healthy(Step(s, op)) else Stuck(Step(s, op))
  {
    match op
    case Report(rollover, hasBundles) => ReportedStuck(s, false, rollover, hasBundles);
    case Shutdown(rollover, hasBundles) => ReportedStuck(s, false, rollover, hasBundles);
    case RunFlush(task, _, _, _) =>
      assert IsFlushTask(s, task);
      assert false;
    case RestoreAll =>
      ReportedStuck(s, true, false, false);
      var quiet := s.Restored(true);
      assert forall t: nat :: IsFlushTask(quiet, t) <==> IsFlushTask(s, t);
      RemovedHealthy(quiet);
    case TimeChange(rollover, hasBundles) =>
      ReportedStuck(s, true, rollover, hasBundles);
      var quiet := s.Reported(true, rollover, hasBundles).(statsChanged := false);
      assert forall t: nat :: IsFlushTask(quiet, t) <==> IsFlushTask(s, t);
      RemovedHealthy(quiet);
  }

  // ----- whole runs -----

  const START := System(Handler(map[], map[], 0), false)

  function Run(ops: seq<Op>): System {
    if ops == [] then START else Step(Run(ops[..|ops| - 1]), ops[|ops| - 1])
  }

  predicate ValidRun(ops: seq<Op>) {
    ops == [] || (ValidRun(ops[..|ops| - 1]) && Enabled(Run(ops[..|ops| - 1]), ops[|ops| - 1]))
  }

  /** A flush ran short of space, and neither a full restore nor a time change has come since. */
  predicate Unrepaired(ops: seq<Op>) {
    ops != [] &&
    var op := ops[|ops| - 1];
    ShortOfSpace(op) || (!Repairs(op) && Unrepaired(ops[..|ops| - 1]))
  }

  /**
   No lost flush, exactly: after any run the scheduler is healthy if and only if every flush that ran
   short of space has been followed by a full restore or a time change; otherwise no flush waits.
   */
  lemma {:induction false} NoLostFlush(ops: seq<Op>)
    requires ValidRun(ops)
    ensures if Unrepaired(ops) then Stuck(Run(ops)) && !Healthy(Run(ops)) else Healthy(Run(ops))
  {
    if ops == [] {
    } else {
      var init, op := ops[..|ops| - 1], ops[|ops| - 1];
      NoLostFlush(init);
      if Unrepaired(init) {
        StepFromStuck(Run(init), op);
      } else {
        StepFromHealthy(Run(init), op);
      }
      if Unrepaired(ops) {
        StuckIsNotHealthy(Run(ops));
      }
    }
  }

  // ----- the objects -----

  class ReportHandler {
    var taskHandlerMap: map<int, seq<nat>>
    var waiting: map<nat, int>
    var nextTask: nat

    function View(): Handler
      reads this
    {
      Handler(taskHandlerMap, waiting, nextTask)
    }

    constructor ()
      ensures View() == START.handler
    {
      taskHandlerMap, waiting, nextTask := map[], map[], 0;
    }

    method SendEvent(eventId: int)
      modifies this
      ensures View() == old(View()).Sent(eventId)
    {
      var handles := taskHandlerMap;
      if eventId !in handles {
        handles := handles[eventId := []];
      }
      var taskHandle := nextTask;
      nextTask := nextTask + 1;
      waiting := waiting[taskHandle := eventId];
      taskHandlerMap := taskHandlerMap[eventId := handles[eventId] + [taskHandle]];
    }

    method RemoveEvent(eventId: int)
      modifies this
      ensures View() == old(View()).Removed(eventId)
    {
      if eventId !in taskHandlerMap {
        return;
      }
      var queue := taskHandlerMap[eventId];
      ghost var all, before := queue, waiting;
      while queue != []
        invariant |queue| <= |all| && queue == all[|all| - |queue|..]
        invariant waiting == before - Members(all[..|all| - |queue|])
        invariant taskHandlerMap == old(taskHandlerMap) && nextTask == old(nextTask)
      {
        waiting := waiting - {queue[0]};
        assert all[..|all| - |queue| + 1] == all[..|all| - |queue|] + [queue[0]];
        queue := queue[1..];
      }
      assert all[..|all|] == all;
      taskHandlerMap := taskHandlerMap - {eventId};
    }

    method HasEvent(eventId: int) returns (has: bool)
      ensures has <==> eventId in taskHandlerMap
    {
      has := eventId in taskHandlerMap;
    }

    /** The end of a task's body. */
    method PopHandle(eventId: int)
      modifies this`taskHandlerMap
      ensures View() == old(View()).Finished(eventId)
    {
      if eventId !in taskHandlerMap {
        return;
      }
      if taskHandlerMap[eventId] != [] {
        taskHandlerMap := taskHandlerMap[eventId := taskHandlerMap[eventId][1..]];
      }
    }
  }

  /** The service and the core as far as the flag and the queue go. */
  class FlushService {
    const handler: ReportHandler
    var statsChanged: bool

    function View(): System
      reads this, handler
    {
      System(handler.View(), statsChanged)
    }

    constructor (handler: ReportHandler)
      ensures this.handler == handler && !statsChanged
    {
      this.handler := handler;
      statsChanged := false;
    }

    method OnStatsChanged()
      modifies handler
      ensures handler.View() == if MSG_FLUSH_TO_DISK in old(handler.View()).handles then old(handler.View())
                                else old(handler.View()).Sent(MSG_FLUSH_TO_DISK)
    {
      var has := handler.HasEvent(MSG_FLUSH_TO_DISK);
      if !has {
        handler.SendEvent(MSG_FLUSH_TO_DISK);
      }
    }

    method NotifyStatsChanged()
      modifies this`statsChanged, handler
      ensures View() == old(View()).Notified()
    {
      if !statsChanged {
        statsChanged := true;
        OnStatsChanged();
      }
    }

    method RestoreStats(forced: bool)
      modifies this`statsChanged
      ensures View() == old(View()).Restored(forced)
    {
      if statsChanged || forced {
        statsChanged := false;
      }
    }

    method RenewStatsInMemory(hasBundles: bool)
      modifies this`statsChanged, handler
      ensures View() == old(View()).Renewed(hasBundles)
    {
      if hasBundles {
        NotifyStatsChanged();
      }
      RestoreStats(true);
      statsChanged := false;
      RestoreStats(true);
    }

    method ReportEvent(isFlush: bool, rollover: bool, hasBundles: bool)
      modifies this`statsChanged, handler
      ensures View() == old(View()).Reported(isFlush, rollover, hasBundles)
    {
      if rollover {
        RenewStatsInMemory(hasBundles);
      }
      if !isFlush {
        NotifyStatsChanged();
      }
    }

    method RestoreToDatabase(enoughSpace: bool, rollover: bool, hasBundles: bool)
      modifies this`statsChanged, handler
      ensures View() == old(View()).Flushed(enoughSpace, rollover, hasBundles)
    {
      if !enoughSpace {
        return;
      }
      ReportEvent(true, rollover, hasBundles);
      RestoreStats(false);
      handler.RemoveEvent(MSG_FLUSH_TO_DISK);
    }

    /** A waiting flush task is taken from the queue and run. */
    method RunFlushTask(task: nat, enoughSpace: bool, rollover: bool, hasBundles: bool)
      requires task in handler.waiting && handler.waiting[task] == MSG_FLUSH_TO_DISK
      modifies this`statsChanged, handler
      ensures View() == Step(old(View()), RunFlush(task, enoughSpace, rollover, hasBundles))
    {
      handler.waiting := handler.waiting - {task};
      RestoreToDatabase(enoughSpace, rollover, hasBundles);
      handler.PopHandle(MSG_FLUSH_TO_DISK);
    }

    method RestoreAllData()
      modifies this`statsChanged, handler
      ensures View() == Step(old(View()), RestoreAll)
    {
      RestoreStats(true);
      handler.RemoveEvent(MSG_FLUSH_TO_DISK);
    }
  }
}
