/**
 Nothing is counted twice, and what is lost is known to the millisecond: over a whole run, the totals saved at the
 midnights, what the current period shows and the stretches between add up to the occupied time
 (services/packageusage/src/bundle_active_user_service.cpp).
 */
module Conservation {
  import opened Events
  import opened Occupancy
  import opened Calendar
  import opened TableIndex
  import opened UsageDatabase
  import opened UserService
  import opened Intervals
  import opened Rollover
  import opened UsageRuns
  import opened Midnight
  import opened TidyRuns
  import PackageStats
  import S = UsageStore

  /** The step begins with a midnight at which the period of the interval ends. */
  predicate Ends(w: World, op: Op, i: nat)
    requires w.Shaped() && i < 4
  {
    w.IsMidnight(op) && Rolls(w.Before(op), i, op.event.timeStamp)
  }

  /** From the last millisecond before the expiry to the begin of the new day. */
  function Stretch(w: World, op: Op, inside: set<string>): int
    requires w.Shaped() && w.IsMidnight(op)
  {
    if inside != {} then Truncate(op.event.timeStamp, w.s.lengths[DAILY]) - (w.s.expiry - 1) else 0
  }

  /** The foreground totals that the midnights of the first `n` steps saved in the tables of ended periods. */
  function FrontSaved(states: seq<World>, ops: seq<Op>, n: nat, i: nat, k: Key): int
    requires IsRun(states, ops) && n <= |ops| && i < 4
  {
    if n == 0 then 0
    else FrontSaved(states, ops, n - 1, i, k)
         + (if Ends(states[n - 1], ops[n - 1], i) then SavedFront(states[n - 1].Before(ops[n - 1]), i, k) else 0)
  }

  function TaskSaved(states: seq<World>, ops: seq<Op>, n: nat, i: nat, k: Key): int
    requires IsRun(states, ops) && n <= |ops| && i < 4
  {
    if n == 0 then 0
    else TaskSaved(states, ops, n - 1, i, k)
         + (if Ends(states[n - 1], ops[n - 1], i) then SavedTask(states[n - 1].Before(ops[n - 1]), i, k) else 0)
  }

  /** The stretches that no period counts. */
  function FrontLost(states: seq<World>, ops: seq<Op>, n: nat, i: nat, k: Key): int
    requires IsRun(states, ops) && n <= |ops| && i < 4
  {
    if n == 0 then 0
    else FrontLost(states, ops, n - 1, i, k)
         + (if Ends(states[n - 1], ops[n - 1], i)
            then Stretch(states[n - 1], ops[n - 1], InFront(states[n - 1].history, k)) else 0)
  }

  function TaskLost(states: seq<World>, ops: seq<Op>, n: nat, i: nat, k: Key): int
    requires IsRun(states, ops) && n <= |ops| && i < 4
  {
    if n == 0 then 0
    else TaskLost(states, ops, n - 1, i, k)
         + (if Ends(states[n - 1], ops[n - 1], i)
            then Stretch(states[n - 1], ops[n - 1], Running(states[n - 1].history, k)) else 0)
  }

  // ----- one account -----

  /** What has been put aside, together with the base of the account, is the occupied time up to its origin. */
  predicate Balanced(put: int, base: int, log: seq<Timed<string>>, first: int, firstBase: int, origin: int) {
    first <= origin && put + base == firstBase + Millis({}, log, first, origin)
  }

  lemma LaterChange(put: int, base: int, log: seq<Timed<string>>, first: int, firstBase: int, origin: int, at: Timed<string>)
    requires Balanced(put, base, log, first, firstBase, origin) && origin <= at.time
    ensures Balanced(put, base, log + [at], first, firstBase, origin)
  {
    MillisBeforeChange({}, log, first, origin, at);
  }

  /** A new account: the old one is settled at `last`, and the stretch up to the new origin is put aside as lost. */
  lemma AccountEnds(put: int, base: int, log: seq<Timed<string>>, first: int, firstBase: int, origin: int, last: int,
                    begin: int, now: int)
    requires Balanced(put, base, log, first, firstBase, origin) && origin <= now <= last <= begin && 0 <= now
    requires Ordered(log, 0) && EndTime(log, 0) <= now
    ensures var saved := base + Millis({}, log, origin, last);
            var lost := if After({}, log) != {} then begin - last else 0;
            Balanced(put + saved + lost, 0, log, first, firstBase, begin)
  {
    MillisSplit({}, log, first, origin, last);
    MillisAfterEnd({}, log, 0, first, last, begin);
  }

  /** The same with the change that comes with the new account. */
  lemma AccountRolls(put: int, base: int, log: seq<Timed<string>>, first: int, firstBase: int, origin: int, last: int,
                     begin: int, now: int, at: Timed<string>, saved: int, lost: int)
    requires Balanced(put, base, log, first, firstBase, origin) && origin <= now <= last <= begin <= at.time && 0 <= now
    requires Ordered(log, 0) && EndTime(log, 0) <= now
    requires saved == base + Millis({}, log, origin, last) && lost == if After({}, log) != {} then begin - last else 0
    ensures Balanced(put + saved + lost, 0, log + [at], first, firstBase, begin)
  {
    AccountEnds(put, base, log, first, firstBase, origin, last, begin, now);
    LaterChange(put + saved + lost, 0, log, first, firstBase, begin, at);
  }

  lemma Shown(total: int, put: int, base: int, log: seq<Timed<string>>, first: int, firstBase: int, origin: int, t: int)
    requires Balanced(put, base, log, first, firstBase, origin) && origin <= t
    requires total == base + Millis({}, log, origin, t)
    ensures put + total == firstBase + Millis({}, log, first, t)
  {
    MillisSplit({}, log, first, origin, t);
  }

  // ----- one step -----

  predicate FrontBalanced(w: World, put: int, i: nat, k: Key, first: int, firstBase: int)
    requires w.Shaped() && i < 4
  {
    Balanced(put, BaseOf(w.accounts[i].fronts, k), FrontLog(w.history, k), first, firstBase, w.accounts[i].origin)
  }

  predicate TaskBalanced(w: World, put: int, i: nat, k: Key, first: int, firstBase: int)
    requires w.Shaped() && i < 4
  {
    Balanced(put, BaseOf(w.accounts[i].tasks, k), TaskLog(w.history, k), first, firstBase, w.accounts[i].origin)
  }

  /** What one step puts aside. */
  function FrontPut(w: World, op: Op, i: nat, k: Key): int
    requires w.Shaped() && i < 4
  {
    if Ends(w, op, i) then SavedFront(w.Before(op), i, k) + Stretch(w, op, InFront(w.history, k)) else 0
  }

  function TaskPut(w: World, op: Op, i: nat, k: Key): int
    requires w.Shaped() && i < 4
  {
    if Ends(w, op, i) then SavedTask(w.Before(op), i, k) + Stretch(w, op, Running(w.history, k)) else 0
  }

  /** The account and the history after a step. */
  lemma StepAccount(w: World, op: Op, i: nat)
    requires w.Shaped() && i < 4
    ensures var w' := w.Step(op);
            && (w'.history == w.history || ((op.Report? || op.ShutDown?) && w'.history == w.history + [op.event]))
            && w'.accounts[i] == if Ends(w, op, i)
                                 then Account(Truncate(op.event.timeStamp, w.s.lengths[DAILY]), map[], map[])
                                 else w.accounts[i]
  {
    if op.ShutDown? && w.IsMidnight(op) {
      NotedAccounts(w.s, op.event, w.accounts, op.event.timeStamp);
    }
  }

  lemma EventIsLater(w: World, op: Op)
    requires w.Shaped() && w.Forward(op) && w.Step(op).history != w.history
    ensures (op.Report? || op.ShutDown?) && w.now <= op.event.timeStamp
  {
  }

  lemma QuietStep(w: World, op: Op, i: nat, k: Key, front: int, task: int, first: int, frontBase: int, taskBase: int)
    requires w.Shaped() && i < 4 && w.Forward(op) && !Ends(w, op, i) && w.accounts[i].origin <= w.now
    requires FrontBalanced(w, front, i, k, first, frontBase) && TaskBalanced(w, task, i, k, first, taskBase)
    ensures FrontBalanced(w.Step(op), front, i, k, first, frontBase)
    ensures TaskBalanced(w.Step(op), task, i, k, first, taskBase)
  {
    StepAccount(w, op, i);
    if w.Step(op).history != w.history {
      var e := op.event;
      EventIsLater(w, op);
      LogSnoc(w.history, e, k);
      LaterChange(front, BaseOf(w.accounts[i].fronts, k), FrontLog(w.history, k), first, frontBase, w.accounts[i].origin,
                  At(e.timeStamp, KeyFrontChange(e, k)));
      LaterChange(task, BaseOf(w.accounts[i].tasks, k), TaskLog(w.history, k), first, taskBase, w.accounts[i].origin,
                  At(e.timeStamp, KeyTaskChange(e, k)));
    }
  }

  /** What the midnight saves of an ended period is the account up to the last millisecond of the day. */
  lemma SavedIsAccounted(s: Service, history: seq<Event>, accounts: seq<Account>, now: int, i: nat, k: Key, last: int)
    requires BundleInSync(s, history, accounts, now, k) && Tidy(s, now) && i < 4 && last == s.expiry - 1
    ensures SavedFront(s, i, k)
         == BaseOf(accounts[i].fronts, k) + Millis({}, FrontLog(history, k), accounts[i].origin, last)
    ensures SavedTask(s, i, k)
         == BaseOf(accounts[i].tasks, k) + Millis({}, TaskLog(history, k), accounts[i].origin, last)
    ensures accounts[i].origin <= now
  {
    TidyTableInOrder(s, now, i);
    SavedIsShown(s, history, accounts, now, i, k, last);
    EntryAt(s.periods, history, accounts, now, i, k);
    InSyncMeans(s, history, accounts, now, i, k, last);
  }

  lemma BeforeIsGood(w: World, op: Op, k: Key)
    requires w.Shaped() && w.IsMidnight(op) && w.GoodFor(k) && Tidy(w.s, w.now)
    ensures BundleInSync(w.Before(op), w.history, w.accounts, w.now, k) && Tidy(w.Before(op), w.now)
    ensures w.Before(op).lengths == w.s.lengths
  {
    if op.ShutDown? {
      NotedKeepsSync(w.s, op.event, w.history, w.accounts, w.now, k);
      NotedStaysTidy(w.s, op.event, w.now);
    }
  }

  /** The times of a step that ends a period, and what its midnight saves. */
  lemma EndingTimes(w: World, op: Op, i: nat, k: Key) returns (last: int, begin: int)
    requires w.Shaped() && i < 4 && w.Forward(op) && Ends(w, op, i) && w.GoodFor(k) && Tidy(w.s, w.now)
    ensures last == w.s.expiry - 1 && begin == Truncate(op.event.timeStamp, w.s.lengths[DAILY])
    ensures w.accounts[i].origin <= w.now <= last <= begin <= op.event.timeStamp && 0 <= w.now
    ensures SavedFront(w.Before(op), i, k)
         == BaseOf(w.accounts[i].fronts, k) + Millis({}, FrontLog(w.history, k), w.accounts[i].origin, last)
    ensures SavedTask(w.Before(op), i, k)
         == BaseOf(w.accounts[i].tasks, k) + Millis({}, TaskLog(w.history, k), w.accounts[i].origin, last)
    ensures HistoryOk(w.history, w.now)
  {
    last, begin := w.s.expiry - 1, Truncate(op.event.timeStamp, w.s.lengths[DAILY]);
    BeforeIsGood(w, op, k);
    SavedIsAccounted(w.Before(op), w.history, w.accounts, w.now, i, k, last);
    DayRolls(w.Before(op), w.now, op.event.timeStamp);
  }

  /** The history and the account of the interval after a step that ends its period. */
  predicate Ended(w: World, w': World, e: Event, i: nat, begin: int) {
    && w.Shaped() && w'.Shaped() && i < 4
    && w'.history == w.history + [e] && w'.accounts[i] == Account(begin, map[], map[]) && begin <= e.timeStamp
  }

  lemma EndingIsEnded(w: World, op: Op, i: nat, begin: int)
    requires w.Shaped() && i < 4 && Ends(w, op, i) && begin == Truncate(op.event.timeStamp, w.s.lengths[DAILY])
    requires begin <= op.event.timeStamp
    ensures Ended(w, w.Step(op), op.event, i, begin)
  {
    StepAccount(w, op, i);
  }

  /** What such a step puts aside: the saved total and the stretch from the last counted millisecond. */
  lemma EndingPut(w: World, op: Op, i: nat, k: Key)
    returns (last: int, begin: int, front: int, frontLost: int, task: int, taskLost: int)
    requires w.Shaped() && i < 4 && w.Forward(op) && Ends(w, op, i) && w.GoodFor(k) && Tidy(w.s, w.now)
    ensures begin == Truncate(op.event.timeStamp, w.s.lengths[DAILY]) && begin <= op.event.timeStamp
    ensures w.accounts[i].origin <= w.now <= last <= begin && 0 <= w.now && HistoryOk(w.history, w.now)
    ensures front == BaseOf(w.accounts[i].fronts, k) + Millis({}, FrontLog(w.history, k), w.accounts[i].origin, last)
    ensures task == BaseOf(w.accounts[i].tasks, k) + Millis({}, TaskLog(w.history, k), w.accounts[i].origin, last)
    ensures frontLost == if InFront(w.history, k) != {} then begin - last else 0
    ensures taskLost == if Running(w.history, k) != {} then begin - last else 0
    ensures FrontPut(w, op, i, k) == front + frontLost && TaskPut(w, op, i, k) == task + taskLost
  {
    last, begin := EndingTimes(w, op, i, k);
    front, task := SavedFront(w.Before(op), i, k), SavedTask(w.Before(op), i, k);
    frontLost, taskLost := Stretch(w, op, InFront(w.history, k)), Stretch(w, op, Running(w.history, k));
  }

  lemma FrontRolls(w: World, w': World, e: Event, i: nat, k: Key, put: int, first: int, base: int, last: int, begin: int,
                   saved: int, lost: int)
    requires Ended(w, w', e, i, begin) && FrontBalanced(w, put, i, k, first, base) && HistoryOk(w.history, w.now)
    requires w.accounts[i].origin <= w.now <= last <= begin && 0 <= w.now
    requires saved == BaseOf(w.accounts[i].fronts, k) + Millis({}, FrontLog(w.history, k), w.accounts[i].origin, last)
    requires lost == if InFront(w.history, k) != {} then begin - last else 0
    ensures FrontBalanced(w', put + saved + lost, i, k, first, base)
  {
    LogIsOrdered(w.history, k, w.now);
    LogSnoc(w.history, e, k);
    AccountRolls(put, BaseOf(w.accounts[i].fronts, k), FrontLog(w.history, k), first, base, w.accounts[i].origin, last,
                 begin, w.now, At(e.timeStamp, KeyFrontChange(e, k)), saved, lost);
  }

  lemma TasksRoll(w: World, w': World, e: Event, i: nat, k: Key, put: int, first: int, base: int, last: int, begin: int,
                  saved: int, lost: int)
    requires Ended(w, w', e, i, begin) && TaskBalanced(w, put, i, k, first, base) && HistoryOk(w.history, w.now)
    requires w.accounts[i].origin <= w.now <= last <= begin && 0 <= w.now
    requires saved == BaseOf(w.accounts[i].tasks, k) + Millis({}, TaskLog(w.history, k), w.accounts[i].origin, last)
    requires lost == if Running(w.history, k) != {} then begin - last else 0
    ensures TaskBalanced(w', put + saved + lost, i, k, first, base)
  {
    LogIsOrdered(w.history, k, w.now);
    LogSnoc(w.history, e, k);
    AccountRolls(put, BaseOf(w.accounts[i].tasks, k), TaskLog(w.history, k), first, base, w.accounts[i].origin, last,
                 begin, w.now, At(e.timeStamp, KeyTaskChange(e, k)), saved, lost);
  }

  lemma EndingStep(w: World, op: Op, i: nat, k: Key, front: int, task: int, first: int, frontBase: int, taskBase: int)
    requires w.Shaped() && i < 4 && w.Forward(op) && Ends(w, op, i) && w.GoodFor(k) && Tidy(w.s, w.now)
    requires FrontBalanced(w, front, i, k, first, frontBase) && TaskBalanced(w, task, i, k, first, taskBase)
    ensures FrontBalanced(w.Step(op), front + FrontPut(w, op, i, k), i, k, first, frontBase)
    ensures TaskBalanced(w.Step(op), task + TaskPut(w, op, i, k), i, k, first, taskBase)
  {
    var last, begin, frontSaved, frontLost, taskSaved, taskLost := EndingPut(w, op, i, k);
    EndingIsEnded(w, op, i, begin);
    FrontRolls(w, w.Step(op), op.event, i, k, front, first, frontBase, last, begin, frontSaved, frontLost);
    TasksRoll(w, w.Step(op), op.event, i, k, task, first, taskBase, last, begin, taskSaved, taskLost);
  }

  // ----- whole runs -----

  lemma BalancedStep(w: World, op: Op, i: nat, k: Key, front: int, task: int, first: int, frontBase: int, taskBase: int)
    requires w.Shaped() && i < 4 && w.Forward(op) && w.GoodFor(k) && Tidy(w.s, w.now)
    requires FrontBalanced(w, front, i, k, first, frontBase) && TaskBalanced(w, task, i, k, first, taskBase)
    ensures FrontBalanced(w.Step(op), front + FrontPut(w, op, i, k), i, k, first, frontBase)
    ensures TaskBalanced(w.Step(op), task + TaskPut(w, op, i, k), i, k, first, taskBase)
  {
    if Ends(w, op, i) {
      EndingStep(w, op, i, k, front, task, first, frontBase, taskBase);
    } else {
      EntryAt(w.s.periods, w.history, w.accounts, w.now, i, k);
      QuietStep(w, op, i, k, front, task, first, frontBase, taskBase);
    }
  }

  function FrontAside(states: seq<World>, ops: seq<Op>, n: nat, i: nat, k: Key): int
    requires IsRun(states, ops) && n <= |ops| && i < 4
  {
    FrontSaved(states, ops, n, i, k) + FrontLost(states, ops, n, i, k)
  }

  function TaskAside(states: seq<World>, ops: seq<Op>, n: nat, i: nat, k: Key): int
    requires IsRun(states, ops) && n <= |ops| && i < 4
  {
    TaskSaved(states, ops, n, i, k) + TaskLost(states, ops, n, i, k)
  }

  lemma AsideStep(states: seq<World>, ops: seq<Op>, n: nat, i: nat, k: Key)
    requires IsRun(states, ops) && 0 < n <= |ops| && i < 4
    ensures FrontAside(states, ops, n, i, k) == FrontAside(states, ops, n - 1, i, k) + FrontPut(states[n - 1], ops[n - 1], i, k)
    ensures TaskAside(states, ops, n, i, k) == TaskAside(states, ops, n - 1, i, k) + TaskPut(states[n - 1], ops[n - 1], i, k)
  {
  }

  lemma {:induction false} RunIsBalanced(states: seq<World>, ops: seq<Op>, n: nat, i: nat, k: Key, a: Account)
    requires IsRun(states, ops) && Tidy(states[0].s, states[0].now) && states[0].GoodFor(k) && i < 4
    requires n <= |ops| && CarriedThrough(states, ops, n, k) && a == states[0].accounts[i]
    ensures FrontBalanced(states[n], FrontAside(states, ops, n, i, k), i, k, a.origin, BaseOf(a.fronts, k))
    ensures TaskBalanced(states[n], TaskAside(states, ops, n, i, k), i, k, a.origin, BaseOf(a.tasks, k))
  {
    if n == 0 {
    } else {
      RunIsBalanced(states, ops, n - 1, i, k, a);
      BundleStaysInSync(states, ops, n - 1, k);
      RunStaysTidy(states, ops, n - 1);
      BalancedStep(states[n - 1], ops[n - 1], i, k, FrontAside(states, ops, n - 1, i, k), TaskAside(states, ops, n - 1, i, k),
                   a.origin, BaseOf(a.fronts, k), BaseOf(a.tasks, k));
      AsideStep(states, ops, n, i, k);
    }
  }

  /**
   For both counters of a bundle: the totals saved in the tables of ended periods, what the current period shows, and
   the lost stretches add up to what the first period had and the occupied time since.
   */
  ghost predicate Conserved(states: seq<World>, ops: seq<Op>, n: nat, i: nat, k: Key, t: int)
    requires IsRun(states, ops) && n <= |ops| && i < 4
  {
    var w, a := states[n], states[0].accounts[i];
    && FrontSaved(states, ops, n, i, k) + FrontLost(states, ops, n, i, k) + Accounted(FrontMeterOf(w.s.periods[i], k), t)
       == BaseOf(a.fronts, k) + Millis({}, FrontLog(w.history, k), a.origin, t)
    && TaskSaved(states, ops, n, i, k) + TaskLost(states, ops, n, i, k) + Accounted(TaskMeterOf(w.s.periods[i], k), t)
       == BaseOf(a.tasks, k) + Millis({}, TaskLog(w.history, k), a.origin, t)
  }

  /** Conservation over a whole run, for every interval and every bundle that the midnights carry over. */
  lemma RunConserves(states: seq<World>, ops: seq<Op>, n: nat, i: nat, k: Key, t: int)
    requires IsRun(states, ops) && Tidy(states[0].s, states[0].now) && states[0].GoodFor(k) && i < 4
    requires n <= |ops| && CarriedThrough(states, ops, n, k) && states[n].now <= t
    ensures Conserved(states, ops, n, i, k, t)
  {
    var w, a := states[n], states[0].accounts[i];
    RunIsBalanced(states, ops, n, i, k, a);
    BundleStaysInSync(states, ops, n, k);
    EntryAt(w.s.periods, w.history, w.accounts, w.now, i, k);
    PeriodsAgree(w, i, i, k, t);
    Shown(Accounted(FrontMeterOf(w.s.periods[i], k), t), FrontAside(states, ops, n, i, k),
          BaseOf(w.accounts[i].fronts, k), FrontLog(w.history, k), a.origin, BaseOf(a.fronts, k), w.accounts[i].origin, t);
    Shown(Accounted(TaskMeterOf(w.s.periods[i], k), t), TaskAside(states, ops, n, i, k),
          BaseOf(w.accounts[i].tasks, k), TaskLog(w.history, k), a.origin, BaseOf(a.tasks, k), w.accounts[i].origin, t);
  }

  // ----- the tables of ended periods -----

  /** Of a table that is still there, the content is the earlier one. */
  predicate KeptFrom(before: S.Store, after: S.Store, n: TableName) {
    n in after.tables ==> n in before.tables && after.tables[n] == before.tables[n]
  }

  lemma UpdateKeepsOthers(s: S.Store, t: int, userId: int, stats: map<Key, PackageStats.Usage>, max: nat, n: TableName)
    requires n.startTime != t
    ensures KeptFrom(s, s.Updated(t, userId, stats, max), n)
  {
  }

  lemma RemovalKeepsContent(s: S.Store, cutoff: int, max: nat, n: TableName)
    ensures KeptFrom(s, s.RemovedOld(cutoff, max), n)
  {
    assert KeptFrom(s, s.DropBefore(cutoff).HandleTableInfo(), n);
  }

  lemma SaveKeepsPast(s: Service, forced: bool, i: nat, n: TableName)
    requires s.Shaped() && i < 4 && n.startTime < s.periods[i].beginTime
    ensures KeptFrom(s.db.stores[i], s.RestoreStats(forced).db.stores[i], n)
  {
    if s.periods[i].bundleStats == map[] {
      EmptyPeriodSavesNothing(s, 4, i);
    } else {
      SavedStore(s, 4, i);
      UpdateKeepsOthers(s.db.stores[i], s.periods[i].beginTime, s.userId, s.periods[i].bundleStats,
                        MAX_FILES_EVERY_INTERVAL_TYPE[i], n);
    }
  }

  /** From the first save of a midnight to its end, a table of an earlier period keeps its content. */
  lemma MidnightKeepsSaved(s: Service, now: int, timeStamp: int, i: nat, n: TableName)
    requires TimesOk(s, now) && s.expiry <= timeStamp && i < 4 && n.startTime < Truncate(timeStamp, s.lengths[i])
    ensures KeptFrom(Saved(s).db.stores[i], s.RenewStatsInMemory(timeStamp).db.stores[i], n)
  {
    var later, userId, stats := RenewedStore(s, now, timeStamp, i);
    var cutoff, max := Cutoff(i, timeStamp, s.lengths[i]), MAX_FILES_EVERY_INTERVAL_TYPE[i];
    RemovalKeepsContent(Saved(s).db.stores[i], cutoff, max, n);
    UpdateKeepsOthers(Saved(s).db.stores[i].RemovedOld(cutoff, max), later, userId, stats, max, n);
  }

  lemma MidnightKeepsPast(s: Service, now: int, timeStamp: int, i: nat, n: TableName)
    requires TimesOk(s, now) && s.expiry <= timeStamp && i < 4 && n.startTime < s.periods[i].beginTime
    ensures KeptFrom(s.db.stores[i], s.RenewStatsInMemory(timeStamp).db.stores[i], n)
    ensures s.periods[i].beginTime <= s.RenewStatsInMemory(timeStamp).periods[i].beginTime
  {
    var flushed := s.FlushDataInMem();
    SaveKeepsPast(flushed, true, i, n);
    RenewedBegin(s, now, timeStamp, i);
    RenewedPeriods(s, timeStamp, i);
    MidnightKeepsSaved(s, now, timeStamp, i, n);
  }

  lemma TodayKeepsTables(s: Service, e: Event, i: nat)
    requires s.Shaped() && i < 4
    ensures s.ReportToday(e).db.stores == s.db.stores
    ensures s.ReportToday(e).periods[i].beginTime == s.periods[i].beginTime
  {
    TodayPeriods(s, e, i);
  }

  lemma ShutDownKeepsTables(s: Service, e: Event, i: nat)
    requires s.Shaped() && i < 4 && e.eventId == SHUTDOWN
    ensures s.ShutDownToday(e).db.stores == s.db.stores
    ensures s.ShutDownToday(e).periods[i].beginTime == s.periods[i].beginTime
  {
  }

  /** The service of a step after its midnight, or after its save. */
  function Base(w: World, op: Op): (s: Service)
    requires w.Shaped()
    ensures s.Shaped()
  {
    if w.IsMidnight(op) then w.Before(op).RenewStatsInMemory(op.event.timeStamp)
    else if op.Restore? then w.s.RestoreStats(op.forced)
    else w.s
  }

  lemma NotedKeepsTables(s: Service, e: Event, i: nat)
    requires s.Shaped() && i < 4
    ensures s.Noted(e).db.stores == s.db.stores && s.Noted(e).periods[i].beginTime == s.periods[i].beginTime
  {
  }

  /** The rest of the step leaves tables and begins alone. */
  lemma StepTables(w: World, op: Op, i: nat)
    requires w.Shaped() && i < 4
    ensures w.Step(op).s.db.stores == Base(w, op).db.stores
    ensures w.Step(op).s.periods[i].beginTime == Base(w, op).periods[i].beginTime
  {
    match op
    case Report(e) => TodayKeepsTables(Base(w, op), e, i);
    case ShutDown(e) =>
      if e.eventId == SHUTDOWN {
        NotedKeepsTables(w.s, e, i);
        ShutDownKeepsTables(if w.IsMidnight(op) then Base(w, op) else w.s.Noted(e), e, i);
      }
    case _ =>
  }

  lemma BeforeTimes(w: World, op: Op)
    requires w.Shaped() && w.IsMidnight(op) && TimesOk(w.s, w.now)
    ensures TimesOk(w.Before(op), w.now)
    ensures forall i :: 0 <= i < 4 ==> w.Before(op).db.stores[i] == w.s.db.stores[i]
                                       && w.Before(op).periods[i].beginTime == w.s.periods[i].beginTime
  {
  }

  lemma StepKeepsPast(w: World, op: Op, i: nat, n: TableName)
    requires w.Shaped() && TimesOk(w.s, w.now) && i < 4 && n.startTime < w.s.periods[i].beginTime
    ensures KeptFrom(w.s.db.stores[i], w.Step(op).s.db.stores[i], n)
    ensures w.s.periods[i].beginTime <= w.Step(op).s.periods[i].beginTime
  {
    StepTables(w, op, i);
    if w.IsMidnight(op) {
      BeforeTimes(w, op);
      MidnightKeepsPast(w.Before(op), w.now, op.event.timeStamp, i, n);
    } else if op.Restore? {
      SaveKeepsPast(w.s, op.forced, i, n);
      RestoreKeepsPeriods(w.s, op.forced, i);
    }
  }

  lemma KeptThrough(before: S.Store, between: S.Store, after: S.Store, n: TableName)
    requires KeptFrom(before, between, n) && KeptFrom(between, after, n)
    ensures KeptFrom(before, after, n)
  {
  }

  lemma NextKeepsPast(states: seq<World>, ops: seq<Op>, m: nat, i: nat, name: TableName)
    requires IsRun(states, ops) && Tidy(states[0].s, states[0].now) && m < |ops| && i < 4
    requires name.startTime < states[m].s.periods[i].beginTime
    ensures KeptFrom(states[m].s.db.stores[i], states[m + 1].s.db.stores[i], name)
    ensures name.startTime < states[m + 1].s.periods[i].beginTime
  {
    RunStaysTidy(states, ops, m);
    StepKeepsPast(states[m], ops[m], i, name);
  }

  lemma {:induction false} RunKeepsPast(states: seq<World>, ops: seq<Op>, m: nat, n: nat, i: nat, name: TableName)
    requires IsRun(states, ops) && Tidy(states[0].s, states[0].now) && m <= n <= |ops| && i < 4
    requires name.startTime < states[m].s.periods[i].beginTime
    ensures KeptFrom(states[m].s.db.stores[i], states[n].s.db.stores[i], name)
    ensures name.startTime < states[n].s.periods[i].beginTime
    decreases n
  {
    if n == m {
    } else {
      RunKeepsPast(states, ops, m, n - 1, i, name);
      NextKeepsPast(states, ops, n - 1, i, name);
      KeptThrough(states[m].s.db.stores[i], states[n - 1].s.db.stores[i], states[n].s.db.stores[i], name);
    }
  }

  /** The midnight that ends a period keeps the table that it saved. */
  lemma EndKeepsSaved(s: Service, now: int, timeStamp: int, i: nat, saved: S.Store, name: TableName)
    requires TimesOk(s, now) && s.expiry <= timeStamp && i < 4 && Rolls(s, i, timeStamp)
    requires saved == Saved(s).db.stores[i] && name == PackageLog(s.periods[i].beginTime)
    ensures KeptFrom(saved, s.RenewStatsInMemory(timeStamp).db.stores[i], name)
    ensures name.startTime < s.RenewStatsInMemory(timeStamp).periods[i].beginTime
  {
    TruncateAdvances(timeStamp, s.lengths[i], s.periods[i].beginTime);
    RenewedBegin(s, now, timeStamp, i);
    RenewedPeriods(s, timeStamp, i);
    MidnightKeepsSaved(s, now, timeStamp, i, name);
  }

  lemma SavedTableIs(s: Service, i: nat, saved: S.Store, name: TableName)
    requires s.Shaped() && i < 4
    requires saved == Saved(s).db.stores[i] && name == PackageLog(s.periods[i].beginTime)
    ensures name in saved.tables ==> saved.tables[name] == SavedTable(s, i)
  {
  }

  lemma StepKeepsSaved(w: World, op: Op, i: nat, saved: S.Store, name: TableName)
    requires w.Shaped() && i < 4 && TimesOk(w.s, w.now) && Ends(w, op, i)
    requires saved == Saved(w.Before(op)).db.stores[i] && name == PackageLog(w.s.periods[i].beginTime)
    ensures KeptFrom(saved, w.Step(op).s.db.stores[i], name) && name.startTime < w.Step(op).s.periods[i].beginTime
    ensures name in saved.tables ==> saved.tables[name] == SavedTable(w.Before(op), i)
  {
    BeforeTimes(w, op);
    StepTables(w, op, i);
    EndKeepsSaved(w.Before(op), w.now, op.event.timeStamp, i, saved, name);
    SavedTableIs(w.Before(op), i, saved, name);
  }

  lemma NextKeepsSaved(states: seq<World>, ops: seq<Op>, m: nat, i: nat, saved: S.Store, name: TableName)
    requires IsRun(states, ops) && Tidy(states[0].s, states[0].now) && m < |ops| && i < 4 && Ends(states[m], ops[m], i)
    requires saved == Saved(states[m].Before(ops[m])).db.stores[i] && name == PackageLog(states[m].s.periods[i].beginTime)
    ensures KeptFrom(saved, states[m + 1].s.db.stores[i], name)
    ensures name.startTime < states[m + 1].s.periods[i].beginTime
    ensures name in saved.tables ==> saved.tables[name] == SavedTable(states[m].Before(ops[m]), i)
  {
    RunStaysTidy(states, ops, m);
    StepKeepsSaved(states[m], ops[m], i, saved, name);
  }

  lemma SavedStays(states: seq<World>, ops: seq<Op>, m: nat, n: nat, i: nat, saved: S.Store, name: TableName)
    requires IsRun(states, ops) && Tidy(states[0].s, states[0].now) && m <= n <= |ops| && i < 4
    requires KeptFrom(saved, states[m].s.db.stores[i], name) && name.startTime < states[m].s.periods[i].beginTime
    ensures KeptFrom(saved, states[n].s.db.stores[i], name)
  {
    RunKeepsPast(states, ops, m, n, i, name);
    KeptThrough(saved, states[m].s.db.stores[i], states[n].s.db.stores[i], name);
  }

  /**
   What was saved of an ended period stays: in every later state of the run its table, as long as it is kept, is the
   one that the midnight left.
   */
  lemma SavedTablesStay(states: seq<World>, ops: seq<Op>, m: nat, n: nat, i: nat)
    requires IsRun(states, ops) && Tidy(states[0].s, states[0].now) && m < n <= |ops| && i < 4
    requires Ends(states[m], ops[m], i)
    ensures var name, tables := PackageLog(states[m].s.periods[i].beginTime), states[n].s.db.stores[i].tables;
            name in tables ==> tables[name] == SavedTable(states[m].Before(ops[m]), i)
  {
    var name, saved := PackageLog(states[m].s.periods[i].beginTime), Saved(states[m].Before(ops[m])).db.stores[i];
    NextKeepsSaved(states, ops, m, i, saved, name);
    SavedStays(states, ops, m + 1, n, i, saved, name);
  }
}
