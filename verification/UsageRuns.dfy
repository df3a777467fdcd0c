/**
 Whole runs of the usage service: events, shutdowns, flushes and midnights in any order.
 */
module UsageRuns {
  import opened Events
  import opened Occupancy
  import opened PeriodStats
  import opened Calendar
  import opened UsageDatabase
  import opened UserService
  import opened Intervals
  import opened Rollover

  // ----- the rollover -----

  /** A period that rolls over starts a new account at the begin of the new day. */
  function AccountAfter(s: Service, account: Account, timeStamp: int, i: nat): Account
    requires s.Shaped() && i < 4
  {
    if Rolls(s, i, timeStamp) then Account(Truncate(timeStamp, s.lengths[DAILY]), map[], map[]) else account
  }

  function AccountsAfter(s: Service, accounts: seq<Account>, timeStamp: int): seq<Account>
    requires s.Shaped() && |accounts| == 4
  {
    seq(4, i requires 0 <= i < 4 => AccountAfter(s, accounts[i], timeStamp, i))
  }

  /** A midnight carries a bundle over: the replays reach it if they have anything of it to report. */
  predicate Carries(s: Service, history: seq<Event>, timeStamp: int, k: Key)
    requires s.Shaped()
  {
    && (InFront(history, k) != {} ==> Reached(ContinueAbilities(s.periods), KnownAtReplay(s, timeStamp), k))
    && (Running(history, k) != {} ==> Reached(ContinueServices(s.periods), KnownAtReplay(s, timeStamp), k))
  }

  lemma RenewedEntry(s: Service, history: seq<Event>, accounts: seq<Account>, now: int, timeStamp: int, i: nat, k: Key)
    requires BundleInSync(s, history, accounts, now, k)
    requires s.expiry <= timeStamp && Carries(s, history, timeStamp, k) && i < 4
    ensures EntryOk(s.RenewStatsInMemory(timeStamp).periods[i], k, history, AccountAfter(s, accounts[i], timeStamp, i),
                    timeStamp)
    ensures AccountAfter(s, accounts[i], timeStamp, i).origin <= timeStamp
  {
    EntryAt(s.periods, history, accounts, now, i, k);
    DayRolls(s, now, timeStamp);
    if Rolls(s, i, timeStamp) {
      NewThroughRollover(s, history, accounts, now, timeStamp, i, k);
    } else {
      KeptThroughRollover(s, history, accounts, now, timeStamp, i, k);
    }
  }

  lemma RenewedEntryKnown(s: Service, now: int, timeStamp: int, i: nat, k: Key)
    requires TimesOk(s, now) && s.expiry <= timeStamp && AllKnown(s.periods, s.known) && i < 4
    requires k in s.RenewStatsInMemory(timeStamp).periods[i].bundleStats
    ensures k in KnownAtReplay(s, timeStamp)
  {
    SavedPeriodsAre(s, 0);
    RenewedPeriods(s, timeStamp, i);
    NewPeriodIsFresh(s, now, timeStamp, i);
  }

  lemma RenewedKnowsAtReplay(s: Service, timeStamp: int)
    requires s.Shaped()
    ensures s.RenewStatsInMemory(timeStamp).known == KnownAtReplay(s, timeStamp)
  {
    RestoreKeepsPeriods(Reloaded(s, timeStamp).Replayed(ContinueAbilities(s.periods), ContinueServices(s.periods)), true, 0);
  }

  lemma RenewedKnown(s: Service, now: int, timeStamp: int)
    requires TimesOk(s, now) && s.expiry <= timeStamp && AllKnown(s.periods, s.known)
    ensures AllKnown(s.RenewStatsInMemory(timeStamp).periods, s.RenewStatsInMemory(timeStamp).known)
  {
    var renewed := s.RenewStatsInMemory(timeStamp);
    RenewedKnowsAtReplay(s, timeStamp);
    forall i, k | 0 <= i < 4 && k in renewed.periods[i].bundleStats
      ensures k in renewed.known
    {
      RenewedEntryKnown(s, now, timeStamp, i, k);
    }
  }

  lemma RenewedBegin(s: Service, now: int, timeStamp: int, i: nat)
    requires TimesOk(s, now) && s.expiry <= timeStamp && i < 4
    ensures var begin := Reloaded(s, timeStamp).periods[i].beginTime;
            && begin == Truncate(timeStamp, s.lengths[i]) && IsMultiple(begin, s.lengths[i])
            && s.periods[i].beginTime <= begin <= timeStamp
  {
    NewPeriodIsFresh(s, now, timeStamp, i);
    TruncateAdvances(timeStamp, s.lengths[i], s.periods[i].beginTime);
    TruncateIsPeriodStart(timeStamp, s.lengths[i], Truncate(timeStamp, s.lengths[i]));
  }

  lemma ReloadedBehind(s: Service, now: int, timeStamp: int)
    requires TimesOk(s, now) && s.expiry <= timeStamp
    ensures DbBehind(Reloaded(s, timeStamp).db, Reloaded(s, timeStamp).periods)
  {
    SavedStaysBehind(s, timeStamp);
    var cleaned := Saved(s).RemoveOldData(timeStamp).db;
    LoadKeepsStores(Saved(s).RemoveOldData(timeStamp), timeStamp);
    forall i | 0 <= i < 4
      ensures Behind(cleaned.stores[i], Reloaded(s, timeStamp).periods[i].beginTime)
    {
      RenewedBegin(s, now, timeStamp, i);
      assert Behind(cleaned.stores[i], s.periods[i].beginTime);
    }
  }

  lemma LoadKeepsStores(s: Service, timeStamp: int)
    requires s.Shaped()
    ensures s.LoadActiveStats(timeStamp, false, false).db.stores == s.db.stores
    ensures s.LoadActiveStats(timeStamp, false, false).lengths == s.lengths
    ensures s.LoadActiveStats(timeStamp, false, false).expiry == Tomorrow(timeStamp, s.lengths[DAILY])
  {
  }

  lemma ReloadedExpiry(s: Service, timeStamp: int)
    requires s.Shaped() && 0 <= timeStamp
    ensures Reloaded(s, timeStamp).lengths == s.lengths
    ensures Reloaded(s, timeStamp).expiry == Truncate(timeStamp, s.lengths[DAILY]) + s.lengths[DAILY]
    ensures timeStamp < Reloaded(s, timeStamp).expiry
  {
    SavedPeriodsAre(s, 0);
    LoadKeepsStores(Saved(s).RemoveOldData(timeStamp), timeStamp);
    TomorrowIsNextDay(timeStamp, s.lengths[DAILY]);
  }

  lemma ReloadedTimes(s: Service, now: int, timeStamp: int)
    requires TimesOk(s, now) && s.expiry <= timeStamp
    ensures TimesOk(Reloaded(s, timeStamp), timeStamp)
  {
    ReloadedBehind(s, now, timeStamp);
    ReloadedExpiry(s, timeStamp);
    forall i | 0 <= i < 4
      ensures var begin := Reloaded(s, timeStamp).periods[i].beginTime;
              begin == Truncate(timeStamp, s.lengths[i]) && IsMultiple(begin, s.lengths[i]) && begin <= timeStamp
    {
      RenewedBegin(s, now, timeStamp, i);
    }
  }

  lemma RenewedTimes(s: Service, now: int, timeStamp: int)
    requires TimesOk(s, now) && s.expiry <= timeStamp
    ensures TimesOk(s.RenewStatsInMemory(timeStamp), timeStamp)
  {
    ReloadedTimes(s, now, timeStamp);
    var replayed := Reloaded(s, timeStamp).Replayed(ContinueAbilities(s.periods), ContinueServices(s.periods));
    RestoreTimes(replayed, timeStamp);
  }

  lemma RestoreTimes(s: Service, now: int)
    requires s.Shaped() && Aligned(s.lengths)
    requires 0 <= now < s.expiry && s.expiry == s.periods[DAILY].beginTime + s.lengths[DAILY]
    requires forall i :: 0 <= i < 4 ==> IsMultiple(s.periods[i].beginTime, s.lengths[i]) && s.periods[i].beginTime <= now
    requires DbBehind(s.db, s.periods)
    ensures TimesOk(s.RestoreStats(true), now)
  {
    RestoreStaysBehind(s, true);
    forall i | 0 <= i < 4
      ensures s.RestoreStats(true).periods[i].beginTime == s.periods[i].beginTime
    {
      RestoreKeepsPeriods(s, true, i);
    }
    RestoreKeepsPeriods(s, true, 0);
  }

  lemma EntriesMakeBundle(periods: seq<Period>, s: Service, history: seq<Event>, accounts: seq<Account>, t: int, k: Key)
    requires s.Shaped() && |periods| == |accounts| == 4
    requires forall i :: 0 <= i < 4 ==> EntryOk(periods[i], k, history, AccountAfter(s, accounts[i], t, i), t)
    requires forall i :: 0 <= i < 4 ==> AccountAfter(s, accounts[i], t, i).origin <= t
    ensures BundleOk(periods, history, AccountsAfter(s, accounts, t), t, k)
  {
    var later := AccountsAfter(s, accounts, t);
    assert forall i :: 0 <= i < 4 ==> later[i] == AccountAfter(s, accounts[i], t, i);
  }

  /** A midnight that carries a bundle over keeps it in step, whatever it misses of others. */
  lemma RenewKeepsSync(s: Service, history: seq<Event>, accounts: seq<Account>, now: int, timeStamp: int, k: Key)
    requires BundleInSync(s, history, accounts, now, k) && s.expiry <= timeStamp && Carries(s, history, timeStamp, k)
    ensures BundleInSync(s.RenewStatsInMemory(timeStamp), history, AccountsAfter(s, accounts, timeStamp), timeStamp, k)
  {
    RenewedTimes(s, now, timeStamp);
    forall i | 0 <= i < 4
      ensures EntryOk(s.RenewStatsInMemory(timeStamp).periods[i], k, history, AccountAfter(s, accounts[i], timeStamp, i),
                      timeStamp)
      ensures AccountAfter(s, accounts[i], timeStamp, i).origin <= timeStamp
    {
      RenewedEntry(s, history, accounts, now, timeStamp, i, k);
    }
    EntriesMakeBundle(s.RenewStatsInMemory(timeStamp).periods, s, history, accounts, timeStamp, k);
  }

  // ----- events and flushes within the day -----

  ghost predicate SameBegins(periods: seq<Period>, periods': seq<Period>) {
    |periods| == |periods'| == 4 && forall i :: 0 <= i < 4 ==> periods'[i].beginTime == periods[i].beginTime
  }

  /** A step that only touches entries, pending events and flags. */
  lemma StepKeepsSync(s: Service, s': Service, e: Event, launch: bool, bases: seq<Period>, history: seq<Event>,
                      accounts: seq<Account>, now: int, k: Key)
    requires BundleInSync(s, history, accounts, now, k) && now <= e.timeStamp < s.expiry
    requires s'.Shaped() && s'.lengths == s.lengths && s'.db == s.db && s'.expiry == s.expiry
    requires SameBegins(s.periods, s'.periods) && |bases| == 4
    requires forall i :: 0 <= i < 4 ==>
               bases[i].bundleStats == s.periods[i].bundleStats && s'.periods[i] == PeriodAfter(bases[i], e, launch)
    ensures BundleInSync(s', history + [e], accounts, e.timeStamp, k)
  {
    forall i | 0 <= i < 4
      ensures EntryOk(s'.periods[i], k, history + [e], accounts[i], e.timeStamp) && accounts[i].origin <= e.timeStamp
    {
      EntryAt(s.periods, history, accounts, now, i, k);
      SameStats(s.periods[i], bases[i], k, history, accounts[i], now);
      EventKeepsEntry(bases[i], e, launch, k, history, accounts[i], now);
    }
  }

  lemma PeriodAfterKeys(p: Period, e: Event, launch: bool)
    ensures PeriodAfter(p, e, launch).beginTime == p.beginTime
    ensures forall k :: k in PeriodAfter(p, e, launch).bundleStats ==>
              k in p.bundleStats || (k == e.KeyOf() && !IsTrackerEvent(e.eventId) && IsBundleEvent(e.eventId))
  {
  }

  function Bases(s: Service, e: Event): seq<Period>
    requires s.Shaped()
  {
    if e.eventId != SYSTEM_INTERACTIVE && e.eventId != FLUSH then s.Noted(e).periods else s.periods
  }

  predicate CountsLaunch(s: Service, e: Event) {
    e.eventId == ABILITY_FOREGROUND && e.bundleName != "" && e.bundleName != s.lastForeground
  }

  lemma TodayPeriods(s: Service, e: Event, i: nat)
    requires s.Shaped() && i < 4
    ensures Bases(s, e)[i].bundleStats == s.periods[i].bundleStats
    ensures s.ReportToday(e).periods[i] == PeriodAfter(Bases(s, e)[i], e, CountsLaunch(s, e))
    ensures s.ReportToday(e).periods[i].beginTime == s.periods[i].beginTime
  {
    PeriodAfterKeys(Bases(s, e)[i], e, CountsLaunch(s, e));
  }

  lemma TodayKnown(s: Service, e: Event)
    requires s.Shaped() && AllKnown(s.periods, s.known)
    ensures AllKnown(s.ReportToday(e).periods, s.ReportToday(e).known)
  {
    var bases, s' := Bases(s, e), s.ReportToday(e);
    forall i, k | 0 <= i < 4 && k in s'.periods[i].bundleStats
      ensures k in s'.known
    {
      TodayPeriods(s, e, i);
      PeriodAfterKeys(bases[i], e, CountsLaunch(s, e));
      assert bases[i] in bases;
    }
  }

  lemma TodayKeepsSync(s: Service, e: Event, history: seq<Event>, accounts: seq<Account>, now: int, k: Key)
    requires BundleInSync(s, history, accounts, now, k) && now <= e.timeStamp < s.expiry
    ensures BundleInSync(s.ReportToday(e), history + [e], accounts, e.timeStamp, k)
  {
    forall i | 0 <= i < 4
      ensures Bases(s, e)[i].bundleStats == s.periods[i].bundleStats
      ensures s.ReportToday(e).periods[i] == PeriodAfter(Bases(s, e)[i], e, CountsLaunch(s, e))
      ensures s.ReportToday(e).periods[i].beginTime == s.periods[i].beginTime
    {
      TodayPeriods(s, e, i);
    }
    StepKeepsSync(s, s.ReportToday(e), e, CountsLaunch(s, e), Bases(s, e), history, accounts, now, k);
  }

  lemma NotedKeepsSync(s: Service, e: Event, history: seq<Event>, accounts: seq<Account>, now: int, k: Key)
    requires BundleInSync(s, history, accounts, now, k)
    ensures BundleInSync(s.Noted(e), history, accounts, now, k)
  {
    var noted := s.Noted(e);
    forall i | 0 <= i < 4
      ensures EntryOk(noted.periods[i], k, history, accounts[i], now)
    {
      EntryAt(s.periods, history, accounts, now, i, k);
      SameStats(s.periods[i], noted.periods[i], k, history, accounts[i], now);
    }
  }

  lemma ShutDownTodayKeepsSync(s: Service, e: Event, history: seq<Event>, accounts: seq<Account>, now: int, k: Key)
    requires BundleInSync(s, history, accounts, now, k) && now <= e.timeStamp < s.expiry && e.eventId == SHUTDOWN
    ensures BundleInSync(s.ShutDownToday(e), history + [e], accounts, e.timeStamp, k)
  {
    var s' := s.ShutDownToday(e);
    forall i | 0 <= i < 4
      ensures s'.periods[i] == PeriodAfter(s.periods[i], e, false) && s'.periods[i].beginTime == s.periods[i].beginTime
    {
    }
    StepKeepsSync(s, s', e, false, s.periods, history, accounts, now, k);
  }

  lemma SaveKeepsSync(s: Service, forced: bool, history: seq<Event>, accounts: seq<Account>, now: int, k: Key)
    requires BundleInSync(s, history, accounts, now, k)
    ensures BundleInSync(s.RestoreStats(forced), history, accounts, now, k)
  {
    var saved := s.RestoreStats(forced);
    RestoreStaysBehind(s, forced);
    forall i | 0 <= i < 4
      ensures EntryOk(saved.periods[i], k, history, accounts[i], now)
    {
      EntryAt(s.periods, history, accounts, now, i, k);
      RestoreKeepsPeriods(s, forced, i);
      SameStats(s.periods[i], saved.periods[i], k, history, accounts[i], now);
    }
  }

  // ----- whole runs -----

  datatype Op =
    | Report(event: Event)
    | ShutDown(event: Event)
    | Restore(forced: bool)
    | Learn(key: Key)  // another user's service, or a table it loads, makes a uid known

  /** The service together with what has been reported to it and the accounts of its periods. */
  datatype World = World(s: Service, history: seq<Event>, accounts: seq<Account>, now: int)
  {
    predicate Shaped() {
      s.Shaped() && |accounts| == 4
    }

    function Step(op: Op): (w: World)
      requires Shaped()
      ensures w.Shaped()
    {
      match op
      case Report(e) =>
        World(s.ReportEvent(e), history + [e],
              if e.timeStamp >= s.expiry then AccountsAfter(s, accounts, e.timeStamp) else accounts, e.timeStamp)
      case ShutDown(e) =>
        if e.eventId != SHUTDOWN then this
        else World(s.ReportForShutdown(e), history + [e],
                   if e.timeStamp >= s.expiry then AccountsAfter(s, accounts, e.timeStamp) else accounts, e.timeStamp)
      case Restore(forced) => this.(s := s.RestoreStats(forced))
      case Learn(k) => this.(s := s.(known := s.known + {k}))
    }

    /** Time does not run backwards. */
    predicate Forward(op: Op) {
      match op
      case Report(e) => now <= e.timeStamp
      case ShutDown(e) => e.eventId == SHUTDOWN ==> now <= e.timeStamp
      case _ => true
    }

    /** The step begins with a midnight. */
    predicate IsMidnight(op: Op) {
      match op
      case Report(e) => e.timeStamp >= s.expiry
      case ShutDown(e) => e.eventId == SHUTDOWN && e.timeStamp >= s.expiry
      case _ => false
    }

    /** The service at that midnight: a shutdown event is noted first. */
    function Before(op: Op): (s': Service)
      requires Shaped() && IsMidnight(op)
      ensures s'.Shaped() && s'.expiry == s.expiry
    {
      if op.ShutDown? then s.Noted(op.event) else s
    }

    /** If the step is a midnight, it carries the bundle over. */
    predicate StepCarries(op: Op, k: Key)
      requires Shaped()
    {
      IsMidnight(op) ==> Carries(Before(op), history, op.event.timeStamp, k)
    }

    ghost predicate GoodFor(k: Key) {
      BundleInSync(s, history, accounts, now, k)
    }

    /** The uids of all entries are known. */
    ghost predicate Knows() {
      AllKnown(s.periods, s.known)
    }

    ghost predicate Good() {
      forall k :: GoodFor(k)
    }
  }

  lemma ReportKeepsSync(w: World, e: Event, k: Key)
    requires w.Shaped() && w.GoodFor(k) && w.Forward(Report(e)) && w.StepCarries(Report(e), k)
    ensures w.Step(Report(e)).GoodFor(k)
  {
    if e.timeStamp >= w.s.expiry {
      RenewKeepsSync(w.s, w.history, w.accounts, w.now, e.timeStamp, k);
      TodayKeepsSync(w.s.RenewStatsInMemory(e.timeStamp), e, w.history, AccountsAfter(w.s, w.accounts, e.timeStamp),
                     e.timeStamp, k);
    } else {
      TodayKeepsSync(w.s, e, w.history, w.accounts, w.now, k);
    }
  }

  lemma ShutDownKeepsSync(w: World, e: Event, k: Key)
    requires w.Shaped() && w.GoodFor(k) && w.Forward(ShutDown(e)) && w.StepCarries(ShutDown(e), k) && e.eventId == SHUTDOWN
    ensures w.Step(ShutDown(e)).GoodFor(k)
  {
    var noted := w.s.Noted(e);
    NotedKeepsSync(w.s, e, w.history, w.accounts, w.now, k);
    if e.timeStamp >= w.s.expiry {
      RenewKeepsSync(noted, w.history, w.accounts, w.now, e.timeStamp, k);
      NotedAccounts(w.s, e, w.accounts, e.timeStamp);
      ShutDownTodayKeepsSync(noted.RenewStatsInMemory(e.timeStamp), e, w.history,
                             AccountsAfter(w.s, w.accounts, e.timeStamp), e.timeStamp, k);
    } else {
      ShutDownTodayKeepsSync(noted, e, w.history, w.accounts, w.now, k);
    }
  }

  lemma NotedAccounts(s: Service, e: Event, accounts: seq<Account>, timeStamp: int)
    requires s.Shaped() && |accounts| == 4
    ensures AccountsAfter(s.Noted(e), accounts, timeStamp) == AccountsAfter(s, accounts, timeStamp)
  {
    assert forall i :: 0 <= i < 4 ==> (Rolls(s.Noted(e), i, timeStamp) <==> Rolls(s, i, timeStamp));
  }

  lemma StepStaysInSync(w: World, op: Op, k: Key)
    requires w.Shaped() && w.GoodFor(k) && w.Forward(op) && w.StepCarries(op, k)
    ensures w.Step(op).GoodFor(k)
  {
    match op
    case Report(e) => ReportKeepsSync(w, e, k);
    case ShutDown(e) =>
      if e.eventId == SHUTDOWN {
        ShutDownKeepsSync(w, e, k);
      }
    case Restore(forced) => SaveKeepsSync(w.s, forced, w.history, w.accounts, w.now, k);
    case Learn(_) =>
  }

  lemma ShutDownKnown(s: Service, e: Event)
    requires s.Shaped() && AllKnown(s.periods, s.known) && e.eventId == SHUTDOWN
    ensures AllKnown(s.ShutDownToday(e).periods, s.ShutDownToday(e).known)
  {
    forall i | 0 <= i < 4
      ensures s.ShutDownToday(e).periods[i].bundleStats.Keys == s.periods[i].bundleStats.Keys
    {
    }
  }

  lemma RestoreKnown(s: Service, forced: bool)
    requires s.Shaped() && AllKnown(s.periods, s.known)
    ensures AllKnown(s.RestoreStats(forced).periods, s.RestoreStats(forced).known)
  {
    forall i | 0 <= i < 4
      ensures s.RestoreStats(forced).periods[i].bundleStats == s.periods[i].bundleStats
    {
      RestoreKeepsPeriods(s, forced, i);
    }
  }

  lemma ReportKnown(s: Service, e: Event, now: int)
    requires TimesOk(s, now) && AllKnown(s.periods, s.known)
    ensures AllKnown(s.ReportEvent(e).periods, s.ReportEvent(e).known)
  {
    if e.timeStamp >= s.expiry {
      RenewedKnown(s, now, e.timeStamp);
      TodayKnown(s.RenewStatsInMemory(e.timeStamp), e);
    } else {
      TodayKnown(s, e);
    }
  }

  lemma ReportShutdownKnown(s: Service, e: Event, now: int)
    requires TimesOk(s, now) && AllKnown(s.periods, s.known) && e.eventId == SHUTDOWN
    ensures AllKnown(s.ReportForShutdown(e).periods, s.ReportForShutdown(e).known)
  {
    var noted := s.Noted(e);
    if e.timeStamp >= s.expiry {
      RenewedKnown(noted, now, e.timeStamp);
      ShutDownKnown(noted.RenewStatsInMemory(e.timeStamp), e);
    } else {
      ShutDownKnown(noted, e);
    }
  }

  /** Every step knows the uids of its entries. */
  lemma StepKeepsKnown(w: World, op: Op)
    requires w.Shaped() && TimesOk(w.s, w.now) && w.Knows()
    ensures w.Step(op).Knows()
  {
    match op
    case Report(e) => ReportKnown(w.s, e, w.now);
    case ShutDown(e) =>
      if e.eventId == SHUTDOWN {
        ReportShutdownKnown(w.s, e, w.now);
      }
    case Restore(forced) => RestoreKnown(w.s, forced);
    case Learn(k) =>
  }

  /** A run: time goes forward, and each step leads to the next state. */
  predicate IsRun(states: seq<World>, ops: seq<Op>) {
    && |states| == |ops| + 1
    && (forall i :: 0 <= i < |states| ==> states[i].Shaped())
    && forall i {:trigger ops[i]} ::
         0 <= i < |ops| ==> states[i].Forward(ops[i]) && states[i + 1] == states[i].Step(ops[i])
  }

  /** Every midnight of the first `n` steps carries the bundle over. */
  predicate CarriedThrough(states: seq<World>, ops: seq<Op>, n: nat, k: Key)
    requires IsRun(states, ops) && n <= |ops|
  {
    forall m :: 0 <= m < n ==> states[m].StepCarries(ops[m], k)
  }

  /**
   One bundle through a run of events, shutdowns, flushes and midnights: as long as the midnights carry it over, the
   four periods agree with the reported events on who of it is in front and which of its tasks run, and each period
   accounts exactly for the time since its origin. Nothing is asked of other bundles.
   */
  lemma {:induction false} BundleStaysInSync(states: seq<World>, ops: seq<Op>, n: nat, k: Key)
    requires IsRun(states, ops) && states[0].GoodFor(k) && n <= |ops| && CarriedThrough(states, ops, n, k)
    ensures states[n].GoodFor(k)
  {
    if n == 0 {
    } else {
      BundleStaysInSync(states, ops, n - 1, k);
      assert states[n - 1].StepCarries(ops[n - 1], k);
      StepStaysInSync(states[n - 1], ops[n - 1], k);
    }
  }

  /**
   What this means in every state of a run: any two periods hold the same abilities in front and the same
   tasks running for a bundle, those of the reference, and both counts of each are exact.
   */
  lemma PeriodsAgree(w: World, i: nat, j: nat, k: Key, t: int)
    requires w.GoodFor(k) && i < 4 && j < 4 && w.now <= t
    ensures w.s.periods[i].FrontOf(k) == w.s.periods[j].FrontOf(k) == InFront(w.history, k)
    ensures w.s.periods[i].TasksOf(k) == w.s.periods[j].TasksOf(k) == Running(w.history, k)
    ensures Accounted(FrontMeterOf(w.s.periods[i], k), t)
         == BaseOf(w.accounts[i].fronts, k) + Millis({}, FrontLog(w.history, k), w.accounts[i].origin, t)
    ensures Accounted(TaskMeterOf(w.s.periods[i], k), t)
         == BaseOf(w.accounts[i].tasks, k) + Millis({}, TaskLog(w.history, k), w.accounts[i].origin, t)
  {
    InSyncMeans(w.s, w.history, w.accounts, w.now, i, k, t);
    InSyncMeans(w.s, w.history, w.accounts, w.now, j, k, t);
  }
}
