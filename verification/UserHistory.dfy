/**
 The histories of all bundles of all users, their write-back to the database and their whole-run
 properties (services/packagegroup/src/bundle_active_user_history.cpp, and the bundle history part of
 services/common/src/bundle_active_usage_database.cpp).
 */
module UserHistory {
  import opened Events
  import opened Clocks
  import opened Groups

  datatype Row = Row(lastBoot: int, lastScreen: int, group: int, reason: Reason,
                     aliveTimeout: int, dailyTimeout: int, firstUse: int)

  type RowKey = (int, Key)

  function RowOf(h: History): Row {
    Row(h.lastBoot, h.lastScreen, h.group, h.reason, h.aliveTimeout, h.dailyTimeout, h.firstUse)
  }

  function FromRow(r: Row): History {
    History(r.lastBoot, r.lastScreen, r.group, r.reason, r.aliveTimeout, r.dailyTimeout, r.firstUse, false)
  }

  function LoadRows(rows: map<RowKey, Row>, user: int): map<Key, History> {
    map rk | rk in rows && rk.0 == user :: rk.1 := FromRow(rows[rk])
  }

  function Unmarked(entries: map<Key, History>): map<Key, History> {
    map k | k in entries :: entries[k].(isChanged := false)
  }

  function MarkedRows(user: int, entries: map<Key, History>): map<RowKey, Row> {
    map k | k in entries && entries[k].isChanged :: (user, k) := RowOf(entries[k])
  }

  datatype State = State(clock: Clock, users: map<int, map<Key, History>>, rows: map<RowKey, Row>,
                         durations: (int, int))
  {
    predicate Has(user: int, key: Key) {
      user in users && key in users[user]
    }

    function Entry(user: int, key: Key): History
      requires Has(user, key)
    {
      users[user][key]
    }

    function With(user: int, key: Key, h: History): State
      requires user in users
    {
      this.(users := users[user := users[user][key := h]])
    }

    function Loaded(user: int): State {
      if user in users then this else this.(users := users[user := LoadRows(rows, user)])
    }

    /** The state in which the bundle has an entry, as `GetUsageHistoryForBundle` with `create` leaves it. */
    function Created(user: int, key: Key, timeStamp: int): State {
      var s := Loaded(user);
      if key in s.users[user] then s else s.With(user, key, NewHistory(clock, timeStamp))
    }

    function Written(user: int): State {
      if user !in users then this
      else this.(users := users[user := Unmarked(users[user])], rows := rows + MarkedRows(user, users[user]))
    }

    function ScreenSwitched(on: bool, timeStamp: int, isShutdown: bool): State {
      if clock.screenOn == on && !isShutdown then this
      else
        var c := clock.Switched(on, timeStamp, isShutdown);
        this.(clock := c, durations := (c.bootDuration, c.screenDuration))
    }

    /** The next process: nothing in memory, and clocks that go on from the stored durations. */
    function Restarted(timeStamp: int): State {
      State(Started(timeStamp, durations.0, durations.1), map[], rows, durations)
    }
  }

  datatype Op =
    | Used(user: int, key: Key, eventTime: int, use: Use, time: int)
    | Check(user: int, key: Key, time: int)
    | Screen(on: bool, time: int)
    | Force(user: int, key: Key, group: int, isFlush: bool, time: int)
    | Write(user: int, time: int)
    | Shutdown(time: int)
    | Restart(time: int)

  function Step(s: State, config: Config, op: Op): State
    requires config.Valid()
  {
    match op
    case Used(user, key, eventTime, use, time) =>
      var c := s.Created(user, key, time);
      c.With(user, key, Report(c.Entry(user, key), c.clock, eventTime, use))
    case Check(user, key, time) =>
      var c := s.Created(user, key, time);
      c.With(user, key, c.Entry(user, key).CheckAndUpdate(config, c.clock, time))
    case Screen(on, time) => s.ScreenSwitched(on, time, false)
    case Force(user, key, group, isFlush, _) =>
      if !s.Has(user, key) then s
      else
        var h := s.Entry(user, key);
        var s' := s.With(user, key, h.SetGroup(group, FORCED_REASON));
        if isFlush && h.SetGroup(group, FORCED_REASON) != h then s'.Written(user) else s'
    case Write(user, _) => s.Written(user)
    case Shutdown(time) => s.ScreenSwitched(false, time, true)
    case Restart(time) => s.Restarted(time)
  }

  /** Time goes forward, but a restart may come with a reboot and then counts from anywhere. */
  predicate ValidOp(op: Op, now: int) {
    && (op.Restart? || now <= op.time)
    && (op.Used? ==> op.use.Valid(op.time))
  }

  function Run(s: State, config: Config, ops: seq<Op>): State
    requires config.Valid()
  {
    if ops == [] then s else Step(Run(s, config, ops[..|ops| - 1]), config, ops[|ops| - 1])
  }

  function EndOf(ops: seq<Op>, from: int): int {
    if ops == [] then from else ops[|ops| - 1].time
  }

  /** The device has been shut down, and what came after it came at the same instant. */
  predicate Stopped(ops: seq<Op>, from: int) {
    ops != []
    && (var init, last := ops[..|ops| - 1], ops[|ops| - 1];
        last.Shutdown? || (!last.Screen? && !last.Restart? && last.time == EndOf(init, from) && Stopped(init, from)))
  }

  /** Each restart follows a shutdown. */
  predicate ValidRun(ops: seq<Op>, from: int) {
    ops == []
    || (var init, last := ops[..|ops| - 1], ops[|ops| - 1];
        ValidRun(init, from) && ValidOp(last, EndOf(init, from)) && (last.Restart? ==> Stopped(init, from)))
  }

  // ----- what one step does to one entry -----

  /** The effect of a step on an entry that exists, read off the entry alone. */
  function EntryAfter(h: History, clock: Clock, config: Config, op: Op, user: int, key: Key): History
    requires config.Valid()
  {
    match op
    case Used(u, k, eventTime, use, _) => if u == user && k == key then Report(h, clock, eventTime, use) else h
    case Check(u, k, time) => if u == user && k == key then h.CheckAndUpdate(config, clock, time) else h
    case Screen(_, _) => h
    case Force(u, k, group, _, _) => if u == user && k == key then h.SetGroup(group, FORCED_REASON) else h
    case _ => h
  }

  predicate SameButMark(h: History, h': History) {
    h.(isChanged := h'.isChanged) == h'
  }

  lemma StepOnEntry(s: State, config: Config, op: Op, user: int, key: Key)
    requires config.Valid() && s.Has(user, key) && !op.Restart?
    ensures var s' := Step(s, config, op);
            && s'.Has(user, key)
            && SameButMark(EntryAfter(s.Entry(user, key), s.clock, config, op, user, key), s'.Entry(user, key))
  {
  }

  // ----- the lease invariant over runs -----

  ghost predicate AllGood(s: State, now: int) {
    && s.clock.Valid(now) && s.durations == (s.clock.bootDuration, s.clock.screenDuration)
    && (forall u, k :: s.Has(u, k) ==> s.Entry(u, k).Good(s.clock, now))
    && (forall rk :: rk in s.rows ==> FromRow(s.rows[rk]).Good(s.clock, now))
  }

  lemma WaitKeepsAllGood(s: State, now: int, later: int)
    requires AllGood(s, now) && now <= later
    ensures AllGood(s, later)
  {
    forall u, k | s.Has(u, k)
      ensures s.Entry(u, k).Good(s.clock, later)
    {
      WaitKeepsGood(s.Entry(u, k), s.clock, now, s.clock, later);
    }
    forall rk | rk in s.rows
      ensures FromRow(s.rows[rk]).Good(s.clock, later)
    {
      WaitKeepsGood(FromRow(s.rows[rk]), s.clock, now, s.clock, later);
    }
  }

  lemma CreatedAllGood(s: State, user: int, key: Key, now: int)
    requires AllGood(s, now)
    ensures AllGood(s.Created(user, key, now), now)
  {
    NewIsGood(s.clock, now);
    var s1 := s.Loaded(user);
    forall u, k | s1.Has(u, k)
      ensures s1.Entry(u, k).Good(s.clock, now)
    {
      if u == user && u !in s.users {
        assert (user, k) in s.rows;
      } else {
        assert s.Has(u, k);
      }
    }
    var s2 := s.Created(user, key, now);
    forall u, k | s2.Has(u, k)
      ensures s2.Entry(u, k).Good(s.clock, now)
    {
      assert s1.Has(u, k) || (u == user && k == key);
    }
  }

  lemma WithAllGood(s: State, user: int, key: Key, h: History, now: int)
    requires AllGood(s, now) && user in s.users && h.Good(s.clock, now)
    ensures AllGood(s.With(user, key, h), now)
  {
    var s' := s.With(user, key, h);
    forall u, k | s'.Has(u, k)
      ensures s'.Entry(u, k).Good(s.clock, now)
    {
      assert s.Has(u, k) || (u == user && k == key);
    }
  }

  lemma MarkKeepsGood(h: History, clock: Clock, now: int)
    requires h.Good(clock, now)
    ensures h.(isChanged := false).Good(clock, now)
    ensures FromRow(RowOf(h)) == h.(isChanged := false)
  {
  }

  lemma WrittenAllGood(s: State, user: int, now: int)
    requires AllGood(s, now)
    ensures AllGood(s.Written(user), now)
  {
    var s' := s.Written(user);
    forall u, k | s'.Has(u, k)
      ensures s'.Entry(u, k).Good(s.clock, now)
    {
      assert s.Has(u, k);
      MarkKeepsGood(s.Entry(u, k), s.clock, now);
    }
    forall rk | rk in s'.rows
      ensures FromRow(s'.rows[rk]).Good(s.clock, now)
    {
      if rk !in s.rows || s'.rows[rk] != s.rows[rk] {
        WrittenRow(s, user, rk);
        MarkKeepsGood(s.Entry(user, rk.1), s.clock, now);
      }
    }
  }

  lemma WrittenRow(s: State, user: int, rk: RowKey)
    requires rk in s.Written(user).rows
    requires rk !in s.rows || s.Written(user).rows[rk] != s.rows[rk]
    ensures rk.0 == user && s.Has(user, rk.1) && s.Written(user).rows[rk] == RowOf(s.Entry(user, rk.1))
  {
    assert rk in MarkedRows(user, s.users[user]);
  }

  /** Nothing of the two clocks has run since the durations were stored. */
  predicate AtRest(s: State, now: int) {
    !s.clock.screenOn && s.clock.bootTimeStamp == now
  }

  lemma StepKeepsAllGood(s: State, config: Config, op: Op, now: int)
    requires config.Valid() && AllGood(s, now) && ValidOp(op, now) && !op.Restart?
    ensures AllGood(Step(s, config, op), op.time)
  {
    WaitKeepsAllGood(s, now, op.time);
    match op
    case Used(user, key, eventTime, use, time) =>
      CreatedAllGood(s, user, key, time);
      var c := s.Created(user, key, time);
      ReportKeepsGood(c.Entry(user, key), c.clock, time, eventTime, use);
      WithAllGood(c, user, key, Report(c.Entry(user, key), c.clock, eventTime, use), time);
    case Check(user, key, time) =>
      CreatedAllGood(s, user, key, time);
      var c := s.Created(user, key, time);
      CheckKeepsGood(c.Entry(user, key), config, c.clock, time);
      WithAllGood(c, user, key, c.Entry(user, key).CheckAndUpdate(config, c.clock, time), time);
    case Screen(on, time) =>
      SwitchKeepsAllGood(s, on, time, false);
    case Force(user, key, group, isFlush, time) =>
      if s.Has(user, key) {
        var h := s.Entry(user, key).SetGroup(group, FORCED_REASON);
        WithAllGood(s, user, key, h, time);
        WrittenAllGood(s.With(user, key, h), user, time);
      }
    case Write(user, time) =>
      WrittenAllGood(s, user, time);
    case Shutdown(time) =>
      SwitchKeepsAllGood(s, false, time, true);
  }

  /** A switch, also the one of a shutdown, moves neither clock back. */
  lemma SwitchKeepsAllGood(s: State, on: bool, now: int, isShutdown: bool)
    requires AllGood(s, now) && (isShutdown ==> !on)
    ensures AllGood(s.ScreenSwitched(on, now, isShutdown), now)
  {
    var s' := s.ScreenSwitched(on, now, isShutdown);
    forall u, k | s'.Has(u, k)
      ensures s'.Entry(u, k).Good(s'.clock, now)
    {
      assert s.Has(u, k);
      WaitKeepsGood(s.Entry(u, k), s.clock, now, s'.clock, now);
    }
    forall rk | rk in s'.rows
      ensures FromRow(s'.rows[rk]).Good(s'.clock, now)
    {
      WaitKeepsGood(FromRow(s.rows[rk]), s.clock, now, s'.clock, now);
    }
  }

  /** A restart after a shutdown goes on with the clocks and keeps the leases of all rows. */
  lemma RestartKeepsAllGood(s: State, now: int, start: int)
    requires AllGood(s, now) && AtRest(s, now)
    ensures AllGood(s.Restarted(start), start)
    ensures s.Restarted(start).clock.Boot(start) == s.clock.Boot(now)
    ensures s.Restarted(start).clock.Screen(start) == s.clock.Screen(now)
  {
    var s' := s.Restarted(start);
    forall rk | rk in s'.rows
      ensures FromRow(s'.rows[rk]).Good(s'.clock, start)
    {
      WaitKeepsGood(FromRow(s.rows[rk]), s.clock, now, s'.clock, start);
    }
  }

  lemma {:induction false} StoppedIsAtRest(s: State, config: Config, ops: seq<Op>, from: int)
    requires config.Valid() && Stopped(ops, from)
    ensures AtRest(Run(s, config, ops), EndOf(ops, from))
  {
    var init, last := ops[..|ops| - 1], ops[|ops| - 1];
    if last.Shutdown? {
    } else {
      StoppedIsAtRest(s, config, init, from);
      OnlySwitchesMoveClocks(Run(s, config, init), config, last);
    }
  }

  lemma OnlySwitchesMoveClocks(s: State, config: Config, op: Op)
    requires config.Valid() && !op.Screen? && !op.Shutdown? && !op.Restart?
    ensures Step(s, config, op).clock == s.clock
  {
  }

  lemma {:induction false} RunKeepsAllGood(s: State, config: Config, ops: seq<Op>, from: int)
    requires config.Valid() && AllGood(s, from) && ValidRun(ops, from)
    ensures AllGood(Run(s, config, ops), EndOf(ops, from))
  {
    if ops == [] {
    } else {
      var init, last := ops[..|ops| - 1], ops[|ops| - 1];
      RunKeepsAllGood(s, config, init, from);
      if last.Restart? {
        StoppedIsAtRest(s, config, init, from);
        RestartKeepsAllGood(Run(s, config, init), EndOf(init, from), last.time);
      } else {
        StepKeepsAllGood(Run(s, config, init), config, last, EndOf(init, from));
      }
    }
  }

  /**
   Leases over whole runs, through shutdowns and restarts: at any later instant, a bundle that is not forced is in
   the alive group while its alive lease runs and in the daily group or better while its daily lease runs.
   */
  lemma LeasesHold(s: State, config: Config, ops: seq<Op>, from: int, now: int, user: int, key: Key)
    requires config.Valid() && AllGood(s, from) && ValidRun(ops, from) && EndOf(ops, from) <= now
    ensures var s' := Run(s, config, ops);
            s'.Has(user, key) && !s'.Entry(user, key).Forced() ==>
              var h := s'.Entry(user, key);
              && (h.aliveTimeout > s'.clock.Boot(now) ==> h.group <= GROUP_ALIVE)
              && (h.dailyTimeout > s'.clock.Boot(now) ==> h.group <= GROUP_DAILY)
  {
    RunKeepsAllGood(s, config, ops, from);
    WaitKeepsAllGood(Run(s, config, ops), EndOf(ops, from), now);
  }

  predicate Touches(op: Op, user: int, key: Key) {
    (op.Used? || op.Force?) && op.user == user && op.key == key
  }

  /** While a process lives, only a usage report or a forced setting improves the group of a bundle. */
  lemma {:induction false} RunOnlyDemotes(s: State, config: Config, ops: seq<Op>, from: int, user: int, key: Key)
    requires config.Valid() && AllGood(s, from) && ValidRun(ops, from)
    requires s.Has(user, key)
    requires forall op :: op in ops ==> !Touches(op, user, key) && !op.Restart?
    ensures var s' := Run(s, config, ops);
            && s'.Has(user, key)
            && s'.Entry(user, key).group >= s.Entry(user, key).group
  {
    if ops == [] {
    } else {
      var init, op := ops[..|ops| - 1], ops[|ops| - 1];
      RunOnlyDemotes(s, config, init, from, user, key);
      RunKeepsAllGood(s, config, init, from);
      var mid := Run(s, config, init);
      StepOnEntry(mid, config, op, user, key);
      WaitKeepsAllGood(mid, EndOf(init, from), op.time);
      assert !Touches(op, user, key);
      if op.Check? && op.user == user && op.key == key {
        CheckOnlyDemotes(mid.Entry(user, key), config, mid.clock, op.time);
      }
    }
  }

  /** Once forced, nothing but a forced setting moves the group while the process lives. */
  lemma {:induction false} RunKeepsForced(s: State, config: Config, ops: seq<Op>, user: int, key: Key)
    requires config.Valid() && s.Has(user, key) && s.Entry(user, key).Forced()
    requires forall op :: op in ops ==> !op.Restart? && !(op.Force? && op.user == user && op.key == key)
    ensures var s' := Run(s, config, ops);
            && s'.Has(user, key)
            && s'.Entry(user, key).group == s.Entry(user, key).group
            && s'.Entry(user, key).reason == s.Entry(user, key).reason
  {
    if ops == [] {
    } else {
      var init, op := ops[..|ops| - 1], ops[|ops| - 1];
      RunKeepsForced(s, config, init, user, key);
      var mid := Run(s, config, init);
      StepOnEntry(mid, config, op, user, key);
      assert op in ops;
      if op.Used? || op.Check? {
        var use := if op.Used? then op.use else Use(GROUP_ALIVE, 0, 0, 1);
        var eventTime := if op.Used? then op.eventTime else 0;
        ForcedStays(mid.Entry(user, key), config, mid.clock, op.time, eventTime, use);
      }
    }
  }

  // ----- the write-back cache -----

  /** Equal in everything but the first-use time, which a forced entry moves without a mark. */
  predicate Stored(h: History, r: Row) {
    RowOf(h).(firstUse := r.firstUse) == r
  }

  predicate Fresh(h: History) {
    h.group == GROUP_NEVER && h.reason == DEFAULT_REASON && h.aliveTimeout == 0 && h.dailyTimeout == 0
  }

  ghost predicate CacheOk(s: State, user: int, key: Key) {
    && ((user, key) in s.rows && user in s.users ==> s.Has(user, key))
    && (s.Has(user, key) && !s.Entry(user, key).isChanged ==>
          if (user, key) in s.rows then Stored(s.Entry(user, key), s.rows[(user, key)])
          else Fresh(s.Entry(user, key)))
  }

  lemma WrittenCacheOk(s: State, writer: int, user: int, key: Key)
    requires CacheOk(s, user, key)
    ensures CacheOk(s.Written(writer), user, key)
    ensures writer == user && s.Has(user, key) ==> !s.Written(writer).Entry(user, key).isChanged
  {
    if writer == user && s.Has(user, key) {
      assert ((user, key) in MarkedRows(user, s.users[user])) == s.Entry(user, key).isChanged;
    } else if writer in s.users {
      assert (user, key) !in MarkedRows(writer, s.users[writer]);
    }
  }

  lemma CreatedCacheOk(s: State, creator: int, created: Key, now: int, user: int, key: Key)
    requires CacheOk(s, user, key)
    ensures CacheOk(s.Created(creator, created, now), user, key)
  {
    var s1 := s.Loaded(creator);
    assert CacheOk(s1, user, key) by {
      if user == creator && user !in s.users {
        assert s1.Has(user, key) <==> (user, key) in s.rows;
      }
    }
  }

  lemma WithCacheOk(s: State, u: int, k: Key, h: History, user: int, key: Key)
    requires CacheOk(s, user, key) && s.Has(u, k)
    requires h.isChanged || h == s.Entry(u, k).(firstUse := h.firstUse)
    ensures CacheOk(s.With(u, k, h), user, key)
  {
  }

  lemma UpdateMarks(h: History, clock: Clock, eventTime: int, u: Use, config: Config, now: int)
    requires u.newGroup in {GROUP_ALIVE, GROUP_DAILY} && config.Valid()
    ensures var h' := Report(h, clock, eventTime, u);
            h'.isChanged || h' == h.(firstUse := h'.firstUse)
    ensures var h' := h.CheckAndUpdate(config, clock, now);
            h'.isChanged || h' == h
  {
  }

  lemma StepKeepsCacheOk(s: State, config: Config, op: Op, user: int, key: Key)
    requires config.Valid() && CacheOk(s, user, key)
    requires op.Used? ==> op.use.newGroup in {GROUP_ALIVE, GROUP_DAILY}
    ensures CacheOk(Step(s, config, op), user, key)
  {
    match op
    case Used(u, k, eventTime, use, time) =>
      CreatedCacheOk(s, u, k, time, user, key);
      var c := s.Created(u, k, time);
      UpdateMarks(c.Entry(u, k), c.clock, eventTime, use, config, time);
      WithCacheOk(c, u, k, Report(c.Entry(u, k), c.clock, eventTime, use), user, key);
    case Check(u, k, time) =>
      CreatedCacheOk(s, u, k, time, user, key);
      var c := s.Created(u, k, time);
      UpdateMarks(c.Entry(u, k), c.clock, 0, Use(GROUP_ALIVE, 0, 0, 1), config, time);
      WithCacheOk(c, u, k, c.Entry(u, k).CheckAndUpdate(config, c.clock, time), user, key);
    case Force(u, k, group, _, _) =>
      if s.Has(u, k) {
        var h := s.Entry(u, k).SetGroup(group, FORCED_REASON);
        WithCacheOk(s, u, k, h, user, key);
        WrittenCacheOk(s.With(u, k, h), u, user, key);
      }
    case Write(u, _) =>
      WrittenCacheOk(s, u, user, key);
    case _ =>
  }

  /** In every reachable state an unmarked entry is either new and without a row, or equal to its row. */
  lemma {:induction false} RunKeepsCacheOk(s: State, config: Config, ops: seq<Op>, from: int, user: int, key: Key)
    requires config.Valid() && CacheOk(s, user, key) && ValidRun(ops, from)
    ensures CacheOk(Run(s, config, ops), user, key)
  {
    if ops == [] {
    } else {
      RunKeepsCacheOk(s, config, ops[..|ops| - 1], from, user, key);
      StepKeepsCacheOk(Run(s, config, ops[..|ops| - 1]), config, ops[|ops| - 1], user, key);
    }
  }

  /**
   A write leaves nothing of the user marked, and a process that starts from the written rows gets back
   every entry that was ever changed.
   */
  lemma WriteThenReload(s: State, config: Config, ops: seq<Op>, from: int, user: int, key: Key, clock: Clock)
    requires config.Valid() && CacheOk(s, user, key) && ValidRun(ops, from)
    requires Run(s, config, ops).Has(user, key)
    ensures var old_ := Run(s, config, ops);
            var written := old_.Written(user);
            var h := written.Entry(user, key);
            var reloaded := State(clock, map[], written.rows, written.durations).Loaded(user);
            && !h.isChanged && SameButMark(old_.Entry(user, key), h)
            && (reloaded.Has(user, key) || Fresh(h))
            && (reloaded.Has(user, key) ==> Stored(h, RowOf(reloaded.Entry(user, key))))
            && (old_.Entry(user, key).isChanged ==> reloaded.Has(user, key) && reloaded.Entry(user, key) == h)
  {
    RunKeepsCacheOk(s, config, ops, from, user, key);
    var old_ := Run(s, config, ops);
    WrittenCacheOk(old_, user, user, key);
    var written := old_.Written(user);
    var reloaded := State(clock, map[], written.rows, written.durations).Loaded(user);
    assert reloaded.Has(user, key) <==> (user, key) in written.rows;
    if old_.Entry(user, key).isChanged {
      assert (user, key) in MarkedRows(user, old_.users[user]);
    }
  }

  /**
   The first-use time escapes the mark in exactly one case: an earlier use of a forced bundle. Everywhere
   else an entry that equals its row either still equals it or is marked.
   */
  lemma FirstUseEscapesTheMark(h: History, clock: Clock, eventTime: int, u: Use)
    requires !h.isChanged && u.newGroup in {GROUP_ALIVE, GROUP_DAILY}
    ensures var h' := Report(h, clock, eventTime, u);
            (h'.isChanged || RowOf(h') == RowOf(h)) <==> !(h.Forced() && eventTime < h.firstUse)
  {
  }

  // ----- the object -----

  class UserHistory {
    var bootBasedTimeStamp: int
    var bootBasedDuration: int
    var screenOnTimeStamp: int
    var screenOnDuration: int
    var isScreenOn: bool
    var userHistory: map<int, map<Key, History>>
    /** The bundle history table and the duration table. */
    var historyTable: map<RowKey, Row>
    var durationTable: (int, int)

    function ClockView(): Clock
      reads this
    {
      Clock(bootBasedTimeStamp, bootBasedDuration, screenOnTimeStamp, screenOnDuration, isScreenOn)
    }

    function View(): State
      reads this
    {
      State(ClockView(), userHistory, historyTable, durationTable)
    }

    constructor (timeStamp: int, rows: map<RowKey, Row>, durations: (int, int))
      ensures View() == State(Started(timeStamp, durations.0, durations.1), map[], rows, durations)
    {
      bootBasedTimeStamp, screenOnTimeStamp := timeStamp, timeStamp;
      bootBasedDuration, screenOnDuration := durations.0, durations.1;
      isScreenOn := false;
      userHistory, historyTable, durationTable := map[], rows, durations;
    }

    method GetBootBasedTimeStamp(timeStamp: int) returns (result: int)
      ensures result == ClockView().Boot(timeStamp)
    {
      result := timeStamp - bootBasedTimeStamp + bootBasedDuration;
    }

    method GetScreenOnTimeStamp(timeStamp: int) returns (result: int)
      ensures result == ClockView().Screen(timeStamp)
    {
      result := screenOnDuration;
      if isScreenOn {
        result := result + (timeStamp - screenOnTimeStamp);
      }
    }

    method GetLevelIndex(user: int, key: Key, timeStamp: int, config: Config) returns (index: int)
      requires config.Valid()
      ensures index == if View().Has(user, key) then View().Entry(user, key).Level(config, ClockView(), timeStamp)
                       else -1
    {
      if user !in userHistory || key !in userHistory[user] {
        return -1;
      }
      var h := userHistory[user][key];
      var screenNow := GetScreenOnTimeStamp(timeStamp);
      var bootNow := GetBootBasedTimeStamp(timeStamp);
      var screenDiff, bootDiff := screenNow - h.lastScreen, bootNow - h.lastBoot;
      var i := 3;
      while i >= 0
        invariant -1 <= i <= 3
        invariant h.Level(config, ClockView(), timeStamp) == h.LevelBelow(config, ClockView(), timeStamp, i + 1)
      {
        if screenDiff >= config.screenLevel[i] && bootDiff >= config.bootLevel[i] {
          return i;
        }
        i := i - 1;
      }
      return -1;
    }

    method GetUserHistory(user: int, create: bool) returns (found: bool)
      modifies this`userHistory
      ensures View() == if create then old(View()).Loaded(user) else old(View())
      ensures found <==> user in userHistory
    {
      if user !in userHistory && create {
        userHistory := userHistory[user := LoadRows(historyTable, user)];
      }
      found := user in userHistory;
    }

    method GetUsageHistoryForBundle(user: int, key: Key, timeStamp: int)
      modifies this`userHistory
      ensures View() == old(View()).Created(user, key, timeStamp)
    {
      var found := GetUserHistory(user, true);
      if key !in userHistory[user] {
        var bootNow := GetBootBasedTimeStamp(timeStamp);
        var screenNow := GetScreenOnTimeStamp(timeStamp);
        var inserted := History(bootNow, screenNow, GROUP_NEVER, DEFAULT_REASON, 0, 0, NO_FIRST_USE, false);
        userHistory := userHistory[user := userHistory[user][key := inserted]];
      }
    }

    /** The update of the entry that `ReportUsage` is handed. */
    method Reported(entry: History, eventTime: int, newGroup: int, eventReason: int,
                    timeStamp: int, timeUntilNextCheck: int) returns (h: History)
      ensures h == entry.ReportUsage(ClockView(), eventTime, newGroup, eventReason, timeStamp, timeUntilNextCheck)
    {
      h := entry.(firstUse := if entry.firstUse <= eventTime then entry.firstUse else eventTime);
      if entry.Forced() {
        return;
      }
      var alive, daily := entry.aliveTimeout, entry.dailyTimeout;
      if timeUntilNextCheck > timeStamp {
        var nextCheck := bootBasedDuration + (timeUntilNextCheck - bootBasedTimeStamp);
        if newGroup == GROUP_ALIVE {
          alive := if nextCheck >= alive then nextCheck else alive;
        } else if newGroup == GROUP_DAILY {
          daily := if nextCheck >= daily then nextCheck else daily;
        } else {
          return;
        }
      }
      var lastBoot, lastScreen := entry.lastBoot, entry.lastScreen;
      if timeStamp > 0 {
        lastBoot := bootBasedDuration + (timeStamp - bootBasedTimeStamp);
        lastScreen := GetScreenOnTimeStamp(timeStamp);
      }
      var group := if entry.group > newGroup then newGroup else entry.group;
      h := History(lastBoot, lastScreen, group, Reason(CONTROL_USAGE, eventReason), alive, daily, h.firstUse, true);
    }

    method ReportUsage(user: int, key: Key, eventTime: int, newGroup: int, eventReason: int,
                       timeStamp: int, timeUntilNextCheck: int)
      requires View().Has(user, key)
      modifies this`userHistory
      ensures View() == old(View()).With(user, key,
                old(View()).Entry(user, key).ReportUsage(ClockView(), eventTime, newGroup, eventReason,
                                                         timeStamp, timeUntilNextCheck))
    {
      var h := Reported(userHistory[user][key], eventTime, newGroup, eventReason, timeStamp, timeUntilNextCheck);
      userHistory := userHistory[user := userHistory[user][key := h]];
    }

    /** False when the bundle has no entry or the setting changes nothing. */
    method SetAppGroup(user: int, key: Key, newGroup: int, groupReason: Reason, isFlush: bool) returns (done: bool)
      modifies this`userHistory, this`historyTable
      ensures !old(View()).Has(user, key) ==> View() == old(View()) && !done
      ensures old(View()).Has(user, key) ==>
                var h := old(View()).Entry(user, key);
                var set_ := old(View()).With(user, key, h.SetGroup(newGroup, groupReason));
                && (done <==> h.group != newGroup || h.reason != groupReason)
                && View() == if done && isFlush then set_.Written(user) else set_
    {
      if user !in userHistory || key !in userHistory[user] {
        return false;
      }
      var h := userHistory[user][key];
      if h.group == newGroup && h.reason == groupReason {
        assert userHistory[user][key := h] == userHistory[user];
        return false;
      }
      h := h.(group := newGroup, reason := groupReason, isChanged := true);
      userHistory := userHistory[user := userHistory[user][key := h]];
      if isFlush {
        WriteBundleUsage(user);
      }
      return true;
    }

    method WriteBundleUsage(user: int)
      modifies this`userHistory, this`historyTable
      ensures View() == old(View()).Written(user)
    {
      if user !in userHistory {
        return;
      }
      var written, updated := CollectMarked(user, userHistory[user]);
      userHistory := userHistory[user := updated];
      historyTable := historyTable + written;
    }

    /** The rows of the marked entries, and the entries without their marks. */
    method CollectMarked(user: int, entries: map<Key, History>)
      returns (written: map<RowKey, Row>, updated: map<Key, History>)
      ensures written == MarkedRows(user, entries) && updated == Unmarked(entries)
    {
      var todo := entries.Keys;
      updated, written := entries, map[];
      while todo != {}
        invariant todo <= entries.Keys && updated.Keys == entries.Keys
        invariant forall k :: k in entries ==>
                    updated[k] == if k in todo then entries[k] else entries[k].(isChanged := false)
        invariant forall k :: (user, k) in written <==> k in entries && k !in todo && entries[k].isChanged
        invariant forall rk :: rk in written ==> rk.0 == user && rk.1 in entries && written[rk] == RowOf(entries[rk.1])
        decreases todo
      {
        var k :| k in todo;
        todo := todo - {k};
        if entries[k].isChanged {
          written := written[(user, k) := RowOf(entries[k])];
          updated := updated[k := entries[k].(isChanged := false)];
        } else {
          assert entries[k].(isChanged := false) == entries[k];
        }
      }
      assert updated == Unmarked(entries);
      assert written == MarkedRows(user, entries);
    }

    method UpdateBootBasedAndScreenTime(on: bool, timeStamp: int, isShutdown: bool)
      modifies this
      ensures View() == old(View()).ScreenSwitched(on, timeStamp, isShutdown)
    {
      if isScreenOn == on && !isShutdown {
        return;
      }
      isScreenOn := on;
      if isScreenOn {
        screenOnTimeStamp := timeStamp;
      } else {
        screenOnDuration := screenOnDuration + (timeStamp - screenOnTimeStamp);
        bootBasedDuration := bootBasedDuration + (timeStamp - bootBasedTimeStamp);
        bootBasedTimeStamp := timeStamp;
      }
      durationTable := (bootBasedDuration, screenOnDuration);
    }
  }
}
