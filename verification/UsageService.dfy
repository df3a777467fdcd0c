/**
 The usage service as an object (services/packageusage/src/bundle_active_user_service.cpp). Its methods run
 the source's loops over periods, entries, uids and abilities; each is proved to compute the step of the value
 in UserService.
 */
module UsageService {
  import opened Events
  import opened PackageStats
  import opened PeriodStats
  import opened ReplaySteps
  import opened Calendar
  import opened UsageQuery
  import opened UsageStore
  import opened UsageDatabase
  import opened UserService
  import opened Intervals
  import L = EventList
  import E = EventStore

  /** Abilities are known as in front or in the background, tasks as started. */
  predicate Typed(u: Usage) {
    && (forall a :: a in u.abilities ==> u.abilities[a] in {ABILITY_FOREGROUND, ABILITY_BACKGROUND})
    && (forall t :: t in u.longTimeTasks ==> u.longTimeTasks[t] == LONG_TIME_TASK_STARTED)
  }

  predicate TypedPeriod(p: Period) {
    forall k :: k in p.bundleStats ==> Typed(p.bundleStats[k])
  }

  predicate WellFormed(p: Period) {
    TypedPeriod(p) && OrderedByTime(p.events)
  }

  lemma UsageStaysTyped(u: Usage, taskName: string, timeStamp: int, eventId: int, abilityId: string)
    requires Typed(u)
    ensures Typed(u.Update(taskName, timeStamp, eventId, abilityId))
  {
  }

  lemma UpdateIsTyped(p: Period, k: Key, taskName: string, timeStamp: int, eventId: int, abilityId: string)
    requires TypedPeriod(p)
    ensures TypedPeriod(p.Update(k, taskName, timeStamp, eventId, abilityId))
  {
    var p' := p.Update(k, taskName, timeStamp, eventId, abilityId);
    forall l | l in p'.bundleStats
      ensures Typed(p'.bundleStats[l])
    {
      UsageStaysTyped(p.GetOrCreate(l), "", timeStamp, eventId, abilityId);
      UsageStaysTyped(p.GetOrCreate(l), taskName, timeStamp, eventId, abilityId);
    }
  }

  /** Some of the first `n` periods has no entry for the bundle. */
  predicate MissingIn(periods: seq<Period>, n: nat, k: Key)
    requires n <= |periods|
  {
    exists j :: 0 <= j < n && k !in periods[j].bundleStats
  }

  // ----- what the loops have done so far -----

  datatype ErrCode = ERR_OK | ERR_USAGE_STATS_INTERVAL_NUMBER | ERR_QUERY_TIME_OUT_OF_RANGE

  ghost predicate Answers(code: ErrCode, stats: seq<Report>, answer: UsageAnswer) {
    match answer
    case BadInterval => code == ERR_USAGE_STATS_INTERVAL_NUMBER
    case UsageOutOfRange => code == ERR_QUERY_TIME_OUT_OF_RANGE
    case Usages(reports) => code == ERR_OK && multiset(stats) == reports
  }

  function OfBundles(sets: map<Key, set<string>>, names: set<string>): map<Key, set<string>> {
    map k | k in sets && k.bundleName in names :: sets[k]
  }

  /** In the first `n` periods the bundles of `more` have been replayed, in the others those of `done`. */
  ghost predicate ReplayedFor(periods: seq<Period>, now: seq<Period>, fronts: map<Key, set<string>>,
                              tasks: map<Key, set<string>>, done: set<string>, more: set<string>, n: nat)
  {
    && |periods| == |now| == 4
    && forall i :: 0 <= i < 4 ==>
         && WellFormed(now[i])
         && now[i] == Reported(periods[i], OfBundles(fronts, if i < n then more else done),
                               OfBundles(tasks, if i < n then more else done), periods[DAILY].beginTime)
  }

  function Added(sets: map<Key, set<string>>, k: Key, more: set<string>): map<Key, set<string>> {
    if more == {} then sets else sets[k := more]
  }

  function OfKeys(sets: map<Key, set<string>>, keys: set<Key>): map<Key, set<string>> {
    map k | k in sets && k in keys :: sets[k]
  }

  function OfBundle(sets: map<Key, set<string>>, bundleName: string): map<Key, set<string>> {
    map k | k in sets && k.bundleName == bundleName :: sets[k]
  }

  ghost predicate AbilitiesTyped(continued: map<Key, AbilityMap>) {
    forall k, a :: k in continued && a in continued[k] ==> continued[k][a] in {ABILITY_FOREGROUND, ABILITY_BACKGROUND}
  }

  ghost predicate ServicesTyped(continued: map<Key, AbilityMap>) {
    forall k, t :: k in continued && t in continued[k] ==> continued[k][t] == LONG_TIME_TASK_STARTED
  }

  /** The uids already passed are below those to come, and all of them had something to continue. */
  ghost predicate Ascending(uids: set<Key>, todo: set<Key>, continued: map<Key, AbilityMap>) {
    && todo <= uids
    && (forall k :: k in uids && k !in todo ==> k in continued)
    && forall k, l :: k in uids && k !in todo && l in todo ==> k.uid < l.uid
  }

  ghost predicate AllOf(uids: set<Key>, known: set<Key>, key: Key) {
    forall k :: k in uids <==> k in known && k.bundleName == key.bundleName
  }

  /** The end-of-day event for one entry. */
  function Ended(p: Period, k: Key, expiry: int): Period {
    p.Update(k, "", expiry - 1, END_OF_THE_DAY, "")
  }

  function NotedOne(from: map<Key, AbilityMap>, k: Key, noted: map<Key, AbilityMap>): map<Key, AbilityMap> {
    if k in from then noted[k := from[k]] else noted
  }

  ghost function UpdatedUpTo(periods: seq<Period>, n: nat, e: Event, launch: bool): (updated: seq<Period>)
    requires n <= |periods|
    ensures |updated| == |periods|
  {
    if n == 0 then periods
    else UpdatedUpTo(periods, n - 1, e, launch)[n - 1 := PeriodAfter(periods[n - 1], e, launch)]
  }

  ghost function EndedUpTo(periods: seq<Period>, n: nat, expiry: int): (ended: seq<Period>)
    requires n <= |periods|
    ensures |ended| == |periods|
  {
    if n == 0 then periods else EndedUpTo(periods, n - 1, expiry)[n - 1 := EndOfDay(periods[n - 1], expiry)]
  }

  predicate SomeStats(periods: seq<Period>, n: nat)
    requires n <= |periods|
  {
    exists j :: 0 <= j < n && periods[j].bundleStats != map[]
  }

  ghost predicate Names(bundles: set<string>, continued: map<Key, AbilityMap>) {
    forall k :: k in continued ==> k.bundleName in bundles
  }

  /** A loop over a set has met the keys of `order`, each once, and has `todo` left. */
  ghost predicate Visited(keys: set<Key>, order: seq<Key>, todo: set<Key>) {
    && (forall k :: k in keys <==> k in todo || k in order)
    && (forall k :: k in order ==> k !in todo)
    && forall i, j :: 0 <= i < j < |order| ==> order[i] != order[j]
  }

  ghost function FlushedFor(p: Period, order: seq<Key>, expiry: int): Period {
    if order == [] then p
    else Ended(FlushedFor(p, order[..|order| - 1], expiry), order[|order| - 1], expiry)
  }

  ghost function NotedFor(from: map<Key, AbilityMap>, order: seq<Key>, noted: map<Key, AbilityMap>): map<Key, AbilityMap> {
    if order == [] then noted
    else NotedOne(from, order[|order| - 1], NotedFor(from, order[..|order| - 1], noted))
  }

  ghost predicate Distinct(order: seq<Key>) {
    forall i, j :: 0 <= i < j < |order| ==> order[i] != order[j]
  }

  /** One turn of the loading loop, with the state before the loop at hand. */
  ghost function LoadStep(s: Service, now: Service, timeStamp: int, force: bool, i: nat): (s': Service)
    requires s.Shaped() && i < |now.periods| && i < 4 && i < |now.db.stores|
  {
    now.(periods := now.periods[i := s.LoadedPeriod(i, timeStamp, force)],
         known := now.known + s.LearnedAt(i, timeStamp, force),
         db := if !force && s.periods[i].beginTime == Truncate(timeStamp, s.lengths[i]) then now.db else now.db.AfterCurrent(i))
  }

  ghost function LoadedUpTo(s: Service, timeStamp: int, force: bool, n: nat): (s': Service)
    requires s.Shaped() && n <= 4
    ensures |s'.periods| == 4 && s'.db.stores == s.db.stores
  {
    if n == 0 then s else LoadStep(s, LoadedUpTo(s, timeStamp, force, n - 1), timeStamp, force, n - 1)
  }

  // ----- one more turn of a loop -----

  lemma OneMoreEvent(events: seq<Event>, from: nat, i: nat, beginTime: int, endTime: int, bundleName: string)
    requires OrderedByTime(events) && from <= i < |events| && beginTime <= events[from].timeStamp
    ensures E.Between(events[from..i + 1], beginTime, endTime, bundleName)
         == E.Between(events[from..i], beginTime, endTime, bundleName)
            + (if events[i].timeStamp <= endTime && (bundleName == "" || events[i].bundleName == bundleName)
               then [E.Record(events[i])] else [])
  {
    var scanned := events[from..i + 1];
    assert scanned[..|scanned| - 1] == events[from..i] && scanned[|scanned| - 1] == events[i];
    assert events[from].timeStamp <= events[i].timeStamp;
  }

  lemma OneMoreBundle(sets: map<Key, set<string>>, names: set<string>, bundleName: string)
    requires bundleName !in names
    ensures OfBundles(sets, names) + OfBundle(sets, bundleName) == OfBundles(sets, names + {bundleName})
  {
  }

  lemma AllBundles(sets: map<Key, set<string>>, names: set<string>)
    requires forall k :: k in sets ==> k.bundleName in names
    ensures OfBundles(sets, names) == sets
  {
  }

  lemma NothingReplayed(periods: seq<Period>, fronts: map<Key, set<string>>, tasks: map<Key, set<string>>)
    requires |periods| == 4 && forall i :: 0 <= i < 4 ==> WellFormed(periods[i])
    ensures ReplayedFor(periods, periods, fronts, tasks, {}, {}, 0)
  {
    assert OfBundles(fronts, {}) == map[] && OfBundles(tasks, {}) == map[];
    forall i | 0 <= i < 4
      ensures Reported(periods[i], map[], map[], periods[DAILY].beginTime) == periods[i]
    {
      NothingReported(periods[i], periods[DAILY].beginTime);
    }
  }

  lemma {:induction false} ContinuedAreTyped(periods: seq<Period>)
    requires forall i :: 0 <= i < |periods| ==> WellFormed(periods[i])
    ensures AbilitiesTyped(ContinueAbilities(periods)) && ServicesTyped(ContinueServices(periods))
  {
    if periods == [] {
    } else {
      ContinuedAreTyped(periods[..|periods| - 1]);
      var last := periods[|periods| - 1];
      assert WellFormed(last);
      assert forall k :: k in AbilitiesOf(last) || k in ServicesOf(last) ==> Typed(last.bundleStats[k]);
    }
  }

  lemma AddedAgain(sets: map<Key, set<string>>, key: Key, done: set<string>, a: string)
    requires key !in sets
    ensures SetAt(Added(sets, key, done), key) == done
    ensures Added(sets, key, done)[key := done + {a}] == Added(sets, key, done + {a})
  {
    assert Added(sets, key, done)[key := done + {a}] == sets[key := done + {a}];
  }

  lemma AbilityAdded(p: Period, fronts: map<Key, set<string>>, done: set<string>, tasks: map<Key, set<string>>, time: int,
                     key: Key, a: string)
    requires key !in fronts && key !in tasks && a !in done
    ensures Reported(p, Added(fronts, key, done), tasks, time).Update(key, "", time, ABILITY_FOREGROUND, a)
         == Reported(p, Added(fronts, key, done + {a}), tasks, time)
  {
    AddedAgain(fronts, key, done, a);
    AbilityReported(p, Added(fronts, key, done), tasks, time, key, a);
  }

  lemma TaskAdded(p: Period, fronts: map<Key, set<string>>, tasks: map<Key, set<string>>, done: set<string>, time: int,
                  key: Key, t: string)
    requires key !in tasks && t !in done
    ensures Reported(p, fronts, Added(tasks, key, done), time).Update(key, t, time, LONG_TIME_TASK_STARTED, "")
         == Reported(p, fronts, Added(tasks, key, done + {t}), time)
  {
    AddedAgain(tasks, key, done, t);
    TaskReported(p, fronts, Added(tasks, key, done), time, key, t);
  }

  lemma NoKeys(m: map<Key, set<string>>, uids: set<Key>, sets: map<Key, set<string>>)
    ensures sets + OfKeys(m, uids - uids) == sets
  {
    assert OfKeys(m, uids - uids).Keys == {};
  }

  lemma AllKeys(m: map<Key, set<string>>, known: set<Key>, uids: set<Key>, bundleName: string)
    requires (forall k :: k in m ==> k in known) && forall k :: k in uids <==> k in known && k.bundleName == bundleName
    ensures OfKeys(m, uids - {}) == OfBundle(m, bundleName)
  {
  }

  lemma {:induction false} LeastUidExists(keys: set<Key>)
    requires keys != {}
    ensures exists k :: k in keys && forall l :: l in keys ==> k.uid <= l.uid
  {
    var pick :| pick in keys;
    var others := keys - {pick};
    if others == {} {
      assert keys == {pick};
    } else {
      LeastUidExists(others);
      var rest :| rest in others && forall l :: l in others ==> rest.uid <= l.uid;
      var least := if pick.uid <= rest.uid then pick else rest;
      forall l | l in keys
        ensures least.uid <= l.uid
      {
        assert l == pick || l in others;
      }
    }
  }

  lemma LeastIsReached(continued: map<Key, AbilityMap>, known: set<Key>, uids: set<Key>, todo: set<Key>, key: Key)
    requires Ascending(uids, todo, continued) && key in todo && AllOf(uids, known, key)
    requires forall l :: l in todo ==> key.uid <= l.uid
    ensures key in continued ==> Reached(continued, known, key)
    ensures key in continued ==> Ascending(uids, todo - {key}, continued)
    ensures key !in continued ==> forall l :: l in todo ==> !Reached(continued, known, l)
  {
    forall l | l in todo && l != key
      ensures key.uid < l.uid
    {
      assert l == Key(key.bundleName, l.uid) && key == Key(key.bundleName, key.uid);
    }
  }

  lemma FrontsStep(continued: map<Key, AbilityMap>, known: set<Key>, uids: set<Key>, todo: set<Key>, key: Key,
                   fronts: map<Key, set<string>>)
    requires Ascending(uids, todo, continued) && key in todo && AllOf(uids, known, key)
    requires (forall l :: l in todo ==> key.uid <= l.uid) && key in continued
    ensures Ascending(uids, todo - {key}, continued)
    ensures var m := FrontsToReplay(continued, known);
            && fronts + OfKeys(m, uids - (todo - {key}))
               == Added(fronts + OfKeys(m, uids - todo), key, FrontIn(continued[key]))
  {
    LeastIsReached(continued, known, uids, todo, key);
    var m := FrontsToReplay(continued, known);
    assert OfKeys(m, uids - (todo - {key})) == Added(OfKeys(m, uids - todo), key, FrontIn(continued[key]));
  }

  lemma FrontsStop(continued: map<Key, AbilityMap>, known: set<Key>, uids: set<Key>, todo: set<Key>, key: Key)
    requires Ascending(uids, todo, continued) && key in todo && AllOf(uids, known, key)
    requires (forall l :: l in todo ==> key.uid <= l.uid) && key !in continued
    ensures OfKeys(FrontsToReplay(continued, known), uids - todo)
         == OfBundle(FrontsToReplay(continued, known), key.bundleName)
  {
    LeastIsReached(continued, known, uids, todo, key);
    var m := FrontsToReplay(continued, known);
    assert forall k :: k in m && k.bundleName == key.bundleName ==> k in uids && k !in todo;
  }

  lemma TasksStep(continued: map<Key, AbilityMap>, known: set<Key>, uids: set<Key>, todo: set<Key>, key: Key,
                  tasks: map<Key, set<string>>)
    requires Ascending(uids, todo, continued) && key in todo && AllOf(uids, known, key)
    requires (forall l :: l in todo ==> key.uid <= l.uid) && key in continued
    ensures Ascending(uids, todo - {key}, continued)
    ensures var m := TasksToReplay(continued, known);
            && tasks + OfKeys(m, uids - (todo - {key}))
               == Added(tasks + OfKeys(m, uids - todo), key, continued[key].Keys)
  {
    LeastIsReached(continued, known, uids, todo, key);
    var m := TasksToReplay(continued, known);
    assert continued[key] == map[] <==> continued[key].Keys == {};
    assert OfKeys(m, uids - (todo - {key})) == Added(OfKeys(m, uids - todo), key, continued[key].Keys);
  }

  lemma TasksStop(continued: map<Key, AbilityMap>, known: set<Key>, uids: set<Key>, todo: set<Key>, key: Key)
    requires Ascending(uids, todo, continued) && key in todo && AllOf(uids, known, key)
    requires (forall l :: l in todo ==> key.uid <= l.uid) && key !in continued
    ensures OfKeys(TasksToReplay(continued, known), uids - todo)
         == OfBundle(TasksToReplay(continued, known), key.bundleName)
  {
    LeastIsReached(continued, known, uids, todo, key);
    var m := TasksToReplay(continued, known);
    assert forall k :: k in m && k.bundleName == key.bundleName ==> k in uids && k !in todo;
  }

  lemma {:induction false} UpdatedSoFar(periods: seq<Period>, n: nat, e: Event, launch: bool)
    requires n <= |periods|
    ensures forall j :: 0 <= j < |periods| ==>
              UpdatedUpTo(periods, n, e, launch)[j] == if j < n then PeriodAfter(periods[j], e, launch) else periods[j]
    ensures n < |periods| ==>
              forall k :: MissingIn(periods, n + 1, k) <==> MissingIn(periods, n, k) || k !in periods[n].bundleStats
  {
    if n == 0 {
    } else {
      UpdatedSoFar(periods, n - 1, e, launch);
    }
  }

  lemma UpdatedAll(s: Service, e: Event, launch: bool)
    requires |s.periods| == 4
    ensures var s' := s.UpdatePeriodStats(e, launch);
            && s'.periods == (if IsTrackerEvent(e.eventId) then s.periods else UpdatedUpTo(s.periods, 4, e, launch))
            && s'.known == if !IsTrackerEvent(e.eventId) && IsBundleEvent(e.eventId) && MissingIn(s.periods, 4, e.KeyOf())
                           then s.known + {e.KeyOf()} else s.known
  {
    UpdatedSoFar(s.periods, 4, e, launch);
    assert MissingIn(s.periods, 4, e.KeyOf()) <==> exists p :: p in s.periods && e.KeyOf() !in p.bundleStats;
    if !IsTrackerEvent(e.eventId) {
      assert s.UpdatePeriodStats(e, launch).periods == UpdatedUpTo(s.periods, 4, e, launch);
    }
  }

  lemma {:induction false} EndedSoFar(periods: seq<Period>, n: nat, expiry: int)
    requires n <= |periods|
    ensures forall j :: 0 <= j < |periods| ==>
              EndedUpTo(periods, n, expiry)[j] == if j < n then EndOfDay(periods[j], expiry) else periods[j]
  {
    if n == 0 {
    } else {
      EndedSoFar(periods, n - 1, expiry);
    }
  }

  lemma FlushDataStep(periods: seq<Period>, i: nat, expiry: int)
    requires i < |periods|
    ensures EndedUpTo(periods, i, expiry)[i] == periods[i]
    ensures ContinueAbilities(periods[..i + 1]) == ContinueAbilities(periods[..i]) + AbilitiesOf(periods[i])
    ensures ContinueServices(periods[..i + 1]) == ContinueServices(periods[..i]) + ServicesOf(periods[i])
    ensures SomeStats(periods, i + 1) <==> SomeStats(periods, i) || periods[i].bundleStats != map[]
  {
    EndedSoFar(periods, i, expiry);
    assert periods[..i + 1][..i] == periods[..i];
  }

  lemma SomeStatsIn(periods: seq<Period>)
    ensures SomeStats(periods, |periods|) <==> exists p :: p in periods && p.bundleStats != map[]
  {
  }

  lemma FlushedAll(s: Service)
    requires |s.periods| == 4
    ensures s.FlushDataInMem() == s.(periods := EndedUpTo(s.periods, 4, s.expiry),
                                     statsChanged := s.statsChanged || SomeStats(s.periods, 4))
  {
    EndedSoFar(s.periods, 4, s.expiry);
    assert s.FlushDataInMem().periods == EndedUpTo(s.periods, 4, s.expiry);
    SomeStatsIn(s.periods);
  }

  lemma VisitedStep(keys: set<Key>, order: seq<Key>, todo: set<Key>, key: Key)
    requires Visited(keys, order, todo) && key in todo
    ensures Visited(keys, order + [key], todo - {key})
    ensures (order + [key])[..|order|] == order && Distinct(order) && forall l :: l in order ==> l in keys
  {
  }

  lemma {:induction false} FlushedAt(p: Period, order: seq<Key>, expiry: int, k: Key)
    requires Distinct(order) && forall l :: l in order ==> l in p.bundleStats
    ensures var p' := FlushedFor(p, order, expiry);
            && p' == p.(bundleStats := p'.bundleStats, endTime := p'.endTime)
            && p'.endTime == (if order == [] || expiry - 1 <= p.endTime then p.endTime else expiry - 1)
            && (k in p'.bundleStats <==> k in p.bundleStats)
            && (k in p.bundleStats ==>
                  p'.bundleStats[k] == if k in order then p.bundleStats[k].Update("", expiry - 1, END_OF_THE_DAY, "")
                                       else p.bundleStats[k])
  {
    if order == [] {
    } else {
      var init, last := order[..|order| - 1], order[|order| - 1];
      FlushedAt(p, init, expiry, k);
      FlushedAt(p, init, expiry, last);
      assert last !in init;
      assert k in order <==> k in init || k == last;
    }
  }

  lemma FlushedIsEndOfDay(p: Period, order: seq<Key>, expiry: int)
    requires Distinct(order) && forall l :: l in order <==> l in p.bundleStats
    ensures FlushedFor(p, order, expiry) == EndOfDay(p, expiry)
  {
    var p', q := FlushedFor(p, order, expiry), EndOfDay(p, expiry);
    forall k
      ensures k in p'.bundleStats <==> k in q.bundleStats
      ensures k in p'.bundleStats ==> p'.bundleStats[k] == q.bundleStats[k]
    {
      FlushedAt(p, order, expiry, k);
    }
    FlushedAt(p, order, expiry, Key("", 0));
    assert order == [] <==> p.bundleStats == map[] by {
      if order != [] { assert order[0] in p.bundleStats; }
    }
  }

  lemma {:induction false} NotedAt(from: map<Key, AbilityMap>, order: seq<Key>, noted: map<Key, AbilityMap>, k: Key)
    ensures var after := NotedFor(from, order, noted);
            && (k in after <==> k in noted || (k in from && k in order))
            && (k in after ==> after[k] == if k in from && k in order then from[k] else noted[k])
  {
    if order == [] {
    } else {
      NotedAt(from, order[..|order| - 1], noted, k);
      assert k in order <==> k in order[..|order| - 1] || k == order[|order| - 1];
    }
  }

  lemma NotedIsAll(from: map<Key, AbilityMap>, order: seq<Key>, noted: map<Key, AbilityMap>)
    requires forall k :: k in from ==> k in order
    ensures NotedFor(from, order, noted) == noted + from
  {
    forall k
      ensures k in NotedFor(from, order, noted) <==> k in noted + from
      ensures k in noted + from ==> NotedFor(from, order, noted)[k] == (noted + from)[k]
    {
      NotedAt(from, order, noted, k);
    }
  }

  lemma FlushDone(p: Period, order: seq<Key>, expiry: int, abilities: map<Key, AbilityMap>, services: map<Key, AbilityMap>)
    requires Visited(p.bundleStats.Keys, order, {})
    ensures FlushedFor(p, order, expiry) == EndOfDay(p, expiry)
    ensures NotedFor(AbilitiesOf(p), order, abilities) == abilities + AbilitiesOf(p)
    ensures NotedFor(ServicesOf(p), order, services) == services + ServicesOf(p)
    ensures order == [] <==> p.bundleStats == map[]
  {
    FlushedIsEndOfDay(p, order, expiry);
    NotedIsAll(AbilitiesOf(p), order, abilities);
    NotedIsAll(ServicesOf(p), order, services);
    assert order != [] ==> order[0] in p.bundleStats.Keys;
    assert order == [] ==> p.bundleStats.Keys == {};
  }

  lemma FlushedHas(p: Period, order: seq<Key>, todo: set<Key>, expiry: int, k: Key)
    requires Visited(p.bundleStats.Keys, order, todo) && k in todo
    ensures k in p.bundleStats && k in FlushedFor(p, order, expiry).bundleStats
    ensures FlushedFor(p, order, expiry).bundleStats[k] == p.bundleStats[k]
  {
    FlushedAt(p, order, expiry, k);
  }

  lemma {:induction false} LoadedSoFar(s: Service, timeStamp: int, force: bool, n: nat)
    requires s.Shaped() && n <= 4
    ensures forall i :: 0 <= i < 4 ==>
              LoadedUpTo(s, timeStamp, force, n).periods[i]
              == if i < n then s.LoadedPeriod(i, timeStamp, force) else s.periods[i]
    ensures var s' := LoadedUpTo(s, timeStamp, force, n); s' == s.(periods := s'.periods, known := s'.known, db := s'.db)
  {
    if n == 0 {
    } else {
      LoadedSoFar(s, timeStamp, force, n - 1);
    }
  }

  lemma {:induction false} LoadedDatabase(s: Service, timeStamp: int, force: bool, n: nat)
    requires s.Shaped() && 0 < n <= 4
    ensures LoadedUpTo(s, timeStamp, force, n).db
         == if !force && s.periods[DAILY].beginTime == Truncate(timeStamp, s.lengths[DAILY]) then s.db
            else s.db.AfterCurrent(DAILY)
  {
    if n > 1 {
      LoadedDatabase(s, timeStamp, force, n - 1);
      var before := LoadedUpTo(s, timeStamp, force, n - 1);
      assert before.db.AfterCurrent(n - 1) == before.db;
    } else {
      assert LoadedUpTo(s, timeStamp, force, 0) == s;
    }
  }

  lemma LearnedSoFar(s: Service, timeStamp: int, force: bool)
    requires s.Shaped()
    ensures LoadedUpTo(s, timeStamp, force, 4).known == s.known + s.Learned(timeStamp, force)
  {
    assert LoadedUpTo(s, timeStamp, force, 0) == s;
    var k1 := LoadedUpTo(s, timeStamp, force, 1).known;
    var k2 := LoadedUpTo(s, timeStamp, force, 2).known;
    var k3 := LoadedUpTo(s, timeStamp, force, 3).known;
    assert k1 == s.known + s.LearnedAt(0, timeStamp, force);
    assert k2 == k1 + s.LearnedAt(1, timeStamp, force);
    assert k3 == k2 + s.LearnedAt(2, timeStamp, force);
  }

  lemma LoadedIsTyped(s: Service, timeStamp: int, force: bool, i: nat)
    requires s.Shaped() && i < 4 && WellFormed(s.periods[i])
    ensures WellFormed(s.LoadedPeriod(i, timeStamp, force))
  {
  }

  lemma LoadedIsAll(s: Service, timeStamp: int, force: bool, timeChanged: bool)
    requires s.Shaped() && forall i :: 0 <= i < 4 ==> WellFormed(s.periods[i])
    ensures var loaded, s' := LoadedUpTo(s, timeStamp, force, 4), s.LoadActiveStats(timeStamp, force, timeChanged);
            && s' == loaded.(statsChanged := false, expiry := s'.expiry)
            && forall i :: 0 <= i < 4 ==> WellFormed(s'.periods[i])
  {
    LoadedSoFar(s, timeStamp, force, 4);
    LoadedDatabase(s, timeStamp, force, 4);
    LearnedSoFar(s, timeStamp, force);
    assert LoadedUpTo(s, timeStamp, force, 4).periods == s.LoadedPeriods(timeStamp, force);
    forall i | 0 <= i < 4
      ensures WellFormed(s.LoadedPeriod(i, timeStamp, force))
    {
      LoadedIsTyped(s, timeStamp, force, i);
    }
  }

  // ----- the object -----

  class BundleActiveUserService {
    const userId: int
    const lengths: seq<int>
    const database: UsageDatabase
    var currentStats: seq<Period>
    var dailyExpiryDate: int
    var statsChanged: bool
    var lastForegroundBundle: string
    var packageUids: set<Key>

    function View(): Service
      reads this, database
    {
      Service(currentStats, dailyExpiryDate, statsChanged, lastForegroundBundle, packageUids, database.View(), userId, lengths)
    }

    ghost predicate Valid()
      reads this, database
    {
      View().Valid() && forall i :: 0 <= i < 4 ==> WellFormed(currentStats[i])
    }

    constructor (userId: int, lengths: seq<int>, debug: bool)
      requires |lengths| == 4 && lengths[0] > 0 && lengths[1] > 0 && lengths[2] > 0 && lengths[3] > 0
      ensures Valid() && fresh(database) && dailyExpiryDate == 0 && !statsChanged && packageUids == {}
      ensures currentStats == seq(4, i => Period(0, 0, map[], []))
    {
      this.userId := userId;
      this.lengths := lengths;
      this.database := new UsageDatabase(debug);
      var none := Period(0, 0, map[], []);
      currentStats := [none, none, none, none];
      dailyExpiryDate, statsChanged, lastForegroundBundle, packageUids := 0, false, "", {};
    }

    method NotifyStatsChanged()
      modifies this`statsChanged
      ensures statsChanged
    {
      if !statsChanged {
        statsChanged := true;
      }
    }

    method UpdatePeriodStats(event: Event, incrementBundleLaunch: bool)
      requires Valid()
      modifies this`currentStats, this`packageUids, this`statsChanged
      ensures View() == old(View()).UpdatePeriodStats(event, incrementBundleLaunch) && Valid()
    {
      ghost var periods := currentStats;
      if !IsTrackerEvent(event.eventId) {
        for i := 0 to 4
          invariant currentStats == UpdatedUpTo(periods, i, event, incrementBundleLaunch)
          invariant statsChanged == old(statsChanged)
          invariant forall j :: 0 <= j < 4 ==> WellFormed(currentStats[j])
          invariant packageUids == if IsBundleEvent(event.eventId) && MissingIn(periods, i, event.KeyOf())
                                   then old(packageUids) + {event.KeyOf()} else old(packageUids)
        {
          UpdatedSoFar(periods, i, event, incrementBundleLaunch);
          UpdateOne(i, event, incrementBundleLaunch);
        }
      }
      UpdatedAll(old(View()), event, incrementBundleLaunch);
      if event.eventId != FLUSH {
        NotifyStatsChanged();
      }
    }

    method UpdateOne(i: nat, event: Event, incrementBundleLaunch: bool)
      requires i < |currentStats| && !IsTrackerEvent(event.eventId)
      requires WellFormed(currentStats[i])
      modifies this`currentStats, this`packageUids
      ensures currentStats == old(currentStats)[i := PeriodAfter(old(currentStats)[i], event, incrementBundleLaunch)]
      ensures WellFormed(currentStats[i])
      ensures packageUids == if IsBundleEvent(event.eventId) && event.KeyOf() !in old(currentStats)[i].bundleStats
                             then old(packageUids) + {event.KeyOf()} else old(packageUids)
    {
      var k, p := event.KeyOf(), currentStats[i];
      UpdateIsTyped(p, k, event.taskName, event.timeStamp, event.eventId, event.abilityId);
      if IsBundleEvent(event.eventId) && k !in p.bundleStats {
        packageUids := packageUids + {k};
      }
      p := p.Update(k, event.taskName, event.timeStamp, event.eventId, event.abilityId);
      if incrementBundleLaunch {
        p := p.Launched(k);
      }
      currentStats := currentStats[i := p];
    }

    method RestoreStats(forced: bool)
      requires Valid()
      modifies this`currentStats, this`statsChanged, database
      ensures View() == old(View()).RestoreStats(forced) && Valid()
    {
      if statsChanged || forced {
        ghost var s := View();
        for i := 0 to 4
          invariant View() == s.SavedPeriods(i) && database.View().Valid()
        {
          SavePeriod(i);
        }
        currentStats := currentStats[DAILY := currentStats[DAILY].(events := [])];
        statsChanged := false;
      }
    }

    method SavePeriod(i: nat)
      requires |currentStats| == 4 && database.View().Valid() && i < 4
      modifies database
      ensures View() == old(View()).SavedPeriod(i) && database.View().Valid()
    {
      var p := currentStats[i];
      if p.bundleStats != map[] {
        database.UpdateBundleUsageData(i, p.beginTime, userId, p.bundleStats);
      }
      if p.events != [] && i == DAILY {
        database.UpdateEventData(i, p.beginTime, userId, p.events);
      }
    }

    method ReportToday(event: Event)
      requires Valid()
      modifies this
      ensures View() == old(View()).ReportToday(event) && Valid()
    {
      var incrementBundleLaunch := false;
      if event.eventId != SYSTEM_INTERACTIVE && event.eventId != FLUSH {
        L.InsertedIsOrdered(currentStats[DAILY].events, event);
        currentStats := currentStats[DAILY := currentStats[DAILY].AddEvent(event)];
      }
      if event.eventId == ABILITY_FOREGROUND {
        if event.bundleName != "" && event.bundleName != lastForegroundBundle {
          incrementBundleLaunch := true;
          lastForegroundBundle := event.bundleName;
        }
      }
      assert old(currentStats)[DAILY := old(currentStats)[DAILY]] == old(currentStats);
      UpdatePeriodStats(event, incrementBundleLaunch);
    }

    method LoadActiveStats(timeStamp: int, force: bool, timeChanged: bool)
      requires Valid()
      modifies this, database
      ensures View() == old(View()).LoadActiveStats(timeStamp, force, timeChanged) && Valid()
    {
      LoadEveryPeriod(timeStamp, force);
      LoadedIsAll(old(View()), timeStamp, force, timeChanged);
      statsChanged := false;
      UpdateExpiryDate(timeChanged, timeStamp);
    }

    method LoadEveryPeriod(timeStamp: int, force: bool)
      requires Valid()
      modifies this`currentStats, this`packageUids, database`eventBeginTime
      ensures View() == LoadedUpTo(old(View()), timeStamp, force, 4)
    {
      ghost var s := View();
      var tmpCalendar := new Calendar(0, lengths);
      assert forall i :: 0 <= i < 4 ==> tmpCalendar.lengths[i] > 0;
      for intervalType := 0 to 4
        invariant fresh(tmpCalendar) && View() == LoadedUpTo(s, timeStamp, force, intervalType)
      {
        tmpCalendar.SetMilliseconds(timeStamp);
        tmpCalendar.TruncateTo(intervalType);
        LoadedSoFar(s, timeStamp, force, intervalType);
        LoadPeriod(s, intervalType, timeStamp, tmpCalendar.time, force);
      }
    }

    /** A new service has no periods yet, so the first load takes none of them over from memory. */
    method Init(timeStamp: int)
      requires Valid()
      modifies this, database
      ensures View() == old(View()).Init(timeStamp) && Valid()
    {
      database.InitDatabaseTableInfo(timeStamp);
      LoadActiveStats(timeStamp, true, false);
      L.InsertedIsOrdered(currentStats[DAILY].events, StartupEvent(timeStamp));
      currentStats := currentStats[DAILY := currentStats[DAILY].AddEvent(StartupEvent(timeStamp))];
    }

    method LoadPeriod(ghost s: Service, intervalType: nat, timeStamp: int, begin: int, force: bool)
      requires |currentStats| == 4 && intervalType < 4 && s.Shaped() && begin == Truncate(timeStamp, s.lengths[intervalType])
      requires currentStats[intervalType] == s.periods[intervalType] && s.userId == userId && s.lengths == lengths
      requires database.stores == s.db.stores
      modifies this`currentStats, this`packageUids, database`eventBeginTime
      ensures View() == LoadStep(s, old(View()), timeStamp, force, intervalType)
    {
      if !force && currentStats[intervalType].beginTime == begin {
        assert currentStats[intervalType := currentStats[intervalType]] == currentStats;
        return;
      }
      var loaded := database.GetCurrentUsageData(intervalType, userId);
      var stats := Period(begin, timeStamp, map[], []);
      if loaded.Stats? {
        packageUids := packageUids + loaded.bundleStats.Keys;
        if timeStamp > loaded.beginTime && timeStamp < loaded.beginTime + lengths[intervalType] {
          stats := Period(begin, timeStamp, loaded.bundleStats, []);
        }
      }
      currentStats := currentStats[intervalType := stats];
    }

    method UpdateExpiryDate(timeChanged: bool, timeStamp: int)
      requires |currentStats| == 4 && View().Shaped()
      modifies this`dailyExpiryDate
      ensures dailyExpiryDate == if timeChanged then currentStats[DAILY].beginTime + lengths[DAILY]
                                 else Tomorrow(timeStamp, lengths[DAILY])
    {
      var calendar := new Calendar(if timeChanged then currentStats[DAILY].beginTime else timeStamp, lengths);
      calendar.IncreaseDays(1);
      if !timeChanged {
        calendar.TruncateTo(DAILY);
      }
      dailyExpiryDate := calendar.time;
    }

    /** What continues is noted before the end-of-day event; the event does not change it. */
    method FlushDataInMem()
      returns (continueBundles: set<string>, continueAbilities: map<Key, AbilityMap>, continueServices: map<Key, AbilityMap>)
      requires Valid()
      modifies this`currentStats, this`statsChanged
      ensures View() == old(View()).FlushDataInMem() && Valid()
      ensures continueAbilities == ContinueAbilities(old(currentStats))
      ensures continueServices == ContinueServices(old(currentStats))
      ensures Names(continueBundles, continueAbilities) && Names(continueBundles, continueServices)
    {
      continueBundles, continueAbilities, continueServices := {}, map[], map[];
      ghost var periods := currentStats;
      for i := 0 to 4
        invariant currentStats == EndedUpTo(periods, i, dailyExpiryDate)
        invariant forall j :: 0 <= j < 4 ==> WellFormed(currentStats[j])
        invariant continueAbilities == ContinueAbilities(periods[..i]) && continueServices == ContinueServices(periods[..i])
        invariant Names(continueBundles, continueAbilities) && Names(continueBundles, continueServices)
        invariant statsChanged == (old(statsChanged) || SomeStats(periods, i))
      {
        FlushDataStep(periods, i, dailyExpiryDate);
        continueBundles, continueAbilities, continueServices :=
          FlushPeriod(i, continueBundles, continueAbilities, continueServices);
      }
      assert periods[..4] == periods;
      FlushedAll(old(View()));
    }

    method FlushPeriod(i: nat, bundles: set<string>, abilities: map<Key, AbilityMap>, services: map<Key, AbilityMap>)
      returns (bundles': set<string>, abilities': map<Key, AbilityMap>, services': map<Key, AbilityMap>)
      requires i < |currentStats| && WellFormed(currentStats[i])
      requires Names(bundles, abilities) && Names(bundles, services)
      modifies this`currentStats, this`statsChanged
      ensures currentStats == old(currentStats)[i := EndOfDay(old(currentStats)[i], dailyExpiryDate)]
      ensures WellFormed(currentStats[i])
      ensures statsChanged == (old(statsChanged) || old(currentStats)[i].bundleStats != map[])
      ensures abilities' == abilities + AbilitiesOf(old(currentStats)[i])
      ensures services' == services + ServicesOf(old(currentStats)[i])
      ensures Names(bundles', abilities') && Names(bundles', services')
    {
      bundles', abilities', services' := bundles, abilities, services;
      ghost var p := currentStats[i];
      var todo := currentStats[i].bundleStats.Keys;
      ghost var order: seq<Key> := [];
      while todo != {}
        invariant Visited(p.bundleStats.Keys, order, todo)
        invariant |currentStats| == |old(currentStats)| && currentStats == old(currentStats)[i := currentStats[i]]
        invariant WellFormed(currentStats[i]) && currentStats[i] == FlushedFor(p, order, dailyExpiryDate)
        invariant abilities' == NotedFor(AbilitiesOf(p), order, abilities)
        invariant services' == NotedFor(ServicesOf(p), order, services)
        invariant Names(bundles', abilities') && Names(bundles', services')
        invariant statsChanged == (old(statsChanged) || order != [])
        decreases todo
      {
        var key;
        key, bundles', abilities', services' :=
          FlushNext(p, i, order, todo, bundles', abilities', services', abilities, services);
        order, todo := order + [key], todo - {key};
      }
      FlushDone(p, order, dailyExpiryDate, abilities, services);
    }

    method FlushNext(ghost p: Period, i: nat, ghost order: seq<Key>, todo: set<Key>, bundles: set<string>,
                     abilities: map<Key, AbilityMap>, services: map<Key, AbilityMap>,
                     ghost abilities0: map<Key, AbilityMap>, ghost services0: map<Key, AbilityMap>)
      returns (key: Key, bundles': set<string>, abilities': map<Key, AbilityMap>, services': map<Key, AbilityMap>)
      requires i < |currentStats| && WellFormed(currentStats[i]) && currentStats[i] == FlushedFor(p, order, dailyExpiryDate)
      requires Visited(p.bundleStats.Keys, order, todo) && todo != {}
      requires abilities == NotedFor(AbilitiesOf(p), order, abilities0)
      requires services == NotedFor(ServicesOf(p), order, services0)
      requires Names(bundles, abilities) && Names(bundles, services)
      modifies this`currentStats, this`statsChanged
      ensures key in todo && Visited(p.bundleStats.Keys, order + [key], todo - {key})
      ensures currentStats == old(currentStats)[i := FlushedFor(p, order + [key], dailyExpiryDate)]
      ensures WellFormed(currentStats[i]) && statsChanged
      ensures abilities' == NotedFor(AbilitiesOf(p), order + [key], abilities0)
      ensures services' == NotedFor(ServicesOf(p), order + [key], services0)
      ensures Names(bundles', abilities') && Names(bundles', services')
    {
      key :| key in todo;
      FlushedHas(p, order, todo, dailyExpiryDate, key);
      VisitedStep(p.bundleStats.Keys, order, todo, key);
      bundles', abilities', services' := FlushEntry(p, i, key, bundles, abilities, services);
    }

    method FlushEntry(ghost p: Period, i: nat, key: Key, bundles: set<string>, abilities: map<Key, AbilityMap>,
                      services: map<Key, AbilityMap>)
      returns (bundles': set<string>, abilities': map<Key, AbilityMap>, services': map<Key, AbilityMap>)
      requires i < |currentStats| && WellFormed(currentStats[i])
      requires key in p.bundleStats && key in currentStats[i].bundleStats
      requires currentStats[i].bundleStats[key] == p.bundleStats[key]
      requires Names(bundles, abilities) && Names(bundles, services)
      modifies this`currentStats, this`statsChanged
      ensures currentStats == old(currentStats)[i := Ended(old(currentStats)[i], key, dailyExpiryDate)]
      ensures WellFormed(currentStats[i]) && statsChanged
      ensures abilities' == NotedOne(AbilitiesOf(p), key, abilities) && services' == NotedOne(ServicesOf(p), key, services)
      ensures Names(bundles', abilities') && Names(bundles', services')
    {
      bundles', abilities', services' := bundles + {key.bundleName}, abilities, services;
      var usage := currentStats[i].bundleStats[key];
      if usage.abilities != map[] {
        abilities' := abilities'[key := usage.abilities];
      }
      if usage.longTimeTasks != map[] {
        services' := services'[key := usage.longTimeTasks];
      }
      var lastMoment := dailyExpiryDate - 1;
      UpdateIsTyped(currentStats[i], key, "", lastMoment, END_OF_THE_DAY, "");
      currentStats := currentStats[i := currentStats[i].Update(key, "", lastMoment, END_OF_THE_DAY, "")];
      NotifyStatsChanged();
    }

    /** The abilities of one entry that are still in front are reported again; those in the background are not. */
    method ReplayFront(current: Period, beginTime: int, key: Key, abilities: AbilityMap, ghost p: Period,
                       ghost fronts: map<Key, set<string>>, ghost tasks: map<Key, set<string>>)
      returns (updated: Period)
      requires WellFormed(current) && current == Reported(p, fronts, tasks, beginTime)
      requires key !in fronts && key !in tasks
      requires forall a :: a in abilities ==> abilities[a] in {ABILITY_FOREGROUND, ABILITY_BACKGROUND}
      ensures WellFormed(updated) && updated == Reported(p, Added(fronts, key, FrontIn(abilities)), tasks, beginTime)
    {
      updated := current;
      var todo := abilities.Keys;
      ghost var done: set<string> := {};
      while todo != {}
        invariant forall a :: a in done <==> a in abilities && a !in todo && abilities[a] == ABILITY_FOREGROUND
        invariant todo <= abilities.Keys && WellFormed(updated)
        invariant updated == Reported(p, Added(fronts, key, done), tasks, beginTime)
        decreases todo
      {
        var a :| a in todo;
        todo := todo - {a};
        if abilities[a] == ABILITY_BACKGROUND {
          continue;
        }
        AbilityAdded(p, fronts, done, tasks, beginTime, key, a);
        UpdateIsTyped(updated, key, "", beginTime, abilities[a], a);
        updated := updated.Update(key, "", beginTime, abilities[a], a);
        done := done + {a};
      }
      assert done == FrontIn(abilities);
    }

    method ReplayRunning(current: Period, beginTime: int, key: Key, services: AbilityMap, ghost p: Period,
                         ghost fronts: map<Key, set<string>>, ghost tasks: map<Key, set<string>>)
      returns (updated: Period)
      requires WellFormed(current) && current == Reported(p, fronts, tasks, beginTime)
      requires key !in tasks && forall t :: t in services ==> services[t] == LONG_TIME_TASK_STARTED
      ensures WellFormed(updated) && updated == Reported(p, fronts, Added(tasks, key, services.Keys), beginTime)
    {
      updated := current;
      var todo := services.Keys;
      ghost var done: set<string> := {};
      while todo != {}
        invariant forall t :: t in done <==> t in services && t !in todo
        invariant todo <= services.Keys && WellFormed(updated)
        invariant updated == Reported(p, fronts, Added(tasks, key, done), beginTime)
        decreases todo
      {
        var t :| t in todo;
        todo := todo - {t};
        TaskAdded(p, fronts, tasks, done, beginTime, key, t);
        UpdateIsTyped(updated, key, t, beginTime, services[t], "");
        updated := updated.Update(key, t, beginTime, services[t], "");
        done := done + {t};
      }
      assert done == services.Keys;
    }

    /** The known uids of the bundle, in ascending order; the loop gives up at the first without a note. */
    method UpdateContinueAbilitiesMemory(beginTime: int, continueAbilities: map<Key, AbilityMap>, continueBundleName: string,
                                         current: Period, ghost p: Period, ghost fronts: map<Key, set<string>>,
                                         ghost tasks: map<Key, set<string>>)
      returns (updated: Period)
      requires WellFormed(current) && current == Reported(p, fronts, tasks, beginTime)
      requires forall k :: k in fronts || k in tasks ==> k.bundleName != continueBundleName
      requires AbilitiesTyped(continueAbilities)
      ensures WellFormed(updated)
      ensures updated == Reported(p, fronts + OfBundle(FrontsToReplay(continueAbilities, packageUids), continueBundleName),
                                  tasks, beginTime)
    {
      updated := current;
      var uids := set k | k in packageUids && k.bundleName == continueBundleName;
      var todo := uids;
      ghost var now := fronts;
      NoKeys(FrontsToReplay(continueAbilities, packageUids), uids, fronts);
      while todo != {}
        invariant Ascending(uids, todo, continueAbilities) && WellFormed(updated)
        invariant now == fronts + OfKeys(FrontsToReplay(continueAbilities, packageUids), uids - todo)
        invariant updated == Reported(p, now, tasks, beginTime)
        decreases todo
      {
        LeastUidExists(todo);
        var key :| key in todo && forall l :: l in todo ==> key.uid <= l.uid;
        if key !in continueAbilities {
          FrontsStop(continueAbilities, packageUids, uids, todo, key);
          return;
        }
        FrontsStep(continueAbilities, packageUids, uids, todo, key, fronts);
        updated := ReplayFront(updated, beginTime, key, continueAbilities[key], p, now, tasks);
        now := Added(now, key, FrontIn(continueAbilities[key]));
        todo := todo - {key};
      }
      AllKeys(FrontsToReplay(continueAbilities, packageUids), packageUids, uids, continueBundleName);
    }

    method UpdateContinueServicesMemory(beginTime: int, continueServices: map<Key, AbilityMap>, continueBundleName: string,
                                        current: Period, ghost p: Period, ghost fronts: map<Key, set<string>>,
                                        ghost tasks: map<Key, set<string>>)
      returns (updated: Period)
      requires WellFormed(current) && current == Reported(p, fronts, tasks, beginTime)
      requires forall k :: k in tasks ==> k.bundleName != continueBundleName
      requires ServicesTyped(continueServices)
      ensures WellFormed(updated)
      ensures updated == Reported(p, fronts, tasks + OfBundle(TasksToReplay(continueServices, packageUids), continueBundleName),
                                  beginTime)
    {
      updated := current;
      var uids := set k | k in packageUids && k.bundleName == continueBundleName;
      var todo := uids;
      ghost var now := tasks;
      NoKeys(TasksToReplay(continueServices, packageUids), uids, tasks);
      while todo != {}
        invariant Ascending(uids, todo, continueServices) && WellFormed(updated)
        invariant now == tasks + OfKeys(TasksToReplay(continueServices, packageUids), uids - todo)
        invariant updated == Reported(p, fronts, now, beginTime)
        decreases todo
      {
        LeastUidExists(todo);
        var key :| key in todo && forall l :: l in todo ==> key.uid <= l.uid;
        if key !in continueServices {
          TasksStop(continueServices, packageUids, uids, todo, key);
          return;
        }
        TasksStep(continueServices, packageUids, uids, todo, key, tasks);
        updated := ReplayRunning(updated, beginTime, key, continueServices[key], p, fronts, now);
        now := Added(now, key, continueServices[key].Keys);
        todo := todo - {key};
      }
      AllKeys(TasksToReplay(continueServices, packageUids), packageUids, uids, continueBundleName);
    }

    method ReplayBundle(beginTime: int, continueBundleName: string, continueAbilities: map<Key, AbilityMap>,
                        continueServices: map<Key, AbilityMap>, current: Period, ghost p: Period, ghost done: set<string>)
      returns (updated: Period)
      requires WellFormed(current) && continueBundleName !in done
      requires AbilitiesTyped(continueAbilities) && ServicesTyped(continueServices)
      requires current == Reported(p, OfBundles(FrontsToReplay(continueAbilities, packageUids), done),
                                   OfBundles(TasksToReplay(continueServices, packageUids), done), beginTime)
      ensures WellFormed(updated)
      ensures updated == Reported(p, OfBundles(FrontsToReplay(continueAbilities, packageUids), done + {continueBundleName}),
                                  OfBundles(TasksToReplay(continueServices, packageUids), done + {continueBundleName}),
                                  beginTime)
    {
      ghost var fronts, tasks := FrontsToReplay(continueAbilities, packageUids), TasksToReplay(continueServices, packageUids);
      OneMoreBundle(fronts, done, continueBundleName);
      OneMoreBundle(tasks, done, continueBundleName);
      updated := UpdateContinueAbilitiesMemory(beginTime, continueAbilities, continueBundleName, current, p,
                                               OfBundles(fronts, done), OfBundles(tasks, done));
      updated := UpdateContinueServicesMemory(beginTime, continueServices, continueBundleName, updated, p,
                                              OfBundles(fronts, done + {continueBundleName}), OfBundles(tasks, done));
    }

    method ReplayAll(continueBundles: set<string>, continueAbilities: map<Key, AbilityMap>,
                     continueServices: map<Key, AbilityMap>)
      requires Valid() && AbilitiesTyped(continueAbilities) && ServicesTyped(continueServices)
      requires Names(continueBundles, continueAbilities) && Names(continueBundles, continueServices)
      modifies this`currentStats
      ensures View() == old(View()).Replayed(continueAbilities, continueServices) && Valid()
    {
      ghost var periods := currentStats;
      ghost var fronts, tasks := FrontsToReplay(continueAbilities, packageUids), TasksToReplay(continueServices, packageUids);
      ghost var done: set<string> := {};
      var todo := continueBundles;
      NothingReplayed(periods, fronts, tasks);
      while todo != {}
        invariant done + todo == continueBundles && done !! todo
        invariant ReplayedFor(periods, currentStats, fronts, tasks, done, done, 0)
        decreases todo
      {
        var bundle :| bundle in todo;
        var beginTime := currentStats[DAILY].beginTime;
        ghost var more := done + {bundle};
        for i := 0 to 4
          invariant ReplayedFor(periods, currentStats, fronts, tasks, done, more, i)
        {
          var updated := ReplayBundle(beginTime, bundle, continueAbilities, continueServices, currentStats[i], periods[i],
                                      done);
          currentStats := currentStats[i := updated];
        }
        todo, done := todo - {bundle}, more;
      }
      AllBundles(fronts, done);
      AllBundles(tasks, done);
      assert currentStats == old(View()).Replayed(continueAbilities, continueServices).periods;
    }

    method RenewStatsInMemory(timeStamp: int)
      requires Valid()
      modifies this, database
      ensures View() == old(View()).RenewStatsInMemory(timeStamp) && Valid()
    {
      ContinuedAreTyped(currentStats);
      var continueBundles, continueAbilities, continueServices := FlushDataInMem();
      RestoreStats(true);
      database.RemoveOldData(timeStamp, lengths);
      LoadActiveStats(timeStamp, false, false);
      ReplayAll(continueBundles, continueAbilities, continueServices);
      RestoreStats(true);
    }

    method ReportEvent(event: Event)
      requires Valid()
      modifies this, database
      ensures View() == old(View()).ReportEvent(event) && Valid()
    {
      if event.timeStamp >= dailyExpiryDate {
        RenewStatsInMemory(event.timeStamp);
      }
      ReportToday(event);
    }

    method ReportForShutdown(event: Event)
      requires Valid()
      modifies this, database
      ensures View() == old(View()).ReportForShutdown(event) && Valid()
    {
      if event.eventId != SHUTDOWN {
        return;
      }
      L.InsertedIsOrdered(currentStats[DAILY].events, event);
      currentStats := currentStats[DAILY := currentStats[DAILY].AddEvent(event)];
      assert View() == old(View()).Noted(event);
      if event.timeStamp >= dailyExpiryDate {
        RenewStatsInMemory(event.timeStamp);
      }
      ShutDownToday(event);
    }

    method ShutDownToday(event: Event)
      requires Valid() && event.eventId == SHUTDOWN
      modifies this`currentStats, this`packageUids, this`statsChanged
      ensures View() == old(View()).ShutDownToday(event) && Valid()
    {
      ghost var periods := currentStats;
      for i := 0 to 4
        invariant |currentStats| == 4 && packageUids == old(packageUids)
        invariant forall j :: i <= j < 4 ==> currentStats[j] == periods[j]
        invariant forall j :: 0 <= j < i ==> currentStats[j] == UpdatedPeriod(periods[j], event, false)
        invariant forall j :: 0 <= j < 4 ==> WellFormed(currentStats[j])
      {
        UpdateOne(i, event, false);
      }
      assert currentStats == old(View()).ShutDownToday(event).periods;
      NotifyStatsChanged();
    }

    method QueryBundleStatsInfos(intervalType: int, beginTime: int, endTime: int, bundleName: string)
      returns (code: ErrCode, packageStats: seq<Report>)
      requires Valid()
      ensures Answers(code, packageStats, View().QueryBundleStatsInfos(intervalType, beginTime, endTime, bundleName))
    {
      packageStats := [];
      if intervalType < 0 || intervalType >= |currentStats| {
        return ERR_USAGE_STATS_INTERVAL_NUMBER, packageStats;
      }
      var current := currentStats[intervalType];
      if current.endTime == 0 {
        if beginTime > current.beginTime + lengths[intervalType] {
          return ERR_QUERY_TIME_OUT_OF_RANGE, packageStats;
        } else {
          packageStats := database.QueryDatabaseUsageStats(intervalType, beginTime, endTime, userId, bundleName);
          return ERR_OK, packageStats;
        }
      } else if beginTime >= current.endTime {
        return ERR_QUERY_TIME_OUT_OF_RANGE, packageStats;
      }
      var truncatedEndTime := if current.beginTime < endTime then current.beginTime else endTime;
      packageStats := database.QueryDatabaseUsageStats(intervalType, beginTime, truncatedEndTime, userId, bundleName);
      if endTime > current.beginTime {
        packageStats := AddInMemory(packageStats, current, beginTime, endTime, bundleName);
      }
      return ERR_OK, packageStats;
    }

    method AddInMemory(stored: seq<Report>, current: Period, beginTime: int, endTime: int, bundleName: string)
      returns (packageStats: seq<Report>)
      ensures multiset(packageStats) == multiset(stored) + multiset(InMemory(current, beginTime, endTime, userId, bundleName))
    {
      packageStats := stored;
      var todo := current.bundleStats.Keys;
      ghost var added: set<Report> := {};
      while todo != {}
        invariant todo <= current.bundleStats.Keys
        invariant multiset(packageStats) == multiset(stored) + multiset(added)
        invariant forall r :: r in added <==> r in InMemory(current, beginTime, endTime, userId, bundleName) && r.key !in todo
        decreases todo
      {
        var k :| k in todo;
        todo := todo - {k};
        var u := current.bundleStats[k];
        var isTimeLegal := HasUsage(u) && u.lastTimeUsed >= beginTime && u.lastTimeUsed <= endTime;
        if isTimeLegal && (bundleName == "" || k.bundleName == bundleName) {
          assert UsageReport(userId, k, u) in InMemory(current, beginTime, endTime, userId, bundleName);
          packageStats := packageStats + [UsageReport(userId, k, u)];
          added := added + {UsageReport(userId, k, u)};
        }
      }
      assert added == InMemory(current, beginTime, endTime, userId, bundleName);
    }

    method QueryBundleEvents(beginTime: int, endTime: int, bundleName: string)
      returns (code: ErrCode, bundleActiveEvent: seq<E.Recorded>)
      requires Valid()
      ensures match View().QueryBundleEvents(beginTime, endTime, bundleName)
              case OutOfRange => code == ERR_QUERY_TIME_OUT_OF_RANGE
              case Found(events) => code == ERR_OK && bundleActiveEvent == events
    {
      bundleActiveEvent := [];
      var current := currentStats[DAILY];
      if beginTime >= current.endTime {
        return ERR_QUERY_TIME_OUT_OF_RANGE, bundleActiveEvent;
      }
      bundleActiveEvent := database.QueryDatabaseEvents(beginTime, endTime, userId, bundleName);
      if current.endTime == 0 {
        return ERR_OK, bundleActiveEvent;
      }
      if endTime > current.beginTime {
        bundleActiveEvent := AddEventsInMemory(bundleActiveEvent, current.events, beginTime, endTime, bundleName);
      }
      return ERR_OK, bundleActiveEvent;
    }

    method AddEventsInMemory(stored: seq<E.Recorded>, events: seq<Event>, beginTime: int, endTime: int, bundleName: string)
      returns (bundleActiveEvent: seq<E.Recorded>)
      requires OrderedByTime(events)
      ensures bundleActiveEvent == stored + E.FromMemory(events, beginTime, endTime, bundleName)
    {
      var eventBeginIdx := L.BestIndex(events, beginTime);
      L.ScanFromBestIndex(events, beginTime);
      bundleActiveEvent := AddEventsFrom(stored, events, eventBeginIdx, beginTime, endTime, bundleName);
    }

    method AddEventsFrom(stored: seq<E.Recorded>, events: seq<Event>, eventBeginIdx: nat, beginTime: int, endTime: int,
                         bundleName: string)
      returns (bundleActiveEvent: seq<E.Recorded>)
      requires OrderedByTime(events) && eventBeginIdx <= |events|
      requires eventBeginIdx < |events| ==> beginTime <= events[eventBeginIdx].timeStamp
      ensures bundleActiveEvent == stored + E.Between(events[eventBeginIdx..], beginTime, endTime, bundleName)
    {
      bundleActiveEvent := stored;
      for i := eventBeginIdx to |events|
        invariant bundleActiveEvent == stored + E.Between(events[eventBeginIdx..i], beginTime, endTime, bundleName)
      {
        OneMoreEvent(events, eventBeginIdx, i, beginTime, endTime, bundleName);
        if events[i].timeStamp > endTime {
          continue;
        }
        if bundleName == "" || events[i].bundleName == bundleName {
          bundleActiveEvent := bundleActiveEvent + [E.Record(events[i])];
        }
      }
      assert events[eventBeginIdx..|events|] == events[eventBeginIdx..];
    }
  }
}
