/**
 High-frequency hours of apps over a week of events (services/common/src/bundle_active_core.cpp).
 The local calendar is a parameter: it maps seconds to a weekday and an hour, or to nothing.
 */
module HighFrequency {
  import opened Events

  const DAYS := 7
  const HOURS := 24

  datatype LocalTime = NoTime | At(weekDay: int, hour: int)

  type Calendar = int -> LocalTime

  ghost predicate ValidCalendar(local: Calendar) {
    forall s :: local(s).At? ==> 0 <= local(s).weekDay < DAYS && 0 <= local(s).hour < HOURS
  }

  /** Division as in C++: towards zero. */
  function Quotient(a: int, b: int): int
    requires b > 0
  {
    if a >= 0 then a / b else -((-a) / b)
  }

  datatype AppUsage = AppUsage(dayUsage: seq<int>, hourUsage: seq<seq<int>>, hourTotalUse: seq<int>, startTime: int)
  {
    predicate Shaped() {
      && |dayUsage| == |hourUsage| == DAYS && |hourTotalUse| == HOURS
      && forall w :: 0 <= w < DAYS ==> |hourUsage[w]| == HOURS
    }
  }

  function Zeros(n: nat): (s: seq<int>)
    ensures |s| == n && forall i :: 0 <= i < n ==> s[i] == 0
  {
    if n == 0 then [] else Zeros(n - 1) + [0]
  }

  function ZeroRows(n: nat): (s: seq<seq<int>>)
    ensures |s| == n && forall i :: 0 <= i < n ==> s[i] == Zeros(HOURS)
  {
    if n == 0 then [] else ZeroRows(n - 1) + [Zeros(HOURS)]
  }

  function NewUsage(): AppUsage {
    AppUsage(Zeros(DAYS), ZeroRows(DAYS), Zeros(HOURS), 0)
  }

  // ----- the reference: sessions of a bundle in a list of events -----

  /** A foreground event starts a session; the time stamp 0 means "no start" to the analyser. */
  predicate Opens(e: Event, bundle: string) {
    e.bundleName == bundle && e.eventId == ABILITY_FOREGROUND && e.timeStamp != 0
  }

  predicate Ends(e: Event, bundle: string) {
    e.bundleName == bundle && (e.eventId == ABILITY_BACKGROUND || e.eventId == ABILITY_STOP)
  }

  /** Event `j` is the first opening after the last end, as seen just before event `n`. */
  ghost predicate OpenAt(events: seq<Event>, bundle: string, j: int, n: int)
    requires n <= |events|
  {
    && 0 <= j < n && Opens(events[j], bundle)
    && (forall k :: j < k < n ==> !Ends(events[k], bundle))
    && (forall k :: 0 <= k < j && Opens(events[k], bundle) ==> exists m :: k < m < j && Ends(events[m], bundle))
  }

  /** The opening of the session that is still running after all the events; -1 if none runs. */
  function OpenIndex(events: seq<Event>, bundle: string): int {
    if events == [] then -1
    else
      var before := OpenIndex(events[..|events| - 1], bundle);
      var e := events[|events| - 1];
      if Ends(e, bundle) then -1
      else if before < 0 && Opens(e, bundle) then |events| - 1
      else before
  }

  lemma {:induction false} OpenIndexIsOpenAt(events: seq<Event>, bundle: string)
    ensures -1 <= OpenIndex(events, bundle) < |events|
    ensures var j := OpenIndex(events, bundle);
            if j >= 0 then OpenAt(events, bundle, j, |events|)
            else forall k :: 0 <= k < |events| && Opens(events[k], bundle)
                   ==> exists m :: k < m < |events| && Ends(events[m], bundle)
  {
    if events == [] {
    } else {
      var n := |events| - 1;
      var before := events[..n];
      OpenIndexIsOpenAt(before, bundle);
      assert forall k :: 0 <= k < n ==> before[k] == events[k];
      if Ends(events[n], bundle) {
        assert !Opens(events[n], bundle);
      } else if OpenIndex(before, bundle) < 0 {
        forall k | 0 <= k < n && Opens(events[k], bundle)
          ensures exists m :: k < m < n && Ends(events[m], bundle)
        {
          var m :| k < m < n && Ends(before[m], bundle);
          assert Ends(events[m], bundle);
        }
      }
    }
  }

  function LocalStart(events: seq<Event>, bundle: string, local: Calendar): LocalTime {
    var j := OpenIndex(events, bundle);
    if 0 <= j < |events| then local(Quotient(events[j].timeStamp, 1000)) else NoTime
  }

  /** Event `i` completes a session that started in hour `hour` of weekday `weekDay`. */
  predicate Completes(events: seq<Event>, bundle: string, local: Calendar, i: nat, weekDay: int, hour: int)
    requires i < |events|
  {
    Ends(events[i], bundle) && LocalStart(events[..i], bundle, local) == At(weekDay, hour)
  }

  function Sessions(events: seq<Event>, bundle: string, local: Calendar, weekDay: int, hour: int): set<nat> {
    set i: nat | i < |events| && Completes(events, bundle, local, i, weekDay, hour)
  }

  function AllSessions(events: seq<Event>, bundle: string, local: Calendar): set<nat> {
    set i: nat | i < |events| && Ends(events[i], bundle) && LocalStart(events[..i], bundle, local).At?
  }

  lemma SessionsSnoc(before: seq<Event>, e: Event, bundle: string, local: Calendar, weekDay: int, hour: int)
    ensures Sessions(before + [e], bundle, local, weekDay, hour)
         == Sessions(before, bundle, local, weekDay, hour)
            + (if Ends(e, bundle) && LocalStart(before, bundle, local) == At(weekDay, hour) then {|before|} else {})
    ensures |before| !in Sessions(before, bundle, local, weekDay, hour)
  {
    var events := before + [e];
    assert events[..|before|] == before;
    forall i: nat | i < |before|
      ensures Completes(events, bundle, local, i, weekDay, hour) <==> Completes(before, bundle, local, i, weekDay, hour)
    {
      assert events[..i] == before[..i];
    }
  }

  lemma AllSessionsSnoc(before: seq<Event>, e: Event, bundle: string, local: Calendar)
    ensures AllSessions(before + [e], bundle, local)
         == AllSessions(before, bundle, local)
            + (if Ends(e, bundle) && LocalStart(before, bundle, local).At? then {|before|} else {})
    ensures |before| !in AllSessions(before, bundle, local)
  {
    var events := before + [e];
    assert events[..|before|] == before;
    forall i: nat | i < |before|
      ensures events[..i] == before[..i]
    {
    }
  }

  // ----- sums -----

  function Sum(s: seq<int>): int {
    if s == [] then 0 else s[0] + Sum(s[1..])
  }

  lemma {:induction false} SumUpdate(s: seq<int>, i: nat, v: int)
    requires i < |s|
    ensures Sum(s[i := v]) == Sum(s) - s[i] + v
  {
    if i == 0 {
      assert s[0 := v][1..] == s[1..];
    } else {
      SumUpdate(s[1..], i - 1, v);
      assert s[i := v][1..] == s[1..][i - 1 := v];
    }
  }

  lemma {:induction false} SumOfZeros(s: seq<int>)
    requires forall i :: 0 <= i < |s| ==> s[i] == 0
    ensures Sum(s) == 0
  {
    if s == [] {
    } else {
      SumOfZeros(s[1..]);
    }
  }

  function Column(matrix: seq<seq<int>>, hour: nat): seq<int>
    requires forall w :: 0 <= w < |matrix| ==> hour < |matrix[w]|
  {
    seq(|matrix|, w requires 0 <= w < |matrix| => matrix[w][hour])
  }

  function StartTime(events: seq<Event>, j: int): int {
    if 0 <= j < |events| then events[j].timeStamp else 0
  }

  /** The counters of a bundle say exactly what its sessions are. */
  ghost predicate Exact(u: AppUsage, events: seq<Event>, bundle: string, local: Calendar) {
    && u.Shaped()
    && u.startTime == StartTime(events, OpenIndex(events, bundle))
    && (forall w: int, h: int :: 0 <= w < DAYS && 0 <= h < HOURS ==>
          u.hourUsage[w][h] == |Sessions(events, bundle, local, w, h)|)
    && (forall w :: 0 <= w < DAYS ==> u.dayUsage[w] == Sum(u.hourUsage[w]))
    && (forall h :: 0 <= h < HOURS ==> u.hourTotalUse[h] == Sum(Column(u.hourUsage, h)))
    && Sum(u.dayUsage) == |AllSessions(events, bundle, local)|
  }

  function Counted(u: AppUsage, weekDay: nat, hour: nat): AppUsage
    requires u.Shaped() && weekDay < DAYS && hour < HOURS
  {
    AppUsage(u.dayUsage[weekDay := u.dayUsage[weekDay] + 1],
             u.hourUsage[weekDay := u.hourUsage[weekDay][hour := u.hourUsage[weekDay][hour] + 1]],
             u.hourTotalUse[hour := u.hourTotalUse[hour] + 1],
             0)
  }

  lemma NoSums()
    ensures Sum(NewUsage().dayUsage) == 0
    ensures forall w :: 0 <= w < DAYS ==> Sum(NewUsage().hourUsage[w]) == 0
    ensures forall h :: 0 <= h < HOURS ==> Sum(Column(NewUsage().hourUsage, h)) == 0
  {
    SumOfZeros(NewUsage().dayUsage);
    forall w | 0 <= w < DAYS
      ensures Sum(NewUsage().hourUsage[w]) == 0
    {
      SumOfZeros(NewUsage().hourUsage[w]);
    }
    forall h | 0 <= h < HOURS
      ensures Sum(Column(NewUsage().hourUsage, h)) == 0
    {
      SumOfZeros(Column(NewUsage().hourUsage, h));
    }
  }

  lemma NoSessions(bundle: string, local: Calendar)
    ensures AllSessions([], bundle, local) == {}
    ensures forall w: int, h: int :: Sessions([], bundle, local, w, h) == {}
  {
  }

  lemma NothingIsExact(bundle: string, local: Calendar)
    ensures Exact(NewUsage(), [], bundle, local)
  {
    NoSums();
    NoSessions(bundle, local);
  }

  lemma CountedSums(u: AppUsage, weekDay: nat, hour: nat)
    requires u.Shaped() && weekDay < DAYS && hour < HOURS
    requires forall w :: 0 <= w < DAYS ==> u.dayUsage[w] == Sum(u.hourUsage[w])
    requires forall h :: 0 <= h < HOURS ==> u.hourTotalUse[h] == Sum(Column(u.hourUsage, h))
    ensures var u' := Counted(u, weekDay, hour);
            && u'.Shaped()
            && (forall w :: 0 <= w < DAYS ==> u'.dayUsage[w] == Sum(u'.hourUsage[w]))
            && (forall h :: 0 <= h < HOURS ==> u'.hourTotalUse[h] == Sum(Column(u'.hourUsage, h)))
            && Sum(u'.dayUsage) == Sum(u.dayUsage) + 1
  {
    var u' := Counted(u, weekDay, hour);
    SumUpdate(u.dayUsage, weekDay, u.dayUsage[weekDay] + 1);
    SumUpdate(u.hourUsage[weekDay], hour, u.hourUsage[weekDay][hour] + 1);
    SumUpdate(Column(u.hourUsage, hour), weekDay, u.hourUsage[weekDay][hour] + 1);
    forall h | 0 <= h < HOURS
      ensures u'.hourTotalUse[h] == Sum(Column(u'.hourUsage, h))
    {
      if h == hour {
        assert Column(u'.hourUsage, h) == Column(u.hourUsage, h)[weekDay := u.hourUsage[weekDay][hour] + 1];
      } else {
        assert Column(u'.hourUsage, h) == Column(u.hourUsage, h);
      }
    }
  }

  /** The counters after one more event, for the bundle that they belong to. */
  function Next(u: AppUsage, e: Event, bundle: string, local: Calendar): AppUsage
    requires u.Shaped()
    requires ValidCalendar(local)
  {
    if e.bundleName == bundle && e.eventId == ABILITY_FOREGROUND then
      if u.startTime == 0 then u.(startTime := e.timeStamp) else u
    else if Ends(e, bundle) && u.startTime != 0 then
      var start := local(Quotient(u.startTime, 1000));
      if start.NoTime? then u.(startTime := 0) else Counted(u, start.weekDay, start.hour)
    else u
  }

  /** One cell goes up by one when a session of its hour completes. */
  lemma NextCounts(u: AppUsage, before: seq<Event>, e: Event, bundle: string, local: Calendar, w: int, h: int)
    requires ValidCalendar(local) && u.Shaped() && u.startTime == StartTime(before, OpenIndex(before, bundle))
    requires 0 <= w < DAYS && 0 <= h < HOURS
    ensures Next(u, e, bundle, local).Shaped()
    ensures Next(u, e, bundle, local).hourUsage[w][h]
         == u.hourUsage[w][h] + (if Ends(e, bundle) && LocalStart(before, bundle, local) == At(w, h) then 1 else 0)
  {
    OpenIndexIsOpenAt(before, bundle);
  }

  lemma NextCell(u: AppUsage, before: seq<Event>, e: Event, bundle: string, local: Calendar, w: int, h: int)
    requires ValidCalendar(local) && Exact(u, before, bundle, local)
    requires 0 <= w < DAYS && 0 <= h < HOURS
    ensures Next(u, e, bundle, local).hourUsage[w][h] == |Sessions(before + [e], bundle, local, w, h)|
  {
    NextCounts(u, before, e, bundle, local, w, h);
    SessionsSnoc(before, e, bundle, local, w, h);
  }

  lemma NextStart(u: AppUsage, before: seq<Event>, e: Event, bundle: string, local: Calendar)
    requires ValidCalendar(local) && Exact(u, before, bundle, local)
    ensures Next(u, e, bundle, local).startTime == StartTime(before + [e], OpenIndex(before + [e], bundle))
  {
    assert (before + [e])[..|before|] == before;
    OpenIndexIsOpenAt(before, bundle);
  }

  lemma NextSums(u: AppUsage, before: seq<Event>, e: Event, bundle: string, local: Calendar)
    requires ValidCalendar(local) && Exact(u, before, bundle, local)
    ensures var u' := Next(u, e, bundle, local);
            && u'.Shaped()
            && (forall w :: 0 <= w < DAYS ==> u'.dayUsage[w] == Sum(u'.hourUsage[w]))
            && (forall h :: 0 <= h < HOURS ==> u'.hourTotalUse[h] == Sum(Column(u'.hourUsage, h)))
            && Sum(u'.dayUsage) == |AllSessions(before + [e], bundle, local)|
  {
    OpenIndexIsOpenAt(before, bundle);
    AllSessionsSnoc(before, e, bundle, local);
    var start := LocalStart(before, bundle, local);
    if Ends(e, bundle) && start.At? {
      CountedSums(u, start.weekDay, start.hour);
    } else {
      var u' := Next(u, e, bundle, local);
      assert u' == u.(startTime := u'.startTime);
    }
  }

  lemma NextIsExact(u: AppUsage, before: seq<Event>, e: Event, bundle: string, local: Calendar)
    requires ValidCalendar(local) && Exact(u, before, bundle, local)
    ensures Exact(Next(u, e, bundle, local), before + [e], bundle, local)
  {
    NextSums(u, before, e, bundle, local);
    NextStart(u, before, e, bundle, local);
    forall w: int, h: int | 0 <= w < DAYS && 0 <= h < HOURS
      ensures Next(u, e, bundle, local).hourUsage[w][h] == |Sessions(before + [e], bundle, local, w, h)|
    {
      NextCell(u, before, e, bundle, local, w, h);
    }
  }

  function UsageOf(appUsages: map<string, AppUsage>, bundle: string): AppUsage {
    if bundle in appUsages then appUsages[bundle] else NewUsage()
  }

  /** Every bundle, seen or not, has exact counters: those kept for it, or none at all. */
  ghost predicate AllExact(appUsages: map<string, AppUsage>, events: seq<Event>, local: Calendar) {
    forall b :: Exact(UsageOf(appUsages, b), events, b, local)
  }

  lemma AllExactSnoc(appUsages: map<string, AppUsage>, appUsages': map<string, AppUsage>, before: seq<Event>, e: Event,
                     local: Calendar)
    requires ValidCalendar(local) && AllExact(appUsages, before, local)
    requires forall b :: UsageOf(appUsages', b) == Next(UsageOf(appUsages, b), e, b, local)
    ensures AllExact(appUsages', before + [e], local)
  {
    forall b
      ensures Exact(UsageOf(appUsages', b), before + [e], b, local)
    {
      NextIsExact(UsageOf(appUsages, b), before, e, b, local);
    }
  }

  /** One turn of the loop of `ProcessEvents`. */
  method ProcessEvent(before: map<string, AppUsage>, e: Event, local: Calendar)
    returns (appUsages: map<string, AppUsage>)
    requires ValidCalendar(local)
    requires forall b :: b in before ==> before[b].Shaped()
    ensures forall b :: b in appUsages ==> appUsages[b].Shaped()
    ensures forall b :: UsageOf(appUsages, b) == Next(UsageOf(before, b), e, b, local)
    ensures appUsages.Keys == before.Keys + (if e.eventId == ABILITY_FOREGROUND then {e.bundleName} else {})
  {
    appUsages := before;
    if e.eventId == ABILITY_FOREGROUND {
      if e.bundleName !in appUsages {
        appUsages := appUsages[e.bundleName := NewUsage()];
      }
      if appUsages[e.bundleName].startTime == 0 {
        appUsages := appUsages[e.bundleName := appUsages[e.bundleName].(startTime := e.timeStamp)];
      }
    } else if e.eventId == ABILITY_BACKGROUND || e.eventId == ABILITY_STOP {
      if e.bundleName !in appUsages || appUsages[e.bundleName].startTime == 0 {
        return;
      }
      var u := appUsages[e.bundleName];
      var startTime := local(Quotient(u.startTime, 1000));
      if startTime.NoTime? {
        appUsages := appUsages[e.bundleName := u.(startTime := 0)];
        return;
      }
      var weekDay, hour := startTime.weekDay, startTime.hour;
      var dayUsage := u.dayUsage[weekDay := u.dayUsage[weekDay] + 1];
      var hourUsage := u.hourUsage[weekDay := u.hourUsage[weekDay][hour := u.hourUsage[weekDay][hour] + 1]];
      var hourTotalUse := u.hourTotalUse[hour := u.hourTotalUse[hour] + 1];
      appUsages := appUsages[e.bundleName := AppUsage(dayUsage, hourUsage, hourTotalUse, 0)];
    }
  }

  predicate Foregrounds(events: seq<Event>, bundle: string) {
    exists i :: 0 <= i < |events| && events[i].bundleName == bundle && events[i].eventId == ABILITY_FOREGROUND
  }

  lemma ForegroundsSnoc(before: seq<Event>, e: Event, bundle: string)
    ensures Foregrounds(before + [e], bundle)
       <==> Foregrounds(before, bundle) || (e.bundleName == bundle && e.eventId == ABILITY_FOREGROUND)
  {
    var events := before + [e];
    assert events[|before|] == e;
    if Foregrounds(before, bundle) {
      var i :| 0 <= i < |before| && before[i].bundleName == bundle && before[i].eventId == ABILITY_FOREGROUND;
      assert events[i] == before[i];
    }
  }

  /**
   For every list of events the counters of every bundle are exact: each cell of the 7 x 24 matrix counts
   the sessions that started then, day and hour totals are the row and column sums, and the grand total is
   the number of completed sessions.
   */
  method ProcessEvents(events: seq<Event>, local: Calendar) returns (appUsages: map<string, AppUsage>)
    requires ValidCalendar(local)
    ensures AllExact(appUsages, events, local)
    ensures forall b :: b in appUsages <==> Foregrounds(events, b)
  {
    appUsages := map[];
    forall b
      ensures Exact(NewUsage(), [], b, local)
    {
      NothingIsExact(b, local);
    }
    for n := 0 to |events|
      invariant forall b :: b in appUsages ==> appUsages[b].Shaped()
      invariant AllExact(appUsages, events[..n], local)
      invariant forall b :: b in appUsages <==> Foregrounds(events[..n], b)
    {
      ghost var before := appUsages;
      assert events[..n + 1] == events[..n] + [events[n]];
      appUsages := ProcessEvent(appUsages, events[n], local);
      AllExactSnoc(before, appUsages, events[..n], events[n], local);
      forall b
        ensures b in appUsages <==> Foregrounds(events[..n + 1], b)
      {
        ForegroundsSnoc(events[..n], events[n], b);
      }
    }
    assert events[..|events|] == events;
  }

  // ----- the high-frequency hours of an app -----

  datatype Threshold = Threshold(minTotalUseDays: int, minTopUseHoursLimit: int, minHourUseDays: int,
                                 maxHighFreqHourNum: int)
  {
    /** The limits that the configuration reader enforces. */
    predicate Valid() {
      0 <= minTopUseHoursLimit <= HOURS && 0 <= maxHighFreqHourNum
    }
  }

  /** An hour together with the count it is ranked by. */
  datatype Ranked = Ranked(count: int, hour: int)

  ghost predicate Descending(s: seq<Ranked>) {
    forall i, j :: 0 <= i < j < |s| ==> s[i].count >= s[j].count
  }

  ghost predicate DistinctHours(s: seq<Ranked>) {
    forall i, j :: 0 <= i < j < |s| ==> s[i].hour != s[j].hour
  }

  function Inserted(r: seq<Ranked>, x: Ranked): seq<Ranked> {
    if r == [] || r[0].count < x.count then [x] + r else [r[0]] + Inserted(r[1..], x)
  }

  /** What is inserted behind the first stays below it and apart from it. */
  lemma StaysBehind(first: Ranked, others: seq<Ranked>, x: Ranked, rest: seq<Ranked>)
    requires multiset(rest) == multiset(others) + multiset{x}
    requires x.count <= first.count && x.hour != first.hour
    requires forall i :: 0 <= i < |others| ==> others[i].count <= first.count && others[i].hour != first.hour
    ensures forall i :: 0 <= i < |rest| ==> rest[i].count <= first.count && rest[i].hour != first.hour
  {
    forall i | 0 <= i < |rest|
      ensures rest[i].count <= first.count && rest[i].hour != first.hour
    {
      assert rest[i] in multiset(rest);
      assert rest[i] == x || rest[i] in others;
    }
  }

  lemma PrependedIsRanked(first: Ranked, rest: seq<Ranked>)
    requires Descending(rest) && DistinctHours(rest)
    requires forall i :: 0 <= i < |rest| ==> rest[i].count <= first.count && rest[i].hour != first.hour
    ensures Descending([first] + rest) && DistinctHours([first] + rest)
    ensures multiset([first] + rest) == multiset(rest) + multiset{first}
  {
  }

  lemma {:induction false} InsertedIsRanked(r: seq<Ranked>, x: Ranked)
    requires Descending(r) && DistinctHours(r) && forall i :: 0 <= i < |r| ==> r[i].hour != x.hour
    ensures multiset(Inserted(r, x)) == multiset(r) + multiset{x}
    ensures Descending(Inserted(r, x)) && DistinctHours(Inserted(r, x))
  {
    if r == [] || r[0].count < x.count {
      PrependedIsRanked(x, r);
    } else {
      InsertedIsRanked(r[1..], x);
      assert r == [r[0]] + r[1..];
      StaysBehind(r[0], r[1..], x, Inserted(r[1..], x));
      PrependedIsRanked(r[0], Inserted(r[1..], x));
    }
  }

  lemma NextHourIsNew(s: seq<Ranked>, n: nat, r: seq<Ranked>)
    requires DistinctHours(s) && n < |s| && multiset(r) == multiset(s[..n])
    ensures forall i :: 0 <= i < |r| ==> r[i].hour != s[n].hour
  {
    forall i | 0 <= i < |r|
      ensures r[i].hour != s[n].hour
    {
      assert r[i] in multiset(s[..n]);
      var j :| 0 <= j < n && s[..n][j] == r[i];
      assert s[j].hour != s[n].hour;
    }
  }

  /** Any sort that puts higher counts first; the order of equal counts is open. */
  method SortDescending(s: seq<Ranked>) returns (r: seq<Ranked>)
    requires DistinctHours(s)
    ensures Descending(r) && DistinctHours(r) && multiset(r) == multiset(s)
  {
    r := [];
    for n := 0 to |s|
      invariant Descending(r) && DistinctHours(r) && multiset(r) == multiset(s[..n])
    {
      NextHourIsNew(s, n, r);
      InsertedIsRanked(r, s[n]);
      r := Inserted(r, s[n]);
      assert s[..n + 1] == s[..n] + [s[n]];
    }
    assert s[..|s|] == s;
  }

  function UseDays(u: AppUsage, hour: int, days: nat): int
    requires u.Shaped() && 0 <= hour < HOURS && days <= DAYS
  {
    if days == 0 then 0 else UseDays(u, hour, days - 1) + (if u.hourUsage[days - 1][hour] > 0 then 1 else 0)
  }

  function TotalDays(u: AppUsage, days: nat): int
    requires u.Shaped() && days <= DAYS
  {
    if days == 0 then 0 else TotalDays(u, days - 1) + (if u.dayUsage[days - 1] != 0 then 1 else 0)
  }

  /** `top` are the `limit` hours used most: no other hour has a higher total. */
  ghost predicate TopHours(top: set<int>, u: AppUsage, limit: int)
    requires u.Shaped()
  {
    && |top| == limit
    && (forall h :: h in top ==> 0 <= h < HOURS)
    && (forall h, other :: h in top && 0 <= other < HOURS && other !in top ==>
          u.hourTotalUse[h] >= u.hourTotalUse[other])
  }

  /** The top hours that were used on enough days. */
  ghost function Candidates(top: set<int>, u: AppUsage, minDays: int): set<int>
    requires u.Shaped() && forall h :: h in top ==> 0 <= h < HOURS
  {
    set h | h in top && UseDays(u, h, DAYS) >= minDays
  }

  ghost predicate RankedBy(ranked: seq<Ranked>, u: AppUsage)
    requires u.Shaped()
  {
    forall i :: 0 <= i < |ranked| ==>
      0 <= ranked[i].hour < HOURS && ranked[i].count == UseDays(u, ranked[i].hour, DAYS)
  }

  ghost function HoursOf(ranked: seq<Ranked>): set<int> {
    set i | 0 <= i < |ranked| :: ranked[i].hour
  }

  lemma {:induction false} HoursOfSize(ranked: seq<Ranked>)
    requires DistinctHours(ranked)
    ensures |HoursOf(ranked)| == |ranked|
  {
    if ranked == [] {
    } else {
      var n := |ranked| - 1;
      HoursOfSize(ranked[..n]);
      assert HoursOf(ranked) == HoursOf(ranked[..n]) + {ranked[n].hour};
      assert ranked[n].hour !in HoursOf(ranked[..n]);
    }
  }

  lemma HoursOfPermutation(s: seq<Ranked>, r: seq<Ranked>)
    requires multiset(s) == multiset(r)
    ensures HoursOf(s) == HoursOf(r)
    ensures forall x :: x in s <==> x in r
  {
    forall x
      ensures x in s <==> x in r
    {
      assert x in multiset(s) <==> x in multiset(r);
    }
    forall h
      ensures h in HoursOf(s) <==> h in HoursOf(r)
    {
      if h in HoursOf(s) {
        var i :| 0 <= i < |s| && s[i].hour == h;
        assert s[i] in r;
      }
      if h in HoursOf(r) {
        var i :| 0 <= i < |r| && r[i].hour == h;
        assert r[i] in s;
      }
    }
  }

  /** The first `limit` of all hours, sorted by their totals, are the top hours. */
  lemma FirstAreTop(all: seq<Ranked>, sorted: seq<Ranked>, u: AppUsage, limit: nat)
    requires u.Shaped() && |all| == HOURS && limit <= HOURS
    requires forall i :: 0 <= i < HOURS ==> all[i] == Ranked(u.hourTotalUse[i], i)
    requires multiset(sorted) == multiset(all) && Descending(sorted) && DistinctHours(sorted)
    ensures |sorted| == HOURS
    ensures forall i :: 0 <= i < HOURS ==> 0 <= sorted[i].hour < HOURS
    ensures TopHours(HoursOf(sorted[..limit]), u, limit)
  {
    assert |multiset(sorted)| == |multiset(all)|;
    HoursOfPermutation(all, sorted);
    forall i | 0 <= i < HOURS
      ensures 0 <= sorted[i].hour < HOURS && sorted[i].count == u.hourTotalUse[sorted[i].hour]
    {
      assert sorted[i] in all;
    }
    var top := HoursOf(sorted[..limit]);
    HoursOfSize(sorted[..limit]);
    forall j | 0 <= j < limit
      ensures sorted[j].hour in top
    {
      assert sorted[..limit][j] == sorted[j];
    }
    forall h, other | h in top && 0 <= other < HOURS && other !in top
      ensures u.hourTotalUse[h] >= u.hourTotalUse[other]
    {
      var i :| 0 <= i < limit && sorted[..limit][i].hour == h;
      assert all[other] in sorted;
      var j :| 0 <= j < HOURS && sorted[j] == all[other];
      assert sorted[i].count >= sorted[j].count;
    }
  }

  method GetTopHourUsage(u: AppUsage, config: Threshold) returns (topHoursUsage: seq<Ranked>, ghost top: set<int>)
    requires u.Shaped() && config.Valid()
    ensures TopHours(top, u, config.minTopUseHoursLimit)
    ensures DistinctHours(topHoursUsage) && RankedBy(topHoursUsage, u)
    ensures HoursOf(topHoursUsage) == Candidates(top, u, config.minHourUseDays)
  {
    var elements: seq<Ranked> := [];
    for i := 0 to HOURS
      invariant |elements| == i && forall k :: 0 <= k < i ==> elements[k] == Ranked(u.hourTotalUse[k], k)
    {
      elements := elements + [Ranked(u.hourTotalUse[i], i)];
    }
    var sorted := SortDescending(elements);
    FirstAreTop(elements, sorted, u, config.minTopUseHoursLimit);
    top := HoursOf(sorted[..config.minTopUseHoursLimit]);
    topHoursUsage := [];
    for i := 0 to config.minTopUseHoursLimit
      invariant DistinctHours(topHoursUsage) && RankedBy(topHoursUsage, u)
      invariant forall k :: 0 <= k < |topHoursUsage| ==> exists j :: 0 <= j < i && sorted[j].hour == topHoursUsage[k].hour
      invariant HoursOf(topHoursUsage)
             == set k | 0 <= k < i && UseDays(u, sorted[k].hour, DAYS) >= config.minHourUseDays :: sorted[k].hour
    {
      var hour := sorted[i].hour;
      var hourUseDays := CountUseDays(u, hour);
      if hourUseDays >= config.minHourUseDays {
        ghost var before := topHoursUsage;
        topHoursUsage := topHoursUsage + [Ranked(hourUseDays, hour)];
        assert HoursOf(topHoursUsage) == HoursOf(before) + {hour} by {
          assert topHoursUsage[|before|].hour == hour;
          assert forall k :: 0 <= k < |before| ==> topHoursUsage[k] == before[k];
        }
      }
    }
    assert forall k :: 0 <= k < config.minTopUseHoursLimit ==> sorted[..config.minTopUseHoursLimit][k] == sorted[k];
  }

  method CountUseDays(u: AppUsage, hour: int) returns (hourUseDays: int)
    requires u.Shaped() && 0 <= hour < HOURS
    ensures hourUseDays == UseDays(u, hour, DAYS)
  {
    hourUseDays := 0;
    for weekDay := 0 to DAYS
      invariant hourUseDays == UseDays(u, hour, weekDay)
    {
      if u.hourUsage[weekDay][hour] > 0 {
        hourUseDays := hourUseDays + 1;
      }
    }
  }

  datatype FrequentApp = FrequentApp(bundleName: string, hours: seq<int>)

  /** `hours` are the candidates used on most days, best first, as many as allowed. */
  ghost predicate Best(hours: seq<int>, u: AppUsage, candidates: set<int>, max: int)
    requires u.Shaped() && forall h :: h in candidates ==> 0 <= h < HOURS
  {
    && |hours| == (if |candidates| <= max then |candidates| else max)
    && (forall i :: 0 <= i < |hours| ==> hours[i] in candidates)
    && (forall i, j :: 0 <= i < j < |hours| ==>
          hours[i] != hours[j] && UseDays(u, hours[i], DAYS) >= UseDays(u, hours[j], DAYS))
    && (forall i, dropped :: 0 <= i < |hours| && dropped in candidates && dropped !in hours ==>
          UseDays(u, hours[i], DAYS) >= UseDays(u, dropped, DAYS))
  }

  ghost predicate Listed(hours: seq<int>, u: AppUsage, config: Threshold)
    requires u.Shaped()
  {
    && TotalDays(u, DAYS) >= config.minTotalUseDays
    && exists top :: TopHours(top, u, config.minTopUseHoursLimit)
                  && Candidates(top, u, config.minHourUseDays) != {}
                  && Best(hours, u, Candidates(top, u, config.minHourUseDays), config.maxHighFreqHourNum)
  }

  ghost predicate Unlisted(u: AppUsage, config: Threshold)
    requires u.Shaped()
  {
    || TotalDays(u, DAYS) < config.minTotalUseDays
    || exists top :: TopHours(top, u, config.minTopUseHoursLimit) && Candidates(top, u, config.minHourUseDays) == {}
  }

  lemma FirstAreBest(topHours: seq<Ranked>, sorted: seq<Ranked>, u: AppUsage, candidates: set<int>, max: nat,
                     hours: seq<int>)
    requires u.Shaped() && DistinctHours(topHours) && RankedBy(topHours, u) && HoursOf(topHours) == candidates
    requires multiset(sorted) == multiset(topHours) && Descending(sorted) && DistinctHours(sorted)
    requires |hours| == if |sorted| <= max then |sorted| else max
    requires forall i :: 0 <= i < |hours| ==> hours[i] == sorted[i].hour
    requires forall h :: h in candidates ==> 0 <= h < HOURS
    ensures Best(hours, u, candidates, max)
  {
    HoursOfPermutation(topHours, sorted);
    HoursOfSize(sorted);
    forall i | 0 <= i < |sorted|
      ensures sorted[i].hour in candidates && sorted[i].count == UseDays(u, sorted[i].hour, DAYS)
    {
      assert sorted[i] in topHours;
    }
    forall j | 0 <= j < |hours|
      ensures sorted[j].hour in hours
    {
      assert hours[j] == sorted[j].hour;
    }
    forall i, dropped | 0 <= i < |hours| && dropped in candidates && dropped !in hours
      ensures UseDays(u, hours[i], DAYS) >= UseDays(u, dropped, DAYS)
    {
      var j :| 0 <= j < |sorted| && sorted[j].hour == dropped;
      assert sorted[i].count >= sorted[j].count;
    }
  }

  /** The hours of one app; nothing when it is not used regularly. */
  method FrequentHours(u: AppUsage, config: Threshold) returns (listed: bool, hours: seq<int>)
    requires u.Shaped() && config.Valid()
    ensures if listed then Listed(hours, u, config) else Unlisted(u, config)
  {
    hours := [];
    var totalDayUse := 0;
    for i := 0 to DAYS
      invariant totalDayUse == TotalDays(u, i)
    {
      if u.dayUsage[i] != 0 {
        totalDayUse := totalDayUse + 1;
      }
    }
    if totalDayUse < config.minTotalUseDays {
      return false, [];
    }
    var topHoursUsage, top := GetTopHourUsage(u, config);
    ghost var candidates := Candidates(top, u, config.minHourUseDays);
    HoursOfSize(topHoursUsage);
    if |topHoursUsage| == 0 {
      return false, [];
    }
    var sorted := SortDescending(topHoursUsage);
    ghost var all := sorted;
    if |sorted| > config.maxHighFreqHourNum {
      sorted := sorted[..config.maxHighFreqHourNum];
    }
    for i := 0 to |sorted|
      invariant |hours| == i && forall k :: 0 <= k < i ==> hours[k] == sorted[k].hour
    {
      hours := hours + [sorted[i].hour];
    }
    FirstAreBest(topHoursUsage, all, u, candidates, config.maxHighFreqHourNum, hours);
    return true, hours;
  }

  method GetFreqBundleHours(appUsages: map<string, AppUsage>, config: Threshold)
    returns (appFreqHours: seq<FrequentApp>)
    requires config.Valid() && forall b :: b in appUsages ==> appUsages[b].Shaped()
    ensures forall i :: 0 <= i < |appFreqHours| ==>
              var app := appFreqHours[i];
              app.bundleName in appUsages && Listed(app.hours, appUsages[app.bundleName], config)
    ensures forall i, j :: 0 <= i < j < |appFreqHours| ==> appFreqHours[i].bundleName != appFreqHours[j].bundleName
    ensures forall b :: b in appUsages ==>
              Unlisted(appUsages[b], config) || exists i :: 0 <= i < |appFreqHours| && appFreqHours[i].bundleName == b
  {
    appFreqHours := [];
    var todo := appUsages.Keys;
    while todo != {}
      invariant todo <= appUsages.Keys
      invariant forall i :: 0 <= i < |appFreqHours| ==>
                  var app := appFreqHours[i];
                  app.bundleName in appUsages && app.bundleName !in todo
                  && Listed(app.hours, appUsages[app.bundleName], config)
      invariant forall i, j :: 0 <= i < j < |appFreqHours| ==> appFreqHours[i].bundleName != appFreqHours[j].bundleName
      invariant forall b :: b in appUsages && b !in todo ==>
                  Unlisted(appUsages[b], config) || exists i :: 0 <= i < |appFreqHours| && appFreqHours[i].bundleName == b
      decreases todo
    {
      var appName :| appName in todo;
      todo := todo - {appName};
      var listed, hours := FrequentHours(appUsages[appName], config);
      if listed {
        ghost var before := appFreqHours;
        appFreqHours := appFreqHours + [FrequentApp(appName, hours)];
        assert appFreqHours[|before|].bundleName == appName;
        assert forall i :: 0 <= i < |before| ==> appFreqHours[i] == before[i];
      }
    }
  }
}
