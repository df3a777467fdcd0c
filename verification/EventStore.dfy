/**
 The event table and event queries that splice it with the events still in memory
 (services/common/src/bundle_active_usage_database.cpp, services/packageusage/src/bundle_active_user_service.cpp).
 A row keeps its time relative to the start of the table and only part of an event.
 */
module EventStore {
  import opened Events
  import opened EventList

  datatype EventRow = EventRow(userId: int, bundleName: string, eventId: int, time: int, abilityId: string, uid: int)

  /** The part of an event that a row keeps. */
  datatype Recorded = Recorded(bundleName: string, eventId: int, timeStamp: int, abilityId: string, uid: int)

  datatype EventTable = NoTable | DeviceEventLog(start: int, rows: seq<EventRow>)

  function Record(e: Event): Recorded {
    Recorded(e.bundleName, e.eventId, e.timeStamp, e.abilityId, e.uid)
  }

  function RowOf(start: int, userId: int, e: Event): EventRow {
    EventRow(userId, e.bundleName, e.eventId, e.timeStamp - start, e.abilityId, e.uid)
  }

  function RowsOf(start: int, userId: int, events: seq<Event>): seq<EventRow> {
    seq(|events|, i requires 0 <= i < |events| => RowOf(start, userId, events[i]))
  }

  function Read(start: int, r: EventRow): Recorded {
    Recorded(r.bundleName, r.eventId, r.time + start, r.abilityId, r.uid)
  }

  /** A table is made on first need. */
  function Opened(table: EventTable, time: int): EventTable {
    if table.NoTable? then DeviceEventLog(time, []) else table
  }

  /** Start-up drops a table that lies in the future. */
  function Initialised(table: EventTable, currentTime: int): EventTable {
    Opened(if table.DeviceEventLog? && currentTime < table.start then NoTable else table, currentTime)
  }

  function Flushed(table: EventTable, beginTime: int, userId: int, events: seq<Event>): EventTable {
    var target := Opened(table, beginTime);
    target.(rows := target.rows + RowsOf(target.start, userId, events))
  }

  const EVENT_BEGIN_TIME_INITIAL_VALUE := -1

  /** The relative time up to which rows are deleted; nothing is deleted when it is not positive. */
  function DeletePoint(table: EventTable, eventBeginTime: int, retention: int): int {
    if table.NoTable? || eventBeginTime == EVENT_BEGIN_TIME_INITIAL_VALUE then 0
    else eventBeginTime - retention - table.start
  }

  function Later(rows: seq<EventRow>, point: int): seq<EventRow> {
    if rows == [] then []
    else Later(rows[..|rows| - 1], point) + (if rows[|rows| - 1].time <= point then [] else [rows[|rows| - 1]])
  }

  function Purged(table: EventTable, eventBeginTime: int, retention: int): EventTable {
    var point := DeletePoint(table, eventBeginTime, retention);
    if point <= 0 || table.NoTable? then table else table.(rows := Later(table.rows, point))
  }

  const EVENT_TIME_IN_MILLIS_MIN := 0

  predicate Selects(start: int, r: EventRow, beginTime: int, endTime: int, userId: int, bundleName: string) {
    && (if beginTime - start >= 0 then beginTime - start else EVENT_TIME_IN_MILLIS_MIN) <= r.time <= endTime - start
    && r.userId == userId && (bundleName == "" || r.bundleName == bundleName)
  }

  function Selected(start: int, rows: seq<EventRow>, beginTime: int, endTime: int, userId: int, bundleName: string)
    : seq<Recorded>
  {
    if rows == [] then []
    else
      var last := rows[|rows| - 1];
      Selected(start, rows[..|rows| - 1], beginTime, endTime, userId, bundleName)
      + (if Selects(start, last, beginTime, endTime, userId, bundleName) then [Read(start, last)] else [])
  }

  function QueryTable(table: EventTable, beginTime: int, endTime: int, userId: int, bundleName: string): seq<Recorded> {
    if table.NoTable? || endTime <= beginTime || endTime < table.start then []
    else Selected(table.start, table.rows, beginTime, endTime, userId, bundleName)
  }

  predicate InRange(e: Event, beginTime: int, endTime: int, bundleName: string) {
    beginTime <= e.timeStamp <= endTime && (bundleName == "" || e.bundleName == bundleName)
  }

  /** The reference for events: everything in the time asked for. */
  function Between(events: seq<Event>, beginTime: int, endTime: int, bundleName: string): seq<Recorded> {
    if events == [] then []
    else
      var last := events[|events| - 1];
      Between(events[..|events| - 1], beginTime, endTime, bundleName)
      + (if InRange(last, beginTime, endTime, bundleName) then [Record(last)] else [])
  }

  // ----- a flush and a query -----

  lemma {:induction false} SelectedSplit(start: int, a: seq<EventRow>, b: seq<EventRow>, beginTime: int, endTime: int,
                                         userId: int, bundleName: string)
    ensures Selected(start, a + b, beginTime, endTime, userId, bundleName)
         == Selected(start, a, beginTime, endTime, userId, bundleName)
            + Selected(start, b, beginTime, endTime, userId, bundleName)
  {
    if b == [] {
      assert a + b == a;
    } else {
      var ab := a + b;
      assert ab[..|ab| - 1] == a + b[..|b| - 1] && ab[|ab| - 1] == b[|b| - 1];
      SelectedSplit(start, a, b[..|b| - 1], beginTime, endTime, userId, bundleName);
    }
  }

  lemma {:induction false} BetweenSplit(a: seq<Event>, b: seq<Event>, beginTime: int, endTime: int, bundleName: string)
    ensures Between(a + b, beginTime, endTime, bundleName)
         == Between(a, beginTime, endTime, bundleName) + Between(b, beginTime, endTime, bundleName)
  {
    if b == [] {
      assert a + b == a;
    } else {
      var ab := a + b;
      assert ab[..|ab| - 1] == a + b[..|b| - 1] && ab[|ab| - 1] == b[|b| - 1];
      BetweenSplit(a, b[..|b| - 1], beginTime, endTime, bundleName);
    }
  }

  lemma SelectedOne(start: int, userId: int, e: Event, beginTime: int, endTime: int, bundleName: string)
    ensures Selected(start, RowsOf(start, userId, [e]), beginTime, endTime, userId, bundleName)
         == if start <= e.timeStamp then Between([e], beginTime, endTime, bundleName) else []
  {
    var rows := RowsOf(start, userId, [e]);
    assert rows[..0] == [] && [e][..0] == [] && rows[0] == RowOf(start, userId, e);
  }

  /** Events at or after the start of the table read back exactly as the reference gives them, older ones never. */
  lemma {:induction false} SelectedIsBetween(start: int, userId: int, events: seq<Event>, beginTime: int, endTime: int,
                                             bundleName: string)
    ensures Selected(start, RowsOf(start, userId, events), beginTime, endTime, userId, bundleName)
         == Between(NotBefore(events, start), beginTime, endTime, bundleName)
  {
    if events == [] {
    } else {
      var head, rest := [events[0]], events[1..];
      SelectedIsBetween(start, userId, rest, beginTime, endTime, bundleName);
      SelectedOne(start, userId, events[0], beginTime, endTime, bundleName);
      assert RowsOf(start, userId, events) == RowsOf(start, userId, head) + RowsOf(start, userId, rest);
      SelectedSplit(start, RowsOf(start, userId, head), RowsOf(start, userId, rest), beginTime, endTime, userId, bundleName);
      if start <= events[0].timeStamp {
        BetweenSplit(head, NotBefore(rest, start), beginTime, endTime, bundleName);
      } else {
        assert [] + NotBefore(rest, start) == NotBefore(rest, start);
      }
    }
  }

  lemma {:induction false} NothingBetween(events: seq<Event>, beginTime: int, endTime: int, bundleName: string)
    requires forall i :: 0 <= i < |events| ==> !InRange(events[i], beginTime, endTime, bundleName)
    ensures Between(events, beginTime, endTime, bundleName) == []
  {
    if events == [] {
    } else {
      NothingBetween(events[..|events| - 1], beginTime, endTime, bundleName);
    }
  }

  lemma {:induction false} NotBeforeTimes(events: seq<Event>, time: int)
    ensures forall i :: 0 <= i < |NotBefore(events, time)| ==> time <= NotBefore(events, time)[i].timeStamp
  {
    if events == [] {
    } else {
      NotBeforeTimes(events[1..], time);
    }
  }

  /**
   After a flush a query finds the flushed events of its time besides what it found before, but none that is older
   than the table: its row has a time below 0, which no query asks for.
   */
  lemma FlushAddsEvents(table: EventTable, flushBegin: int, userId: int, events: seq<Event>, beginTime: int, endTime: int,
                        bundleName: string)
    requires beginTime < endTime
    ensures QueryTable(Flushed(table, flushBegin, userId, events), beginTime, endTime, userId, bundleName)
         == QueryTable(table, beginTime, endTime, userId, bundleName)
            + Between(NotBefore(events, Opened(table, flushBegin).start), beginTime, endTime, bundleName)
  {
    var target := Opened(table, flushBegin);
    SelectedSplit(target.start, target.rows, RowsOf(target.start, userId, events), beginTime, endTime, userId, bundleName);
    SelectedIsBetween(target.start, userId, events, beginTime, endTime, bundleName);
    if endTime < target.start {
      NotBeforeTimes(events, target.start);
      NothingBetween(NotBefore(events, target.start), beginTime, endTime, bundleName);
    }
  }

  // ----- deleting old rows -----

  function Old(rows: seq<EventRow>, point: int): seq<EventRow> {
    if rows == [] then []
    else Old(rows[..|rows| - 1], point) + (if rows[|rows| - 1].time <= point then [rows[|rows| - 1]] else [])
  }

  lemma SelectedSnoc(start: int, rows: seq<EventRow>, last: EventRow, beginTime: int, endTime: int, userId: int,
                     bundleName: string, r: Recorded)
    ensures multiset(Selected(start, rows + [last], beginTime, endTime, userId, bundleName))[r]
         == multiset(Selected(start, rows, beginTime, endTime, userId, bundleName))[r]
          + multiset(Selected(start, [last], beginTime, endTime, userId, bundleName))[r]
  {
    SelectedSplit(start, rows, [last], beginTime, endTime, userId, bundleName);
  }

  lemma {:induction false} PurgeSplitsAt(start: int, rows: seq<EventRow>, point: int, beginTime: int, endTime: int,
                                         userId: int, bundleName: string, r: Recorded)
    ensures multiset(Selected(start, rows, beginTime, endTime, userId, bundleName))[r]
         == multiset(Selected(start, Later(rows, point), beginTime, endTime, userId, bundleName))[r]
          + multiset(Selected(start, Old(rows, point), beginTime, endTime, userId, bundleName))[r]
  {
    if rows == [] {
    } else {
      var init, last := rows[..|rows| - 1], rows[|rows| - 1];
      assert rows == init + [last];
      PurgeSplitsAt(start, init, point, beginTime, endTime, userId, bundleName, r);
      SelectedSnoc(start, init, last, beginTime, endTime, userId, bundleName, r);
      if last.time <= point {
        SelectedSnoc(start, Old(init, point), last, beginTime, endTime, userId, bundleName, r);
        assert Later(rows, point) == Later(init, point) && Old(rows, point) == Old(init, point) + [last];
      } else {
        SelectedSnoc(start, Later(init, point), last, beginTime, endTime, userId, bundleName, r);
        assert Old(rows, point) == Old(init, point) && Later(rows, point) == Later(init, point) + [last];
      }
    }
  }

  /** Deleting old rows splits the answer into what stays and what goes. */
  lemma PurgeSplits(start: int, rows: seq<EventRow>, point: int, beginTime: int, endTime: int, userId: int,
                    bundleName: string)
    ensures multiset(Selected(start, rows, beginTime, endTime, userId, bundleName))
         == multiset(Selected(start, Later(rows, point), beginTime, endTime, userId, bundleName))
          + multiset(Selected(start, Old(rows, point), beginTime, endTime, userId, bundleName))
  {
    forall r: Recorded {
      PurgeSplitsAt(start, rows, point, beginTime, endTime, userId, bundleName, r);
    }
  }

  /** The rows that a purge deletes and a query would have returned. */
  function Lost(table: EventTable, eventBeginTime: int, retention: int, beginTime: int, endTime: int, userId: int,
                bundleName: string): seq<Recorded>
  {
    var point := DeletePoint(table, eventBeginTime, retention);
    if point <= 0 || table.NoTable? then []
    else QueryTable(table.(rows := Old(table.rows, point)), beginTime, endTime, userId, bundleName)
  }

  lemma PurgeLoses(table: EventTable, eventBeginTime: int, retention: int, beginTime: int, endTime: int, userId: int,
                   bundleName: string)
    ensures multiset(QueryTable(table, beginTime, endTime, userId, bundleName))
         == multiset(QueryTable(Purged(table, eventBeginTime, retention), beginTime, endTime, userId, bundleName))
          + multiset(Lost(table, eventBeginTime, retention, beginTime, endTime, userId, bundleName))
  {
    var point := DeletePoint(table, eventBeginTime, retention);
    if point > 0 && table.DeviceEventLog? {
      PurgeSplits(table.start, table.rows, point, beginTime, endTime, userId, bundleName);
    }
  }

  lemma {:induction false} SelectedOldIsOld(start: int, rows: seq<EventRow>, point: int, beginTime: int, endTime: int,
                                            userId: int, bundleName: string)
    ensures forall r :: r in Selected(start, Old(rows, point), beginTime, endTime, userId, bundleName) ==>
              r.timeStamp <= start + point
  {
    if rows == [] {
    } else {
      var init, last := rows[..|rows| - 1], rows[|rows| - 1];
      SelectedOldIsOld(start, init, point, beginTime, endTime, userId, bundleName);
      SelectedSplit(start, Old(init, point), [last], beginTime, endTime, userId, bundleName);
      assert Old(init, point) + [] == Old(init, point);
      assert [last][..0] == [];
    }
  }

  /** What a purge deletes lies more than the retention time before the new period. */
  lemma LostIsOld(table: EventTable, eventBeginTime: int, retention: int, beginTime: int, endTime: int, userId: int,
                  bundleName: string)
    ensures forall r :: r in Lost(table, eventBeginTime, retention, beginTime, endTime, userId, bundleName) ==>
              r.timeStamp <= eventBeginTime - retention
  {
    var point := DeletePoint(table, eventBeginTime, retention);
    if point > 0 && table.DeviceEventLog? {
      SelectedOldIsOld(table.start, table.rows, point, beginTime, endTime, userId, bundleName);
    }
  }

  // ----- events in memory -----

  /** The scan from the best index that an event query makes over the events in memory. */
  function FromMemory(events: seq<Event>, beginTime: int, endTime: int, bundleName: string): seq<Recorded> {
    Between(NotBefore(events, beginTime), beginTime, endTime, bundleName)
  }

  lemma {:induction false} FromMemoryIsBetween(events: seq<Event>, beginTime: int, endTime: int, bundleName: string)
    ensures FromMemory(events, beginTime, endTime, bundleName) == Between(events, beginTime, endTime, bundleName)
  {
    if events == [] {
    } else {
      FromMemoryIsBetween(events[1..], beginTime, endTime, bundleName);
      var head := if events[0].timeStamp >= beginTime then [events[0]] else [];
      assert events == [events[0]] + events[1..];
      BetweenSplit(head, NotBefore(events[1..], beginTime), beginTime, endTime, bundleName);
      BetweenSplit([events[0]], events[1..], beginTime, endTime, bundleName);
      assert [events[0]][..0] == [];
    }
  }

  // ----- flush transparency -----

  datatype Answer = OutOfRange | Found(events: seq<Recorded>)

  /** An event query: the table first, then memory unless the range ends by the begin of the current day. */
  function QueryEvents(table: EventTable, events: seq<Event>, currentBegin: int, currentEnd: int, beginTime: int,
                       endTime: int, userId: int, bundleName: string): Answer
  {
    if beginTime >= currentEnd then OutOfRange
    else
      var stored := QueryTable(table, beginTime, endTime, userId, bundleName);
      if currentEnd == 0 || endTime <= currentBegin then Found(stored)
      else Found(stored + FromMemory(events, beginTime, endTime, bundleName))
  }

  function Earlier(events: seq<Event>, time: int): seq<Event> {
    if events == [] then []
    else (if events[0].timeStamp < time then [events[0]] else []) + Earlier(events[1..], time)
  }

  /** One more event, at the front, is on one side of the time or the other. */
  lemma OneMoreEarlier(e: Event, rest: seq<Event>, time: int, beginTime: int, endTime: int, bundleName: string)
    ensures var here := Between([e], beginTime, endTime, bundleName);
            && Between(Earlier([e] + rest, time), beginTime, endTime, bundleName)
               == (if e.timeStamp < time then here else []) + Between(Earlier(rest, time), beginTime, endTime, bundleName)
            && Between(NotBefore([e] + rest, time), beginTime, endTime, bundleName)
               == (if e.timeStamp < time then [] else here) + Between(NotBefore(rest, time), beginTime, endTime, bundleName)
  {
    assert ([e] + rest)[1..] == rest;
    if e.timeStamp < time {
      BetweenSplit([e], Earlier(rest, time), beginTime, endTime, bundleName);
    } else {
      BetweenSplit([e], NotBefore(rest, time), beginTime, endTime, bundleName);
    }
    assert [] + Earlier(rest, time) == Earlier(rest, time) && [] + NotBefore(rest, time) == NotBefore(rest, time);
  }

  lemma {:induction false} EarlierOrNot(events: seq<Event>, time: int, beginTime: int, endTime: int, bundleName: string)
    ensures multiset(Between(events, beginTime, endTime, bundleName))
         == multiset(Between(Earlier(events, time), beginTime, endTime, bundleName))
          + multiset(Between(NotBefore(events, time), beginTime, endTime, bundleName))
  {
    if events == [] {
    } else {
      var e, rest := events[0], events[1..];
      assert events == [e] + rest;
      EarlierOrNot(rest, time, beginTime, endTime, bundleName);
      BetweenSplit([e], rest, beginTime, endTime, bundleName);
      OneMoreEarlier(e, rest, time, beginTime, endTime, bundleName);
    }
  }

  /** Events in memory that are older than the event table: a flush gives them rows that no query finds. */
  function TooOld(table: EventTable, currentBegin: int, events: seq<Event>, beginTime: int, endTime: int, bundleName: string)
    : seq<Recorded>
  {
    Between(Earlier(events, Opened(table, currentBegin).start), beginTime, endTime, bundleName)
  }

  /** The other events in memory, which a flush moves to where queries find them. */
  function Findable(table: EventTable, currentBegin: int, events: seq<Event>, beginTime: int, endTime: int, bundleName: string)
    : seq<Recorded>
  {
    Between(NotBefore(events, Opened(table, currentBegin).start), beginTime, endTime, bundleName)
  }

  lemma AnswerBefore(table: EventTable, events: seq<Event>, currentBegin: int, currentEnd: int, beginTime: int,
                     endTime: int, userId: int, bundleName: string)
    requires beginTime < currentEnd && currentEnd != 0
    ensures QueryEvents(table, events, currentBegin, currentEnd, beginTime, endTime, userId, bundleName)
         == Found(QueryTable(table, beginTime, endTime, userId, bundleName)
                  + (if endTime > currentBegin then Between(events, beginTime, endTime, bundleName) else []))
  {
    FromMemoryIsBetween(events, beginTime, endTime, bundleName);
  }

  lemma AnswerAfter(purged: EventTable, events: seq<Event>, currentBegin: int, currentEnd: int, beginTime: int,
                    endTime: int, userId: int, bundleName: string)
    requires beginTime < endTime && beginTime < currentEnd && currentEnd != 0
    ensures QueryEvents(Flushed(purged, currentBegin, userId, events), [], currentBegin, currentEnd, beginTime, endTime,
                        userId, bundleName)
         == Found(QueryTable(purged, beginTime, endTime, userId, bundleName)
                  + Findable(purged, currentBegin, events, beginTime, endTime, bundleName))
  {
    AnswerBefore(Flushed(purged, currentBegin, userId, events), [], currentBegin, currentEnd, beginTime, endTime, userId,
                 bundleName);
    FlushAddsEvents(purged, currentBegin, userId, events, beginTime, endTime, bundleName);
    assert Between([], beginTime, endTime, bundleName) == [];
  }

  lemma Balance(stored: seq<Recorded>, purged: seq<Recorded>, lost: seq<Recorded>, memory: seq<Recorded>,
                old_: seq<Recorded>, found: seq<Recorded>)
    requires multiset(stored) == multiset(purged) + multiset(lost)
    requires multiset(memory) == multiset(old_) + multiset(found)
    ensures multiset(purged + found) + multiset(lost) + multiset(old_) == multiset(stored + memory)
    ensures multiset(purged + found) + multiset(lost) == multiset(stored) + multiset(found)
  {
  }

  /**
   A flush moves the events from memory to the table. When the query looks at memory at all, its answer afterwards,
   with the purged rows and the events too old for the table put back, is the answer before; when its range ends by
   the begin of the day, the answer afterwards with the purged rows is the answer before with the events that a query
   finds only in the table.
   */
  lemma FlushKeepsAnswer(table: EventTable, events: seq<Event>, currentBegin: int, currentEnd: int, retention: int,
                         purge: bool, beginTime: int, endTime: int, userId: int, bundleName: string)
    requires beginTime < endTime && beginTime < currentEnd && currentEnd != 0
    ensures var before := QueryEvents(table, events, currentBegin, currentEnd, beginTime, endTime, userId, bundleName);
            var purged := if purge then Purged(table, currentBegin, retention) else table;
            var lost := if purge then Lost(table, currentBegin, retention, beginTime, endTime, userId, bundleName) else [];
            var after := QueryEvents(Flushed(purged, currentBegin, userId, events), [], currentBegin, currentEnd,
                                     beginTime, endTime, userId, bundleName);
            before.Found? && after.Found?
            && (endTime > currentBegin ==>
                  multiset(after.events) + multiset(lost)
                  + multiset(TooOld(table, currentBegin, events, beginTime, endTime, bundleName)) == multiset(before.events))
            && (endTime <= currentBegin ==>
                  multiset(after.events) + multiset(lost)
                  == multiset(before.events)
                   + multiset(Findable(table, currentBegin, events, beginTime, endTime, bundleName)))
  {
    var purged := if purge then Purged(table, currentBegin, retention) else table;
    var lost := if purge then Lost(table, currentBegin, retention, beginTime, endTime, userId, bundleName) else [];
    AnswerBefore(table, events, currentBegin, currentEnd, beginTime, endTime, userId, bundleName);
    AnswerAfter(purged, events, currentBegin, currentEnd, beginTime, endTime, userId, bundleName);
    PurgeLoses(table, currentBegin, retention, beginTime, endTime, userId, bundleName);
    EarlierOrNot(events, Opened(table, currentBegin).start, beginTime, endTime, bundleName);
    Balance(QueryTable(table, beginTime, endTime, userId, bundleName),
            QueryTable(purged, beginTime, endTime, userId, bundleName),
            lost, Between(events, beginTime, endTime, bundleName),
            TooOld(table, currentBegin, events, beginTime, endTime, bundleName),
            Findable(table, currentBegin, events, beginTime, endTime, bundleName));
  }

  lemma {:induction false} BetweenTimes(events: seq<Event>, beginTime: int, endTime: int, bundleName: string)
    ensures forall r :: r in Between(events, beginTime, endTime, bundleName) ==>
              exists i :: 0 <= i < |events| && r == Record(events[i])
  {
    if events == [] {
    } else {
      BetweenTimes(events[..|events| - 1], beginTime, endTime, bundleName);
      assert events[|events| - 1] == events[|events| - 1];
      forall r | r in Between(events, beginTime, endTime, bundleName)
        ensures exists i :: 0 <= i < |events| && r == Record(events[i])
      {
        if r in Between(events[..|events| - 1], beginTime, endTime, bundleName) {
          var i :| 0 <= i < |events| - 1 && r == Record(events[..|events| - 1][i]);
          assert r == Record(events[i]);
        }
      }
    }
  }

  /** The events in memory are younger than everything that a purge at the begin of the day deletes. */
  predicate Recent(events: seq<Event>, currentBegin: int, retention: int) {
    forall i :: 0 <= i < |events| ==> currentBegin - retention < events[i].timeStamp
  }

  lemma {:induction false} NotBeforeMembers(events: seq<Event>, time: int)
    ensures forall e :: e in NotBefore(events, time) ==> e in events
  {
    if events == [] {
    } else {
      NotBeforeMembers(events[1..], time);
      assert forall e :: e in events[1..] ==> e in events;
    }
  }

  lemma FindableIsRecent(table: EventTable, currentBegin: int, events: seq<Event>, beginTime: int, endTime: int,
                         bundleName: string, retention: int)
    requires Recent(events, currentBegin, retention)
    ensures forall r :: r in Findable(table, currentBegin, events, beginTime, endTime, bundleName) ==>
              r.timeStamp > currentBegin - retention
  {
    var kept := NotBefore(events, Opened(table, currentBegin).start);
    NotBeforeMembers(events, Opened(table, currentBegin).start);
    BetweenTimes(kept, beginTime, endTime, bundleName);
    forall i | 0 <= i < |kept|
      ensures kept[i].timeStamp > currentBegin - retention
    {
      assert kept[i] in events;
    }
  }

  /**
   Flush transparency of event queries. A range that ends after the begin of the day keeps its answer if and only if
   no row of it is purged and no event of it in memory is older than the table; a range that ends by then, if and only
   if no row of it is purged and no event of it waits in memory for the table.
   */
  lemma FlushIsTransparent(table: EventTable, events: seq<Event>, currentBegin: int, currentEnd: int, retention: int,
                           purge: bool, beginTime: int, endTime: int, userId: int, bundleName: string)
    requires beginTime < endTime && beginTime < currentEnd && currentEnd != 0
    ensures var before := QueryEvents(table, events, currentBegin, currentEnd, beginTime, endTime, userId, bundleName);
            var purged := if purge then Purged(table, currentBegin, retention) else table;
            var lost := if purge then Lost(table, currentBegin, retention, beginTime, endTime, userId, bundleName) else [];
            var after := QueryEvents(Flushed(purged, currentBegin, userId, events), [], currentBegin, currentEnd,
                                     beginTime, endTime, userId, bundleName);
            before.Found? && after.Found?
            && (endTime > currentBegin ==>
                  (multiset(after.events) == multiset(before.events) <==>
                   lost == [] && TooOld(table, currentBegin, events, beginTime, endTime, bundleName) == []))
            && (endTime <= currentBegin && Recent(events, currentBegin, retention) ==>
                  (multiset(after.events) == multiset(before.events) <==>
                   lost == [] && Findable(table, currentBegin, events, beginTime, endTime, bundleName) == []))
  {
    FlushKeepsAnswer(table, events, currentBegin, currentEnd, retention, purge, beginTime, endTime, userId, bundleName);
    var lost := if purge then Lost(table, currentBegin, retention, beginTime, endTime, userId, bundleName) else [];
    var purged := if purge then Purged(table, currentBegin, retention) else table;
    var x := multiset(QueryEvents(table, events, currentBegin, currentEnd, beginTime, endTime, userId, bundleName).events);
    var y := multiset(QueryEvents(Flushed(purged, currentBegin, userId, events), [], currentBegin, currentEnd,
                                  beginTime, endTime, userId, bundleName).events);
    if endTime > currentBegin {
      Removed(lost, TooOld(table, currentBegin, events, beginTime, endTime, bundleName), x, y);
    } else if Recent(events, currentBegin, retention) {
      LostIsOld(table, currentBegin, retention, beginTime, endTime, userId, bundleName);
      FindableIsRecent(table, currentBegin, events, beginTime, endTime, bundleName, retention);
      Disjoint(lost, Findable(table, currentBegin, events, beginTime, endTime, bundleName), currentBegin - retention, x, y);
    }
  }

  lemma Removed(a: seq<Recorded>, b: seq<Recorded>, x: multiset<Recorded>, y: multiset<Recorded>)
    requires y + multiset(a) + multiset(b) == x
    ensures y == x <==> a == [] && b == []
  {
    assert |x| == |y| + |a| + |b|;
  }

  /** Rows from before an instant and rows from then on can only cancel when there are none. */
  lemma Disjoint(a: seq<Recorded>, b: seq<Recorded>, instant: int, x: multiset<Recorded>, y: multiset<Recorded>)
    requires forall r :: r in a ==> r.timeStamp <= instant
    requires forall r :: r in b ==> r.timeStamp > instant
    requires y + multiset(a) == x + multiset(b)
    ensures x == y <==> a == [] && b == []
  {
    if a == [] && b == [] {
      assert x + multiset(b) == x;
      assert y + multiset(a) == y;
    } else {
      var r := if a != [] then a[0] else b[0];
      assert r in multiset(a) <==> r in a;
      assert r in multiset(b) <==> r in b;
      assert (y + multiset(a))[r] == y[r] + multiset(a)[r];
      assert (x + multiset(b))[r] == x[r] + multiset(b)[r];
    }
  }
}
