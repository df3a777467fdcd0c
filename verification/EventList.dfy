/** The time-ordered list of pending events (services/packageusage/src/bundle_active_event_list.cpp). */
module EventList {
  import opened Events

  /** The first position whose event is not earlier than `timeStamp`, found by a plain scan. */
  function BestIndex(events: seq<Event>, timeStamp: int): (index: nat)
    ensures index <= |events|
    ensures index < |events| ==> events[index].timeStamp >= timeStamp
    ensures forall i :: 0 <= i < index ==> events[i].timeStamp < timeStamp
  {
    if events == [] || events[0].timeStamp >= timeStamp then 0 else 1 + BestIndex(events[1..], timeStamp)
  }

  /** There is one such position. */
  lemma {:induction false} BestIndexIsLeast(events: seq<Event>, timeStamp: int, index: nat)
    requires index <= |events|
    requires forall i :: 0 <= i < index ==> events[i].timeStamp < timeStamp
    requires index < |events| ==> events[index].timeStamp >= timeStamp
    ensures index == BestIndex(events, timeStamp)
  {
    if index == 0 {
    } else {
      BestIndexIsLeast(events[1..], timeStamp, index - 1);
    }
  }

  function InsertionPoint(events: seq<Event>, timeStamp: int): (index: nat)
    ensures index <= |events|
  {
    if events == [] || timeStamp >= events[|events| - 1].timeStamp then |events| else BestIndex(events, timeStamp)
  }

  function Inserted(events: seq<Event>, e: Event): seq<Event> {
    var index := InsertionPoint(events, e.timeStamp);
    events[..index] + [e] + events[index..]
  }

  function Merged(left: seq<Event>, right: seq<Event>): seq<Event> {
    if right == [] then left else Inserted(Merged(left, right[..|right| - 1]), right[|right| - 1])
  }

  /** A list merged with itself: turn `i` inserts what then stands at position `i`. */
  function SelfMerged(events: seq<Event>, i: nat): (merged: seq<Event>)
    requires i <= |events|
    ensures |merged| == |events| + i
  {
    if i == 0 then events
    else
      var before := SelfMerged(events, i - 1);
      Inserted(before, before[i - 1])
  }

  function Repeated(e: Event, n: nat): (r: seq<Event>)
    ensures |r| == n && forall i :: 0 <= i < n ==> r[i] == e
  {
    if n == 0 then [] else [e] + Repeated(e, n - 1)
  }

  /** An event that is among the earliest, but not among the latest, goes to the front. */
  lemma InsertedFirst(events: seq<Event>, e: Event)
    requires events != [] && events[0].timeStamp >= e.timeStamp && e.timeStamp < events[|events| - 1].timeStamp
    ensures Inserted(events, e) == [e] + events
  {
    BestIndexIsLeast(events, e.timeStamp, 0);
    assert events[..0] == [] && events[0..] == events;
  }

  lemma RepeatedOnce(events: seq<Event>, repeated: seq<Event>, e: Event)
    requires |events| > 1 && events[0] == e && e.timeStamp < events[|events| - 1].timeStamp
    requires forall i :: 0 <= i < |repeated| ==> repeated[i] == e
    ensures (repeated + events)[|repeated|] == e
    ensures Inserted(repeated + events, e) == [e] + repeated + events
  {
    var before := repeated + events;
    assert before[0] == e && before[|before| - 1] == events[|events| - 1];
    InsertedFirst(before, e);
    assert [e] + before == [e] + repeated + events;
  }

  /** With one earliest event, merging a list with itself repeats that event and no other. */
  lemma {:induction false} SelfMergeRepeatsFirst(events: seq<Event>, i: nat)
    requires OrderedByTime(events) && |events| > 1 && events[0].timeStamp < events[1].timeStamp && i <= |events|
    ensures SelfMerged(events, i) == Repeated(events[0], i) + events
  {
    if i == 0 {
    } else {
      SelfMergeRepeatsFirst(events, i - 1);
      assert events[0].timeStamp < events[|events| - 1].timeStamp;
      RepeatedOnce(events, Repeated(events[0], i - 1), events[0]);
    }
  }

  function NotBefore(events: seq<Event>, timeStamp: int): seq<Event> {
    if events == [] then []
    else (if events[0].timeStamp >= timeStamp then [events[0]] else []) + NotBefore(events[1..], timeStamp)
  }

  lemma InsertedKeepsEvents(events: seq<Event>, e: Event)
    ensures multiset(Inserted(events, e)) == multiset(events) + multiset{e}
  {
    var index := InsertionPoint(events, e.timeStamp);
    assert events == events[..index] + events[index..];
  }

  lemma InsertedIsOrdered(events: seq<Event>, e: Event)
    requires OrderedByTime(events)
    ensures OrderedByTime(Inserted(events, e))
    ensures multiset(Inserted(events, e)) == multiset(events) + multiset{e}
  {
    InsertedKeepsEvents(events, e);
    var index, events' := InsertionPoint(events, e.timeStamp), Inserted(events, e);
    forall i, j | 0 <= i < j < |events'|
      ensures events'[i].timeStamp <= events'[j].timeStamp
    {
      if i == index {
        assert events'[j] == events[j - 1];
        assert index < |events| && events[index].timeStamp <= events[j - 1].timeStamp;
      } else if j == index {
        assert events'[i] == events[i];
        assert index == |events| ==> events[i].timeStamp <= events[|events| - 1].timeStamp;
      }
    }
  }

  /** The list after `i` turns of a merge, with another list or with itself. */
  function MergeTurns(left: seq<Event>, right: seq<Event>, same: bool, i: nat): seq<Event>
    requires i <= |right| && (same ==> right == left)
  {
    if same then SelfMerged(left, i) else Merged(left, right[..i])
  }

  lemma NextTurn(left: seq<Event>, right: seq<Event>, same: bool, i: nat)
    requires i < |right| && (same ==> right == left)
    ensures same ==> i < |MergeTurns(left, right, same, i)|
    ensures MergeTurns(left, right, same, i + 1)
         == Inserted(MergeTurns(left, right, same, i), if same then MergeTurns(left, right, same, i)[i] else right[i])
  {
    assert right[..i + 1][..i] == right[..i];
  }

  /** Merging keeps the order and loses no event. */
  lemma {:induction false} MergedIsOrdered(left: seq<Event>, right: seq<Event>)
    requires OrderedByTime(left)
    ensures OrderedByTime(Merged(left, right))
    ensures multiset(Merged(left, right)) == multiset(left) + multiset(right)
  {
    if right == [] {
    } else {
      var init, e := right[..|right| - 1], right[|right| - 1];
      MergedIsOrdered(left, init);
      InsertedIsOrdered(Merged(left, init), e);
      LastSplit(right);
    }
  }

  lemma LastSplit(events: seq<Event>)
    requires events != []
    ensures multiset(events) == multiset(events[..|events| - 1]) + multiset{events[|events| - 1]}
  {
    assert events == events[..|events| - 1] + [events[|events| - 1]];
  }

  lemma AllTurns(left: seq<Event>, right: seq<Event>, same: bool)
    requires OrderedByTime(left) && (same ==> right == left)
    ensures !same ==> MergeTurns(left, right, same, |right|) == Merged(left, right)
                      && multiset(Merged(left, right)) == multiset(left) + multiset(right)
  {
    assert right[..|right|] == right;
    MergedIsOrdered(left, right);
  }

  /** A scan from the best index meets exactly the events at or after the time, in order. */
  lemma {:induction false} ScanFromBestIndex(events: seq<Event>, timeStamp: int)
    requires OrderedByTime(events)
    ensures events[BestIndex(events, timeStamp)..] == NotBefore(events, timeStamp)
  {
    if events == [] {
    } else {
      var rest := events[1..];
      ScanFromBestIndex(rest, timeStamp);
      if events[0].timeStamp >= timeStamp {
        assert rest != [] ==> rest[0].timeStamp >= timeStamp;
        assert BestIndex(rest, timeStamp) == 0 && rest[0..] == rest;
        assert events == [events[0]] + rest;
      } else {
        assert events[1 + BestIndex(rest, timeStamp)..] == rest[BestIndex(rest, timeStamp)..];
      }
    }
  }

  class EventList {
    var events: seq<Event>

    constructor ()
      ensures events == []
    {
      events := [];
    }

    method Clear()
      modifies this
      ensures events == []
    {
      events := [];
    }

    method FindBestIndex(timeStamp: int) returns (result: int)
      requires OrderedByTime(events)
      ensures result == BestIndex(events, timeStamp)
    {
      var size := |events|;
      result := size;
      var lo, hi := 0, size - 1;
      while lo <= hi
        invariant 0 <= lo <= hi + 1 <= size && hi + 1 == result
        invariant forall i :: 0 <= i < lo ==> events[i].timeStamp < timeStamp
        invariant forall i :: result <= i < size ==> events[i].timeStamp >= timeStamp
      {
        var mid := (hi - lo) / 2 + lo;
        if events[mid].timeStamp >= timeStamp {
          hi := mid - 1;
          result := mid;
        } else {
          lo := mid + 1;
        }
      }
      BestIndexIsLeast(events, timeStamp, result);
    }

    method Insert(event: Event)
      requires OrderedByTime(events)
      modifies this
      ensures events == Inserted(old(events), event)
      ensures OrderedByTime(events)
      ensures multiset(events) == multiset(old(events)) + multiset{event}
    {
      InsertedIsOrdered(events, event);
      var size := |events|;
      if size == 0 || event.timeStamp >= events[size - 1].timeStamp {
        events := events + [event];
        return;
      }
      var insertIdx := FindBestIndex(event.timeStamp);
      events := events[..insertIdx] + [event] + events[insertIdx..];
    }

    /** The number of events to insert is taken before the loop, so a list may also be merged with itself. */
    method Merge(right: EventList)
      requires OrderedByTime(events)
      modifies this
      ensures OrderedByTime(events)
      ensures right != this ==> events == Merged(old(events), right.events)
                                && multiset(events) == multiset(old(events)) + multiset(right.events)
      ensures right == this ==> events == SelfMerged(old(events), |old(events)|)
    {
      ghost var left, other := events, right.events;
      var size := |right.events|;
      for i := 0 to size
        invariant OrderedByTime(events) && events == MergeTurns(left, other, right == this, i)
        invariant right != this ==> right.events == other
      {
        NextTurn(left, other, right == this, i);
        Insert(right.events[i]);
      }
      AllTurns(left, other, right == this);
    }
  }
}
