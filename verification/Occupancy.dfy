/**
 Reference meaning of a duration counter. A population changes at time stamps; its occupied time is
 the number of milliseconds during which somebody is inside, so overlaps count once. A counter is a
 total together with the time stamp up to which it has been brought forward; `Tracks` says that the
 counter shows the occupied time at every instant from the last change on.
 */
module Occupancy {

  datatype Change<T> = Enter(who: T) | Leave(who: T) | Stay

  datatype Timed<T> = At(time: int, change: Change<T>)

  function Apply<T>(inside: set<T>, change: Change<T>): set<T> {
    match change
    case Enter(x) => inside + {x}
    case Leave(x) => inside - {x}
    case Stay => inside
  }

  /** Who is inside after all the changes. */
  function After<T>(start: set<T>, changes: seq<Timed<T>>): set<T> {
    if changes == [] then start
    else Apply(After(start, changes[..|changes| - 1]), changes[|changes| - 1].change)
  }

  /** The changes that have taken effect during the millisecond that starts at `instant`. */
  function UpTo<T>(changes: seq<Timed<T>>, instant: int): seq<Timed<T>> {
    if changes == [] then []
    else
      var rest := UpTo(changes[..|changes| - 1], instant);
      if changes[|changes| - 1].time <= instant then rest + [changes[|changes| - 1]] else rest
  }

  predicate OccupiedAt<T>(start: set<T>, changes: seq<Timed<T>>, instant: int) {
    After(start, UpTo(changes, instant)) != {}
  }

  /** Number of milliseconds of [from, until) with somebody inside. */
  function Millis<T>(start: set<T>, changes: seq<Timed<T>>, from: int, until: int): nat
    decreases until - from
  {
    if until <= from then 0
    else Millis(start, changes, from, until - 1) + (if OccupiedAt(start, changes, until - 1) then 1 else 0)
  }

  function EndTime<T>(changes: seq<Timed<T>>, from: int): int {
    if changes == [] then from else changes[|changes| - 1].time
  }

  ghost predicate Ordered<T>(changes: seq<Timed<T>>, from: int) {
    && (forall i :: 0 <= i < |changes| ==> from <= changes[i].time)
    && forall i, j :: 0 <= i < j < |changes| ==> changes[i].time <= changes[j].time
  }

  datatype Meter<T> = Meter(total: int, last: int, inside: set<T>)

  /** What the counter shows at `now`: the stored total plus the stretch that is still open. */
  function Accounted<T>(m: Meter<T>, now: int): int {
    m.total + (if m.inside != {} then now - m.last else 0)
  }

  ghost predicate Tracks<T>(m: Meter<T>, base: int, start: set<T>, changes: seq<Timed<T>>, from: int) {
    && Ordered(changes, from)
    && m.inside == After(start, changes)
    && forall now :: EndTime(changes, from) <= now ==> Accounted(m, now) == base + Millis(start, changes, from, now)
  }

  lemma {:induction false} UpToAll<T>(changes: seq<Timed<T>>, instant: int)
    requires forall i :: 0 <= i < |changes| ==> changes[i].time <= instant
    ensures UpTo(changes, instant) == changes
  {
    if changes == [] {
    } else {
      UpToAll(changes[..|changes| - 1], instant);
    }
  }

  lemma OccupiedAfterEnd<T>(start: set<T>, changes: seq<Timed<T>>, from: int, instant: int)
    requires Ordered(changes, from) && EndTime(changes, from) <= instant
    ensures OccupiedAt(start, changes, instant) <==> After(start, changes) != {}
  {
    assert forall i :: 0 <= i < |changes| ==> i == |changes| - 1 || changes[i].time <= changes[|changes| - 1].time;
    UpToAll(changes, instant);
  }

  lemma {:induction false} MillisSteady<T>(
    start: set<T>, changes: seq<Timed<T>>, from: int, mid: int, until: int, occupied: bool)
    requires from <= mid <= until
    requires forall instant :: mid <= instant < until ==> OccupiedAt(start, changes, instant) == occupied
    ensures Millis(start, changes, from, until)
         == Millis(start, changes, from, mid) + (if occupied then until - mid else 0)
    decreases until - mid
  {
    if until <= mid {
    } else {
      MillisSteady(start, changes, from, mid, until - 1, occupied);
      assert OccupiedAt(start, changes, until - 1) == occupied;
    }
  }

  /** The time up to an instant and the time after it. */
  lemma {:induction false} MillisSplit<T>(start: set<T>, changes: seq<Timed<T>>, from: int, mid: int, until: int)
    requires from <= mid <= until
    ensures Millis(start, changes, from, until) == Millis(start, changes, from, mid) + Millis(start, changes, mid, until)
    decreases until - mid
  {
    if mid == until {
    } else {
      MillisSplit(start, changes, from, mid, until - 1);
    }
  }

  /** After the last change the population stands still, so the occupied time grows all or nothing. */
  lemma MillisAfterEnd<T>(start: set<T>, changes: seq<Timed<T>>, first: int, from: int, mid: int, until: int)
    requires Ordered(changes, first) && EndTime(changes, first) <= mid && from <= mid <= until
    ensures Millis(start, changes, from, until)
         == Millis(start, changes, from, mid) + (if After(start, changes) != {} then until - mid else 0)
  {
    var occupied := After(start, changes) != {};
    forall instant | mid <= instant < until
      ensures OccupiedAt(start, changes, instant) == occupied
    {
      OccupiedAfterEnd(start, changes, first, instant);
    }
    MillisSteady(start, changes, from, mid, until, occupied);
  }

  /** A later change does not touch the time before it. */
  lemma {:induction false} MillisBeforeChange<T>(
    start: set<T>, changes: seq<Timed<T>>, from: int, until: int, at: Timed<T>)
    requires until <= at.time
    ensures Millis(start, changes + [at], from, until) == Millis(start, changes, from, until)
    decreases until - from
  {
    if until <= from {
    } else {
      MillisBeforeChange(start, changes, from, until - 1, at);
      assert (changes + [at])[..|changes|] == changes;
    }
  }

  lemma AfterSnoc<T>(start: set<T>, changes: seq<Timed<T>>, at: Timed<T>)
    ensures After(start, changes + [at]) == Apply(After(start, changes), at.change)
  {
    assert (changes + [at])[..|changes|] == changes;
  }

  /**
   A counter keeps tracking when one more change happens, provided that the update leaves the shown
   value untouched at the instant of the change.
   */
  lemma TracksStep<T>(m: Meter<T>, m': Meter<T>, base: int, start: set<T>, changes: seq<Timed<T>>, from: int,
                      at: Timed<T>)
    requires Tracks(m, base, start, changes, from)
    requires from <= at.time && EndTime(changes, from) <= at.time
    requires m'.inside == Apply(m.inside, at.change)
    requires Accounted(m', at.time) == Accounted(m, at.time)
    ensures Tracks(m', base, start, changes + [at], from)
  {
    var changes' := changes + [at];
    AfterSnoc(start, changes, at);
    MillisBeforeChange(start, changes, from, at.time, at);
    forall now | at.time <= now
      ensures Accounted(m', now) == base + Millis(start, changes', from, now)
    {
      MillisAfterEnd(start, changes', from, from, at.time, now);
    }
  }

  /** Any counter tracks the empty history from what it shows at the start. */
  lemma TracksStart<T>(m: Meter<T>, from: int)
    ensures Tracks(m, Accounted(m, from), m.inside, [], from)
  {
    forall now | from <= now
      ensures Accounted(m, now) == Accounted(m, from) + Millis(m.inside, [], from, now)
    {
      MillisAfterEnd(m.inside, [], from, from, from, now);
    }
  }

  // ----- a counter that joins late -----

  /**
   From the instant `since` on the counter shows `base` and the occupied time from `origin` on, although the
   changes go back further.
   */
  ghost predicate Shows<T>(m: Meter<T>, base: int, start: set<T>, changes: seq<Timed<T>>, origin: int, since: int) {
    && m.inside == After(start, changes)
    && forall t :: since <= t ==> Accounted(m, t) == base + Millis(start, changes, origin, t)
  }

  lemma ShowsStep<T>(m: Meter<T>, m': Meter<T>, base: int, start: set<T>, changes: seq<Timed<T>>, first: int,
                     origin: int, since: int, at: Timed<T>)
    requires Shows(m, base, start, changes, origin, since)
    requires Ordered(changes, first) && first <= at.time && EndTime(changes, first) <= at.time
    requires since <= at.time && origin <= at.time
    requires m'.inside == Apply(m.inside, at.change) && Accounted(m', at.time) == Accounted(m, at.time)
    ensures Shows(m', base, start, changes + [at], origin, at.time)
  {
    var changes' := changes + [at];
    AfterSnoc(start, changes, at);
    MillisBeforeChange(start, changes, origin, at.time, at);
    forall t | at.time <= t
      ensures Accounted(m', t) == base + Millis(start, changes', origin, t)
    {
      MillisAfterEnd(start, changes', first, origin, at.time, t);
    }
  }

  /** A counter that starts at `origin` with the present population shows the time from there on. */
  lemma ShowsFresh<T>(m: Meter<T>, start: set<T>, changes: seq<Timed<T>>, first: int, origin: int)
    requires Ordered(changes, first) && EndTime(changes, first) <= origin
    requires m.inside == After(start, changes)
    requires forall t :: origin <= t ==> Accounted(m, t) == if m.inside != {} then t - origin else 0
    ensures Shows(m, 0, start, changes, origin, origin)
  {
    forall t | origin <= t
      ensures Accounted(m, t) == Millis(start, changes, origin, t)
    {
      MillisAfterEnd(start, changes, first, origin, origin, t);
    }
  }
}
