/**
 Period starts in the calendar of fixed-length periods (services/packageusage/src/bundle_active_calendar.cpp).
 The remainder is the truncating one of C++.
 */
module Calendar {

  const ONE_DAY_TIME_DEBUG := 1 * 10 * 60 * 1000
  const ONE_WEEK_TIME_DEBUG := 1 * 20 * 60 * 1000
  const ONE_MONTH_TIME_DEBUG := 1 * 30 * 60 * 1000
  const ONE_YEAR_TIME_DEBUG := 1 * 40 * 60 * 1000

  /** The lengths of a day, a week, a month and a year. */
  const DEBUG_LENGTHS: seq<int> :=
    [ONE_DAY_TIME_DEBUG, ONE_WEEK_TIME_DEBUG, ONE_MONTH_TIME_DEBUG, ONE_YEAR_TIME_DEBUG]

  /** Every period is a whole number of days. */
  ghost predicate Aligned(lengths: seq<int>) {
    && |lengths| == 4 && lengths[0] > 0
    && forall i :: 0 <= i < 4 ==> lengths[i] > 0 && IsMultiple(lengths[i], lengths[0])
  }

  ghost predicate IsMultiple(x: int, unit: int) {
    exists q :: x == Times(unit, q)
  }

  ghost function Times(unit: int, q: int): int {
    unit * q
  }

  function Remainder(a: int, b: int): int
    requires b > 0
  {
    if a >= 0 then a % b else -((-a) % b)
  }

  function Truncate(time: int, length: int): int
    requires length > 0
  {
    time - Remainder(time, length)
  }

  lemma DebugLengthsAreAligned()
    ensures Aligned(DEBUG_LENGTHS)
  {
    assert DEBUG_LENGTHS[0] == Times(ONE_DAY_TIME_DEBUG, 1);
    assert DEBUG_LENGTHS[1] == Times(ONE_DAY_TIME_DEBUG, 2);
    assert DEBUG_LENGTHS[2] == Times(ONE_DAY_TIME_DEBUG, 3);
    assert DEBUG_LENGTHS[3] == Times(ONE_DAY_TIME_DEBUG, 4);
  }

  lemma {:induction false} TimesGrows(unit: int, p: int, q: int)
    requires unit > 0 && p < q
    ensures Times(unit, p) + unit <= Times(unit, q)
    decreases q - p
  {
    assert Times(unit, q - 1) + unit == Times(unit, q);
    if p == q - 1 {
    } else {
      TimesGrows(unit, p, q - 1);
    }
  }

  lemma QuotientTimes(time: int, length: int)
    requires length > 0
    ensures time - time % length == Times(length, time / length)
  {
  }

  /**
   From time 0 on truncation gives the start of the period that contains the time: the one multiple of the
   length within a length below it.
   */
  lemma TruncateIsPeriodStart(time: int, length: int, begin: int)
    requires length > 0 && time >= 0
    ensures begin == Truncate(time, length) <==> IsMultiple(begin, length) && begin <= time < begin + length
  {
    QuotientTimes(time, length);
    var start := Truncate(time, length);
    assert start == Times(length, time / length);
    if IsMultiple(begin, length) && begin <= time < begin + length {
      var q :| begin == Times(length, q);
      if q < time / length {
        TimesGrows(length, q, time / length);
      } else if time / length < q {
        TimesGrows(length, time / length, q);
      }
    }
  }

  /** Before time 0 truncation goes the other way, to the end of the period. */
  lemma TruncateBeforeZero(time: int, length: int)
    requires length > 0 && time < 0
    ensures IsMultiple(Truncate(time, length), length) && time <= Truncate(time, length) < time + length
  {
    QuotientTimes(-time, length);
    assert Truncate(time, length) == Times(length, -((-time) / length));
  }

  /** A later time has a later or the same start, and leaving a period means passing its end. */
  lemma TruncateAdvances(time: int, length: int, begin: int)
    requires length > 0 && time >= 0 && IsMultiple(begin, length) && begin <= time
    ensures begin <= Truncate(time, length)
    ensures Truncate(time, length) != begin ==> begin + length <= Truncate(time, length)
  {
    TruncateIsPeriodStart(time, length, Truncate(time, length));
    var start := Truncate(time, length);
    var p :| begin == Times(length, p);
    var q :| start == Times(length, q);
    if p < q {
      TimesGrows(length, p, q);
    } else if q < p {
      TimesGrows(length, q, p);
    }
  }

  /** When the day of `time` expires: a day on, rounded down. */
  function Tomorrow(time: int, day: int): int
    requires day > 0
  {
    Truncate(time + day, day)
  }

  /** Rounding the time of tomorrow down gives the day after the current one. */
  lemma TomorrowIsNextDay(time: int, day: int)
    requires day > 0 && time >= 0
    ensures Tomorrow(time, day) == Truncate(time, day) + day && time < Tomorrow(time, day)
    ensures IsMultiple(Truncate(time, day) + day, day)
  {
    TruncateIsPeriodStart(time, day, Truncate(time, day));
    var q :| Truncate(time, day) == Times(day, q);
    assert Truncate(time, day) + day == Times(day, q + 1);
    TruncateIsPeriodStart(time + day, day, Truncate(time, day) + day);
  }

  lemma MultipleOfMultiple(x: int, length: int, day: int)
    requires IsMultiple(x, length) && IsMultiple(length, day)
    ensures IsMultiple(x, day)
  {
    var p :| x == Times(length, p);
    var q :| length == Times(day, q);
    assert x == Times(day, q * p);
  }

  /** A longer period never starts after the day: its start is the start of some day. */
  lemma LongerStartsNoLater(time: int, lengths: seq<int>, i: nat)
    requires Aligned(lengths) && i < 4 && time >= 0
    ensures Truncate(time, lengths[i]) <= Truncate(time, lengths[0])
    ensures IsMultiple(Truncate(time, lengths[i]), lengths[0])
  {
    TruncateIsPeriodStart(time, lengths[i], Truncate(time, lengths[i]));
    MultipleOfMultiple(Truncate(time, lengths[i]), lengths[i], lengths[0]);
    TruncateAdvances(time, lengths[0], Truncate(time, lengths[i]));
  }

  lemma SumOfMultiples(x: int, y: int, day: int)
    requires IsMultiple(x, day) && IsMultiple(y, day)
    ensures IsMultiple(x + y, day)
  {
    var p :| x == Times(day, p);
    var q :| y == Times(day, q);
    assert x + y == Times(day, p + q);
  }

  /** A longer period never ends before the day. */
  lemma LongerEndsNoEarlier(time: int, lengths: seq<int>, i: nat)
    requires Aligned(lengths) && i < 4 && time >= 0
    ensures Truncate(time, lengths[0]) + lengths[0] <= Truncate(time, lengths[i]) + lengths[i]
  {
    var end := Truncate(time, lengths[i]) + lengths[i];
    TruncateIsPeriodStart(time, lengths[i], Truncate(time, lengths[i]));
    TruncateIsPeriodStart(time, lengths[0], Truncate(time, lengths[0]));
    LongerStartsNoLater(time, lengths, i);
    SumOfMultiples(Truncate(time, lengths[i]), lengths[i], lengths[0]);
    var p :| Truncate(time, lengths[0]) == Times(lengths[0], p);
    var q :| end == Times(lengths[0], q);
    if q < p {
      TimesGrows(lengths[0], q, p);
    } else if p < q {
      TimesGrows(lengths[0], p, q);
    }
  }

  class Calendar {
    var time: int
    const lengths: seq<int>

    constructor (timeStamp: int, lengths: seq<int>)
      ensures time == timeStamp && this.lengths == lengths
    {
      time := timeStamp;
      this.lengths := lengths;
    }

    method SetMilliseconds(timeStamp: int)
      modifies this
      ensures time == timeStamp
    {
      time := timeStamp;
    }

    method TruncateTo(intervalType: nat)
      requires |lengths| == 4 && forall i :: 0 <= i < 4 ==> lengths[i] > 0
      modifies this
      ensures time == if intervalType < 4 then Truncate(old(time), lengths[intervalType]) else old(time)
    {
      if intervalType < 4 {
        time := time - Remainder(time, lengths[intervalType]);
      }
    }

    method IncreaseDays(val: int)
      requires |lengths| == 4
      modifies this
      ensures time == old(time) + val * lengths[0]
    {
      time := time + val * lengths[0];
    }
  }
}
