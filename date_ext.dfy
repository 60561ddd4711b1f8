/**
 * Date helpers (`Date+EXT`). A date is seconds on the reference clock; the calendar's answers
 * (the week's interval, adding days, same-day tests) are passed in.
 */
module DateExt {
  import opened Wrappers

  const Int64Min: int := -0x8000_0000_0000_0000
  const Int64Max: int := 0x7FFF_FFFF_FFFF_FFFF

  predicate InInt64(x: int) {
    Int64Min <= x <= Int64Max
  }

  /** The integer products the conversion computes do not overflow; Swift traps otherwise. */
  predicate ShiftRepresentable(days: int, hours: int, minutes: int) {
    InInt64(days * 86400) && InInt64(hours * 3600) && InInt64(minutes * 60)
  }

  /** `addingTimeInterval(days:hours:minutes:)`. */
  function AddingTimeInterval(date: real, days: int, hours: int, minutes: int): (r: real)
    requires ShiftRepresentable(days, hours, minutes)
    ensures r - date == (86400 * days + 3600 * hours + 60 * minutes) as real
  {
    var dayInterval := (days * 24 * 60 * 60) as real;
    var hourInterval := (hours * 60 * 60) as real;
    var minuteInterval := (minutes * 60) as real;
    date + (dayInterval + hourInterval + minuteInterval)
  }

  /** With every argument defaulted the date is unchanged. */
  lemma AddingNothing(date: real)
    ensures AddingTimeInterval(date, 0, 0, 0) == date
  {
  }

  /** One day, twenty-four hours and 1440 minutes are the same shift. */
  lemma DayHoursMinutesAgree(date: real)
    ensures AddingTimeInterval(date, 1, 0, 0) == AddingTimeInterval(date, 0, 24, 0) == AddingTimeInterval(date, 0, 0, 1440)
  {
  }

  /** Two shifts in a row are one shift by the added amounts. */
  lemma AddingComposes(date: real, d1: int, h1: int, m1: int, d2: int, h2: int, m2: int)
    requires ShiftRepresentable(d1, h1, m1) && ShiftRepresentable(d2, h2, m2) && ShiftRepresentable(d1 + d2, h1 + h2, m1 + m2)
    ensures AddingTimeInterval(AddingTimeInterval(date, d1, h1, m1), d2, h2, m2) == AddingTimeInterval(date, d1 + d2, h1 + h2, m1 + m2)
  {
  }

  /** The end `formattedTimeRange(from:to:)` shows: the given one, or an hour after the start. */
  function TimeRangeEnd(start: real, end: Option<real>): (e: real)
    ensures end.Some? ==> e == end.value
    ensures end.None? ==> e == AddingTimeInterval(start, 0, 1, 0)
  {
    if end.Some? then end.value else start + 3600.0
  }

  /** `fullDayHours`: the hours of a day. */
  function FullDayHours(): (hours: seq<int>)
    ensures |hours| == 24
    ensures forall i :: 0 <= i < 24 ==> hours[i] == i
    ensures forall i, j :: 0 <= i < j < 24 ==> hours[i] < hours[j]
  {
    seq(24, i => i)
  }

  /** `startOfWeek(for:)`: the start of the calendar's week interval, or the date when there is none. */
  function StartOfWeek(date: real, weekStart: Option<real>): (s: real)
    ensures weekStart.Some? ==> s == weekStart.value
    ensures weekStart.None? ==> s == date
  {
    if weekStart.Some? then weekStart.value else date
  }

  /** `isSame(_:)`: no date is never the same day; otherwise the calendar decides. */
  function IsSame(date: real, other: Option<real>, sameDay: (real, real) -> bool): (b: bool)
    ensures other.None? ==> !b
    ensures other.Some? ==> b == sameDay(date, other.value)
  {
    if other.None? then false else sameDay(date, other.value)
  }

  datatype Day = Day(date: real) {
    function Id(): real {
      date
    }
  }

  /** The days `0 ..< n` after `first` that the calendar can produce, in order. */
  function WeekDays(first: real, addDays: (int, real) -> Option<real>, n: nat): (days: seq<Day>)
    ensures |days| <= n
    ensures (forall i :: 0 <= i < n ==> addDays(i, first).Some?) ==>
      |days| == n && forall i :: 0 <= i < n ==> days[i].date == addDays(i, first).value
  {
    if n == 0 then []
    else
      var earlier := WeekDays(first, addDays, n - 1);
      match addDays(n - 1, first)
      case Some(d) => earlier + [Day(d)]
      case None => earlier
  }

  /**
   * What `compactMap` keeps when some offsets do not resolve: one day per resolved offset below `n`,
   * in increasing offset order, and no other.
   */
  lemma {:induction false} WeekDaysResolved(first: real, addDays: (int, real) -> Option<real>, n: nat)
    returns (offsets: seq<nat>)
    ensures |offsets| == |WeekDays(first, addDays, n)|
    ensures forall k :: 0 <= k < |offsets| ==>
      offsets[k] < n && addDays(offsets[k], first) == Some(WeekDays(first, addDays, n)[k].date)
    ensures forall k, l :: 0 <= k < l < |offsets| ==> offsets[k] < offsets[l]
    ensures forall i :: 0 <= i < n && addDays(i, first).Some? ==> i in offsets
  {
    if n == 0 {
      offsets := [];
    } else {
      var earlier := WeekDaysResolved(first, addDays, n - 1);
      var prev := WeekDays(first, addDays, n - 1);
      match addDays(n - 1, first)
      case Some(d) =>
        assert WeekDays(first, addDays, n) == prev + [Day(d)];
        offsets := earlier + [n - 1];
      case None =>
        assert WeekDays(first, addDays, n) == prev;
        offsets := earlier;
    }
  }

  /** `currentWeek`: up to seven days from the week's start, or none when the week is unresolved. */
  function CurrentWeek(weekStart: Option<real>, addDays: (int, real) -> Option<real>): (days: seq<Day>)
    ensures weekStart.None? ==> days == []
    ensures |days| <= 7
    ensures weekStart.Some? && (forall i :: 0 <= i < 7 ==> addDays(i, weekStart.value).Some?) ==>
      |days| == 7 && forall i :: 0 <= i < 7 ==> days[i].date == addDays(i, weekStart.value).value
  {
    if weekStart.None? then [] else WeekDays(weekStart.value, addDays, 7)
  }
}
