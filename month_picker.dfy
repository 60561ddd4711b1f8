/**
 * The drag-driven month picker (`MonthPicker`). A date is a month of the calendar, numbered as
 * `year * 12 + month`, and an offset into that month; the calendar's month arithmetic is
 * assumed always to produce a date.
 */
module MonthPicking {
  import opened Wrappers

  datatype CalendarDate = CalendarDate(monthIndex: int, offset: nat)

  /** Date order: earlier month first, then earlier instant within the month. */
  predicate Before(a: CalendarDate, b: CalendarDate) {
    a.monthIndex < b.monthIndex || (a.monthIndex == b.monthIndex && a.offset < b.offset)
  }

  /** `monthStart`: the first instant of the date's year and month. */
  function MonthStart(d: CalendarDate): (s: CalendarDate)
    ensures s.monthIndex == d.monthIndex && s.offset == 0
    ensures !Before(d, s)
  {
    CalendarDate(d.monthIndex, 0)
  }

  lemma MonthStartIdempotent(d: CalendarDate)
    ensures MonthStart(MonthStart(d)) == MonthStart(d)
  {
  }

  /** `calendar.date(byAdding: .month, value: delta, to: start)` for a month start. */
  function AddMonths(start: CalendarDate, delta: int): CalendarDate {
    CalendarDate(start.monthIndex + delta, start.offset)
  }

  /** The month of `d` lies between the months of the bounds; an absent bound constrains nothing. */
  predicate InBounds(d: CalendarDate, minMonth: Option<CalendarDate>, maxMonth: Option<CalendarDate>) {
    (minMonth.None? || minMonth.value.monthIndex <= d.monthIndex)
    && (maxMonth.None? || d.monthIndex <= maxMonth.value.monthIndex)
  }

  /** `canStep(delta)`: the target month start is neither before the first nor after the last allowed one. */
  function CanStep(month: CalendarDate, minMonth: Option<CalendarDate>, maxMonth: Option<CalendarDate>, delta: int): (b: bool)
    ensures b <==> InBounds(AddMonths(MonthStart(month), delta), minMonth, maxMonth)
  {
    var m := MonthStart(AddMonths(MonthStart(month), delta));
    !(minMonth.Some? && Before(m, MonthStart(minMonth.value)))
    && !(maxMonth.Some? && Before(MonthStart(maxMonth.value), m))
  }

  /** The month after `step(delta)`. */
  function StepResult(month: CalendarDate, minMonth: Option<CalendarDate>, maxMonth: Option<CalendarDate>, delta: int)
    : (r: CalendarDate)
    ensures !CanStep(month, minMonth, maxMonth, delta) ==> r == month
    ensures CanStep(month, minMonth, maxMonth, delta) ==> r.offset == 0 && r.monthIndex == month.monthIndex + delta
    ensures InBounds(month, minMonth, maxMonth) ==> InBounds(r, minMonth, maxMonth)
  {
    if CanStep(month, minMonth, maxMonth, delta) then AddMonths(MonthStart(month), delta) else month
  }

  /** The month after a series of steps. */
  function StepAll(month: CalendarDate, minMonth: Option<CalendarDate>, maxMonth: Option<CalendarDate>, deltas: seq<int>)
    : CalendarDate
    decreases |deltas|
  {
    if deltas == [] then month
    else StepAll(StepResult(month, minMonth, maxMonth, deltas[0]), minMonth, maxMonth, deltas[1..])
  }

  /** A month that starts within the bounds stays within them whatever steps follow. */
  lemma {:induction false} StepsStayInBounds(month: CalendarDate, minMonth: Option<CalendarDate>, maxMonth: Option<CalendarDate>,
                                             deltas: seq<int>)
    requires InBounds(month, minMonth, maxMonth)
    ensures InBounds(StepAll(month, minMonth, maxMonth, deltas), minMonth, maxMonth)
    decreases |deltas|
  {
    if deltas != [] {
      StepsStayInBounds(StepResult(month, minMonth, maxMonth, deltas[0]), minMonth, maxMonth, deltas[1..]);
    }
  }

  /** The drag rule: a horizontal drag longer than 24 points steps one month, leftward forward. */
  function DragDelta(dx: real, dy: real): (delta: Option<int>)
    ensures delta.Some? <==> Abs(dx) > Abs(dy) && Abs(dx) > 24.0
    ensures delta.Some? ==> (delta.value == 1 && dx < 0.0) || (delta.value == -1 && dx >= 0.0)
  {
    if Abs(dx) > Abs(dy) && Abs(dx) > 24.0 then Some(if dx < 0.0 then 1 else -1) else None
  }

  function Abs(x: real): real {
    if x < 0.0 then -x else x
  }

  /** The picker's bound `month` and its optional limits. */
  class MonthPicker {
    var month: CalendarDate
    const minMonth: Option<CalendarDate>
    const maxMonth: Option<CalendarDate>

    constructor(month: CalendarDate, minMonth: Option<CalendarDate>, maxMonth: Option<CalendarDate>)
      ensures this.month == month && this.minMonth == minMonth && this.maxMonth == maxMonth
    {
      this.month := month;
      this.minMonth := minMonth;
      this.maxMonth := maxMonth;
    }

    predicate Valid()
      reads this
    {
      InBounds(month, minMonth, maxMonth)
    }

    /** `step(delta)`: moves to the start of the month `delta` months on, when that month is allowed. */
    method Step(delta: int)
      modifies this
      ensures month == StepResult(old(month), minMonth, maxMonth, delta)
      ensures old(Valid()) ==> Valid()
    {
      if CanStep(month, minMonth, maxMonth, delta) {
        month := AddMonths(MonthStart(month), delta);
      }
    }

    /** The drag gesture's end: steps by the drag rule's delta, if any. */
    method DragEnded(dx: real, dy: real)
      modifies this
      ensures DragDelta(dx, dy).None? ==> month == old(month)
      ensures DragDelta(dx, dy).Some? ==> month == StepResult(old(month), minMonth, maxMonth, DragDelta(dx, dy).value)
      ensures old(Valid()) ==> Valid()
    {
      var delta := DragDelta(dx, dy);
      if delta.Some? {
        Step(delta.value);
      }
    }
  }
}
