/** The reporting ranges of `calculateDateRange`: today's date is a
    parameter, and each case moves copies of it with the JavaScript `Date`
    setters modelled in Calendar. */
module DateRanges {
  import opened Common
  import opened Calendar

  /** The first and last day of a range, before `toISOString` turns them
      into YYYY-MM-DD text (see `RangeText`). */
  datatype DateRange = DateRange(start: Date, end: Date)

  /** The weekly range: the Sunday on or before `today`, and day
      `start.day + 6` counted from the first of today's month, which is six
      days after the Sunday only when the Sunday is in today's month. */
  predicate IsWeekly(today: Date, r: DateRange)
  {
    && Weekday(r.start) == 0
    && 0 <= DayNumber(today) - DayNumber(r.start) <= 6
    && DayNumber(r.end) == MonthStart(MonthIndex(today.year, today.month)) + r.start.day + 5
    && (DayNumber(r.end) == DayNumber(r.start) + 6
        <==> r.start.year == today.year && r.start.month == today.month)
  }

  /** The monthly range: the first and the last day of today's month. */
  predicate IsMonthly(today: Date, r: DateRange)
    requires Valid(today)
  {
    r.start == Date(today.year, today.month, 1)
    && r.end == Date(today.year, today.month, DaysInMonth(today.year, today.month))
  }

  /** The quarterly range: the first day of the calendar quarter holding
      today, and the last day of that quarter's third month. */
  predicate IsQuarterly(today: Date, r: DateRange)
  {
    && r.start.year == today.year && r.start.day == 1
    && r.start.month in {1, 4, 7, 10}
    && r.start.month <= today.month < r.start.month + 3
    && r.end == Date(today.year, r.start.month + 2, DaysInMonth(today.year, r.start.month + 2))
  }

  /** The yearly range: January 1 to December 31 of today's year. */
  predicate IsYearly(today: Date, r: DateRange)
  {
    r.start == Date(today.year, 1, 1) && r.end == Date(today.year, 12, 31)
  }

  method CalculateDateRange(rangeType: string, today: Date) returns (r: DateRange)
    requires Valid(today)
    ensures Valid(r.start) && Valid(r.end)
    ensures OnOrBefore(r.start, r.end)
    ensures rangeType == "daily" ==> r.start == today && r.end == today
    ensures rangeType == "weekly" ==> IsWeekly(today, r)
    ensures rangeType == "monthly" ==> IsMonthly(today, r)
    ensures rangeType == "quarterly" ==> IsQuarterly(today, r)
    ensures rangeType == "yearly" ==> IsYearly(today, r)
    ensures rangeType !in {"daily", "weekly", "monthly", "quarterly", "yearly"} ==>
      r.start == today && r.end == today
  {
    var start := today;
    var end := today;
    if rangeType == "daily" {
      // setHours moves only the time of day, which this model leaves out
    } else if rangeType == "weekly" {
      start := SetDate(start, today.day - Weekday(today));
      end := SetDate(end, start.day + 6);
      SetDateDayNumber(today, today.day - Weekday(today));
      SetDateDayNumber(today, start.day + 6);
      WeeklyRange(today, start, end);
    } else if rangeType == "monthly" {
      start := SetDate(start, 1);
      end := SetMonth(end, start.month - 1 + 1, 0);
      MonthlyRange(today, start, end);
    } else if rangeType == "quarterly" {
      start := SetMonth(start, QuarterStart(today.month), 1);
      end := SetMonth(end, start.month - 1 + 3, 0);
      QuarterlyRange(today, start, end);
    } else if rangeType == "yearly" {
      start := SetMonth(start, 0, 1);
      end := SetMonth(end, 12, 0);
      YearlyRange(today, start, end);
    }
    r := DateRange(start, end);
  }

  /** The weekly case: `start.setDate(today.getDate() - today.getDay())`
      then `end.setDate(start.getDate() + 6)` on a copy of today; the two
      requirements on day numbers are what `setDate` gives (SetDateDayNumber). */
  lemma WeeklyRange(today: Date, start: Date, end: Date)
    requires Valid(today) && Valid(start) && Valid(end)
    requires DayNumber(start) == DayNumber(today) - Weekday(today)
    requires DayNumber(end) == MonthStart(MonthIndex(today.year, today.month)) + start.day + 5
    ensures IsWeekly(today, DateRange(start, end))
    ensures OnOrBefore(start, end)
  {
    assert Weekday(start) == 0 by {
      SundayOnOrBefore(DayNumber(today));
    }
    assert DayNumber(end) >= DayNumber(start) + 6
      && (DayNumber(end) == DayNumber(start) + 6 <==> start.year == today.year && start.month == today.month) by {
      WeekEnd(today, start, end);
    }
    assert OnOrBefore(start, end) by {
      ChronologicalOrder(start, end);
    }
  }

  /** Day `start.day + 6` of today's month is six days after `start` when
      `start` lies in today's month, and later when it lies in the month before. */
  lemma WeekEnd(today: Date, start: Date, end: Date)
    requires Valid(today) && Valid(start)
    requires 0 <= DayNumber(today) - DayNumber(start) <= 6
    requires DayNumber(end) == MonthStart(MonthIndex(today.year, today.month)) + start.day + 5
    ensures DayNumber(end) >= DayNumber(start) + 6
    ensures DayNumber(end) == DayNumber(start) + 6 <==> start.year == today.year && start.month == today.month
  {
    var tmi := MonthIndex(today.year, today.month);
    var smi := MonthIndex(start.year, start.month);
    ChronologicalOrder(start, today);
    assert smi <= tmi;
    MonthStartMonotone(smi, tmi);
    assert smi == tmi <==> start.year == today.year && start.month == today.month by {
      IndexOfMonth(start.year, start.month);
      IndexOfMonth(today.year, today.month);
    }
  }

  /** When the Sunday lies in the month before today's, the weekly range
      overshoots by that month's length: on Tuesday 1 October 2024 it runs
      from Sunday 29 September to Monday 4 November. */
  lemma {:induction false} WeekOvershoots(today: Date, r: DateRange)
    requires Valid(today) && Valid(r.start) && IsWeekly(today, r)
    requires r.start.year != today.year || r.start.month != today.month
    ensures DayNumber(r.end) == DayNumber(r.start) + 6 + MonthLength(MonthIndex(r.start.year, r.start.month))
  {
    var tmi := MonthIndex(today.year, today.month);
    var smi := MonthIndex(r.start.year, r.start.month);
    ChronologicalOrder(r.start, today);
    IndexOfMonth(r.start.year, r.start.month);
    IndexOfMonth(today.year, today.month);
    assert smi < tmi;
    DayInMonth(r.start);
    DayInMonth(today);
    MonthStartMonotone(smi + 1, tmi);
    assert smi + 1 == tmi;
    MonthStartStep(smi);
  }

  /** The week `calculateDateRange` evidently means: from the Sunday on or
      before today to the Saturday six days later, `end` counted from the
      Sunday rather than from the first of today's month. */
  function IntendedWeek(today: Date): (r: DateRange)
    requires Valid(today)
    ensures Valid(r.start) && Valid(r.end) && OnOrBefore(r.start, r.end)
    ensures Weekday(r.start) == 0 && 0 <= DayNumber(today) - DayNumber(r.start) <= 6
    ensures DayNumber(r.end) == DayNumber(r.start) + 6
  {
    var start := SetDate(today, today.day - Weekday(today));
    var end := SetDate(start, start.day + 6);
    SetDateDayNumber(today, today.day - Weekday(today));
    SetDateDayNumber(start, start.day + 6);
    SundayOnOrBefore(DayNumber(today));
    ChronologicalOrder(start, end);
    DateRange(start, end)
  }

  /** Going back `getDay()` days from any day lands on a Sunday. */
  lemma SundayOnOrBefore(n: int)
    ensures (n - (n + 6) % 7 + 6) % 7 == 0
  {
    var q := (n + 6) / 7;
    assert n - (n + 6) % 7 + 6 == 7 * q;
  }

  /** The monthly case: `start.setDate(1)` then
      `end.setMonth(start.getMonth() + 1, 0)`. */
  lemma MonthlyRange(today: Date, start: Date, end: Date)
    requires Valid(today)
    requires start == SetDate(today, 1)
    requires end == SetMonth(today, start.month - 1 + 1, 0)
    ensures IsMonthly(today, DateRange(start, end))
  {
    NormalizeInRange(today.year, today.month - 1, 1);
    assert start == Date(today.year, today.month, 1);
    NormalizeDayZero(today.year, today.month);
    assert end == Normalize(today.year, today.month, 0);
  }

  /** The quarterly case: `start.setMonth(Math.floor(today.getMonth() / 3) * 3, 1)`
      then `end.setMonth(start.getMonth() + 3, 0)`. */
  lemma QuarterlyRange(today: Date, start: Date, end: Date)
    requires Valid(today)
    requires start == SetMonth(today, QuarterStart(today.month), 1)
    requires end == SetMonth(today, start.month - 1 + 3, 0)
    ensures IsQuarterly(today, DateRange(start, end))
  {
    var m0 := QuarterStart(today.month);
    QuarterRange(today.year, m0);
    assert start == Date(today.year, m0 + 1, 1);
    assert end == Normalize(today.year, m0 + 3, 0);
  }

  /** Zero-based first month of the quarter that holds month `m` (1..12). */
  function QuarterStart(m: int): (m0: int)
    requires 1 <= m <= 12
    ensures (m0 == 0 || m0 == 3 || m0 == 6 || m0 == 9) && m0 <= m - 1 < m0 + 3
  {
    (m - 1) / 3 * 3
  }

  lemma QuarterRange(y: int, m0: int)
    requires 0 <= m0 <= 9
    ensures Normalize(y, m0, 1) == Date(y, m0 + 1, 1)
    ensures Normalize(y, m0 + 3, 0) == Date(y, m0 + 3, DaysInMonth(y, m0 + 3))
  {
    NormalizeInRange(y, m0, 1);
    NormalizeDayZero(y, m0 + 3);
  }

  /** The yearly case: `start.setMonth(0, 1)` then `end.setMonth(12, 0)`. */
  lemma YearlyRange(today: Date, start: Date, end: Date)
    requires Valid(today)
    requires start == SetMonth(today, 0, 1)
    requires end == SetMonth(today, 12, 0)
    ensures IsYearly(today, DateRange(start, end))
  {
    NormalizeInRange(today.year, 0, 1);
    NormalizeDayZero(today.year, 12);
  }

  /** `{ start: start.toISOString().split('T')[0], end: ... }`. */
  function RangeText(r: DateRange): (string, string)
    requires Valid(r.start) && Valid(r.end)
  {
    (ToIsoDate(r.start), ToIsoDate(r.end))
  }

  /** Both ends of a range in years 1..9999 read back as the dates they denote. */
  lemma RangeTextReadsBack(r: DateRange)
    requires Valid(r.start) && Valid(r.end)
    requires 1 <= r.start.year <= 9999 && 1 <= r.end.year <= 9999
    ensures ParseIsoDate(RangeText(r).0) == Some(r.start)
    ensures ParseIsoDate(RangeText(r).1) == Some(r.end)
  {
    IsoDateRoundTrip(r.start);
    IsoDateRoundTrip(r.end);
  }
}
