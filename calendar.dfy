/** The proleptic Gregorian calendar, as the application's JavaScript `Date`
    objects and Python `datetime.strptime` see it: calendar dates, day
    numbers, weekdays, the overflow rules of `Date.prototype.setDate` and
    `setMonth`, and the ISO 8601 complete calendar date form YYYY-MM-DD
    (ISO 8601:2004, section 4.1.2.2). */
module Calendar {
  import opened Common

  /** A calendar date; `month` runs 1..12 (JavaScript's `getMonth()` is `month - 1`). */
  datatype Date = Date(year: int, month: int, day: int)

  predicate IsLeapYear(y: int)
  {
    y % 4 == 0 && (y % 100 != 0 || y % 400 == 0)
  }

  function DaysInMonth(y: int, m: int): (n: int)
    requires 1 <= m <= 12
    ensures 28 <= n <= 31
    ensures n == 31 <==> m in {1, 3, 5, 7, 8, 10, 12}
    ensures m == 2 ==> (n == 29 <==> IsLeapYear(y))
  {
    if m == 2 then (if IsLeapYear(y) then 29 else 28)
    else if m in {4, 6, 9, 11} then 30
    else 31
  }

  predicate Valid(d: Date)
  {
    1 <= d.month <= 12 && 1 <= d.day <= DaysInMonth(d.year, d.month)
  }

  // ---------------------------------------------------------------------
  // Day numbers. Months are numbered consecutively (January of year 0 is
  // month 0), and days are numbered consecutively from 0000-01-01 (day 0).

  function MonthIndex(y: int, m: int): int
  {
    y * 12 + (m - 1)
  }

  function MonthLength(mi: int): (n: int)
    ensures 28 <= n <= 31
  {
    DaysInMonth(mi / 12, mi % 12 + 1)
  }

  /** Day number of the first day of month `mi`. */
  function MonthStart(mi: int): int
    decreases if mi >= 0 then mi else -mi
  {
    if mi == 0 then 0
    else if mi > 0 then MonthStart(mi - 1) + MonthLength(mi - 1)
    else MonthStart(mi + 1) - MonthLength(mi)
  }

  lemma MonthStartStep(mi: int)
    ensures MonthStart(mi + 1) == MonthStart(mi) + MonthLength(mi)
  {
  }

  /** Month starts are at least 28 days apart per month. */
  lemma {:induction false} MonthStartMonotone(a: int, b: int)
    requires a <= b
    ensures MonthStart(a) + 28 * (b - a) <= MonthStart(b)
    decreases b - a
  {
    if a < b {
      MonthStartMonotone(a, b - 1);
      MonthStartStep(b - 1);
    }
  }

  function DayNumber(d: Date): int
  {
    MonthStart(MonthIndex(d.year, d.month)) + d.day - 1
  }

  /** `Date.prototype.getDay()`: 0 is Sunday, 6 is Saturday.
      Day 0 (0000-01-01) was a Saturday. */
  function Weekday(d: Date): (w: int)
    ensures 0 <= w < 7
  {
    (DayNumber(d) + 6) % 7
  }

  lemma MonthIndexOfDate(mi: int)
    ensures MonthIndex(mi / 12, mi % 12 + 1) == mi
    ensures 1 <= mi % 12 + 1 <= 12
    ensures MonthLength(mi) == DaysInMonth(mi / 12, mi % 12 + 1)
  {
  }

  lemma IndexOfMonth(y: int, m: int)
    requires 1 <= m <= 12
    ensures MonthIndex(y, m) / 12 == y && MonthIndex(y, m) % 12 + 1 == m
    ensures MonthLength(MonthIndex(y, m)) == DaysInMonth(y, m)
  {
  }

  /** A valid date lies inside its month. */
  lemma DayInMonth(d: Date)
    requires Valid(d)
    ensures MonthStart(MonthIndex(d.year, d.month)) <= DayNumber(d)
    ensures DayNumber(d) < MonthStart(MonthIndex(d.year, d.month) + 1)
  {
    IndexOfMonth(d.year, d.month);
    MonthStartStep(MonthIndex(d.year, d.month));
  }

  /** `a` is `b` or an earlier date, compared field by field: the order in
      which their YYYY-MM-DD texts sort. */
  predicate OnOrBefore(a: Date, b: Date)
  {
    a.year < b.year || (a.year == b.year && (a.month < b.month || (a.month == b.month && a.day <= b.day)))
  }

  /** For valid dates the field-by-field order is the order of day numbers. */
  lemma ChronologicalOrder(a: Date, b: Date)
    requires Valid(a) && Valid(b)
    ensures OnOrBefore(a, b) <==> DayNumber(a) <= DayNumber(b)
  {
    var ia, ib := MonthIndex(a.year, a.month), MonthIndex(b.year, b.month);
    DayInMonth(a);
    DayInMonth(b);
    if ia < ib {
      MonthStartMonotone(ia + 1, ib);
      assert OnOrBefore(a, b);
    } else if ib < ia {
      MonthStartMonotone(ib + 1, ia);
      assert !OnOrBefore(a, b);
    } else {
      assert a.year == b.year && a.month == b.month;
    }
  }

  // ---------------------------------------------------------------------
  // The overflow rule of JavaScript's Date setters: a day outside its month
  // moves into the neighbouring months.

  /** The (month index, day) that day `day` of month `mi` denotes. */
  function NormalizeDay(mi: int, day: int): (r: (int, int))
    ensures 1 <= r.1 <= MonthLength(r.0)
    decreases if day < 1 then 1 else 0, if day < 1 then -day else day
  {
    if day < 1 then NormalizeDay(mi - 1, day + MonthLength(mi - 1))
    else if day > MonthLength(mi) then NormalizeDay(mi + 1, day - MonthLength(mi))
    else (mi, day)
  }

  /** Normalizing keeps the day number: it only moves whole months between
      the month and the day. */
  lemma {:induction false} NormalizeDayStart(mi: int, day: int)
    ensures MonthStart(NormalizeDay(mi, day).0) + NormalizeDay(mi, day).1 == MonthStart(mi) + day
    decreases if day < 1 then 1 else 0, if day < 1 then -day else day
  {
    if day < 1 {
      NormalizeDayStart(mi - 1, day + MonthLength(mi - 1));
      MonthStartStep(mi - 1);
    } else if day > MonthLength(mi) {
      NormalizeDayStart(mi + 1, day - MonthLength(mi));
      MonthStartStep(mi);
    }
  }

  /** The date a JavaScript `Date` holds after its month is set to `month0`
      (zero-based, any integer) and its day of month to `day` (any integer)
      in year `y`. */
  function Normalize(y: int, month0: int, day: int): (r: Date)
    ensures Valid(r)
  {
    var p := NormalizeDay(y * 12 + month0, day);
    MonthIndexOfDate(p.0);
    Date(p.0 / 12, p.0 % 12 + 1, p.1)
  }

  /** The normalized date is day `day` counted from the first of month
      `month0` of year `y`, whatever the overflow. */
  lemma NormalizeDayNumber(y: int, month0: int, day: int)
    ensures DayNumber(Normalize(y, month0, day)) == MonthStart(y * 12 + month0) + day - 1
  {
    var p := NormalizeDay(y * 12 + month0, day);
    var r := Normalize(y, month0, day);
    assert r == Date(p.0 / 12, p.0 % 12 + 1, p.1);
    assert MonthIndex(r.year, r.month) == p.0 by {
      MonthIndexOfDate(p.0);
    }
    NormalizeDayStart(y * 12 + month0, day);
  }

  /** `date.setDate(day)`. */
  function SetDate(date: Date, day: int): (r: Date)
    ensures Valid(r)
  {
    Normalize(date.year, date.month - 1, day)
  }

  /** `setDate` counts the new day from the first of the date's month. */
  lemma SetDateDayNumber(date: Date, day: int)
    ensures DayNumber(SetDate(date, day)) == MonthStart(MonthIndex(date.year, date.month)) + day - 1
  {
    NormalizeDayNumber(date.year, date.month - 1, day);
  }

  /** `date.setMonth(month0, day)`. */
  function SetMonth(date: Date, month0: int, day: int): (r: Date)
    ensures Valid(r)
  {
    Normalize(date.year, month0, day)
  }

  /** Setting an in-range month and day changes nothing else. */
  lemma NormalizeInRange(y: int, month0: int, day: int)
    requires 0 <= month0 < 12 && 1 <= day <= DaysInMonth(y, month0 + 1)
    ensures Normalize(y, month0, day) == Date(y, month0 + 1, day)
  {
    IndexOfMonth(y, month0 + 1);
  }

  /** Day 0 is the last day of the month before. */
  lemma NormalizeDayZero(y: int, month0: int)
    requires 1 <= month0 <= 12
    ensures Normalize(y, month0, 0) == Date(y, month0, DaysInMonth(y, month0))
  {
    var mi := MonthIndex(y, month0);
    assert y * 12 + month0 == mi + 1;
    IndexOfMonth(y, month0);
    assert NormalizeDay(mi, MonthLength(mi)) == (mi, MonthLength(mi));
  }

  // ---------------------------------------------------------------------
  // The YYYY-MM-DD text form

  function DigitChar(n: int): char
    requires 0 <= n < 10
  {
    "0123456789"[n]
  }

  predicate IsDigit(c: char)
  {
    '0' <= c <= '9'
  }

  function DigitValue(c: char): int
    requires IsDigit(c)
  {
    c as int - '0' as int
  }

  /** `n` written with exactly `width` digits, most significant first. */
  function Digits(n: nat, width: nat): (s: string)
    ensures |s| == width
    ensures forall i :: 0 <= i < |s| ==> IsDigit(s[i])
  {
    if width == 0 then ""
    else Digits(n / 10, width - 1) + [DigitChar(n % 10)]
  }

  /** The value of a string of decimal digits. */
  function Number(s: string): nat
    requires forall i :: 0 <= i < |s| ==> IsDigit(s[i])
  {
    if s == [] then 0 else 10 * Number(s[..|s| - 1]) + DigitValue(s[|s| - 1])
  }

  lemma {:induction false} NumberOfDigits(n: nat, width: nat)
    requires n < Pow10(width)
    ensures Number(Digits(n, width)) == n
  {
    if width > 0 {
      var s := Digits(n, width);
      assert s[..|s| - 1] == Digits(n / 10, width - 1);
      NumberOfDigits(n / 10, width - 1);
    }
  }

  function Pow10(k: nat): (p: nat)
    ensures p >= 1
  {
    if k == 0 then 1 else 10 * Pow10(k - 1)
  }

  /** `Date.prototype.toISOString().split('T')[0]`: four-digit years in
      0..9999, otherwise a sign and six digits. */
  function ToIsoDate(d: Date): (s: string)
    requires Valid(d)
    ensures 0 <= d.year <= 9999 ==> |s| == 10 && s[4] == '-' && s[7] == '-'
  {
    var yearText :=
      if 0 <= d.year <= 9999 then Digits(d.year, 4)
      else if d.year < 0 then "-" + Digits(-d.year, 6)
      else "+" + Digits(d.year, 6);
    yearText + "-" + Digits(d.month, 2) + "-" + Digits(d.day, 2)
  }

  /** Python's `datetime.strptime(s, '%Y-%m-%d')`: four digits of year
      (at least 1), a month of one or two digits (01..12 or 1..9), a day of
      two digits, one digit, or a space and one digit, and a day that exists
      in that month. None stands for the ValueError it raises. */
  function ParseIsoDate(s: string): (r: Option<Date>)
    ensures r.Some? ==> Valid(r.value) && r.value.year >= 1
  {
    if |s| < 8 || s[4] != '-' || !AllDigits(s[..4]) then None
    else
      var rest := s[5..];
      var dash := if |rest| > 1 && rest[1] == '-' then 1 else if |rest| > 2 && rest[2] == '-' then 2 else 0;
      if dash == 0 then None
      else
        var monthText := rest[..dash];
        var dayText := rest[dash + 1..];
        var year := Number(s[..4]);
        match (MonthField(monthText), DayField(dayText))
        case (Some(m), Some(day)) =>
          if year >= 1 && day <= DaysInMonth(year, m) then Some(Date(year, m, day)) else None
        case _ => None
  }

  predicate AllDigits(s: string)
  {
    forall i :: 0 <= i < |s| ==> IsDigit(s[i])
  }

  /** `%m`: 01..12 or a single digit 1..9. */
  function MonthField(t: string): (r: Option<int>)
    ensures r.Some? ==> 1 <= r.value <= 12
  {
    if |t| == 1 && '1' <= t[0] <= '9' then Some(DigitValue(t[0]))
    else if |t| == 2 && AllDigits(t) && 1 <= Number(t) <= 12 then Some(Number(t))
    else None
  }

  /** `%d`: 01..31, a single digit 1..9, or a space and a digit 1..9. */
  function DayField(t: string): (r: Option<int>)
    ensures r.Some? ==> 1 <= r.value <= 31
  {
    if |t| == 1 && '1' <= t[0] <= '9' then Some(DigitValue(t[0]))
    else if |t| == 2 && t[0] == ' ' && '1' <= t[1] <= '9' then Some(DigitValue(t[1]))
    else if |t| == 2 && AllDigits(t) && 1 <= Number(t) <= 31 then Some(Number(t))
    else None
  }

  /** Reading back the text form of a date gives the date. */
  lemma IsoDateRoundTrip(d: Date)
    requires Valid(d) && 1 <= d.year <= 9999
    ensures ParseIsoDate(ToIsoDate(d)) == Some(d)
  {
    var s := ToIsoDate(d);
    var y, m, dd := Digits(d.year, 4), Digits(d.month, 2), Digits(d.day, 2);
    assert s == y + "-" + m + "-" + dd;
    assert s[..4] == y;
    assert s[5..] == m + "-" + dd;
    assert (m + "-" + dd)[..2] == m;
    assert (m + "-" + dd)[3..] == dd;
    assert Number(y) == d.year by {
      assert Pow10(4) == 10000;
      NumberOfDigits(d.year, 4);
    }
    TwoDigitFields(d.month);
    TwoDigitFields(d.day);
  }

  lemma TwoDigitFields(n: int)
    requires 1 <= n <= 31
    ensures n <= 12 ==> MonthField(Digits(n, 2)) == Some(n)
    ensures DayField(Digits(n, 2)) == Some(n)
  {
    assert Pow10(2) == 100;
    NumberOfDigits(n, 2);
  }

  // ---------------------------------------------------------------------
  // The en-US short date, `toLocaleDateString("en-US", {year: "numeric",
  // month: "short", day: "numeric"})`: "Jan 5, 2024"

  const MONTH_ABBREVIATIONS: seq<string> :=
    ["Jan", "Feb", "Mar", "Apr", "May", "Jun", "Jul", "Aug", "Sep", "Oct", "Nov", "Dec"]

  /** `n` in decimal without leading zeros. */
  function Decimal(n: nat): (s: string)
    ensures 1 <= |s| && forall i :: 0 <= i < |s| ==> IsDigit(s[i])
    ensures n < 10 <==> |s| == 1
    ensures 10 <= n < 100 ==> |s| == 2
  {
    if n < 10 then [DigitChar(n)] else Decimal(n / 10) + [DigitChar(n % 10)]
  }

  /** Reading a decimal numeral back gives the number. */
  lemma {:induction false} DecimalReadsBack(n: nat)
    ensures Number(Decimal(n)) == n
  {
    var s := Decimal(n);
    assert DigitValue(DigitChar(n % 10)) == n % 10;
    if n >= 10 {
      DecimalReadsBack(n / 10);
      assert s[..|s| - 1] == Decimal(n / 10);
    }
  }

  /** The short date of a valid date from year 1 on. */
  function ShortDate(d: Date): (s: string)
    requires Valid(d) && d.year >= 1
    ensures |s| >= 8 && s[3] == ' '
  {
    assert |MONTH_ABBREVIATIONS[d.month - 1]| == 3;
    MONTH_ABBREVIATIONS[d.month - 1] + " " + Decimal(d.day) + ", " + Decimal(d.year)
  }

  /** The month whose abbreviation is `t`. */
  function MonthOfAbbreviation(t: string): (m: Option<int>)
    ensures m.Some? ==> 1 <= m.value <= 12 && MONTH_ABBREVIATIONS[m.value - 1] == t
  {
    if exists i :: 0 <= i < 12 && MONTH_ABBREVIATIONS[i] == t then
      var i :| 0 <= i < 12 && MONTH_ABBREVIATIONS[i] == t;
      Some(i + 1)
    else None
  }

  /** Reads a short date back: the day has one or two digits before the
      comma. */
  function ReadShortDate(s: string): Option<Date>
  {
    if |s| < 8 || s[3] != ' ' then None
    else
      var width := if s[5] == ',' then 1 else 2;
      var dayText, yearText := s[4..4 + width], s[4 + width + 2..];
      if !AllDigits(dayText) || !AllDigits(yearText) then None
      else match MonthOfAbbreviation(s[..3])
        case None => None
        case Some(m) => Some(Date(Number(yearText), m, Number(dayText)))
  }

  lemma AbbreviationsDistinct(i: int, j: int)
    requires 0 <= i < 12 && 0 <= j < 12 && MONTH_ABBREVIATIONS[i] == MONTH_ABBREVIATIONS[j]
    ensures i == j
  {
  }

  /** The short date names the date it was made from: two valid dates share
      a short date only if they are equal. */
  lemma ShortDateReadsBack(d: Date)
    requires Valid(d) && d.year >= 1
    ensures ReadShortDate(ShortDate(d)) == Some(d)
  {
    var a, dd, y := MONTH_ABBREVIATIONS[d.month - 1], Decimal(d.day), Decimal(d.year);
    var s := ShortDate(d);
    assert s == a + " " + dd + ", " + y;
    assert s[..3] == a;
    var width := |dd|;
    assert s[4..4 + width] == dd;
    assert s[4 + width + 2..] == y;
    assert s[5] == ',' <==> width == 1;
    var m := MonthOfAbbreviation(a);
    assert m.Some?;
    AbbreviationsDistinct(m.value - 1, d.month - 1);
    DecimalReadsBack(d.day);
    DecimalReadsBack(d.year);
  }
}
