/** The dashboard's views of the transaction list: the reporting-period
    filter, the totals and balance, the search and type filter with its
    newest-first order, and the ten-per-page pagination. */
module FinanceFilters {
  import opened Common
  import opened Calendar
  import opened Ledger
  import opened Registry
  import opened DateRanges

  // ---------------------------------------------------------------------
  // The reporting period (getFilteredTransactions)
  //
  // Instants are milliseconds counted from 0000-01-01 00:00 in the
  // browser's time zone, taken to be UTC: `new Date("YYYY-MM-DD")` is then
  // the midnight that starts that day. `timeOfDay` is the current time's
  // offset into today.

  const MS_PER_DAY: int := 86400000

  function Midnight(d: Date): int
  {
    DayNumber(d) * MS_PER_DAY
  }

  /** The day the period of a preset range starts on; `None` for the custom
      range and for any other value. */
  function PeriodStart(rangeType: string, today: Date): (r: Option<Date>)
    requires Valid(today)
    ensures r.Some? ==> Valid(r.value)
    ensures r.Some? <==> rangeType in [DAILY, WEEKLY, MONTHLY, QUARTERLY, YEARLY]
  {
    if rangeType == DAILY then Some(today)
    else if rangeType == WEEKLY then Some(SetDate(today, today.day - Weekday(today)))
    else if rangeType == MONTHLY then Some(SetDate(today, 1))
    else if rangeType == QUARTERLY then Some(SetMonth(today, QuarterStart(today.month), 1))
    else if rangeType == YEARLY then Some(SetMonth(today, 0, 1))
    else None
  }

  /** The instant `startDate` holds: the start day at the current time of
      day, except for the daily range, which `setHours(0, 0, 0, 0)` moves
      to midnight. */
  function StartInstant(rangeType: string, today: Date, timeOfDay: int): Option<int>
    requires Valid(today)
  {
    match PeriodStart(rangeType, today)
    case None => None
    case Some(start) => Some(Midnight(start) + if rangeType == DAILY then 0 else timeOfDay)
  }

  predicate NotBefore(startMs: int, t: Transaction)
  {
    Midnight(t.date) >= startMs
  }

  predicate InCustomRange(custom: DateRange, t: Transaction)
  {
    Midnight(custom.start) <= Midnight(t.date) <= Midnight(custom.end)
  }

  /** getFilteredTransactions as written: the custom range keeps the dates
      between its ends; a preset range keeps what lies at or after
      `startDate`, with no upper bound; any other value keeps everything. */
  function RangeFiltered(txs: seq<Transaction>, rangeType: string, today: Date, timeOfDay: int,
                         custom: DateRange): seq<Transaction>
    requires Valid(today)
  {
    if rangeType == CUSTOM then Filter(txs, t => InCustomRange(custom, t))
    else match StartInstant(rangeType, today, timeOfDay)
      case None => txs
      case Some(startMs) => Filter(txs, t => NotBefore(startMs, t))
  }

  /** What the preset ranges keep as written: from the day after the start
      day, and the start day itself only at midnight or for the daily range. */
  lemma RangeKeeps(txs: seq<Transaction>, rangeType: string, today: Date, timeOfDay: int,
                   custom: DateRange, t: Transaction)
    requires Valid(today) && 0 <= timeOfDay < MS_PER_DAY
    requires PeriodStart(rangeType, today).Some? && t in txs
    ensures t in RangeFiltered(txs, rangeType, today, timeOfDay, custom) <==>
      var start := PeriodStart(rangeType, today).value;
      DayNumber(t.date) > DayNumber(start)
      || (DayNumber(t.date) == DayNumber(start) && (rangeType == DAILY || timeOfDay == 0))
  {
    var start := PeriodStart(rangeType, today).value;
    var startMs := StartInstant(rangeType, today, timeOfDay).value;
    assert rangeType != CUSTOM;
    assert RangeFiltered(txs, rangeType, today, timeOfDay, custom) == Filter(txs, u => NotBefore(startMs, u));
    assert t in Filter(txs, u => NotBefore(startMs, u)) <==> NotBefore(startMs, t) by {
      var r := Filter(txs, u => NotBefore(startMs, u));
      if t in r {
        var i :| 0 <= i < |r| && r[i] == t;
      }
      var j :| 0 <= j < |txs| && txs[j] == t;
    }
    DayScale(DayNumber(t.date), DayNumber(start), startMs - Midnight(start));
  }

  /** Whole days scaled to milliseconds, against an offset inside one day. */
  lemma DayScale(a: int, b: int, offset: int)
    requires 0 <= offset < MS_PER_DAY
    ensures a * MS_PER_DAY >= b * MS_PER_DAY + offset <==> a > b || (a == b && offset == 0)
  {
    if a > b {
      assert a * MS_PER_DAY >= (b + 1) * MS_PER_DAY;
    } else if a < b {
      assert a * MS_PER_DAY <= (b - 1) * MS_PER_DAY;
    }
  }

  /** On 15 May 2024 at one millisecond past midnight, the monthly view
      drops a transaction dated 1 May 2024: the first day of the month is
      not shown although the month is. */
  lemma MonthlyDropsFirstDay()
    ensures var t := Transaction(1, EXPENSE, 10.0, "Food", None, Date(2024, 5, 1), "Mummy", None);
      RangeFiltered([t], MONTHLY, Date(2024, 5, 15), 1, DateRange(Date(2024, 5, 15), Date(2024, 5, 15))) == []
  {
    var t := Transaction(1, EXPENSE, 10.0, "Food", None, Date(2024, 5, 1), "Mummy", None);
    var today := Date(2024, 5, 15);
    assert PeriodStart(MONTHLY, today) == Some(Date(2024, 5, 1)) by {
      NormalizeInRange(2024, 4, 1);
    }
    RangeKeeps([t], MONTHLY, today, 1, DateRange(today, today), t);
  }

  predicate OnOrAfter(start: Date, t: Transaction)
  {
    OnOrBefore(start, t.date)
  }

  /** The period filter compared by calendar day, as the ranges are meant:
      every transaction dated on or after the start day of the period. */
  function PeriodFiltered(txs: seq<Transaction>, rangeType: string, today: Date, custom: DateRange): seq<Transaction>
    requires Valid(today)
  {
    if rangeType == CUSTOM then Filter(txs, t => InCustomRange(custom, t))
    else match PeriodStart(rangeType, today)
      case None => txs
      case Some(start) => Filter(txs, t => OnOrAfter(start, t))
  }

  /** The day-based filter keeps a validly dated transaction exactly when
      its date is not before the period's first day, whatever the time. */
  lemma PeriodKeeps(txs: seq<Transaction>, rangeType: string, today: Date, custom: DateRange, t: Transaction)
    requires Valid(today) && Valid(t.date)
    requires PeriodStart(rangeType, today).Some? && t in txs
    ensures t in PeriodFiltered(txs, rangeType, today, custom) <==>
      DayNumber(t.date) >= DayNumber(PeriodStart(rangeType, today).value)
  {
    var start := PeriodStart(rangeType, today).value;
    assert rangeType != CUSTOM;
    var r := Filter(txs, u => OnOrAfter(start, u));
    assert PeriodFiltered(txs, rangeType, today, custom) == r;
    assert t in r <==> OnOrAfter(start, t) by {
      if t in r {
        var i :| 0 <= i < |r| && r[i] == t;
      }
      var j :| 0 <= j < |txs| && txs[j] == t;
    }
    ChronologicalOrder(start, t.date);
  }

  /** The first days of the preset periods: today, the Sunday of this week,
      the first of the month, of the quarter and of the year. */
  lemma PeriodStarts(today: Date)
    requires Valid(today)
    ensures PeriodStart(DAILY, today) == Some(today)
    ensures var s := PeriodStart(WEEKLY, today).value;
      Weekday(s) == 0 && DayNumber(s) == DayNumber(today) - Weekday(today)
    ensures PeriodStart(MONTHLY, today) == Some(Date(today.year, today.month, 1))
    ensures var s := PeriodStart(QUARTERLY, today).value;
      s.year == today.year && s.day == 1 && s.month in {1, 4, 7, 10} && s.month <= today.month < s.month + 3
    ensures PeriodStart(YEARLY, today) == Some(Date(today.year, 1, 1))
  {
    WeeklyStart(today);
    MonthlyStart(today);
    QuarterlyStart(today);
    YearlyStart(today);
  }

  lemma WeeklyStart(today: Date)
    requires Valid(today)
    ensures var s := PeriodStart(WEEKLY, today).value;
      Weekday(s) == 0 && DayNumber(s) == DayNumber(today) - Weekday(today)
  {
    var w := SetDate(today, today.day - Weekday(today));
    var n := DayNumber(today);
    assert PeriodStart(WEEKLY, today) == Some(w);
    assert DayNumber(w) == n - Weekday(today) by {
      SetDateDayNumber(today, today.day - Weekday(today));
    }
    SundayOf(w, n);
  }

  lemma SundayOf(w: Date, n: int)
    requires DayNumber(w) == n - (n + 6) % 7
    ensures Weekday(w) == 0
  {
    SundayOnOrBefore(n);
  }

  lemma MonthlyStart(today: Date)
    requires Valid(today)
    ensures PeriodStart(MONTHLY, today) == Some(Date(today.year, today.month, 1))
  {
    NormalizeInRange(today.year, today.month - 1, 1);
  }

  lemma QuarterlyStart(today: Date)
    requires Valid(today)
    ensures var s := PeriodStart(QUARTERLY, today).value;
      s.year == today.year && s.day == 1 && s.month in {1, 4, 7, 10} && s.month <= today.month < s.month + 3
  {
    assert PeriodStart(QUARTERLY, today) == Some(SetMonth(today, QuarterStart(today.month), 1));
    QuarterRange(today.year, QuarterStart(today.month));
  }

  lemma YearlyStart(today: Date)
    requires Valid(today)
    ensures PeriodStart(YEARLY, today) == Some(Date(today.year, 1, 1))
  {
    NormalizeInRange(today.year, 0, 1);
  }

  // ---------------------------------------------------------------------
  // Totals (calculateTotal, calculateCategoryTotal, calculateFamilyMemberTotal)

  /** The balance card: income total minus expense total. */
  function Balance(txs: seq<Transaction>): real
  {
    Total(txs, OfKind(INCOME)) - Total(txs, OfKind(EXPENSE))
  }

  /** One more transaction moves the balance up by an income, down by an
      expense, and not at all for any other type. */
  lemma BalanceStep(txs: seq<Transaction>, t: Transaction)
    ensures Balance(txs + [t]) ==
      Balance(txs) + (if t.kind == INCOME then t.amount else if t.kind == EXPENSE then -t.amount else 0.0)
  {
    TotalSnoc(txs, t, OfKind(INCOME));
    TotalSnoc(txs, t, OfKind(EXPENSE));
  }

  /** A member's total counts every type: over a list of incomes and
      expenses it is the member's income plus the member's expenses. */
  lemma {:induction false} MemberTotalSplits(txs: seq<Transaction>, name: string)
    requires forall i :: 0 <= i < |txs| ==> txs[i].kind == INCOME || txs[i].kind == EXPENSE
    ensures Total(txs, ByMember(name)) == Total(txs, MemberOfKind(name, INCOME)) + Total(txs, MemberOfKind(name, EXPENSE))
  {
    if txs != [] {
      MemberTotalSplits(txs[..|txs| - 1], name);
    }
  }

  // ---------------------------------------------------------------------
  // Search and type filter (filterTransactions)

  /** `toLowerCase` on the letters A..Z: no capital A..Z is left, and a
      text without one is kept as it is. */
  function Lower(s: string): (r: string)
    ensures |r| == |s|
    ensures forall i :: 0 <= i < |r| ==> !('A' <= r[i] <= 'Z')
    ensures forall i :: 0 <= i < |s| && 'a' <= s[i] <= 'z' ==> r[i] == s[i]
    ensures (forall i :: 0 <= i < |s| ==> !('A' <= s[i] <= 'Z')) ==> r == s
  {
    seq(|s|, i requires 0 <= i < |s| => if 'A' <= s[i] <= 'Z' then (s[i] as int + 32) as char else s[i])
  }

  /** `s.includes(sub)`. */
  predicate Includes(s: string, sub: string)
  {
    sub <= s || (s != [] && Includes(s[1..], sub))
  }

  /** The search box matches the category, the description if there is
      one, the amount as `show` prints it, or the member, ignoring case. */
  predicate SearchHit(t: Transaction, query: string, show: real -> string)
  {
    var q := Lower(query);
    Includes(Lower(t.category), q)
    || (t.description.Some? && Includes(Lower(t.description.value), q))
    || Includes(show(t.amount), q)
    || Includes(Lower(t.familyMember), q)
  }

  predicate Listed(t: Transaction, typeFilter: string, query: string, show: real -> string)
  {
    (typeFilter == "all" || t.kind == typeFilter) && SearchHit(t, query, show)
  }

  function DateKey(t: Transaction): real
  {
    DayNumber(t.date) as real
  }

  /** filterTransactions: the listed transactions, newest first.  The
      order among records of one day is not stated here. */
  function FilterTransactions(txs: seq<Transaction>, typeFilter: string, query: string, show: real -> string)
    : (r: seq<Transaction>)
    ensures SortedBy(r, DateKey, true)
    ensures multiset(r) == multiset(Filter(txs, t => Listed(t, typeFilter, query, show)))
  {
    SortBy(Filter(txs, t => Listed(t, typeFilter, query, show)), DateKey, true)
  }

  /** A transaction is listed exactly when it passes the type filter and
      the search box. */
  lemma FilterTransactionsLists(txs: seq<Transaction>, typeFilter: string, query: string, show: real -> string,
                                t: Transaction)
    ensures t in FilterTransactions(txs, typeFilter, query, show) <==>
      t in txs && (typeFilter == "all" || t.kind == typeFilter) && SearchHit(t, query, show)
  {
    var kept := Filter(txs, u => Listed(u, typeFilter, query, show));
    var r := FilterTransactions(txs, typeFilter, query, show);
    assert t in r <==> t in kept by {
      assert t in r <==> t in multiset(r);
      assert t in kept <==> t in multiset(kept);
    }
    if t in kept {
      var i :| 0 <= i < |kept| && kept[i] == t;
    }
    if t in txs {
      var j :| 0 <= j < |txs| && txs[j] == t;
    }
  }

  /** An empty search box hides nothing: only the type filter applies. */
  lemma EmptySearchListsType(txs: seq<Transaction>, typeFilter: string, show: real -> string, t: Transaction)
    requires t in txs && (typeFilter == "all" || t.kind == typeFilter)
    ensures t in FilterTransactions(txs, typeFilter, "", show)
  {
    assert SearchHit(t, "", show);
    FilterTransactionsLists(txs, typeFilter, "", show, t);
  }

  // ---------------------------------------------------------------------
  // Pagination

  const ITEMS_PER_PAGE: int := 10

  /** `Math.ceil(n / itemsPerPage)`. */
  function TotalPages(n: nat): (p: nat)
    ensures p * ITEMS_PER_PAGE >= n
    ensures p > 0 ==> (p - 1) * ITEMS_PER_PAGE < n
    ensures p == 0 <==> n == 0
  {
    (n + ITEMS_PER_PAGE - 1) / ITEMS_PER_PAGE
  }

  /** `Array.prototype.slice(start, end)`: negative bounds count from the
      end, and the bounds are clamped to the list. */
  function Slice<T>(s: seq<T>, start: int, end: int): (r: seq<T>)
    ensures |r| <= |s|
  {
    var from := if start < 0 then Max(|s| + start, 0) else Min(start, |s|);
    var to := if end < 0 then Max(|s| + end, 0) else Min(end, |s|);
    if from < to then s[from..to] else []
  }

  function Min(a: int, b: int): int
  {
    if a <= b then a else b
  }

  function Max(a: int, b: int): int
  {
    if a >= b then a else b
  }

  /** The rows of page `page` (counted from 1). */
  function Page<T>(s: seq<T>, page: int): seq<T>
  {
    Slice(s, (page - 1) * ITEMS_PER_PAGE, page * ITEMS_PER_PAGE)
  }

  /** A page in range shows items `(page - 1) * 10` up to `page * 10`,
      and never nothing. */
  lemma PageInRange<T>(s: seq<T>, page: int)
    requires 1 <= page <= TotalPages(|s|)
    ensures Page(s, page) == s[(page - 1) * ITEMS_PER_PAGE .. Min(page * ITEMS_PER_PAGE, |s|)]
    ensures 0 < |Page(s, page)| <= ITEMS_PER_PAGE
  {
    assert (page - 1) * ITEMS_PER_PAGE <= (TotalPages(|s|) - 1) * ITEMS_PER_PAGE;
  }

  /** Pages 1 .. k, one after another. */
  function PagesUpTo<T>(s: seq<T>, k: nat): seq<T>
  {
    if k == 0 then [] else PagesUpTo(s, k - 1) + Page(s, k)
  }

  /** The pages together show every row once, in order. */
  lemma PagesCover<T>(s: seq<T>)
    ensures PagesUpTo(s, TotalPages(|s|)) == s
  {
    PagesPrefix(s, TotalPages(|s|));
  }

  lemma {:induction false} PagesPrefix<T>(s: seq<T>, k: nat)
    requires k <= TotalPages(|s|)
    ensures PagesUpTo(s, k) == s[..Min(k * ITEMS_PER_PAGE, |s|)]
  {
    if k > 0 {
      PagesPrefix(s, k - 1);
      PageInRange(s, k);
      assert (k - 1) * ITEMS_PER_PAGE < |s|;
      assert s[..Min(k * ITEMS_PER_PAGE, |s|)]
          == s[..(k - 1) * ITEMS_PER_PAGE] + s[(k - 1) * ITEMS_PER_PAGE .. Min(k * ITEMS_PER_PAGE, |s|)];
    }
  }

  /** handleNextPage. */
  function NextPage(page: int, totalPages: int): int
  {
    if page < totalPages then page + 1 else page
  }

  /** handlePrevPage. */
  function PrevPage(page: int): int
  {
    if page > 1 then page - 1 else page
  }

  /** The Next button: `Math.min(totalPages, prev + 1)`. */
  function NextButton(page: int, totalPages: int): int
  {
    Min(totalPages, page + 1)
  }

  /** The Previous button: `Math.max(1, prev - 1)`. */
  function PrevButton(page: int): int
  {
    Max(1, page - 1)
  }

  /** The page handlers keep a page in 1..totalPages there, the buttons do
      too, except that Next on an empty list goes to page 0, which shows
      nothing. */
  lemma PageMovesStayInRange(page: int, totalPages: int)
    requires 1 <= page <= totalPages
    ensures 1 <= NextPage(page, totalPages) <= totalPages && 1 <= PrevPage(page) <= totalPages
    ensures 1 <= NextButton(page, totalPages) <= totalPages && 1 <= PrevButton(page) <= totalPages
    ensures NextPage(page, totalPages) == NextButton(page, totalPages)
    ensures PrevPage(page) == PrevButton(page)
  {
  }

  lemma NextOnEmptyList<T>(s: seq<T>, page: int)
    requires s == [] && page >= 0
    ensures NextButton(page, TotalPages(|s|)) == 0
    ensures Page(s, NextButton(page, TotalPages(|s|))) == []
  {
  }
}
