/** The dashboard's chart data: expenses by category, income and expenses by
    roster member, and the average expense of each weekday. */
module FinanceCharts {
  import opened Common
  import opened Calendar
  import opened Ledger
  import opened Groups
  import opened Registry

  // ---------------------------------------------------------------------
  // Expenses by category (prepareCategoryData)

  /** A pie slice: a category, its expense total and its colour. */
  datatype CategorySlice = CategorySlice(name: string, value: real, color: string)

  const FALLBACK_COLOR: string := "#8E8E93"

  /** `categories[name]?.primary || "#8E8E93"`. */
  function ColorOf(name: string): (c: string)
    ensures Lookup(ExpenseCategories, name).None? ==> c == FALLBACK_COLOR
    ensures Lookup(ExpenseCategories, name).Some? && Lookup(ExpenseCategories, name).value.primary != "" ==>
      c == Lookup(ExpenseCategories, name).value.primary
  {
    match Lookup(ExpenseCategories, name)
    case None => FALLBACK_COLOR
    case Some(style) => if style.primary != "" then style.primary else FALLBACK_COLOR
  }

  function CategoryOf(t: Transaction): string
  {
    t.category
  }

  function PlusAmount(total: real, t: Transaction): real
  {
    total + t.amount
  }

  /** `categoryTotals[t.category] = (categoryTotals[t.category] || 0) + amount`. */
  const CategoryTotals: Grouping<Transaction, string, real> := Grouping(CategoryOf, 0.0, PlusAmount)

  function SliceOf(e: Entry<string, real>): CategorySlice
  {
    CategorySlice(e.key, e.value, ColorOf(e.key))
  }

  function SlicesOf(es: seq<Entry<string, real>>): (r: seq<CategorySlice>)
    ensures |r| == |es| && forall i :: 0 <= i < |es| ==> r[i] == SliceOf(es[i])
  {
    seq(|es|, i requires 0 <= i < |es| => SliceOf(es[i]))
  }

  predicate Shown(c: CategorySlice)
  {
    c.value > 0.0
  }

  function SliceValue(c: CategorySlice): real
  {
    c.value
  }

  /** The coloured per-category entries, before filtering and sorting. */
  function CategorySlices(txs: seq<Transaction>): seq<CategorySlice>
  {
    SlicesOf(Grouped(Filter(txs, IsExpense), CategoryTotals))
  }

  /** The chart as specified: one slice per expense category with a
      positive total, largest first. */
  function CategoryChart(txs: seq<Transaction>): seq<CategorySlice>
  {
    SortBy(Filter(CategorySlices(txs), Shown), SliceValue, true)
  }

  /** prepareCategoryData: expense totals accumulated per category in one
      pass, then coloured, filtered to positive totals and sorted. */
  method PrepareCategoryData(txs: seq<Transaction>) returns (r: seq<CategorySlice>)
    ensures r == CategoryChart(txs)
    ensures SortedBy(r, SliceValue, true)
  {
    var expenses := Filter(txs, IsExpense);
    var totals: seq<Entry<string, real>> := [];
    for i := 0 to |expenses|
      invariant totals == Fold(expenses[..i], CategoryTotals)
    {
      var t := expenses[i];
      ghost var before := totals;
      var k := IndexOfKey(totals, t.category);
      var current := if k < 0 then 0.0 else totals[k].value;
      if k < 0 {
        totals := totals + [Entry(t.category, current + t.amount)];
      } else {
        totals := totals[k := Entry(t.category, current + t.amount)];
      }
      assert totals == AddAt(before, CategoryTotals, t);
      assert expenses[..i + 1][..i] == expenses[..i];
    }
    assert expenses[..|expenses|] == expenses;
    FoldIsGrouped(expenses, CategoryTotals);
    r := SortBy(Filter(SlicesOf(totals), Shown), SliceValue, true);
  }

  /** A category's accumulated value is the expense total of that category. */
  lemma {:induction false} CategoryValue(txs: seq<Transaction>, c: string)
    ensures ValueOf(Filter(txs, IsExpense), CategoryTotals, c) == Total(txs, ExpenseIn(c))
  {
    if txs != [] {
      var seen, t := txs[..|txs| - 1], txs[|txs| - 1];
      CategoryValue(seen, c);
      var fs := Filter(seen, IsExpense);
      var v := ValueOf(fs, CategoryTotals, c);
      if IsExpense(t) {
        assert Filter(txs, IsExpense) == fs + [t];
        assert ValueOf(fs + [t], CategoryTotals, c) == if t.category == c then v + t.amount else v by {
          ValueOfSnoc(fs, t, CategoryTotals, c);
          assert CategoryTotals.key(t) == t.category;
          assert CategoryTotals.step(v, t) == v + t.amount;
        }
      } else {
        assert Filter(txs, IsExpense) == fs;
      }
    }
  }

  /** A positive expense total means an expense of that category exists. */
  lemma {:induction false} PositiveTotalHasExpense(txs: seq<Transaction>, c: string)
    requires Total(txs, ExpenseIn(c)) > 0.0
    ensures exists i :: 0 <= i < |txs| && txs[i].kind == EXPENSE && txs[i].category == c
  {
    if forall i :: 0 <= i < |txs| ==> !Matches(txs[i], ExpenseIn(c)) {
      TotalNone(txs, ExpenseIn(c));
    }
  }

  /** Each entry carries its category's expense total and colour, once per
      category, and every category with an expense has an entry. */
  lemma CategorySlicesFacts(txs: seq<Transaction>)
    ensures var slices := CategorySlices(txs);
      forall i :: 0 <= i < |slices| ==>
        slices[i].value == Total(txs, ExpenseIn(slices[i].name)) && slices[i].color == ColorOf(slices[i].name)
    ensures var slices := CategorySlices(txs);
      forall i, j :: 0 <= i < j < |slices| ==> slices[i].name != slices[j].name
    ensures var slices := CategorySlices(txs);
      forall k :: 0 <= k < |txs| && txs[k].kind == EXPENSE ==>
        exists j :: 0 <= j < |slices| && slices[j].name == txs[k].category
  {
    var expenses := Filter(txs, IsExpense);
    var es := Grouped(expenses, CategoryTotals);
    var slices := CategorySlices(txs);
    GroupedKeys(expenses, CategoryTotals);
    forall i | 0 <= i < |slices|
      ensures slices[i].value == Total(txs, ExpenseIn(slices[i].name))
    {
      CategoryValue(txs, es[i].key);
    }
    assert forall i :: 0 <= i < |slices| ==> slices[i].name == EntryKeys(es)[i];
    forall k | 0 <= k < |txs| && txs[k].kind == EXPENSE
      ensures exists j :: 0 <= j < |slices| && slices[j].name == txs[k].category
    {
      assert txs[k] in expenses;
      var m :| 0 <= m < |expenses| && expenses[m] == txs[k];
      assert KeysOf(expenses, CategoryTotals)[m] == txs[k].category;
      assert txs[k].category in EntryKeys(es);
    }
  }

  /** Every slice of the chart is one of the entries, with a positive value. */
  lemma ChartSlicesShown(txs: seq<Transaction>)
    ensures var r := CategoryChart(txs);
      forall i :: 0 <= i < |r| ==> r[i] in CategorySlices(txs) && r[i].value > 0.0
  {
    var shown := Filter(CategorySlices(txs), Shown);
    var r := CategoryChart(txs);
    forall i | 0 <= i < |r|
      ensures r[i] in shown
    {
      assert r[i] in multiset(r);
    }
  }

  /** Every entry with a positive value is in the chart. */
  lemma ChartKeepsPositive(txs: seq<Transaction>, j: int)
    requires 0 <= j < |CategorySlices(txs)| && CategorySlices(txs)[j].value > 0.0
    ensures CategorySlices(txs)[j] in CategoryChart(txs)
  {
    var slices := CategorySlices(txs);
    var shown := Filter(slices, Shown);
    assert slices[j] in shown;
    assert slices[j] in multiset(CategoryChart(txs));
  }

  /** No category appears twice in the chart. */
  lemma ChartNamesDistinct(txs: seq<Transaction>)
    ensures var r := CategoryChart(txs);
      forall i, j :: 0 <= i < j < |r| ==> r[i].name != r[j].name
  {
    var slices := CategorySlices(txs);
    CategorySlicesFacts(txs);
    FilterKeysDistinct(slices, Shown, (c: CategorySlice) => c.name);
    PermutationKeysDistinct(Filter(slices, Shown), CategoryChart(txs), (c: CategorySlice) => c.name);
  }

  /** What the category chart shows: exactly the categories with a positive
      expense total, once each, each with that total and its registry
      colour; income never contributes. */
  lemma CategoryChartShows(txs: seq<Transaction>)
    ensures var r := CategoryChart(txs);
      forall i :: 0 <= i < |r| ==>
        r[i].value > 0.0 && r[i].value == Total(txs, ExpenseIn(r[i].name)) && r[i].color == ColorOf(r[i].name)
    ensures var r := CategoryChart(txs);
      forall i, j :: 0 <= i < j < |r| ==> r[i].name != r[j].name
    ensures var r := CategoryChart(txs);
      forall c :: Total(txs, ExpenseIn(c)) > 0.0 ==> exists i :: 0 <= i < |r| && r[i].name == c
  {
    var slices := CategorySlices(txs);
    var r := CategoryChart(txs);
    CategorySlicesFacts(txs);
    ChartSlicesShown(txs);
    ChartNamesDistinct(txs);
    forall c | Total(txs, ExpenseIn(c)) > 0.0
      ensures exists i :: 0 <= i < |r| && r[i].name == c
    {
      PositiveTotalHasExpense(txs, c);
      var k :| 0 <= k < |txs| && txs[k].kind == EXPENSE && txs[k].category == c;
      var j :| 0 <= j < |slices| && slices[j].name == c;
      ChartKeepsPositive(txs, j);
    }
  }

  // ---------------------------------------------------------------------
  // Income and expenses by roster member (prepareFamilyData)

  /** A bar of the family chart. */
  datatype MemberRow = MemberRow(name: string, expenses: real, income: real, color: string, icon: string)

  function RowOf(txs: seq<Transaction>, m: Member): MemberRow
  {
    MemberRow(m.name, Total(txs, MemberOfKind(m.name, EXPENSE)), Total(txs, MemberOfKind(m.name, INCOME)), m.color, m.icon)
  }

  predicate Active(r: MemberRow)
  {
    r.expenses > 0.0 || r.income > 0.0
  }

  function RowsOf(txs: seq<Transaction>, roster: seq<Member>): (rows: seq<MemberRow>)
    ensures |rows| == |roster| && forall i :: 0 <= i < |roster| ==> rows[i] == RowOf(txs, roster[i])
  {
    seq(|roster|, i requires 0 <= i < |roster| => RowOf(txs, roster[i]))
  }

  /** The roster positions whose bars have something to show, in roster
      order. */
  function ActivePositions(txs: seq<Transaction>, roster: seq<Member>): (ps: seq<int>)
    ensures forall k :: 0 <= k < |ps| ==> 0 <= ps[k] < |roster| && Active(RowOf(txs, roster[ps[k]]))
    ensures forall k, l :: 0 <= k < l < |ps| ==> ps[k] < ps[l]
    ensures forall j :: 0 <= j < |roster| && Active(RowOf(txs, roster[j])) ==> j in ps
  {
    if roster == [] then []
    else
      var init := roster[..|roster| - 1];
      var ps := ActivePositions(txs, init);
      assert forall k :: 0 <= k < |ps| ==> roster[ps[k]] == init[ps[k]];
      ps + (if Active(RowOf(txs, roster[|roster| - 1])) then [|roster| - 1] else [])
  }

  lemma RowsOfSnoc(txs: seq<Transaction>, roster: seq<Member>)
    requires roster != []
    ensures RowsOf(txs, roster) == RowsOf(txs, roster[..|roster| - 1]) + [RowOf(txs, roster[|roster| - 1])]
  {
  }

  /** Filtering the roster's bars keeps exactly the bars at the active
      positions, in their order. */
  lemma {:induction false} FilterAtPositions(txs: seq<Transaction>, roster: seq<Member>)
    ensures |Filter(RowsOf(txs, roster), Active)| == |ActivePositions(txs, roster)|
    ensures forall k :: 0 <= k < |ActivePositions(txs, roster)| ==>
      Filter(RowsOf(txs, roster), Active)[k] == RowOf(txs, roster[ActivePositions(txs, roster)[k]])
  {
    if roster != [] {
      var init, last := roster[..|roster| - 1], roster[|roster| - 1];
      var ps := ActivePositions(txs, init);
      var kept := Filter(RowsOf(txs, init), Active);
      FilterAtPositions(txs, init);
      RowsOfSnoc(txs, roster);
      FilterSnoc(RowsOf(txs, init), RowOf(txs, last), Active);
      var extra := if Active(RowOf(txs, last)) then [RowOf(txs, last)] else [];
      var tail := if Active(RowOf(txs, last)) then [|init|] else [];
      assert ActivePositions(txs, roster) == ps + tail;
      ShownAtPositions(txs, roster, ps, kept, extra, tail);
    }
  }

  /** The step of FilterAtPositions: the bars kept from the earlier members
      sit at the same positions, and the last member's bar, if shown, at
      the last one. */
  lemma ShownAtPositions(txs: seq<Transaction>, roster: seq<Member>, ps: seq<int>, kept: seq<MemberRow>,
                         extra: seq<MemberRow>, tail: seq<int>)
    requires roster != []
    requires |kept| == |ps| && forall k :: 0 <= k < |ps| ==> 0 <= ps[k] < |roster| - 1
    requires forall k :: 0 <= k < |ps| ==> kept[k] == RowOf(txs, roster[..|roster| - 1][ps[k]])
    requires extra == (if Active(RowOf(txs, roster[|roster| - 1])) then [RowOf(txs, roster[|roster| - 1])] else [])
    requires tail == (if Active(RowOf(txs, roster[|roster| - 1])) then [|roster| - 1] else [])
    ensures |kept + extra| == |ps + tail|
    ensures forall k :: 0 <= k < |ps + tail| ==> (kept + extra)[k] == RowOf(txs, roster[(ps + tail)[k]])
  {
  }

  /** `familyMembers.map(...).filter(item => item.expenses > 0 || item.income > 0)`:
      one bar for each roster entry with income or expenses, in roster
      order, and no other. */
  function FamilyData(txs: seq<Transaction>, roster: seq<Member>): (r: seq<MemberRow>)
    ensures forall i :: 0 <= i < |r| ==> Active(r[i]) && exists m :: m in roster && r[i] == RowOf(txs, m)
    ensures forall m :: m in roster && Active(RowOf(txs, m)) ==> RowOf(txs, m) in r
    ensures |r| == |ActivePositions(txs, roster)|
    ensures forall k :: 0 <= k < |r| ==> r[k] == RowOf(txs, roster[ActivePositions(txs, roster)[k]])
  {
    ActiveRowsOfRoster(txs, roster);
    FilterAtPositions(txs, roster);
    Filter(RowsOf(txs, roster), Active)
  }

  /** The shown bars are active bars of roster members, and every roster
      member's active bar is shown. */
  lemma ActiveRowsOfRoster(txs: seq<Transaction>, roster: seq<Member>)
    ensures var r := Filter(RowsOf(txs, roster), Active);
      forall i :: 0 <= i < |r| ==> Active(r[i]) && exists m :: m in roster && r[i] == RowOf(txs, m)
    ensures forall m :: m in roster && Active(RowOf(txs, m)) ==> RowOf(txs, m) in Filter(RowsOf(txs, roster), Active)
  {
    var rows := RowsOf(txs, roster);
    var r := Filter(rows, Active);
    forall i | 0 <= i < |r|
      ensures exists m :: m in roster && r[i] == RowOf(txs, m)
    {
      var j :| 0 <= j < |rows| && rows[j] == r[i];
      assert roster[j] in roster;
    }
    forall m | m in roster && Active(RowOf(txs, m))
      ensures RowOf(txs, m) in r
    {
      var j :| 0 <= j < |roster| && roster[j] == m;
      assert rows[j] == RowOf(txs, m);
    }
  }

  /** A transaction attributed to someone outside the roster changes no bar. */
  lemma OutsiderIgnored(txs: seq<Transaction>, roster: seq<Member>, t: Transaction)
    requires FindMember(roster, t.familyMember).None?
    ensures FamilyData(txs + [t], roster) == FamilyData(txs, roster)
  {
    forall i | 0 <= i < |roster|
      ensures RowOf(txs + [t], roster[i]) == RowOf(txs, roster[i])
    {
      assert roster[i].name != t.familyMember;
      TotalSnoc(txs, t, MemberOfKind(roster[i].name, EXPENSE));
      TotalSnoc(txs, t, MemberOfKind(roster[i].name, INCOME));
    }
    assert RowsOf(txs + [t], roster) == RowsOf(txs, roster);
  }

  // ---------------------------------------------------------------------
  // Average expense per weekday (prepareDailyAverages)

  const DAY_NAMES: seq<string> := ["Sunday", "Monday", "Tuesday", "Wednesday", "Thursday", "Friday", "Saturday"]

  /** The weekday's long name, `toLocaleDateString("en-US", {weekday: "long"})`. */
  function DayName(w: int): string
  {
    if 0 <= w < 7 then DAY_NAMES[w] else ""
  }

  /** `names.indexOf(name)`: the first position of `name`, or -1. */
  function IndexOf(names: seq<string>, name: string): (i: int)
    ensures -1 <= i < |names|
    ensures i >= 0 ==> names[i] == name && forall j :: 0 <= j < i ==> names[j] != name
    ensures i < 0 ==> name !in names
  {
    if names == [] then -1
    else if names[0] == name then 0
    else
      var i := IndexOf(names[1..], name);
      assert forall j :: 1 <= j < |names| ==> names[j] == names[1..][j - 1];
      if i < 0 then -1 else i + 1
  }

  /** `days.indexOf(day)`. */
  function DayIndex(day: string): (i: int)
    ensures -1 <= i < 7
  {
    IndexOf(DAY_NAMES, day)
  }

  /** Sorting by `days.indexOf` puts every weekday at its own place. */
  lemma DayIndexOfName(w: int)
    requires 0 <= w < 7
    ensures DayIndex(DayName(w)) == w
  {
    var i := DayIndex(DayName(w));
    assert DAY_NAMES[i] == DAY_NAMES[w];
  }

  /** A weekday's record: the expense amount and the number of expenses. */
  datatype Tally = Tally(expenses: real, count: nat)

  function WeekdayOf(t: Transaction): int
  {
    Weekday(t.date)
  }

  function AddExpense(v: Tally, t: Transaction): Tally
  {
    if IsExpense(t) then Tally(v.expenses + t.amount, v.count + 1) else v
  }

  /** `dailyTotals[dayOfWeek]`: every transaction opens the record of its
      weekday, only an expense adds to it. The records are keyed here by the
      weekday's number and named afterwards; names and numbers correspond
      one to one, so the entries come in the same order. */
  const DailyTotals: Grouping<Transaction, int, Tally> := Grouping(WeekdayOf, Tally(0.0, 0), AddExpense)

  /** A bar of the weekday chart. */
  datatype DayAverage = DayAverage(day: string, average: real, total: real, transactions: nat)

  /** `data.count > 0 ? data.expenses / data.count : 0`. */
  function Average(v: Tally): real
  {
    if v.count > 0 then v.expenses / v.count as real else 0.0
  }

  function AverageOf(e: Entry<int, Tally>): DayAverage
  {
    DayAverage(DayName(e.key), Average(e.value), e.value.expenses, e.value.count)
  }

  function AveragesOf(es: seq<Entry<int, Tally>>): (r: seq<DayAverage>)
    ensures |r| == |es| && forall i :: 0 <= i < |es| ==> r[i] == AverageOf(es[i])
  {
    seq(|es|, i requires 0 <= i < |es| => AverageOf(es[i]))
  }

  function DayOrder(a: DayAverage): real
  {
    DayIndex(a.day) as real
  }

  /** The weekday records in order of first appearance, before sorting. */
  function DayEntries(txs: seq<Transaction>): seq<DayAverage>
  {
    AveragesOf(Grouped(txs, DailyTotals))
  }

  /** The chart as specified: one bar per weekday that has a transaction,
      Sunday first. */
  function DailyAverages(txs: seq<Transaction>): seq<DayAverage>
  {
    SortBy(DayEntries(txs), DayOrder, false)
  }

  /** prepareDailyAverages: the weekday records filled in one pass, then
      averaged and put in weekday order. */
  method PrepareDailyAverages(txs: seq<Transaction>) returns (r: seq<DayAverage>)
    ensures r == DailyAverages(txs)
  {
    var totals: seq<Entry<int, Tally>> := [];
    for i := 0 to |txs|
      invariant totals == Fold(txs[..i], DailyTotals)
    {
      var t := txs[i];
      ghost var before := totals;
      var w := Weekday(t.date);
      var k := IndexOfKey(totals, w);
      if k < 0 {
        totals := totals + [Entry(w, Tally(0.0, 0))];
        k := |totals| - 1;
      }
      if t.kind == EXPENSE {
        totals := totals[k := Entry(w, Tally(totals[k].value.expenses + t.amount, totals[k].value.count + 1))];
      }
      assert totals == AddAt(before, DailyTotals, t);
      assert txs[..i + 1][..i] == txs[..i];
    }
    assert txs[..|txs|] == txs;
    FoldIsGrouped(txs, DailyTotals);
    r := SortBy(AveragesOf(totals), DayOrder, false);
  }

  /** A weekday's record holds the total and the number of the expenses
      dated on that weekday. */
  lemma {:induction false} DailyValue(txs: seq<Transaction>, w: int)
    ensures ValueOf(txs, DailyTotals, w)
      == Tally(Total(txs, KindOnWeekday(EXPENSE, w)), Count(txs, KindOnWeekday(EXPENSE, w)))
  {
    if txs != [] {
      var seen, t := txs[..|txs| - 1], txs[|txs| - 1];
      DailyValue(seen, w);
      assert txs == seen + [t] by { LastSplit(txs); }
      ValueOfSnoc(seen, t, DailyTotals, w);
    }
  }

  /** What a bar says about the transactions: it names a weekday on which
      some transaction falls, and carries the total, the number and the
      average of that weekday's expenses. */
  predicate Reports(txs: seq<Transaction>, a: DayAverage)
  {
    var w := DayIndex(a.day);
    0 <= w
    && (exists k :: 0 <= k < |txs| && Weekday(txs[k].date) == w)
    && a.total == Total(txs, KindOnWeekday(EXPENSE, w))
    && a.transactions == Count(txs, KindOnWeekday(EXPENSE, w))
    && a.average == Average(Tally(a.total, a.transactions))
  }

  lemma DayEntryReports(txs: seq<Transaction>, i: int)
    requires 0 <= i < |DayEntries(txs)|
    ensures Reports(txs, DayEntries(txs)[i])
    ensures DayIndex(DayEntries(txs)[i].day) == Grouped(txs, DailyTotals)[i].key
  {
    var groups := Grouped(txs, DailyTotals);
    var w := groups[i].key;
    GroupedKeys(txs, DailyTotals);
    assert w in EntryKeys(groups);
    var k :| 0 <= k < |txs| && KeysOf(txs, DailyTotals)[k] == w;
    DayIndexOfName(w);
    DailyValue(txs, w);
  }

  /** The records before sorting: each reports on a weekday. */
  lemma DayEntriesReport(txs: seq<Transaction>)
    ensures forall a :: a in DayEntries(txs) ==> Reports(txs, a)
  {
    var es := DayEntries(txs);
    forall a | a in es
      ensures Reports(txs, a)
    {
      var i :| 0 <= i < |es| && es[i] == a;
      DayEntryReports(txs, i);
    }
  }

  /** No weekday has two records. */
  lemma DayEntriesDistinct(txs: seq<Transaction>)
    ensures var es := DayEntries(txs);
      forall i, j :: 0 <= i < j < |es| ==> DayOrder(es[i]) != DayOrder(es[j])
  {
    var groups := Grouped(txs, DailyTotals);
    var es := DayEntries(txs);
    GroupedKeys(txs, DailyTotals);
    forall i, j | 0 <= i < j < |es|
      ensures DayOrder(es[i]) != DayOrder(es[j])
    {
      DayEntryReports(txs, i);
      DayEntryReports(txs, j);
      assert EntryKeys(groups)[i] != EntryKeys(groups)[j];
    }
  }

  /** Every transaction's weekday has its record. */
  lemma DayEntriesCover(txs: seq<Transaction>)
    ensures forall k :: 0 <= k < |txs| ==> DayName(Weekday(txs[k].date)) in Names(DayEntries(txs))
  {
    var groups := Grouped(txs, DailyTotals);
    var es := DayEntries(txs);
    GroupedKeys(txs, DailyTotals);
    forall k | 0 <= k < |txs|
      ensures DayName(Weekday(txs[k].date)) in Names(es)
    {
      assert KeysOf(txs, DailyTotals)[k] == Weekday(txs[k].date);
      assert Weekday(txs[k].date) in EntryKeys(groups);
      var i :| 0 <= i < |groups| && groups[i].key == Weekday(txs[k].date);
      assert Names(es)[i] == DayName(Weekday(txs[k].date));
    }
  }

  /** The weekday names of the bars. */
  function Names(r: seq<DayAverage>): (ns: seq<string>)
    ensures |ns| == |r| && forall i :: 0 <= i < |r| ==> ns[i] == r[i].day
  {
    seq(|r|, i requires 0 <= i < |r| => r[i].day)
  }

  lemma DailyBarsReport(txs: seq<Transaction>)
    ensures forall a :: a in DailyAverages(txs) ==> Reports(txs, a)
  {
    var es := DayEntries(txs);
    var r := DailyAverages(txs);
    DayEntriesReport(txs);
    forall a | a in r
      ensures a in es
    {
      assert a in multiset(r);
    }
  }

  lemma DailyBarsAscend(txs: seq<Transaction>)
    ensures var r := DailyAverages(txs);
      forall i, j :: 0 <= i < j < |r| ==> DayOrder(r[i]) < DayOrder(r[j])
  {
    var r := DailyAverages(txs);
    DayEntriesDistinct(txs);
    PermutationKeysDistinct(DayEntries(txs), r, DayOrder);
    SortedDistinctAscends(r, DayOrder);
  }

  lemma DailyBarsCover(txs: seq<Transaction>)
    ensures forall k :: 0 <= k < |txs| ==> DayName(Weekday(txs[k].date)) in Names(DailyAverages(txs))
  {
    var es := DayEntries(txs);
    var r := DailyAverages(txs);
    DayEntriesCover(txs);
    forall k | 0 <= k < |txs|
      ensures DayName(Weekday(txs[k].date)) in Names(r)
    {
      var i :| 0 <= i < |es| && Names(es)[i] == DayName(Weekday(txs[k].date));
      assert es[i] in multiset(r);
      var j :| 0 <= j < |r| && r[j] == es[i];
      assert Names(r)[j] == es[i].day;
    }
  }

  /** What the weekday chart shows: the weekdays on which some transaction
      falls, each once and strictly in order from Sunday, each with the
      total, the number and the average of its expenses. */
  lemma DailyAveragesShow(txs: seq<Transaction>)
    ensures forall a :: a in DailyAverages(txs) ==> Reports(txs, a)
    ensures var r := DailyAverages(txs);
      forall i, j :: 0 <= i < j < |r| ==> DayOrder(r[i]) < DayOrder(r[j])
    ensures forall k :: 0 <= k < |txs| ==> DayName(Weekday(txs[k].date)) in Names(DailyAverages(txs))
  {
    DailyBarsReport(txs);
    DailyBarsAscend(txs);
    DailyBarsCover(txs);
  }

  /** The chart has at most one bar per weekday. */
  lemma DailyAveragesAtMostSeven(txs: seq<Transaction>)
    ensures |DailyAverages(txs)| <= 7
  {
    var r := DailyAverages(txs);
    DailyBarsAscend(txs);
    assert forall i :: 0 <= i < |r| ==> DayOrder(r[i]) >= 0.0 by {
      DailyBarsReport(txs);
      assert forall i :: 0 <= i < |r| ==> r[i] in r;
    }
    if |r| > 7 {
      AscendingBound(r, 7);
      assert false;
    }
  }

  /** In a strictly ascending run of weekday positions, the n-th bar stands
      at position n or later. */
  lemma {:induction false} AscendingBound(r: seq<DayAverage>, n: nat)
    requires forall i, j :: 0 <= i < j < |r| ==> DayOrder(r[i]) < DayOrder(r[j])
    requires forall i :: 0 <= i < |r| ==> DayOrder(r[i]) >= 0.0
    requires n < |r|
    ensures DayOrder(r[n]) >= n as real
  {
    if n > 0 {
      AscendingBound(r, n - 1);
    }
  }

  // ---------------------------------------------------------------------
  // The transaction list's groups (groupTransactions)

  /** The grouping select's four options. */
  datatype GroupingOption = NoGrouping | ByCategory | ByDate | ByFamily

  const ALL_TITLE: string := "All Transactions"
  const INVALID_DATE: string := "Invalid Date"

  /** A group of the list. The ungrouped list has neither icon nor total. */
  datatype TxGroup = TxGroup(title: string, icon: Option<string>, transactions: seq<Transaction>, total: Option<real>)

  /** `formatDate(t.date)`; a date that does not exist reads "Invalid Date". */
  function DateTitle(d: Date): string
  {
    if Valid(d) && d.year >= 1 then ShortDate(d) else INVALID_DATE
  }

  /** The `groupKey` of a transaction under an option. */
  function GroupKey(option: GroupingOption, t: Transaction): string
  {
    match option
    case ByCategory => t.category
    case ByDate => DateTitle(t.date)
    case ByFamily => t.familyMember
    case NoGrouping => ""
  }

  /** The `icon` a transaction would give a group it opens: its category's
      icon from the income or the expense registry, its member's icon, or
      none. */
  function IconOf(option: GroupingOption, t: Transaction): Option<string>
  {
    match option
    case ByCategory =>
      var style := Lookup(if t.kind == INCOME then IncomeCategories else ExpenseCategories, t.category);
      if style.Some? then Some(style.value.icon) else None
    case ByFamily =>
      var m := FindMember(FamilyMembers, t.familyMember);
      if m.Some? then Some(m.value.icon) else None
    case _ => None
  }

  /** A group being filled: its icon, its transactions and their total. */
  datatype Bucket = Bucket(icon: Option<string>, transactions: seq<Transaction>, total: real)

  /** Adding a transaction to a group: the transaction that opens the group
      sets its icon. */
  function Join(icon: Transaction -> Option<string>, b: Bucket, t: Transaction): Bucket
  {
    Bucket(if b.transactions == [] then icon(t) else b.icon, b.transactions + [t], b.total + t.amount)
  }

  const EMPTY_BUCKET: Bucket := Bucket(None, [], 0.0)

  function DateKey(t: Transaction): string
  {
    DateTitle(t.date)
  }

  function MemberOf(t: Transaction): string
  {
    t.familyMember
  }

  function JoinByCategory(b: Bucket, t: Transaction): Bucket
  {
    Join(t => IconOf(ByCategory, t), b, t)
  }

  function JoinByDate(b: Bucket, t: Transaction): Bucket
  {
    Join(t => IconOf(ByDate, t), b, t)
  }

  function JoinByFamily(b: Bucket, t: Transaction): Bucket
  {
    Join(t => IconOf(ByFamily, t), b, t)
  }

  /** `groups[groupKey]` under each option (the ungrouped list is not
      filled this way). */
  function Buckets(option: GroupingOption): (g: Grouping<Transaction, string, Bucket>)
  {
    match option
    case ByDate => Grouping(DateKey, EMPTY_BUCKET, JoinByDate)
    case ByFamily => Grouping(MemberOf, EMPTY_BUCKET, JoinByFamily)
    case _ => Grouping(CategoryOf, EMPTY_BUCKET, JoinByCategory)
  }

  /** How the filling of each option's groups reads. */
  lemma BucketsStep(option: GroupingOption, b: Bucket, t: Transaction)
    requires option != NoGrouping
    ensures Buckets(option).key(t) == GroupKey(option, t)
    ensures Buckets(option).step(b, t) == Join(t => IconOf(option, t), b, t)
    ensures Buckets(option).init == EMPTY_BUCKET
  {
  }

  function GroupOf(e: Entry<string, Bucket>): TxGroup
  {
    TxGroup(e.key, e.value.icon, e.value.transactions, Some(e.value.total))
  }

  function GroupsOf(es: seq<Entry<string, Bucket>>): (r: seq<TxGroup>)
    ensures |r| == |es| && forall i :: 0 <= i < |es| ==> r[i] == GroupOf(es[i])
  {
    seq(|es|, i requires 0 <= i < |es| => GroupOf(es[i]))
  }

  function GroupTotal(g: TxGroup): real
  {
    if g.total.Some? then g.total.value else 0.0
  }

  function Amount(t: Transaction): real
  {
    t.amount
  }

  /** The groups as specified: one list when ungrouped, otherwise one group
      per key in order of first appearance, then largest total first. */
  function TransactionGroups(txs: seq<Transaction>, option: GroupingOption): seq<TxGroup>
  {
    if option == NoGrouping then [TxGroup(ALL_TITLE, None, txs, None)]
    else SortBy(GroupsOf(Grouped(txs, Buckets(option))), GroupTotal, true)
  }

  /** groupTransactions: the groups filled in one pass over the page, then
      sorted by total. */
  method GroupTransactions(txs: seq<Transaction>, option: GroupingOption) returns (r: seq<TxGroup>)
    ensures r == TransactionGroups(txs, option)
    ensures option != NoGrouping ==> SortedBy(r, GroupTotal, true)
  {
    if option == NoGrouping {
      return [TxGroup(ALL_TITLE, None, txs, None)];
    }
    ghost var g := Buckets(option);
    var groups: seq<Entry<string, Bucket>> := [];
    for i := 0 to |txs|
      invariant groups == Fold(txs[..i], g)
      invariant forall j :: 0 <= j < |groups| ==> groups[j].value.transactions != []
    {
      assert txs[..i + 1][..i] == txs[..i];
      groups := AddToGroup(groups, option, txs[i]);
    }
    assert txs[..|txs|] == txs;
    FoldIsGrouped(txs, g);
    r := SortBy(GroupsOf(groups), GroupTotal, true);
  }

  /** The body of the pass: the transaction's group is opened with its
      icon if it is not there yet, then the transaction joins it. */
  method AddToGroup(groups: seq<Entry<string, Bucket>>, option: GroupingOption, t: Transaction)
    returns (r: seq<Entry<string, Bucket>>)
    requires option != NoGrouping
    requires forall j :: 0 <= j < |groups| ==> groups[j].value.transactions != []
    ensures r == AddAt(groups, Buckets(option), t)
    ensures forall j :: 0 <= j < |r| ==> r[j].value.transactions != []
  {
    var key := GroupKey(option, t);
    var k := IndexOfKey(groups, key);
    if k < 0 {
      r := groups + [Entry(key, Bucket(IconOf(option, t), [t], t.amount))];
      OpenBucket(groups, option, t);
    } else {
      var b := groups[k].value;
      r := groups[k := Entry(key, Bucket(b.icon, b.transactions + [t], b.total + t.amount))];
      ExtendBucket(groups, option, t, k);
    }
  }

  /** A transaction whose key has no group yet opens one, with its icon. */
  lemma OpenBucket(es: seq<Entry<string, Bucket>>, option: GroupingOption, t: Transaction)
    requires option != NoGrouping
    requires IndexOfKey(es, GroupKey(option, t)) < 0
    ensures AddAt(es, Buckets(option), t) == es + [Entry(GroupKey(option, t), Bucket(IconOf(option, t), [t], t.amount))]
  {
    BucketsStep(option, EMPTY_BUCKET, t);
    assert [] + [t] == [t];
  }

  /** A transaction whose key has a group joins it; the icon stays. */
  lemma ExtendBucket(es: seq<Entry<string, Bucket>>, option: GroupingOption, t: Transaction, k: int)
    requires option != NoGrouping
    requires k == IndexOfKey(es, GroupKey(option, t)) && k >= 0
    requires es[k].value.transactions != []
    ensures AddAt(es, Buckets(option), t)
      == es[k := Entry(GroupKey(option, t), Bucket(es[k].value.icon, es[k].value.transactions + [t], es[k].value.total + t.amount))]
  {
    BucketsStep(option, es[k].value, t);
  }

  /** A group holds the transactions of its key in page order, their total,
      and the icon of the first of them. */
  lemma BucketValue(txs: seq<Transaction>, option: GroupingOption, k: string)
    requires option != NoGrouping
    ensures var m := Members(txs, Buckets(option), k);
      ValueOf(txs, Buckets(option), k)
        == Bucket(if m == [] then None else IconOf(option, m[0]), m, SumOf(m, Amount))
  {
    var icon := t => IconOf(option, t);
    forall b, t
      ensures Buckets(option).step(b, t) == Join(icon, b, t)
    {
      BucketsStep(option, b, t);
    }
    BucketsStep(option, EMPTY_BUCKET, Transaction(0, "", 0.0, "", None, Date(0, 1, 1), "", None));
    FirstIconWins(txs, Buckets(option), icon, k);
  }

  /** The same for any filling in which the opening transaction sets the
      icon. */
  lemma {:induction false} FirstIconWins(txs: seq<Transaction>, g: Grouping<Transaction, string, Bucket>,
                                         icon: Transaction -> Option<string>, k: string)
    requires g.init == EMPTY_BUCKET
    requires forall b, t :: g.step(b, t) == Join(icon, b, t)
    ensures var m := Members(txs, g, k);
      ValueOf(txs, g, k) == Bucket(if m == [] then None else icon(m[0]), m, SumOf(m, Amount))
  {
    if txs != [] {
      var seen, t := txs[..|txs| - 1], txs[|txs| - 1];
      FirstIconWins(seen, g, icon, k);
      var m := Members(seen, g, k);
      var v := ValueOf(seen, g, k);
      if g.key(t) == k {
        var m' := m + [t];
        assert Members(txs, g, k) == m';
        assert ValueOf(txs, g, k) == g.step(v, t) == Join(icon, v, t);
        assert m'[..|m'| - 1] == m;
        assert SumOf(m', Amount) == SumOf(m, Amount) + t.amount;
        assert m'[0] == if m == [] then t else m[0];
      } else {
        assert Members(txs, g, k) == m;
        assert ValueOf(txs, g, k) == v;
      }
    }
  }

  /** What a group says about the page: it holds exactly the transactions of
      its title's key, in page order, at least one; its total is their sum;
      its icon is the one the first of them gives. */
  predicate Gathers(txs: seq<Transaction>, option: GroupingOption, g: TxGroup)
  {
    g.transactions == Members(txs, Buckets(option), g.title)
    && g.transactions != []
    && g.total == Some(SumOf(g.transactions, Amount))
    && g.icon == IconOf(option, g.transactions[0])
  }

  lemma GroupEntryGathers(txs: seq<Transaction>, option: GroupingOption, i: int)
    requires option != NoGrouping
    requires 0 <= i < |Grouped(txs, Buckets(option))|
    ensures Gathers(txs, option, GroupOf(Grouped(txs, Buckets(option))[i]))
  {
    var es := Grouped(txs, Buckets(option));
    var key := es[i].key;
    GroupedKeys(txs, Buckets(option));
    assert key in EntryKeys(es);
    var k :| 0 <= k < |txs| && KeysOf(txs, Buckets(option))[k] == key;
    MembersOfKey(txs, Buckets(option), key);
    assert txs[k] in Members(txs, Buckets(option), key);
    BucketValue(txs, option, key);
  }

  /** Each group of a grouped page gathers its key's transactions. */
  lemma GroupsGather(txs: seq<Transaction>, option: GroupingOption)
    requires option != NoGrouping
    ensures forall g :: g in TransactionGroups(txs, option) ==> Gathers(txs, option, g)
  {
    var es := GroupsOf(Grouped(txs, Buckets(option)));
    var r := TransactionGroups(txs, option);
    forall g | g in r
      ensures Gathers(txs, option, g)
    {
      assert g in multiset(r);
      var i :| 0 <= i < |es| && es[i] == g;
      GroupEntryGathers(txs, option, i);
    }
  }

  /** No two groups share a title. */
  lemma GroupTitlesDistinct(txs: seq<Transaction>, option: GroupingOption)
    requires option != NoGrouping
    ensures var r := TransactionGroups(txs, option);
      forall i, j :: 0 <= i < j < |r| ==> r[i].title != r[j].title
  {
    var groups := Grouped(txs, Buckets(option));
    var es := GroupsOf(groups);
    GroupedKeys(txs, Buckets(option));
    assert forall i, j :: 0 <= i < j < |es| ==> es[i].title != es[j].title by {
      assert forall i :: 0 <= i < |es| ==> es[i].title == EntryKeys(groups)[i];
    }
    PermutationKeysDistinct(es, TransactionGroups(txs, option), (g: TxGroup) => g.title);
  }

  /** Before sorting, every transaction is in the group of its key. */
  lemma GroupEntryOfKey(txs: seq<Transaction>, option: GroupingOption, t: Transaction)
    requires option != NoGrouping && t in txs
    ensures exists g :: g in GroupsOf(Grouped(txs, Buckets(option))) && g.title == GroupKey(option, t) && t in g.transactions
  {
    var groups := Grouped(txs, Buckets(option));
    var es := GroupsOf(groups);
    var key := GroupKey(option, t);
    GroupedKeys(txs, Buckets(option));
    BucketsStep(option, EMPTY_BUCKET, t);
    var k :| 0 <= k < |txs| && txs[k] == t;
    assert KeysOf(txs, Buckets(option))[k] == key;
    assert key in EntryKeys(groups);
    var i :| 0 <= i < |groups| && groups[i].key == key;
    GroupEntryGathers(txs, option, i);
    MembersOfKey(txs, Buckets(option), key);
    assert es[i] in es;
  }

  /** Every transaction of the page is in the group of its own key, and a
      group holds only transactions of its key. */
  lemma EveryTransactionGrouped(txs: seq<Transaction>, option: GroupingOption, t: Transaction)
    requires option != NoGrouping && t in txs
    ensures exists g :: g in TransactionGroups(txs, option) && g.title == GroupKey(option, t) && t in g.transactions
    ensures forall g :: g in TransactionGroups(txs, option) && t in g.transactions ==> g.title == GroupKey(option, t)
  {
    var es := GroupsOf(Grouped(txs, Buckets(option)));
    var r := TransactionGroups(txs, option);
    GroupEntryOfKey(txs, option, t);
    var g0 :| g0 in es && g0.title == GroupKey(option, t) && t in g0.transactions;
    assert g0 in multiset(r);
    GroupsGather(txs, option);
    BucketsStep(option, EMPTY_BUCKET, t);
    forall g | g in r && t in g.transactions
      ensures g.title == GroupKey(option, t)
    {
      MembersOfKey(txs, Buckets(option), g.title);
    }
  }
}
