/** The family dashboard's figures: the family's income and expense totals,
    a contributions record per member, the expenses by category, the chart
    rows built from them, and one member's own totals.

    The contributions loop writes every amount under the property named by
    the transaction's type. Income lands on `income`, but an expense lands
    on a property `expense` that the record never had, so the `expenses`
    the chart reads stays 0. `Contributions` is the loop as written;
    `FixedContributions` is the keying the chart evidently expects. */
module FamilyStats {
  import opened Common
  import opened Calendar
  import opened Ledger
  import opened Groups
  import opened JsNumber
  import FinanceCharts

  const EXPENSES: string := "expenses"

  // ---------------------------------------------------------------------
  // Contributions records

  /** A contributions record: a JavaScript object, as its properties in the
      order they were created. */
  type Record = seq<Entry<string, Num>>

  /** `{ income: 0, expenses: 0 }`. */
  const NEW_RECORD: Record := [Entry(INCOME, ZERO), Entry(EXPENSES, ZERO)]

  /** `rec[name]`, or None when that property is undefined. */
  function Property(rec: Record, name: string): (r: Option<Num>)
    ensures r.None? <==> forall j :: 0 <= j < |rec| ==> rec[j].key != name
  {
    var i := IndexOfKey(rec, name);
    if i < 0 then None else Some(rec[i].value)
  }

  /** `rec[name]` used as a number: undefined turns into NaN. */
  function Get(rec: Record, name: string): Num
  {
    match Property(rec, name)
    case None => NaN
    case Some(v) => v
  }

  /** `rec[name] += amount`. An undefined property becomes
      `undefined + amount`, which is NaN. */
  function Bump(rec: Record, name: string, amount: real): Record
  {
    var i := IndexOfKey(rec, name);
    if i < 0 then rec + [Entry(name, NaN)]
    else rec[i := Entry(name, Add(rec[i].value, Finite(amount)))]
  }

  lemma {:induction false} SameKeysSameIndex(a: Record, b: Record, name: string)
    requires |a| == |b| && forall j :: 0 <= j < |a| ==> a[j].key == b[j].key
    ensures IndexOfKey(a, name) == IndexOfKey(b, name)
  {
    if a != [] {
      SameKeysSameIndex(a[..|a| - 1], b[..|b| - 1], name);
    }
  }

  /** `+=` changes the property it names and no other. */
  lemma PropertyBump(rec: Record, name: string, amount: real, p: string)
    ensures Property(Bump(rec, name, amount), p) ==
      if p != name then Property(rec, p)
      else if Property(rec, p).None? then Some(NaN)
      else Some(Add(Property(rec, p).value, Finite(amount)))
  {
    var i := IndexOfKey(rec, name);
    if i < 0 {
      assert (rec + [Entry(name, NaN)])[..|rec|] == rec;
    } else {
      SameKeysSameIndex(rec, rec[i := Entry(name, Add(rec[i].value, Finite(amount)))], p);
    }
  }

  lemma NewRecordProperty(p: string)
    ensures Property(NEW_RECORD, p) == if p == INCOME || p == EXPENSES then Some(ZERO) else None
  {
    assert |INCOME| != |EXPENSES|;
    assert NEW_RECORD[..1] == [Entry(INCOME, ZERO)];
    assert NEW_RECORD[..1][..0] == [];
    if p == EXPENSES {
      assert IndexOfKey(NEW_RECORD, p) == 1;
    } else if p == INCOME {
      assert IndexOfKey(NEW_RECORD, p) == 0;
    } else {
      assert IndexOfKey(NEW_RECORD, p) == -1;
    }
  }

  function MemberOf(t: Transaction): string
  {
    t.familyMember
  }

  /** `memberContributions[t.familyMember][t.type] += amount`, as written. */
  function Contribute(rec: Record, t: Transaction): Record
  {
    Bump(rec, t.kind, t.amount)
  }

  const Contributions: Grouping<Transaction, string, Record> := Grouping(MemberOf, NEW_RECORD, Contribute)

  /** A member's record as the loop leaves it: `income` and `expenses` each
      add up the member's transactions whose type is that very string, and
      every other type the member has gets a property of its own that is
      NaN. */
  lemma {:induction false} RecordProperty(txs: seq<Transaction>, m: string, p: string)
    ensures Property(ValueOf(txs, Contributions, m), p) ==
      if p == INCOME || p == EXPENSES then Some(Finite(Total(txs, MemberOfKind(m, p))))
      else if Count(txs, MemberOfKind(m, p)) == 0 then None
      else Some(NaN)
  {
    if txs == [] {
      NewRecordProperty(p);
    } else {
      var seen, t := txs[..|txs| - 1], txs[|txs| - 1];
      RecordProperty(seen, m, p);
      if t.familyMember == m {
        PropertyBump(ValueOf(seen, Contributions, m), t.kind, t.amount, p);
      }
    }
  }

  /** The key the chart reads the amount back from: `income` for income and
      `expenses` for every other type, the split the family totals use. */
  function ContributionKey(t: Transaction): string
  {
    if t.kind == INCOME then INCOME else EXPENSES
  }

  function ContributeFixed(rec: Record, t: Transaction): Record
  {
    Bump(rec, ContributionKey(t), t.amount)
  }

  const FixedContributions: Grouping<Transaction, string, Record> := Grouping(MemberOf, NEW_RECORD, ContributeFixed)

  /** Keyed as intended, a member's record keeps exactly its two properties:
      `income` holds the member's income and `expenses` all the member's
      other amounts. */
  lemma {:induction false} FixedRecord(txs: seq<Transaction>, m: string)
    ensures var rec := ValueOf(txs, FixedContributions, m);
      |rec| == 2 && rec[0].key == INCOME && rec[1].key == EXPENSES
      && rec[0].value == Finite(Total(txs, MemberOfKind(m, INCOME)))
      && rec[1].value == Finite(Total(txs, MemberNotOfKind(m, INCOME)))
  {
    if txs != [] {
      var seen, t := txs[..|txs| - 1], txs[|txs| - 1];
      FixedRecord(seen, m);
    }
  }

  // ---------------------------------------------------------------------
  // calculateFamilyStats

  /** The statistics object: the totals, the contributions record of each
      member and the expense total of each category, both keyed in the
      order the keys first appear. */
  datatype Stats = Stats(
    totalIncome: real,
    totalExpenses: real,
    memberContributions: seq<Entry<string, Record>>,
    categoryBreakdown: seq<Entry<string, real>>)

  /** The reference definition of the statistics the loop computes. */
  function FamilyStatsOf(txs: seq<Transaction>): Stats
  {
    Stats(
      Total(txs, OfKind(INCOME)),
      Total(txs, NotOfKind(INCOME)),
      Grouped(txs, Contributions),
      Grouped(Filter(txs, IsExpense), FinanceCharts.CategoryTotals))
  }

  /** One member step: a new member starts from `{ income: 0, expenses: 0 }`,
      then the amount goes under the transaction's type. */
  method AddContribution(es: seq<Entry<string, Record>>, t: Transaction) returns (r: seq<Entry<string, Record>>)
    ensures r == AddAt(es, Contributions, t)
  {
    var k := IndexOfKey(es, t.familyMember);
    if k < 0 {
      r := es + [Entry(t.familyMember, NEW_RECORD)];
      k := |es|;
    } else {
      r := es;
    }
    r := r[k := Entry(t.familyMember, Bump(r[k].value, t.kind, t.amount))];
  }

  /** One category step: a category not seen yet (or holding 0) starts from
      0, then the amount is added. */
  method AddToBreakdown(es: seq<Entry<string, real>>, t: Transaction) returns (r: seq<Entry<string, real>>)
    ensures r == AddAt(es, FinanceCharts.CategoryTotals, t)
  {
    var k := IndexOfKey(es, t.category);
    if k < 0 {
      r := es + [Entry(t.category, 0.0)];
      k := |es|;
    } else {
      r := es;
    }
    r := r[k := Entry(t.category, r[k].value + t.amount)];
  }

  /** The statistics after the transactions `seen`, as the loop holds them. */
  function Partial(seen: seq<Transaction>): Stats
  {
    Stats(
      Total(seen, OfKind(INCOME)),
      Total(seen, NotOfKind(INCOME)),
      Fold(seen, Contributions),
      Fold(Filter(seen, IsExpense), FinanceCharts.CategoryTotals))
  }

  lemma PartialSnoc(seen: seq<Transaction>, t: Transaction)
    ensures var p := Partial(seen);
      Partial(seen + [t]) == Stats(
        if t.kind == INCOME then p.totalIncome + t.amount else p.totalIncome,
        if t.kind == INCOME then p.totalExpenses else p.totalExpenses + t.amount,
        AddAt(p.memberContributions, Contributions, t),
        if t.kind == EXPENSE then AddAt(p.categoryBreakdown, FinanceCharts.CategoryTotals, t)
        else p.categoryBreakdown)
  {
    var p := Partial(seen);
    assert Partial(seen + [t]).totalIncome == if t.kind == INCOME then p.totalIncome + t.amount else p.totalIncome by {
      TotalSnoc(seen, t, OfKind(INCOME));
    }
    assert Partial(seen + [t]).totalExpenses == if t.kind == INCOME then p.totalExpenses else p.totalExpenses + t.amount by {
      TotalSnoc(seen, t, NotOfKind(INCOME));
    }
    assert Partial(seen + [t]).memberContributions == AddAt(p.memberContributions, Contributions, t) by {
      FoldSnoc(seen, t, Contributions);
    }
    assert Partial(seen + [t]).categoryBreakdown ==
      if t.kind == EXPENSE then AddAt(p.categoryBreakdown, FinanceCharts.CategoryTotals, t) else p.categoryBreakdown by {
      FilterSnoc(seen, t, IsExpense);
      if t.kind == EXPENSE {
        assert Filter(seen + [t], IsExpense) == Filter(seen, IsExpense) + [t];
        FoldSnoc(Filter(seen, IsExpense), t, FinanceCharts.CategoryTotals);
      } else {
        assert Filter(seen + [t], IsExpense) == Filter(seen, IsExpense);
      }
    }
  }

  /** The body of the loop for one transaction: income goes to
      `totalIncome` and everything else to `totalExpenses`, the member's
      record is updated, and an "expense" also updates its category. */
  method UpdateStats(stats: Stats, ghost seen: seq<Transaction>, t: Transaction) returns (r: Stats)
    requires stats == Partial(seen)
    ensures r == Partial(seen + [t])
  {
    PartialSnoc(seen, t);
    r := stats;
    if t.kind == INCOME {
      r := r.(totalIncome := r.totalIncome + t.amount);
    } else {
      r := r.(totalExpenses := r.totalExpenses + t.amount);
    }
    var contributions := AddContribution(r.memberContributions, t);
    r := r.(memberContributions := contributions);
    if t.kind == EXPENSE {
      var breakdown := AddToBreakdown(r.categoryBreakdown, t);
      r := r.(categoryBreakdown := breakdown);
    }
  }

  /** calculateFamilyStats: one pass over the transactions, from zero totals
      and empty dictionaries. */
  method CalculateFamilyStats(txs: seq<Transaction>) returns (stats: Stats)
    ensures stats == FamilyStatsOf(txs)
  {
    stats := Stats(0.0, 0.0, [], []);
    for i := 0 to |txs|
      invariant stats == Partial(txs[..i])
    {
      assert txs[..i + 1] == txs[..i] + [txs[i]];
      stats := UpdateStats(stats, txs[..i], txs[i]);
    }
    assert txs[..|txs|] == txs;
    FoldIsGrouped(txs, Contributions);
    FoldIsGrouped(Filter(txs, IsExpense), FinanceCharts.CategoryTotals);
  }

  /** `totalIncome - totalExpenses`, the net balance card. */
  function NetBalance(stats: Stats): real
  {
    stats.totalIncome - stats.totalExpenses
  }

  /** The two totals split every amount between them, and the net balance
      is income less everything else. */
  lemma FamilyTotals(txs: seq<Transaction>)
    ensures FamilyStatsOf(txs).totalIncome + FamilyStatsOf(txs).totalExpenses == Total(txs, Everything)
    ensures NetBalance(FamilyStatsOf(txs)) == Total(txs, OfKind(INCOME)) - Total(txs, NotOfKind(INCOME))
  {
    TotalPartition(txs, Everything, OfKind(INCOME), NotOfKind(INCOME));
  }

  /** Every member with a transaction has exactly one record, and each
      record holds what `RecordProperty` says. */
  lemma ContributionsCover(txs: seq<Transaction>)
    ensures var es := FamilyStatsOf(txs).memberContributions;
      Distinct(EntryKeys(es))
      && (forall m :: m in EntryKeys(es) <==> exists k :: 0 <= k < |txs| && txs[k].familyMember == m)
    ensures var es := FamilyStatsOf(txs).memberContributions;
      forall i :: 0 <= i < |es| ==> es[i].value == ValueOf(txs, Contributions, es[i].key)
  {
    var es := FamilyStatsOf(txs).memberContributions;
    GroupedKeys(txs, Contributions);
    forall m
      ensures m in KeysOf(txs, Contributions) <==> exists k :: 0 <= k < |txs| && txs[k].familyMember == m
    {
      if m in KeysOf(txs, Contributions) {
        var k :| 0 <= k < |txs| && KeysOf(txs, Contributions)[k] == m;
      }
    }
  }

  /** The category breakdown holds every expense category once, with the
      category's expense total; income and other types never reach it. */
  lemma BreakdownTotals(txs: seq<Transaction>)
    ensures var es := FamilyStatsOf(txs).categoryBreakdown;
      Distinct(EntryKeys(es))
      && forall i :: 0 <= i < |es| ==> es[i].value == Total(txs, ExpenseIn(es[i].key))
    ensures var es := FamilyStatsOf(txs).categoryBreakdown;
      forall k :: 0 <= k < |txs| && txs[k].kind == EXPENSE ==> txs[k].category in EntryKeys(es)
  {
    var expenses := Filter(txs, IsExpense);
    var es := FamilyStatsOf(txs).categoryBreakdown;
    GroupedKeys(expenses, FinanceCharts.CategoryTotals);
    forall i | 0 <= i < |es|
      ensures es[i].value == Total(txs, ExpenseIn(es[i].key))
    {
      FinanceCharts.CategoryValue(txs, es[i].key);
    }
    forall k | 0 <= k < |txs| && txs[k].kind == EXPENSE
      ensures txs[k].category in EntryKeys(es)
    {
      assert txs[k] in expenses;
      var m :| 0 <= m < |expenses| && expenses[m] == txs[k];
      assert KeysOf(expenses, FinanceCharts.CategoryTotals)[m] == txs[k].category;
    }
  }

  // ---------------------------------------------------------------------
  // chartData: memberData and categoryData

  /** A bar of the member chart. */
  datatype MemberBar = MemberBar(name: string, income: Num, expenses: Num, balance: Num)

  /** `{ name: member, income: data.income, expenses: data.expenses,
      balance: data.income - data.expenses }`. */
  function BarOf(e: Entry<string, Record>): MemberBar
  {
    var income := Get(e.value, INCOME);
    var expenses := Get(e.value, EXPENSES);
    MemberBar(e.key, income, expenses, Sub(income, expenses))
  }

  /** `Object.entries(memberContributions).map(...)`. */
  function MemberData(contributions: seq<Entry<string, Record>>): (r: seq<MemberBar>)
    ensures |r| == |contributions|
    ensures forall i :: 0 <= i < |r| ==> r[i] == BarOf(contributions[i])
  {
    seq(|contributions|, i requires 0 <= i < |contributions| => BarOf(contributions[i]))
  }

  /** A member bar as the loop leaves it: income is the member's income,
      `expenses` counts only transactions typed "expenses", and the balance
      is their difference. */
  lemma MemberBars(txs: seq<Transaction>)
    ensures var bars := MemberData(FamilyStatsOf(txs).memberContributions);
      forall i :: 0 <= i < |bars| ==>
        var income := Total(txs, MemberOfKind(bars[i].name, INCOME));
        var expenses := Total(txs, MemberOfKind(bars[i].name, EXPENSES));
        bars[i] == MemberBar(bars[i].name, Finite(income), Finite(expenses), Finite(income - expenses))
  {
    var es := FamilyStatsOf(txs).memberContributions;
    var bars := MemberData(FamilyStatsOf(txs).memberContributions);
    ContributionsCover(txs);
    forall i | 0 <= i < |bars|
      ensures var income := Total(txs, MemberOfKind(bars[i].name, INCOME));
        var expenses := Total(txs, MemberOfKind(bars[i].name, EXPENSES));
        bars[i] == MemberBar(bars[i].name, Finite(income), Finite(expenses), Finite(income - expenses))
    {
      RecordProperty(txs, es[i].key, INCOME);
      RecordProperty(txs, es[i].key, EXPENSES);
    }
  }

  /** The transactions the server stores are typed "income" or "expense",
      so no member bar ever shows an expense: `expenses` is 0 and the
      balance is the member's income. */
  lemma ExpensesNeverShown(txs: seq<Transaction>)
    requires forall k :: 0 <= k < |txs| ==> txs[k].kind == INCOME || txs[k].kind == EXPENSE
    ensures var bars := MemberData(FamilyStatsOf(txs).memberContributions);
      forall i :: 0 <= i < |bars| ==> bars[i].expenses == ZERO && bars[i].balance == bars[i].income
  {
    var bars := MemberData(FamilyStatsOf(txs).memberContributions);
    MemberBars(txs);
    forall i | 0 <= i < |bars|
      ensures bars[i].expenses == ZERO && bars[i].balance == bars[i].income
    {
      TotalNone(txs, MemberOfKind(bars[i].name, EXPENSES));
    }
  }

  /** A single expense: the family's `totalExpenses` is its amount, yet the
      member's only bar shows no expense and a zero balance. */
  lemma ExpenseMissed(t: Transaction)
    requires t.kind == EXPENSE && t.amount > 0.0
    ensures Total([t], NotOfKind(INCOME)) == t.amount
    ensures |MemberData(Grouped([t], Contributions))| == 1
    ensures MemberData(Grouped([t], Contributions))[0] == MemberBar(t.familyMember, ZERO, ZERO, ZERO)
  {
    ExpenseBar(t);
    OnlyBar(Grouped([t], Contributions));
    TotalOfExpense(t);
  }

  lemma TotalOfExpense(t: Transaction)
    requires t.kind == EXPENSE
    ensures Total([t], NotOfKind(INCOME)) == t.amount
  {
    assert |EXPENSE| != |INCOME|;
    TotalOfOne(t, NotOfKind(INCOME));
  }

  lemma OnlyBar(es: seq<Entry<string, Record>>)
    requires |es| == 1
    ensures |MemberData(es)| == 1 && MemberData(es)[0] == BarOf(es[0])
  {
  }

  lemma TotalOfOne(t: Transaction, q: Query)
    ensures Total([t], q) == if Matches(t, q) then t.amount else 0.0
  {
    assert [t][..0] == [];
  }

  lemma OneMember(t: Transaction)
    ensures |Grouped([t], Contributions)| == 1 && Grouped([t], Contributions)[0].key == t.familyMember
  {
    assert KeysOf([t], Contributions) == [t.familyMember];
    assert FirstSeen([t.familyMember]) == [t.familyMember] by {
      assert [t.familyMember][..0] == [];
    }
    GroupedKeys([t], Contributions);
  }

  lemma ExpenseBar(t: Transaction)
    requires t.kind == EXPENSE
    ensures |Grouped([t], Contributions)| == 1
    ensures BarOf(Grouped([t], Contributions)[0]) == MemberBar(t.familyMember, ZERO, ZERO, ZERO)
  {
    OneMember(t);
    var m := t.familyMember;
    assert |EXPENSE| != |INCOME|;
    TotalOfOne(t, MemberOfKind(m, INCOME));
    TotalOfOne(t, MemberOfKind(m, EXPENSES));
    ContributionsCover([t]);
    RecordProperty([t], m, INCOME);
    RecordProperty([t], m, EXPENSES);
  }

  /** The member bars with the records keyed as intended: income, the
      member's other amounts, and income less those; income and expenses
      together cover all the member's transactions. */
  lemma FixedBars(txs: seq<Transaction>)
    ensures var es := Grouped(txs, FixedContributions);
      forall i :: 0 <= i < |es| ==>
        var m := es[i].key;
        BarOf(es[i]) == MemberBar(m, Finite(Total(txs, MemberOfKind(m, INCOME))),
          Finite(Total(txs, MemberNotOfKind(m, INCOME))),
          Finite(Total(txs, MemberOfKind(m, INCOME)) - Total(txs, MemberNotOfKind(m, INCOME))))
        && Total(txs, MemberOfKind(m, INCOME)) + Total(txs, MemberNotOfKind(m, INCOME)) == Total(txs, ByMember(m))
  {
    var es := Grouped(txs, FixedContributions);
    forall i | 0 <= i < |es|
      ensures var m := es[i].key;
        BarOf(es[i]) == MemberBar(m, Finite(Total(txs, MemberOfKind(m, INCOME))),
          Finite(Total(txs, MemberNotOfKind(m, INCOME))),
          Finite(Total(txs, MemberOfKind(m, INCOME)) - Total(txs, MemberNotOfKind(m, INCOME))))
        && Total(txs, MemberOfKind(m, INCOME)) + Total(txs, MemberNotOfKind(m, INCOME)) == Total(txs, ByMember(m))
    {
      var m := es[i].key;
      FixedRecord(txs, m);
      NewRecordShape(ValueOf(txs, FixedContributions, m));
      TotalPartition(txs, ByMember(m), MemberOfKind(m, INCOME), MemberNotOfKind(m, INCOME));
    }
  }

  lemma NewRecordShape(rec: Record)
    requires |rec| == 2 && rec[0].key == INCOME && rec[1].key == EXPENSES
    ensures Get(rec, INCOME) == rec[0].value && Get(rec, EXPENSES) == rec[1].value
  {
    assert rec[..1][..0] == [];
  }

  /** A slice of the category chart. */
  datatype CategoryBar = CategoryBar(name: string, value: real)

  /** `Object.entries(categoryBreakdown).map(...)`. */
  function CategoryData(breakdown: seq<Entry<string, real>>): (r: seq<CategoryBar>)
    ensures |r| == |breakdown|
    ensures forall i :: 0 <= i < |r| ==> r[i] == CategoryBar(breakdown[i].key, breakdown[i].value)
  {
    seq(|breakdown|, i requires 0 <= i < |breakdown| => CategoryBar(breakdown[i].key, breakdown[i].value))
  }

  /** One slice per expense category, each with its expense total. */
  lemma CategoryBars(txs: seq<Transaction>)
    ensures var r := CategoryData(FamilyStatsOf(txs).categoryBreakdown);
      (forall i :: 0 <= i < |r| ==> r[i].value == Total(txs, ExpenseIn(r[i].name)))
      && (forall i, j :: 0 <= i < j < |r| ==> r[i].name != r[j].name)
      && (forall k :: 0 <= k < |txs| && txs[k].kind == EXPENSE ==> exists i :: 0 <= i < |r| && r[i].name == txs[k].category)
  {
    var es := FamilyStatsOf(txs).categoryBreakdown;
    var r := CategoryData(FamilyStatsOf(txs).categoryBreakdown);
    BreakdownTotals(txs);
    assert forall i :: 0 <= i < |r| ==> r[i].name == EntryKeys(es)[i];
    forall k | 0 <= k < |txs| && txs[k].kind == EXPENSE
      ensures exists i :: 0 <= i < |r| && r[i].name == txs[k].category
    {
      var i :| 0 <= i < |es| && EntryKeys(es)[i] == txs[k].category;
      assert r[i].name == txs[k].category;
    }
  }

  // ---------------------------------------------------------------------
  // getMemberStats

  datatype MemberStats = MemberStats(totalIncome: real, totalExpenses: real, transactions: seq<Transaction>)

  /** `t => t.userId === memberId`. */
  function OfUser(memberId: int): Transaction -> bool
  {
    (t: Transaction) => t.userId == Some(memberId)
  }

  /** getMemberStats: the member's own transactions, and their "income" and
      "expense" totals. */
  function GetMemberStats(txs: seq<Transaction>, memberId: int): (r: MemberStats)
    ensures forall t :: t in r.transactions <==> t in txs && t.userId == Some(memberId)
  {
    var mine := Filter(txs, OfUser(memberId));
    MemberStats(Total(mine, OfKind(INCOME)), Total(mine, OfKind(EXPENSE)), mine)
  }

  lemma {:induction false} TotalOfUser(txs: seq<Transaction>, memberId: int, kind: string)
    ensures Total(Filter(txs, OfUser(memberId)), OfKind(kind)) == Total(txs, UserOfKind(memberId, kind))
  {
    if txs != [] {
      var seen, t := txs[..|txs| - 1], txs[|txs| - 1];
      var mine := Filter(seen, OfUser(memberId));
      TotalOfUser(seen, memberId, kind);
      if t.userId == Some(memberId) {
        assert Filter(txs, OfUser(memberId)) == mine + [t];
        TotalSnoc(mine, t, OfKind(kind));
      } else {
        assert Filter(txs, OfUser(memberId)) == mine;
      }
    }
  }

  /** The member's totals count only transactions carrying the member's
      user id, "income" and "expense" each; any other type counts in
      neither. */
  lemma MemberStatsTotals(txs: seq<Transaction>, memberId: int)
    ensures GetMemberStats(txs, memberId).totalIncome == Total(txs, UserOfKind(memberId, INCOME))
    ensures GetMemberStats(txs, memberId).totalExpenses == Total(txs, UserOfKind(memberId, EXPENSE))
  {
    TotalOfUser(txs, memberId, INCOME);
    TotalOfUser(txs, memberId, EXPENSE);
  }
}
