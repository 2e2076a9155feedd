/** The month planner of the web client, in its server-backed copy: the
    plan of expected income and expenses for a month, the add-entry,
    remove-entry and notes handlers that persist it, and the views that
    compare the plan with the month's actual transactions (totals and
    variance, per-category and per-member comparison, savings goal, a
    merged date timeline and a day-by-day budget). */
module MonthPlanner {
  import opened Common
  import opened Calendar
  import opened Ledger
  import opened Groups
  import opened Registry

  /** One planned income or expense. `familyMember` is absent on a
      personal plan's entries; `date` is absent on entries added here. */
  datatype PlanEntry = PlanEntry(
    id: int,
    category: string,
    amount: real,
    description: string,
    familyMember: Option<string>,
    date: Option<string>)

  datatype MonthPlan = MonthPlan(
    expectedIncome: seq<PlanEntry>,
    expectedExpenses: seq<PlanEntry>,
    notes: string,
    isFamilyPlan: bool)

  const EMPTY_PLAN: MonthPlan := MonthPlan([], [], "", false)

  /** The add-entry dialog's fields, as typed. */
  datatype EntryForm = EntryForm(category: string, amount: string, description: string, familyMember: string)

  const BLANK_FORM: EntryForm := EntryForm("", "", "", "")

  /** How the persist call ended. A failure carries
      `err.response?.data?.message || err.message`, which is "" when both
      are absent. */
  datatype Outcome = Saved | Failed(message: string)

  /** The per-operation loading flags. */
  datatype Busy = Busy(addIncome: bool, addExpense: bool, removeEntry: bool, saveNotes: bool)

  const IDLE: Busy := Busy(false, false, false, false)

  /** The month picker's value `YYYY-MM`. */
  datatype Month = Month(year: int, month: int)

  predicate ValidMonth(m: Month)
  {
    0 <= m.year <= 9999 && 1 <= m.month <= 12
  }

  function MonthText(m: Month): (s: string)
    requires ValidMonth(m)
    ensures |s| == 7 && s[4] == '-'
  {
    Digits(m.year, 4) + "-" + Digits(m.month, 2)
  }

  /** `selectedMonth + "-01"` is the first day of the month as a date text. */
  lemma FirstOfMonth(m: Month)
    requires ValidMonth(m)
    ensures MonthText(m) + "-01" == ToIsoDate(Date(m.year, m.month, 1))
  {
    assert Digits(1, 2) == "01";
  }

  // ---------------------------------------------------------------------
  // Adding and removing entries (handleAddEntry, removeEntry)

  const REQUIRED_FAMILY: string := "Please fill all required fields: category, amount, and family member."
  const REQUIRED_PERSONAL: string := "Please fill all required fields: category and amount."
  const NOT_POSITIVE: string := "Amount must be a positive number."
  const SAVE_FAILED: string := "Failed to save plan."
  const REMOVE_FAILED: string := "Failed to remove entry."
  const NOTES_FAILED: string := "Failed to save notes."

  /** The message a failed persist call leaves: the server's or the
      exception's own, else the handler's fallback. */
  function FailureMessage(o: Outcome, fallback: string): (m: string)
    requires o.Failed?
    ensures fallback != "" ==> m != ""
    ensures o.message != "" ==> m == o.message
  {
    if o.message != "" then o.message else fallback
  }

  /** The persist call as the component is written: the Axios instance of
      services/api.js has no `monthlyPlans`, so reading
      `api.monthlyPlans.<member>` throws a TypeError (in V8's wording) and
      no save reaches the server. Add and remove first read
      `validatePlanData`, the notes handler `updateMonthlyPlan`. */
  function PersistAsWritten(member: string): (o: Outcome)
    ensures o.Failed? && o.message != ""
    ensures forall fallback :: FailureMessage(o, fallback) == o.message
    ensures member == "validatePlanData" ==> FailureMessage(o, SAVE_FAILED) != SAVE_FAILED
  {
    Failed("Cannot read properties of undefined (reading '" + member + "')")
  }

  /** What the form check decides: the error it throws, or the parsed amount. */
  datatype Checked = Rejected(message: string) | Accepted(amount: real)

  /** A required field is empty: category, amount, and on a family plan
      the member. */
  predicate Incomplete(f: EntryForm, isFamilyPlan: bool)
  {
    f.category == "" || f.amount == "" || (isFamilyPlan && f.familyMember == "")
  }

  /** The two checks at the head of handleAddEntry. `parseFloat` is the
      browser's, with `None` for NaN. */
  function CheckEntry(f: EntryForm, isFamilyPlan: bool, parseFloat: string -> Option<real>): (r: Checked)
    ensures r.Accepted? <==>
      !Incomplete(f, isFamilyPlan) && parseFloat(f.amount).Some? && parseFloat(f.amount).value > 0.0
    ensures r.Accepted? ==> r.amount > 0.0 && Some(r.amount) == parseFloat(f.amount)
    ensures Incomplete(f, isFamilyPlan) ==>
      r == Rejected(if isFamilyPlan then REQUIRED_FAMILY else REQUIRED_PERSONAL)
    ensures !Incomplete(f, isFamilyPlan) && r.Rejected? ==> r.message == NOT_POSITIVE
  {
    if Incomplete(f, isFamilyPlan) then Rejected(if isFamilyPlan then REQUIRED_FAMILY else REQUIRED_PERSONAL)
    else match parseFloat(f.amount)
      case Some(amount) => if amount > 0.0 then Accepted(amount) else Rejected(NOT_POSITIVE)
      case None => Rejected(NOT_POSITIVE)
  }

  /** The entry built from the form: the parsed amount, the clock's `id`,
      and no member unless the plan is a family plan. */
  function NewEntry(f: EntryForm, isFamilyPlan: bool, id: int, amount: real): (e: PlanEntry)
    ensures e.familyMember.Some? <==> isFamilyPlan
    ensures e.id == id && e.amount == amount && e.category == f.category && e.date.None?
  {
    PlanEntry(id, f.category, amount, f.description, if isFamilyPlan then Some(f.familyMember) else None, None)
  }

  /** The list a type selects: income for "income", expenses otherwise. */
  function ListOf(plan: MonthPlan, kind: string): seq<PlanEntry>
  {
    if kind == INCOME then plan.expectedIncome else plan.expectedExpenses
  }

  function WithList(plan: MonthPlan, kind: string, es: seq<PlanEntry>): MonthPlan
  {
    if kind == INCOME then plan.(expectedIncome := es) else plan.(expectedExpenses := es)
  }

  /** The plan with `e` appended to the list of its type. */
  function Added(plan: MonthPlan, kind: string, e: PlanEntry): (r: MonthPlan)
    ensures ListOf(r, kind) == ListOf(plan, kind) + [e]
    ensures kind == INCOME ==> r.expectedExpenses == plan.expectedExpenses
    ensures kind != INCOME ==> r.expectedIncome == plan.expectedIncome
    ensures r.notes == plan.notes && r.isFamilyPlan == plan.isFamilyPlan
  {
    WithList(plan, kind, ListOf(plan, kind) + [e])
  }

  predicate NotEntry(id: int, e: PlanEntry)
  {
    e.id != id
  }

  /** The plan with the entries of id `id` dropped from the list of `kind`. */
  function Removed(plan: MonthPlan, kind: string, id: int): (r: MonthPlan)
    ensures forall e :: e in ListOf(r, kind) <==> e in ListOf(plan, kind) && e.id != id
    ensures kind == INCOME ==> r.expectedExpenses == plan.expectedExpenses
    ensures kind != INCOME ==> r.expectedIncome == plan.expectedIncome
    ensures r.notes == plan.notes && r.isFamilyPlan == plan.isFamilyPlan
  {
    WithList(plan, kind, Filter(ListOf(plan, kind), e => NotEntry(id, e)))
  }

  /** Removing an entry just added under a fresh id gives the plan back. */
  lemma AddThenRemove(plan: MonthPlan, kind: string, e: PlanEntry)
    requires forall i :: 0 <= i < |ListOf(plan, kind)| ==> ListOf(plan, kind)[i].id != e.id
    ensures Removed(Added(plan, kind, e), kind, e.id) == plan
  {
    var es := ListOf(plan, kind);
    FilterSnoc(es, e, x => NotEntry(e.id, x));
    FilterKeepsAll(es, x => NotEntry(e.id, x));
  }

  /** The page's state that the three handlers change. The persist call
      (`api.monthlyPlans.updateMonthlyPlan`) is the `outcome` argument. */
  class PlanEditor {
    var plan: MonthPlan
    var error: Option<string>
    var showAddIncome: bool
    var showAddExpense: bool
    var form: EntryForm
    var busy: Busy

    constructor()
      ensures plan == EMPTY_PLAN && error == None && form == BLANK_FORM && busy == IDLE
      ensures !showAddIncome && !showAddExpense
    {
      plan := EMPTY_PLAN;
      error := None;
      showAddIncome := false;
      showAddExpense := false;
      form := BLANK_FORM;
      busy := IDLE;
    }

    /** handleAddEntry: a rejected form only sets the error; an accepted
        one closes its dialog before the call, and the plan and the form
        change only when the call succeeds. */
    method HandleAddEntry(kind: string, newId: int, parseFloat: string -> Option<real>, outcome: Outcome)
      modifies this
      ensures var check := CheckEntry(old(form), old(plan).isFamilyPlan, parseFloat);
        check.Rejected? ==>
          plan == old(plan) && form == old(form) && error == Some(check.message)
          && showAddIncome == old(showAddIncome) && showAddExpense == old(showAddExpense)
      ensures var check := CheckEntry(old(form), old(plan).isFamilyPlan, parseFloat);
        check.Accepted? ==>
          (if kind == INCOME then !showAddIncome && showAddExpense == old(showAddExpense)
           else !showAddExpense && showAddIncome == old(showAddIncome))
          && (outcome.Saved? ==>
                plan == Added(old(plan), kind, NewEntry(old(form), old(plan).isFamilyPlan, newId, check.amount))
                && form == BLANK_FORM && error == None)
          && (outcome.Failed? ==>
                plan == old(plan) && form == old(form) && error == Some(FailureMessage(outcome, SAVE_FAILED)))
      ensures busy == if kind == INCOME then old(busy).(addIncome := false) else old(busy).(addExpense := false)
    {
      busy := if kind == INCOME then busy.(addIncome := true) else busy.(addExpense := true);
      error := None;
      var check := CheckEntry(form, plan.isFamilyPlan, parseFloat);
      if check.Rejected? {
        error := Some(check.message);
      } else {
        var updated := Added(plan, kind, NewEntry(form, plan.isFamilyPlan, newId, check.amount));
        if kind == INCOME {
          showAddIncome := false;
        } else {
          showAddExpense := false;
        }
        if outcome.Saved? {
          plan := updated;
          form := BLANK_FORM;
        } else {
          error := Some(FailureMessage(outcome, SAVE_FAILED));
        }
      }
      busy := if kind == INCOME then busy.(addIncome := false) else busy.(addExpense := false);
    }

    /** removeEntry: the plan loses the entries of that id from one list
        once the call succeeds, and is untouched when it fails. */
    method RemoveEntry(id: int, kind: string, outcome: Outcome)
      modifies this
      ensures outcome.Saved? ==> plan == Removed(old(plan), kind, id) && error == None
      ensures outcome.Failed? ==> plan == old(plan) && error == Some(FailureMessage(outcome, REMOVE_FAILED))
      ensures form == old(form) && showAddIncome == old(showAddIncome) && showAddExpense == old(showAddExpense)
      ensures busy == old(busy).(removeEntry := false)
    {
      busy := busy.(removeEntry := true);
      error := None;
      var updated := Removed(plan, kind, id);
      if outcome.Saved? {
        plan := updated;
      } else {
        error := Some(FailureMessage(outcome, REMOVE_FAILED));
      }
      busy := busy.(removeEntry := false);
    }

    /** handleNotesChange: the notes take the typed value whether or not
        the call succeeds; only the error tells the two apart. */
    method HandleNotesChange(value: string, outcome: Outcome)
      modifies this
      ensures plan == old(plan).(notes := value)
      ensures error == if outcome.Saved? then None else Some(FailureMessage(outcome, NOTES_FAILED))
      ensures form == old(form) && showAddIncome == old(showAddIncome) && showAddExpense == old(showAddExpense)
      ensures busy == old(busy).(saveNotes := false)
    {
      busy := busy.(saveNotes := true);
      error := None;
      var updated := plan.(notes := value);
      if outcome.Saved? {
        plan := updated;
      } else {
        error := Some(FailureMessage(outcome, NOTES_FAILED));
        plan := plan.(notes := value);
      }
      busy := busy.(saveNotes := false);
    }
  }

  // ---------------------------------------------------------------------
  // Totals, variance and savings (calculateTotals, prepareSavingsProjection)

  function EntryAmount(e: PlanEntry): real
  {
    e.amount
  }

  datatype Pair = Pair(income: real, expenses: real)

  datatype Totals = Totals(expected: Pair, actual: Pair, variance: Pair)

  /** calculateTotals: the plan's sums, the actual income and expense
      totals, and actual minus expected. */
  function CalculateTotals(plan: MonthPlan, txs: seq<Transaction>): Totals
  {
    var expected := Pair(SumOf(plan.expectedIncome, EntryAmount), SumOf(plan.expectedExpenses, EntryAmount));
    var actual := Pair(Total(txs, OfKind(INCOME)), Total(txs, OfKind(EXPENSE)));
    Totals(expected, actual, Pair(actual.income - expected.income, actual.expenses - expected.expenses))
  }

  /** The variance card's label. */
  function BudgetLabel(t: Totals): string
  {
    if t.variance.expenses > 0.0 then "Over Budget" else "Under Budget"
  }

  /** "Over Budget" shows exactly when the month's expense transactions
      add up to more than the planned expenses. */
  lemma OverBudgetMeans(plan: MonthPlan, txs: seq<Transaction>)
    ensures BudgetLabel(CalculateTotals(plan, txs)) == "Over Budget" <==>
      Total(txs, OfKind(EXPENSE)) > SumOf(plan.expectedExpenses, EntryAmount)
  {
    assert "Under Budget" != "Over Budget" by {
      assert "Under Budget"[0] != "Over Budget"[0];
    }
  }

  /** Planning one more entry lowers the variance of its side by the
      entry's amount; the actual totals and the other side stay. */
  lemma AddedEntryVariance(plan: MonthPlan, kind: string, e: PlanEntry, txs: seq<Transaction>)
    ensures var before, after := CalculateTotals(plan, txs), CalculateTotals(Added(plan, kind, e), txs);
      after.actual == before.actual
      && (kind == INCOME ==>
            after.variance == Pair(before.variance.income - e.amount, before.variance.expenses))
      && (kind != INCOME ==>
            after.variance == Pair(before.variance.income, before.variance.expenses - e.amount))
  {
    var es := ListOf(plan, kind);
    SumOfConcat(es, [e], EntryAmount);
    SumOfSingle(e, EntryAmount);
  }

  /** Actual totals filter by type: a transaction that is neither income
      nor expense changes nothing. */
  lemma OtherTypesIgnored(plan: MonthPlan, txs: seq<Transaction>, t: Transaction)
    requires t.kind != INCOME && t.kind != EXPENSE
    ensures CalculateTotals(plan, txs + [t]) == CalculateTotals(plan, txs)
  {
    TotalSnoc(txs, t, OfKind(INCOME));
    TotalSnoc(txs, t, OfKind(EXPENSE));
  }

  /** `whole > 0 ? (part / whole) * 100 : 0`. */
  function Percent(part: real, whole: real): (p: real)
    ensures whole <= 0.0 ==> p == 0.0
    ensures whole > 0.0 ==> p * whole == part * 100.0
  {
    if whole > 0.0 then part / whole * 100.0 else 0.0
  }

  /** Against a positive whole, 100 percent or more means the part
      reaches the whole, and 0 percent means the part is 0. */
  lemma PercentMeans(part: real, whole: real)
    requires whole > 0.0
    ensures Percent(part, whole) >= 100.0 <==> part >= whole
    ensures Percent(part, whole) == 0.0 <==> part == 0.0
  {
    var p := Percent(part, whole);
    assert p * whole == part * 100.0;
    if p >= 100.0 {
      assert p * whole >= 100.0 * whole;
    }
    if p < 100.0 {
      assert p * whole < 100.0 * whole;
    }
  }

  datatype Savings = Savings(projected: real, actual: real, goal: real, progress: real)

  /** prepareSavingsProjection: the goal is a fifth of the expected income. */
  function SavingsProjection(t: Totals): Savings
  {
    var actual := t.actual.income - t.actual.expenses;
    var goal := t.expected.income * 0.2;
    Savings(t.expected.income - t.expected.expenses, actual, goal, Percent(actual, goal))
  }

  /** The savings goal is 20% of the planned income; with no positive goal
      the progress is 0, and otherwise it reaches 100 exactly when the
      month's income less its expenses reaches the goal. */
  lemma SavingsProgress(plan: MonthPlan, txs: seq<Transaction>)
    ensures var s := SavingsProjection(CalculateTotals(plan, txs));
      s.goal == SumOf(plan.expectedIncome, EntryAmount) / 5.0
      && s.actual == Total(txs, OfKind(INCOME)) - Total(txs, OfKind(EXPENSE))
      && (s.goal <= 0.0 ==> s.progress == 0.0)
      && (s.goal > 0.0 ==> (s.progress >= 100.0 <==> s.actual >= s.goal))
  {
    var s := SavingsProjection(CalculateTotals(plan, txs));
    if s.goal > 0.0 {
      PercentMeans(s.actual, s.goal);
    }
  }

  // ---------------------------------------------------------------------
  // Per-member distribution (prepareFamilyDistribution)

  /** The planned expenses assigned to `name`. */
  function PlannedBy(es: seq<PlanEntry>, name: string): real
  {
    if es == [] then 0.0
    else PlannedBy(es[..|es| - 1], name) + (if es[|es| - 1].familyMember == Some(name) then es[|es| - 1].amount else 0.0)
  }

  datatype MemberShare = MemberShare(name: string, icon: string, expected: real, actual: real, variance: real,
                                     percentage: real)

  function ShareOf(m: Member, plan: MonthPlan, txs: seq<Transaction>): MemberShare
  {
    var expected := PlannedBy(plan.expectedExpenses, m.name);
    var actual := Total(txs, MemberOfKind(m.name, EXPENSE));
    MemberShare(m.name, m.icon, expected, actual, actual - expected, Percent(actual, expected))
  }

  /** The planned entries `.filter(e => e.familyMember === name)` keeps. */
  function AssignedTo(name: string): PlanEntry -> bool
  {
    (e: PlanEntry) => e.familyMember == Some(name)
  }

  /** The running sum is the `.filter(...).reduce(...)` of the source: the
      sum of the amounts of exactly the entries assigned to `name`. */
  lemma {:induction false} PlannedByIsSum(es: seq<PlanEntry>, name: string)
    ensures PlannedBy(es, name) == SumOf(Filter(es, AssignedTo(name)), EntryAmount)
  {
    if es != [] {
      var init, last := es[..|es| - 1], es[|es| - 1];
      PlannedByIsSum(init, name);
      assert es == init + [last];
      FilterSnoc(init, last, AssignedTo(name));
      if AssignedTo(name)(last) {
        SumOfSnoc(Filter(init, AssignedTo(name)), last, EntryAmount);
      } else {
        assert Filter(es, AssignedTo(name)) == Filter(init, AssignedTo(name));
      }
    }
  }

  /** What a member's share reports: the planned expenses assigned to the
      member, the member's spent expenses, their difference, and the spent
      part as a `Percent` of the planned one (0 when nothing positive is
      planned). */
  predicate ReportsMember(s: MemberShare, m: Member, plan: MonthPlan, txs: seq<Transaction>)
  {
    && s.name == m.name && s.icon == m.icon
    && s.expected == SumOf(Filter(plan.expectedExpenses, AssignedTo(m.name)), EntryAmount)
    && s.actual == Total(txs, MemberOfKind(m.name, EXPENSE))
    && s.variance == s.actual - s.expected
    && s.percentage == Percent(s.actual, s.expected)
  }

  lemma ShareReports(m: Member, plan: MonthPlan, txs: seq<Transaction>)
    ensures ReportsMember(ShareOf(m, plan, txs), m, plan, txs)
  {
    PlannedByIsSum(plan.expectedExpenses, m.name);
  }

  /** prepareFamilyDistribution: one share per roster member, in roster
      order, each reporting its member. */
  function FamilyDistribution(plan: MonthPlan, txs: seq<Transaction>): (r: seq<MemberShare>)
    ensures |r| == |FamilyMembers|
    ensures forall i :: 0 <= i < |r| ==> ReportsMember(r[i], FamilyMembers[i], plan, txs)
  {
    var r := seq(|FamilyMembers|, i requires 0 <= i < |FamilyMembers| => ShareOf(FamilyMembers[i], plan, txs));
    assert forall i :: 0 <= i < |r| ==> ReportsMember(r[i], FamilyMembers[i], plan, txs) by {
      forall i | 0 <= i < |r|
        ensures ReportsMember(r[i], FamilyMembers[i], plan, txs)
      {
        ShareReports(FamilyMembers[i], plan, txs);
      }
    }
    r
  }

  /** Entries without a member are planned for nobody. */
  lemma {:induction false} UnassignedPlanNothing(es: seq<PlanEntry>, name: string)
    requires forall i :: 0 <= i < |es| ==> es[i].familyMember.None?
    ensures PlannedBy(es, name) == 0.0
  {
    if es != [] {
      UnassignedPlanNothing(es[..|es| - 1], name);
    }
  }

  /** On a plan whose entries carry no member, as the add handler leaves a
      personal plan's entries, every member's planned share is 0, so the
      percentage is 0 and the variance is the member's whole spending. */
  lemma PersonalPlanShares(plan: MonthPlan, txs: seq<Transaction>)
    requires forall i :: 0 <= i < |plan.expectedExpenses| ==> plan.expectedExpenses[i].familyMember.None?
    ensures forall s :: s in FamilyDistribution(plan, txs) ==>
      s.expected == 0.0 && s.percentage == 0.0 && s.variance == s.actual
  {
    forall m | m in FamilyMembers
      ensures PlannedBy(plan.expectedExpenses, m.name) == 0.0
    {
      UnassignedPlanNothing(plan.expectedExpenses, m.name);
    }
  }

  // ---------------------------------------------------------------------
  // Per-category comparison (prepareComparisonData, prepareCategoryProgress)

  /** The two lists the category loops run over: the plan's expenses, then
      the month's expense transactions. */
  datatype Item = Planned(entry: PlanEntry) | Spent(t: Transaction)

  function ItemCategory(x: Item): string
  {
    match x
    case Planned(e) => e.category
    case Spent(t) => t.category
  }

  /** A category's planned and actual amounts. */
  datatype PlanVsActual = PlanVsActual(expected: real, actual: real)

  function AddItem(v: PlanVsActual, x: Item): PlanVsActual
  {
    match x
    case Planned(e) => v.(expected := v.expected + e.amount)
    case Spent(t) => v.(actual := v.actual + t.amount)
  }

  /** `categoryData[c] ??= {expected: 0, actual: 0}`, then the item adds
      its amount to its side. */
  const ByCategory: Grouping<Item, string, PlanVsActual> := Grouping(ItemCategory, PlanVsActual(0.0, 0.0), AddItem)

  function PlannedItems(es: seq<PlanEntry>): (r: seq<Item>)
    ensures |r| == |es| && forall i :: 0 <= i < |es| ==> r[i] == Planned(es[i])
  {
    seq(|es|, i requires 0 <= i < |es| => Planned(es[i]))
  }

  function SpentItems(txs: seq<Transaction>): (r: seq<Item>)
    ensures |r| == |txs| && forall i :: 0 <= i < |txs| ==> r[i] == Spent(txs[i])
  {
    seq(|txs|, i requires 0 <= i < |txs| => Spent(txs[i]))
  }

  function ItemsOf(plan: MonthPlan, txs: seq<Transaction>): seq<Item>
  {
    PlannedItems(plan.expectedExpenses) + SpentItems(Filter(txs, IsExpense))
  }

  datatype CategoryComparison = CategoryComparison(category: string, expected: real, actual: real)

  function ComparisonOf(e: Entry<string, PlanVsActual>): CategoryComparison
  {
    CategoryComparison(e.key, e.value.expected, e.value.actual)
  }

  /** prepareComparisonData: `Object.values(categoryData)`, one row per
      category in the order the categories first appear. */
  function ComparisonData(plan: MonthPlan, txs: seq<Transaction>): seq<CategoryComparison>
  {
    var es := Grouped(ItemsOf(plan, txs), ByCategory);
    seq(|es|, i requires 0 <= i < |es| => ComparisonOf(es[i]))
  }

  /** The icon shown when the registry has none for the category: the
      bar-chart emoji's UTF-8 bytes read as Windows-1252, as the source
      file holds it. */
  const FALLBACK_ICON: string := "\U{F0}\U{178}\U{201C}\U{160}"

  /** `categories[c]?.icon || "..."`. */
  function CategoryIcon(c: string): string
  {
    match Lookup(ExpenseCategories, c)
    case Some(style) => if style.icon != "" then style.icon else FALLBACK_ICON
    case None => FALLBACK_ICON
  }

  datatype CategoryProgress = CategoryProgress(category: string, expected: real, actual: real, icon: string,
                                               progress: real)

  function ProgressOf(e: Entry<string, PlanVsActual>): CategoryProgress
  {
    CategoryProgress(e.key, e.value.expected, e.value.actual, CategoryIcon(e.key),
                     Percent(e.value.actual, e.value.expected))
  }

  /** prepareCategoryProgress: the same rows with an icon and the spent
      share of the planned amount. */
  function CategoryProgressData(plan: MonthPlan, txs: seq<Transaction>): seq<CategoryProgress>
  {
    var es := Grouped(ItemsOf(plan, txs), ByCategory);
    seq(|es|, i requires 0 <= i < |es| => ProgressOf(es[i]))
  }

  /** The two forEach loops that fill `categoryData`. */
  method AccumulateCategories(plan: MonthPlan, txs: seq<Transaction>) returns (es: seq<Entry<string, PlanVsActual>>)
    ensures es == Grouped(ItemsOf(plan, txs), ByCategory)
  {
    var planned := PlannedItems(plan.expectedExpenses);
    var spent := SpentItems(Filter(txs, IsExpense));
    es := AccumulateAll([], [], ByCategory, planned);
    assert [] + planned == planned;
    es := AccumulateAll(planned, es, ByCategory, spent);
    FoldIsGrouped(planned + spent, ByCategory);
  }

  method PrepareComparisonData(plan: MonthPlan, txs: seq<Transaction>) returns (r: seq<CategoryComparison>)
    ensures r == ComparisonData(plan, txs)
  {
    var es := AccumulateCategories(plan, txs);
    r := seq(|es|, i requires 0 <= i < |es| => ComparisonOf(es[i]));
  }

  method PrepareCategoryProgress(plan: MonthPlan, txs: seq<Transaction>) returns (r: seq<CategoryProgress>)
    ensures r == CategoryProgressData(plan, txs)
  {
    var es := AccumulateCategories(plan, txs);
    r := seq(|es|, i requires 0 <= i < |es| => ProgressOf(es[i]));
  }

  // What the category rows hold

  /** The planned expenses of category `c`. */
  function PlannedIn(es: seq<PlanEntry>, c: string): real
  {
    if es == [] then 0.0
    else PlannedIn(es[..|es| - 1], c) + (if es[|es| - 1].category == c then es[|es| - 1].amount else 0.0)
  }

  predicate PlansCategory(plan: MonthPlan, c: string)
  {
    exists e :: e in plan.expectedExpenses && e.category == c
  }

  predicate SpendsOn(txs: seq<Transaction>, c: string)
  {
    exists t :: t in txs && t.kind == EXPENSE && t.category == c
  }

  lemma {:induction false} PlannedValue(es: seq<PlanEntry>, c: string)
    ensures ValueOf(PlannedItems(es), ByCategory, c) == PlanVsActual(PlannedIn(es, c), 0.0)
  {
    if es != [] {
      var es', e := es[..|es| - 1], es[|es| - 1];
      PlannedValue(es', c);
      assert PlannedItems(es) == PlannedItems(es') + [Planned(e)];
      ValueOfSnoc(PlannedItems(es'), Planned(e), ByCategory, c);
    }
  }

  lemma {:induction false} SpentValue(es: seq<PlanEntry>, txs: seq<Transaction>, c: string)
    ensures ValueOf(PlannedItems(es) + SpentItems(Filter(txs, IsExpense)), ByCategory, c)
         == PlanVsActual(PlannedIn(es, c), Total(txs, ExpenseIn(c)))
  {
    var planned := PlannedItems(es);
    if txs == [] {
      assert planned + SpentItems(Filter(txs, IsExpense)) == planned;
      PlannedValue(es, c);
    } else {
      var txs', t := txs[..|txs| - 1], txs[|txs| - 1];
      SpentValue(es, txs', c);
      LastSplit(txs);
      FilterSnoc(txs', t, IsExpense);
      var before := planned + SpentItems(Filter(txs', IsExpense));
      if IsExpense(t) {
        assert planned + SpentItems(Filter(txs, IsExpense)) == before + [Spent(t)];
        ValueOfSnoc(before, Spent(t), ByCategory, c);
      } else {
        assert Filter(txs, IsExpense) == Filter(txs', IsExpense);
      }
    }
  }

  /** Each category's value is its planned expenses and its expense
      transactions' total. */
  lemma CategoryValue(plan: MonthPlan, txs: seq<Transaction>, c: string)
    ensures ValueOf(ItemsOf(plan, txs), ByCategory, c)
         == PlanVsActual(PlannedIn(plan.expectedExpenses, c), Total(txs, ExpenseIn(c)))
  {
    SpentValue(plan.expectedExpenses, txs, c);
  }

  /** The categories are those of the planned expenses and of the expense
      transactions, each once. */
  lemma CategoryKeys(plan: MonthPlan, txs: seq<Transaction>, c: string)
    ensures Distinct(EntryKeys(Grouped(ItemsOf(plan, txs), ByCategory)))
    ensures c in EntryKeys(Grouped(ItemsOf(plan, txs), ByCategory)) <==> PlansCategory(plan, c) || SpendsOn(txs, c)
  {
    GroupedKeys(ItemsOf(plan, txs), ByCategory);
    if c in KeysOf(ItemsOf(plan, txs), ByCategory) {
      KeyHasItem(plan, txs, c);
    }
    if PlansCategory(plan, c) || SpendsOn(txs, c) {
      ItemHasKey(plan, txs, c);
    }
  }

  lemma KeyHasItem(plan: MonthPlan, txs: seq<Transaction>, c: string)
    requires c in KeysOf(ItemsOf(plan, txs), ByCategory)
    ensures PlansCategory(plan, c) || SpendsOn(txs, c)
  {
    var es, spent := plan.expectedExpenses, Filter(txs, IsExpense);
    var items := PlannedItems(es) + SpentItems(spent);
    var ks := KeysOf(items, ByCategory);
    var i :| 0 <= i < |ks| && ks[i] == c;
    if i < |es| {
      assert items[i] == Planned(es[i]);
      assert es[i] in es;
    } else {
      assert items[i] == Spent(spent[i - |es|]);
      assert spent[i - |es|] in txs && IsExpense(spent[i - |es|]);
    }
  }

  lemma ItemHasKey(plan: MonthPlan, txs: seq<Transaction>, c: string)
    requires PlansCategory(plan, c) || SpendsOn(txs, c)
    ensures c in KeysOf(ItemsOf(plan, txs), ByCategory)
  {
    var es, spent := plan.expectedExpenses, Filter(txs, IsExpense);
    var items := PlannedItems(es) + SpentItems(spent);
    var ks := KeysOf(items, ByCategory);
    if PlansCategory(plan, c) {
      var e :| e in es && e.category == c;
      var i :| 0 <= i < |es| && es[i] == e;
      assert items[i] == Planned(e);
      assert ks[i] == c;
    } else {
      var t :| t in txs && t.kind == EXPENSE && t.category == c;
      var j :| 0 <= j < |txs| && txs[j] == t;
      var k :| 0 <= k < |spent| && spent[k] == t;
      assert items[|es| + k] == Spent(t);
      assert ks[|es| + k] == c;
    }
  }

  /** A category nobody planned has a planned amount of 0. */
  lemma {:induction false} UnplannedIsZero(es: seq<PlanEntry>, c: string)
    requires forall i :: 0 <= i < |es| ==> es[i].category != c
    ensures PlannedIn(es, c) == 0.0
  {
    if es != [] {
      UnplannedIsZero(es[..|es| - 1], c);
    }
  }

  /** prepareComparisonData holds one row per category that is planned or
      spent on, none twice, each with its planned expenses and the
      month's expense total of that category. */
  lemma ComparisonShows(plan: MonthPlan, txs: seq<Transaction>, c: string)
    ensures var r := ComparisonData(plan, txs);
      (forall i, j :: 0 <= i < j < |r| ==> r[i].category != r[j].category)
      && ((exists i :: 0 <= i < |r| && r[i].category == c) <==> PlansCategory(plan, c) || SpendsOn(txs, c))
      && forall row :: row in r ==>
           row.expected == PlannedIn(plan.expectedExpenses, row.category)
           && row.actual == Total(txs, ExpenseIn(row.category))
  {
    var es := Grouped(ItemsOf(plan, txs), ByCategory);
    var r := ComparisonData(plan, txs);
    CategoryKeys(plan, txs, c);
    assert forall i :: 0 <= i < |r| ==> r[i].category == EntryKeys(es)[i];
    forall row | row in r
      ensures row.expected == PlannedIn(plan.expectedExpenses, row.category)
      ensures row.actual == Total(txs, ExpenseIn(row.category))
    {
      var i :| 0 <= i < |r| && r[i] == row;
      CategoryValue(plan, txs, row.category);
    }
  }

  /** prepareCategoryProgress has the same categories; a category spent
      on but not planned shows a planned amount of 0 and a progress of 0. */
  lemma CategoryProgressShows(plan: MonthPlan, txs: seq<Transaction>, c: string)
    ensures var r := CategoryProgressData(plan, txs);
      (forall i, j :: 0 <= i < j < |r| ==> r[i].category != r[j].category)
      && ((exists i :: 0 <= i < |r| && r[i].category == c) <==> PlansCategory(plan, c) || SpendsOn(txs, c))
      && forall row :: row in r ==>
           row.expected == PlannedIn(plan.expectedExpenses, row.category)
           && row.actual == Total(txs, ExpenseIn(row.category))
           && row.progress == Percent(row.actual, row.expected)
           && row.icon == CategoryIcon(row.category)
  {
    var es := Grouped(ItemsOf(plan, txs), ByCategory);
    var r := CategoryProgressData(plan, txs);
    CategoryKeys(plan, txs, c);
    assert forall i :: 0 <= i < |r| ==> r[i].category == EntryKeys(es)[i];
    forall row | row in r
      ensures row.expected == PlannedIn(plan.expectedExpenses, row.category)
      ensures row.actual == Total(txs, ExpenseIn(row.category))
    {
      var i :| 0 <= i < |r| && r[i] == row;
      CategoryValue(plan, txs, row.category);
    }
  }

  lemma SpentOnlyProgress(plan: MonthPlan, txs: seq<Transaction>, row: CategoryProgress)
    requires row in CategoryProgressData(plan, txs) && !PlansCategory(plan, row.category)
    ensures row.expected == 0.0 && row.progress == 0.0
  {
    CategoryProgressShows(plan, txs, row.category);
    var es := plan.expectedExpenses;
    forall i | 0 <= i < |es|
      ensures es[i].category != row.category
    {
      assert es[i] in es;
    }
    UnplannedIsZero(es, row.category);
  }

  // ---------------------------------------------------------------------
  // Merged date timeline (prepareMonthlyTimeline)

  /** `e.date || selectedMonth + "-01"`. */
  function EntryDate(e: PlanEntry, month: Month): string
    requires ValidMonth(month)
  {
    if e.date.Some? && e.date.value != "" then e.date.value else MonthText(month) + "-01"
  }

  function EntryDates(es: seq<PlanEntry>, month: Month): (ds: seq<string>)
    requires ValidMonth(month)
    ensures |ds| == |es| && forall i :: 0 <= i < |es| ==> ds[i] == EntryDate(es[i], month)
  {
    seq(|es|, i requires 0 <= i < |es| => EntryDate(es[i], month))
  }

  /** Every transaction date is a calendar date; the server sends it as
      `YYYY-MM-DD`. */
  predicate ValidDates(txs: seq<Transaction>)
  {
    forall i :: 0 <= i < |txs| ==> Valid(txs[i].date)
  }

  function TransactionDates(txs: seq<Transaction>): (ds: seq<string>)
    requires ValidDates(txs)
    ensures |ds| == |txs| && forall i :: 0 <= i < |txs| ==> ds[i] == ToIsoDate(txs[i].date)
  {
    seq(|txs|, i requires 0 <= i < |txs| => ToIsoDate(txs[i].date))
  }

  /** The timeline's dates: those of the planned expenses and of the
      transactions, de-duplicated and sorted. Planned income adds none. */
  function TimelineDates(plan: MonthPlan, txs: seq<Transaction>, month: Month): seq<string>
    requires ValidMonth(month) && ValidDates(txs)
  {
    SortedDistinct(EntryDates(plan.expectedExpenses, month) + TransactionDates(txs))
  }

  /** The planned amounts of the entries falling on date text `d`. */
  function PlannedOn(es: seq<PlanEntry>, d: string, month: Month): real
    requires ValidMonth(month)
  {
    if es == [] then 0.0
    else PlannedOn(es[..|es| - 1], d, month) + (if EntryDate(es[|es| - 1], month) == d then es[|es| - 1].amount else 0.0)
  }

  datatype TimelinePoint = TimelinePoint(date: string, expectedExpense: real, actualExpense: real,
                                         expectedIncome: real, actualIncome: real)

  function PointOn(plan: MonthPlan, txs: seq<Transaction>, month: Month, d: string): TimelinePoint
    requires ValidMonth(month)
  {
    TimelinePoint(d, PlannedOn(plan.expectedExpenses, d, month), Total(txs, KindOnIsoDate(EXPENSE, d)),
                  PlannedOn(plan.expectedIncome, d, month), Total(txs, KindOnIsoDate(INCOME, d)))
  }

  /** prepareMonthlyTimeline: one point per timeline date. */
  function MonthlyTimeline(plan: MonthPlan, txs: seq<Transaction>, month: Month): (r: seq<TimelinePoint>)
    requires ValidMonth(month) && ValidDates(txs)
    ensures |r| == |TimelineDates(plan, txs, month)|
    ensures forall i :: 0 <= i < |r| ==> r[i].date == TimelineDates(plan, txs, month)[i]
  {
    var ds := TimelineDates(plan, txs, month);
    seq(|ds|, i requires 0 <= i < |ds| => PointOn(plan, txs, month, ds[i]))
  }

  predicate PlannedExpenseOn(plan: MonthPlan, month: Month, d: string)
    requires ValidMonth(month)
  {
    exists e :: e in plan.expectedExpenses && EntryDate(e, month) == d
  }

  predicate TransactionOn(txs: seq<Transaction>, d: string)
    requires ValidDates(txs)
  {
    exists i :: 0 <= i < |txs| && ToIsoDate(txs[i].date) == d
  }

  /** The timeline runs in ascending date order with no date twice, and a
      date is on it exactly when a planned expense (dated, or on the first
      of the month) or a transaction falls on it. */
  lemma TimelineDatesAre(plan: MonthPlan, txs: seq<Transaction>, month: Month, d: string)
    requires ValidMonth(month) && ValidDates(txs)
    ensures StrictlyAscending(TimelineDates(plan, txs, month))
    ensures d in TimelineDates(plan, txs, month) <==> PlannedExpenseOn(plan, month, d) || TransactionOn(txs, d)
  {
    var pd, td := EntryDates(plan.expectedExpenses, month), TransactionDates(txs);
    assert d in pd + td <==> d in pd || d in td;
    if d in pd {
      var i :| 0 <= i < |pd| && pd[i] == d;
      assert plan.expectedExpenses[i] in plan.expectedExpenses;
    }
    if PlannedExpenseOn(plan, month, d) {
      var e :| e in plan.expectedExpenses && EntryDate(e, month) == d;
      var i :| 0 <= i < |plan.expectedExpenses| && plan.expectedExpenses[i] == e;
      assert pd[i] == d;
    }
    if TransactionOn(txs, d) {
      var i :| 0 <= i < |txs| && ToIsoDate(txs[i].date) == d;
      assert td[i] == d;
    }
  }

  lemma PlannedOnSnoc(es: seq<PlanEntry>, e: PlanEntry, d: string, month: Month)
    requires ValidMonth(month)
    ensures PlannedOn(es + [e], d, month) == PlannedOn(es, d, month) + (if EntryDate(e, month) == d then e.amount else 0.0)
  {
    assert (es + [e])[..|es|] == es;
  }

  /** Planned income counts only on dates already on the timeline: an
      income entry dated elsewhere leaves the timeline as it was. */
  lemma IncomeOffTimelineIgnored(plan: MonthPlan, txs: seq<Transaction>, month: Month, e: PlanEntry)
    requires ValidMonth(month) && ValidDates(txs)
    requires EntryDate(e, month) !in TimelineDates(plan, txs, month)
    ensures MonthlyTimeline(Added(plan, INCOME, e), txs, month) == MonthlyTimeline(plan, txs, month)
  {
    var after := Added(plan, INCOME, e);
    var ds := TimelineDates(plan, txs, month);
    assert TimelineDates(after, txs, month) == ds;
    forall i | 0 <= i < |ds|
      ensures PointOn(after, txs, month, ds[i]) == PointOn(plan, txs, month, ds[i])
    {
      PlannedOnSnoc(plan.expectedIncome, e, ds[i], month);
    }
  }

  /** A planned expense puts its date on the timeline and raises that
      date's planned expense by its amount, and no other date's. */
  lemma ExpenseOnTimeline(plan: MonthPlan, txs: seq<Transaction>, month: Month, e: PlanEntry, d: string)
    requires ValidMonth(month) && ValidDates(txs)
    ensures EntryDate(e, month) in TimelineDates(Added(plan, EXPENSE, e), txs, month)
    ensures PlannedOn(Added(plan, EXPENSE, e).expectedExpenses, d, month)
         == PlannedOn(plan.expectedExpenses, d, month) + (if EntryDate(e, month) == d then e.amount else 0.0)
  {
    var after := Added(plan, EXPENSE, e);
    assert e in after.expectedExpenses;
    TimelineDatesAre(after, txs, month, EntryDate(e, month));
    PlannedOnSnoc(plan.expectedExpenses, e, d, month);
  }

  // ---------------------------------------------------------------------
  // Day-by-day budget (prepareDailyProgress)

  datatype DayProgress = DayProgress(day: int, budget: real, actual: real, variance: real)

  /** `new Date(year, month, 0).getDate()`: the last day of the month. */
  function MonthDays(month: Month): (n: int)
    requires ValidMonth(month)
    ensures 28 <= n <= 31
  {
    DaysInMonth(month.year, month.month)
  }

  /** `expected.expenses / daysInMonth || 0`; the quotient of two numbers
      with a positive divisor is never NaN, so `|| 0` changes nothing. */
  function DailyBudget(plan: MonthPlan, month: Month): real
    requires ValidMonth(month)
  {
    SumOf(plan.expectedExpenses, EntryAmount) / MonthDays(month) as real
  }

  /** `dailySpending[day] || 0`: the expenses dated on that day of any month. */
  function SpentOnDay(txs: seq<Transaction>, day: int): real
  {
    Total(txs, KindOnMonthDay(EXPENSE, day))
  }

  function DayRow(plan: MonthPlan, txs: seq<Transaction>, month: Month, day: int): DayProgress
    requires ValidMonth(month)
  {
    var budget := DailyBudget(plan, month);
    DayProgress(day, budget, SpentOnDay(txs, day), SpentOnDay(txs, day) - budget)
  }

  /** prepareDailyProgress: one row for each day 1..daysInMonth. */
  function DailyProgress(plan: MonthPlan, txs: seq<Transaction>, month: Month): (r: seq<DayProgress>)
    requires ValidMonth(month)
    ensures |r| == MonthDays(month)
    ensures forall i :: 0 <= i < |r| ==> r[i].day == i + 1
  {
    seq(MonthDays(month), i requires 0 <= i < MonthDays(month) => DayRow(plan, txs, month, i + 1))
  }

  function SpentIn(spending: map<int, real>, day: int): real
  {
    if day in spending then spending[day] else 0.0
  }

  /** The forEach that fills `dailySpending`, then `Array.from`. */
  method PrepareDailyProgress(plan: MonthPlan, txs: seq<Transaction>, month: Month) returns (r: seq<DayProgress>)
    requires ValidMonth(month)
    ensures r == DailyProgress(plan, txs, month)
  {
    var days := MonthDays(month);
    var budget := SumOf(plan.expectedExpenses, EntryAmount) / days as real;
    var spending: map<int, real> := map[];
    for i := 0 to |txs|
      invariant forall day :: SpentIn(spending, day) == SpentOnDay(txs[..i], day)
    {
      var t, before := txs[i], spending;
      if t.kind == EXPENSE {
        spending := spending[t.date.day := SpentIn(spending, t.date.day) + t.amount];
      }
      assert txs[..i + 1] == txs[..i] + [t];
      forall day
        ensures SpentIn(spending, day) == SpentOnDay(txs[..i + 1], day)
      {
        assert SpentIn(before, day) == SpentOnDay(txs[..i], day);
        TotalSnoc(txs[..i], t, KindOnMonthDay(EXPENSE, day));
      }
    }
    assert txs[..|txs|] == txs;
    r := seq(days, i requires 0 <= i < days =>
      DayProgress(i + 1, budget, SpentIn(spending, i + 1), SpentIn(spending, i + 1) - budget));
  }

  function DayBudget(p: DayProgress): real
  {
    p.budget
  }

  function DayActual(p: DayProgress): real
  {
    p.actual
  }

  /** The daily budgets of the month add up to the planned expenses. */
  lemma BudgetSpreads(plan: MonthPlan, txs: seq<Transaction>, month: Month)
    requires ValidMonth(month)
    ensures SumOf(DailyProgress(plan, txs, month), DayBudget) == SumOf(plan.expectedExpenses, EntryAmount)
  {
    var r := DailyProgress(plan, txs, month);
    var b := DailyBudget(plan, month);
    SumOfConstant(r, DayBudget, b);
    assert |r| as real * b == SumOf(plan.expectedExpenses, EntryAmount);
  }

  /** Expenses dated in the selected month. */
  predicate InMonth(txs: seq<Transaction>, month: Month)
  {
    forall i :: 0 <= i < |txs| && txs[i].kind == EXPENSE ==>
      Valid(txs[i].date) && txs[i].date.year == month.year && txs[i].date.month == month.month
  }

  /** One more transaction moves the day rows' total by its amount when it
      is an expense on one of the month's days. */
  lemma DailySnoc(plan: MonthPlan, txs: seq<Transaction>, t: Transaction, month: Month)
    requires ValidMonth(month)
    requires t.kind == EXPENSE ==> 1 <= t.date.day <= MonthDays(month)
    ensures SumOf(DailyProgress(plan, txs + [t], month), DayActual)
         == SumOf(DailyProgress(plan, txs, month), DayActual) + (if t.kind == EXPENSE then t.amount else 0.0)
  {
    var before, after := DailyProgress(plan, txs, month), DailyProgress(plan, txs + [t], month);
    forall i | 0 <= i < |after|
      ensures after[i].actual == before[i].actual + (if t.kind == EXPENSE && t.date.day == i + 1 then t.amount else 0.0)
    {
      TotalSnoc(txs, t, KindOnMonthDay(EXPENSE, i + 1));
    }
    if t.kind == EXPENSE {
      var k := t.date.day - 1;
      assert after == before[k := after[k]];
      SumOfUpdate(before, k, after[k], DayActual);
    } else {
      assert after == before;
    }
  }

  /** When the month's transactions are all dated in it, the daily rows
      hold every expense exactly once. */
  lemma {:induction false} DailySpendingCovers(plan: MonthPlan, txs: seq<Transaction>, month: Month)
    requires ValidMonth(month) && InMonth(txs, month)
    ensures SumOf(DailyProgress(plan, txs, month), DayActual) == Total(txs, OfKind(EXPENSE))
  {
    if txs == [] {
      SumOfConstant(DailyProgress(plan, txs, month), DayActual, 0.0);
    } else {
      var txs', t := txs[..|txs| - 1], txs[|txs| - 1];
      assert InMonth(txs', month);
      DailySpendingCovers(plan, txs', month);
      LastSplit(txs);
      TotalSnoc(txs', t, OfKind(EXPENSE));
      DailySnoc(plan, txs', t, month);
    }
  }
}
