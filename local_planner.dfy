/** The month planner in its browser-storage copy: the plan's entries keep
    their amounts as typed, every change is handed to the `onSavePlan`
    callback together with the month, and the views compute with
    unguarded JavaScript arithmetic, so an unparsable amount or a zero
    divisor shows up as NaN or an infinity. */
module LocalPlanner {
  import opened Common
  import opened Calendar
  import opened Ledger
  import opened Groups
  import opened Registry
  import opened JsNumber
  import Planner = MonthPlanner

  /** One planned entry: the add form's fields as typed, with the amount
      left unparsed, and the clock's `id`. `date` is only ever present on
      an entry read back from storage. */
  datatype LocalEntry = LocalEntry(
    id: int,
    category: string,
    amount: string,
    description: string,
    familyMember: string,
    date: Option<string>)

  datatype LocalPlan = LocalPlan(expectedIncome: seq<LocalEntry>, expectedExpenses: seq<LocalEntry>, notes: string)

  const EMPTY: LocalPlan := LocalPlan([], [], "")

  /** A plan as kept under its month in the stored `monthlyPlans` object;
      any of its fields may be missing. */
  datatype StoredPlan = StoredPlan(
    expectedIncome: Option<seq<LocalEntry>>,
    expectedExpenses: Option<seq<LocalEntry>>,
    notes: Option<string>)

  /** The argument of one `onSavePlan` call: `{month: selectedMonth, ...updatedPlan}`. */
  datatype SaveCall = SaveCall(month: string, plan: LocalPlan)

  /** The plan a stored record restores: missing lists are empty, missing
      notes are "". */
  function Restored(s: StoredPlan): LocalPlan
  {
    LocalPlan(
      if s.expectedIncome.Some? then s.expectedIncome.value else [],
      if s.expectedExpenses.Some? then s.expectedExpenses.value else [],
      if s.notes.Some? then s.notes.value else "")
  }

  /** The record a save call leaves behind once the caller files it. */
  function Filed(c: SaveCall): StoredPlan
  {
    StoredPlan(Some(c.plan.expectedIncome), Some(c.plan.expectedExpenses), Some(c.plan.notes))
  }

  /** A saved plan reads back as the plan that was saved. */
  lemma SavedPlanRestores(c: SaveCall)
    ensures Restored(Filed(c)) == c.plan
  {
  }

  // ---------------------------------------------------------------------
  // Adding and removing entries (handleAddEntry, removeEntry)

  /** The guard of handleAddEntry: category, amount and member are all
      required, on every plan. */
  predicate Incomplete(f: Planner.EntryForm)
  {
    f.category == "" || f.amount == "" || f.familyMember == ""
  }

  /** `{...newEntry, id: Date.now()}`. */
  function NewEntry(f: Planner.EntryForm, id: int): (e: LocalEntry)
    ensures e.amount == f.amount && e.category == f.category && e.familyMember == f.familyMember
    ensures e.id == id && e.date.None?
  {
    LocalEntry(id, f.category, f.amount, f.description, f.familyMember, None)
  }

  /** The list a type selects: income for "income", expenses otherwise. */
  function ListOf(plan: LocalPlan, kind: string): seq<LocalEntry>
  {
    if kind == INCOME then plan.expectedIncome else plan.expectedExpenses
  }

  function WithList(plan: LocalPlan, kind: string, es: seq<LocalEntry>): LocalPlan
  {
    if kind == INCOME then plan.(expectedIncome := es) else plan.(expectedExpenses := es)
  }

  /** The plan with `e` appended to the list of its type. */
  function Added(plan: LocalPlan, kind: string, e: LocalEntry): (r: LocalPlan)
    ensures ListOf(r, kind) == ListOf(plan, kind) + [e]
    ensures kind == INCOME ==> r.expectedExpenses == plan.expectedExpenses
    ensures kind != INCOME ==> r.expectedIncome == plan.expectedIncome
    ensures r.notes == plan.notes
  {
    WithList(plan, kind, ListOf(plan, kind) + [e])
  }

  predicate NotEntry(id: int, e: LocalEntry)
  {
    e.id != id
  }

  /** The plan with the entries of id `id` dropped from the list of `kind`. */
  function Removed(plan: LocalPlan, kind: string, id: int): (r: LocalPlan)
    ensures forall e :: e in ListOf(r, kind) <==> e in ListOf(plan, kind) && e.id != id
    ensures kind == INCOME ==> r.expectedExpenses == plan.expectedExpenses
    ensures kind != INCOME ==> r.expectedIncome == plan.expectedIncome
    ensures r.notes == plan.notes
  {
    WithList(plan, kind, Filter(ListOf(plan, kind), e => NotEntry(id, e)))
  }

  /** Removing an entry just added under a fresh id gives the plan back. */
  lemma AddThenRemove(plan: LocalPlan, kind: string, e: LocalEntry)
    requires forall i :: 0 <= i < |ListOf(plan, kind)| ==> ListOf(plan, kind)[i].id != e.id
    ensures Removed(Added(plan, kind, e), kind, e.id) == plan
  {
    var es := ListOf(plan, kind);
    FilterSnoc(es, e, x => NotEntry(e.id, x));
    FilterKeepsAll(es, x => NotEntry(e.id, x));
  }

  /** The planner's state. `saves` lists the `onSavePlan` calls made so
      far; the callback itself belongs to the caller. */
  class LocalPlanEditor {
    var plan: LocalPlan
    var showAddIncome: bool
    var showAddExpense: bool
    var form: Planner.EntryForm
    var saves: seq<SaveCall>

    constructor()
      ensures plan == EMPTY && form == Planner.BLANK_FORM && saves == []
      ensures !showAddIncome && !showAddExpense
    {
      plan := EMPTY;
      showAddIncome := false;
      showAddExpense := false;
      form := Planner.BLANK_FORM;
      saves := [];
    }

    /** The last save call carries the current plan. */
    predicate Synced(month: string)
      reads this
    {
      saves != [] && saves[|saves| - 1] == SaveCall(month, plan)
    }

    /** loadSavedPlan, run when the month changes: a plan stored for the
        month replaces the state; with none, or with stored text that does
        not parse (`savedPlans` is None), nothing changes. Nothing is saved. */
    method LoadSavedPlan(month: string, savedPlans: Option<map<string, StoredPlan>>)
      modifies this
      ensures savedPlans.Some? && month in savedPlans.value ==> plan == Restored(savedPlans.value[month])
      ensures !(savedPlans.Some? && month in savedPlans.value) ==> plan == old(plan)
      ensures saves == old(saves) && form == old(form)
      ensures showAddIncome == old(showAddIncome) && showAddExpense == old(showAddExpense)
    {
      if savedPlans.Some? && month in savedPlans.value {
        plan := Restored(savedPlans.value[month]);
      }
    }

    /** handleNotesChange: the notes take the typed value and the new plan
        is saved. */
    method HandleNotesChange(month: string, value: string)
      modifies this
      ensures plan == old(plan).(notes := value)
      ensures saves == old(saves) + [SaveCall(month, plan)]
      ensures form == old(form) && showAddIncome == old(showAddIncome) && showAddExpense == old(showAddExpense)
    {
      var updated := plan.(notes := value);
      plan := updated;
      saves := saves + [SaveCall(month, updated)];
    }

    /** handleAddEntry: an incomplete form changes nothing and saves
        nothing; otherwise the entry, amount unparsed, joins the list of
        its type, its dialog closes, the plan is saved and the form is
        cleared. */
    method HandleAddEntry(month: string, kind: string, now: int)
      modifies this
      ensures Incomplete(old(form)) ==>
        plan == old(plan) && saves == old(saves) && form == old(form)
        && showAddIncome == old(showAddIncome) && showAddExpense == old(showAddExpense)
      ensures !Incomplete(old(form)) ==>
        plan == Added(old(plan), kind, NewEntry(old(form), now))
        && saves == old(saves) + [SaveCall(month, plan)]
        && form == Planner.BLANK_FORM
        && (if kind == INCOME then !showAddIncome && showAddExpense == old(showAddExpense)
            else !showAddExpense && showAddIncome == old(showAddIncome))
    {
      if Incomplete(form) {
        return;
      }
      var updated := Added(plan, kind, NewEntry(form, now));
      plan := updated;
      if kind == INCOME {
        showAddIncome := false;
      } else {
        showAddExpense := false;
      }
      saves := saves + [SaveCall(month, updated)];
      form := Planner.BLANK_FORM;
    }

    /** removeEntry: the entries of that id leave one list and the plan is
        saved. */
    method RemoveEntry(month: string, id: int, kind: string)
      modifies this
      ensures plan == Removed(old(plan), kind, id)
      ensures saves == old(saves) + [SaveCall(month, plan)]
      ensures form == old(form) && showAddIncome == old(showAddIncome) && showAddExpense == old(showAddExpense)
    {
      var updated := Removed(plan, kind, id);
      plan := updated;
      saves := saves + [SaveCall(month, updated)];
    }
  }

  /** Every change that saves leaves the editor synced with what it saved. */
  method EditAndSave(editor: LocalPlanEditor, month: string, id: int, kind: string, notes: string)
    modifies editor
    ensures editor.Synced(month)
    ensures editor.plan == Removed(old(editor.plan), kind, id).(notes := notes)
  {
    editor.RemoveEntry(month, id, kind);
    editor.HandleNotesChange(month, notes);
  }

  // ---------------------------------------------------------------------
  // Totals, variance and savings (calculateTotals, prepareSavingsProjection)

  /** `es.reduce((sum, e) => sum + parseFloat(e.amount), 0)`, with the
      browser's `parseFloat` as a parameter. */
  function ParseSum(es: seq<LocalEntry>, parseFloat: string -> Num): Num
  {
    if es == [] then ZERO
    else Add(ParseSum(es[..|es| - 1], parseFloat), parseFloat(es[|es| - 1].amount))
  }

  /** Every amount reads as a finite number. */
  predicate AllFinite(es: seq<LocalEntry>, parseFloat: string -> Num)
  {
    forall i :: 0 <= i < |es| ==> parseFloat(es[i].amount).Finite?
  }

  /** The sum of the amounts that read as finite numbers. */
  function FiniteSum(es: seq<LocalEntry>, parseFloat: string -> Num): real
  {
    if es == [] then 0.0
    else
      var x := parseFloat(es[|es| - 1].amount);
      FiniteSum(es[..|es| - 1], parseFloat) + (if x.Finite? then x.value else 0.0)
  }

  /** When every amount parses, the sum is the finite sum of the amounts. */
  lemma {:induction false} ParseSumFinite(es: seq<LocalEntry>, parseFloat: string -> Num)
    requires AllFinite(es, parseFloat)
    ensures ParseSum(es, parseFloat) == Finite(FiniteSum(es, parseFloat))
  {
    if es != [] {
      ParseSumFinite(es[..|es| - 1], parseFloat);
    }
  }

  /** One amount that does not parse makes the whole sum NaN. */
  lemma {:induction false} ParseSumNaN(es: seq<LocalEntry>, parseFloat: string -> Num, k: int)
    requires 0 <= k < |es| && parseFloat(es[k].amount).NaN?
    ensures ParseSum(es, parseFloat).NaN?
  {
    if k < |es| - 1 {
      ParseSumNaN(es[..|es| - 1], parseFloat, k);
    }
  }

  datatype Expected = Expected(income: Num, expenses: Num)

  datatype Totals = Totals(expected: Expected, actual: Planner.Pair, variance: Expected)

  /** calculateTotals: the plan's parsed sums, the month's income and
      expense totals, and actual minus expected. */
  function CalculateTotals(plan: LocalPlan, txs: seq<Transaction>, parseFloat: string -> Num): Totals
  {
    var expected := Expected(ParseSum(plan.expectedIncome, parseFloat), ParseSum(plan.expectedExpenses, parseFloat));
    var actual := Planner.Pair(Total(txs, OfKind(INCOME)), Total(txs, OfKind(EXPENSE)));
    Totals(expected, actual, Expected(Sub(Finite(actual.income), expected.income),
                                      Sub(Finite(actual.expenses), expected.expenses)))
  }

  /** With readable amounts the expense variance is the month's expense
      total less the planned sum; one unreadable planned expense makes it
      NaN. */
  lemma ExpenseVariance(plan: LocalPlan, txs: seq<Transaction>, parseFloat: string -> Num)
    ensures var v := CalculateTotals(plan, txs, parseFloat).variance.expenses;
      (AllFinite(plan.expectedExpenses, parseFloat) ==>
         v == Finite(Total(txs, OfKind(EXPENSE)) - FiniteSum(plan.expectedExpenses, parseFloat)))
      && ((exists k :: 0 <= k < |plan.expectedExpenses| && parseFloat(plan.expectedExpenses[k].amount).NaN?) ==>
            v.NaN?)
  {
    if AllFinite(plan.expectedExpenses, parseFloat) {
      ParseSumFinite(plan.expectedExpenses, parseFloat);
    }
    if exists k :: 0 <= k < |plan.expectedExpenses| && parseFloat(plan.expectedExpenses[k].amount).NaN? {
      var k :| 0 <= k < |plan.expectedExpenses| && parseFloat(plan.expectedExpenses[k].amount).NaN?;
      ParseSumNaN(plan.expectedExpenses, parseFloat, k);
    }
  }

  datatype Savings = Savings(projected: Num, actual: real, goal: Num, progress: Num)

  /** prepareSavingsProjection: the goal is a fifth of the expected
      income, and the progress divides by it with no guard. */
  function SavingsProjection(t: Totals): Savings
  {
    var actual := t.actual.income - t.actual.expenses;
    var goal := Mul(t.expected.income, Finite(0.2));
    Savings(Sub(t.expected.income, t.expected.expenses), actual, goal,
            Mul(Div(Finite(actual), goal), Finite(100.0)))
  }

  /** With no income planned the goal is 0, and the progress is an
      infinity of the savings' sign, or NaN when nothing was saved. */
  lemma SavingsWithoutIncome(plan: LocalPlan, txs: seq<Transaction>, parseFloat: string -> Num)
    requires plan.expectedIncome == []
    ensures var s := SavingsProjection(CalculateTotals(plan, txs, parseFloat));
      s.goal == ZERO
      && s.actual == Total(txs, OfKind(INCOME)) - Total(txs, OfKind(EXPENSE))
      && (s.actual > 0.0 ==> s.progress == PosInf)
      && (s.actual < 0.0 ==> s.progress == NegInf)
      && (s.actual == 0.0 ==> s.progress.NaN?)
  {
    NoGoal(CalculateTotals(plan, txs, parseFloat));
  }

  lemma NoGoal(t: Totals)
    requires t.expected.income == ZERO
    ensures var s := SavingsProjection(t);
      s.goal == ZERO
      && (s.actual > 0.0 ==> s.progress == PosInf)
      && (s.actual < 0.0 ==> s.progress == NegInf)
      && (s.actual == 0.0 ==> s.progress.NaN?)
  {
  }

  /** With a finite non-zero planned income the goal is a fifth of it and
      the progress is the savings as a percentage of the goal. */
  lemma SavingsWithIncome(plan: LocalPlan, txs: seq<Transaction>, parseFloat: string -> Num)
    requires AllFinite(plan.expectedIncome, parseFloat) && FiniteSum(plan.expectedIncome, parseFloat) != 0.0
    ensures var s := SavingsProjection(CalculateTotals(plan, txs, parseFloat));
      var income := FiniteSum(plan.expectedIncome, parseFloat);
      s.goal == Finite(income / 5.0)
      && s.progress == Finite(s.actual / (income / 5.0) * 100.0)
  {
    var income := FiniteSum(plan.expectedIncome, parseFloat);
    assert ParseSum(plan.expectedIncome, parseFloat) == Finite(income) by {
      ParseSumFinite(plan.expectedIncome, parseFloat);
    }
    GoalOf(CalculateTotals(plan, txs, parseFloat), income);
  }

  lemma GoalOf(t: Totals, income: real)
    requires t.expected.income == Finite(income) && income != 0.0
    ensures var s := SavingsProjection(t);
      s.goal == Finite(income / 5.0)
      && s.progress == Finite(s.actual / (income / 5.0) * 100.0)
  {
    assert income * 0.2 == income / 5.0;
  }

  // ---------------------------------------------------------------------
  // Per-member distribution (prepareFamilyDistribution)

  /** `(part / whole) * 100 || 0`. */
  function LoosePercent(part: real, whole: Num): (p: Num)
    ensures whole == ZERO ==>
      p == (if part > 0.0 then PosInf else if part < 0.0 then NegInf else ZERO)
    ensures whole.NaN? || IsInfinite(whole) ==> p == ZERO
  {
    OrZero(Mul(Div(Finite(part), whole), Finite(100.0)))
  }

  /** Over a finite non-zero whole it is the ordinary percentage. */
  lemma LoosePercentFinite(part: real, whole: real)
    requires whole != 0.0
    ensures LoosePercent(part, Finite(whole)) == Finite(part / whole * 100.0)
  {
  }

  /** The parsed amounts of the entries assigned to `name`. */
  function PlannedBy(es: seq<LocalEntry>, name: string, parseFloat: string -> Num): Num
  {
    if es == [] then ZERO
    else
      var prev := PlannedBy(es[..|es| - 1], name, parseFloat);
      if es[|es| - 1].familyMember == name then Add(prev, parseFloat(es[|es| - 1].amount)) else prev
  }

  datatype MemberShare = MemberShare(name: string, icon: string, expected: Num, actual: real, variance: Num,
                                     percentage: Num)

  function ShareOf(m: Member, plan: LocalPlan, txs: seq<Transaction>, parseFloat: string -> Num): MemberShare
  {
    var expected := PlannedBy(plan.expectedExpenses, m.name, parseFloat);
    var actual := Total(txs, MemberOfKind(m.name, EXPENSE));
    MemberShare(m.name, m.icon, expected, actual, Sub(Finite(actual), expected), LoosePercent(actual, expected))
  }

  /** The planned entries `.filter(e => e.familyMember === name)` keeps. */
  function AssignedTo(name: string): LocalEntry -> bool
  {
    (e: LocalEntry) => e.familyMember == name
  }

  /** The running sum is the `.filter(...).reduce(...)` of the source: the
      parsed amounts of exactly the entries assigned to `name`, added in
      order. */
  lemma {:induction false} PlannedByIsSum(es: seq<LocalEntry>, name: string, parseFloat: string -> Num)
    ensures PlannedBy(es, name, parseFloat) == ParseSum(Filter(es, AssignedTo(name)), parseFloat)
  {
    if es != [] {
      var init, last := es[..|es| - 1], es[|es| - 1];
      PlannedByIsSum(init, name, parseFloat);
      assert es == init + [last];
      FilterSnoc(init, last, AssignedTo(name));
      var kept := Filter(init, AssignedTo(name));
      if AssignedTo(name)(last) {
        assert (kept + [last])[..|kept|] == kept;
      } else {
        assert Filter(es, AssignedTo(name)) == kept;
      }
    }
  }

  /** What a member's share reports: the member's assigned entries' parsed
      sum, the member's spent expenses, their difference and the loose
      percentage of the two, in JavaScript numbers. */
  predicate ReportsMember(s: MemberShare, m: Member, plan: LocalPlan, txs: seq<Transaction>,
                          parseFloat: string -> Num)
  {
    && s.name == m.name && s.icon == m.icon
    && s.expected == ParseSum(Filter(plan.expectedExpenses, AssignedTo(m.name)), parseFloat)
    && s.actual == Total(txs, MemberOfKind(m.name, EXPENSE))
    && s.variance == Sub(Finite(s.actual), s.expected)
    && s.percentage == LoosePercent(s.actual, s.expected)
  }

  lemma ShareReports(m: Member, plan: LocalPlan, txs: seq<Transaction>, parseFloat: string -> Num)
    ensures ReportsMember(ShareOf(m, plan, txs, parseFloat), m, plan, txs, parseFloat)
  {
    PlannedByIsSum(plan.expectedExpenses, m.name, parseFloat);
  }

  /** prepareFamilyDistribution: one share per roster member, in roster
      order, each reporting its member. The roster is this copy's own
      `familyMembers`. */
  function FamilyDistribution(roster: seq<Member>, plan: LocalPlan, txs: seq<Transaction>,
                              parseFloat: string -> Num): (r: seq<MemberShare>)
    ensures |r| == |roster|
    ensures forall i :: 0 <= i < |r| ==> ReportsMember(r[i], roster[i], plan, txs, parseFloat)
  {
    var r := seq(|roster|, i requires 0 <= i < |roster| => ShareOf(roster[i], plan, txs, parseFloat));
    assert forall i :: 0 <= i < |r| ==> ReportsMember(r[i], roster[i], plan, txs, parseFloat) by {
      forall i | 0 <= i < |r|
        ensures ReportsMember(r[i], roster[i], plan, txs, parseFloat)
      {
        ShareReports(roster[i], plan, txs, parseFloat);
      }
    }
    r
  }

  /** Nobody's entries: the member's planned sum is 0. */
  lemma {:induction false} NothingPlannedBy(es: seq<LocalEntry>, name: string, parseFloat: string -> Num)
    requires forall i :: 0 <= i < |es| ==> es[i].familyMember != name
    ensures PlannedBy(es, name, parseFloat) == ZERO
  {
    if es != [] {
      NothingPlannedBy(es[..|es| - 1], name, parseFloat);
    }
  }

  /** A member with nothing planned has a planned sum of 0, so the
      percentage is `LoosePercent` over 0: 0 while they spend nothing, an
      infinity once they spend. */
  lemma UnplannedMemberShare(roster: seq<Member>, plan: LocalPlan, txs: seq<Transaction>,
                             parseFloat: string -> Num, i: int)
    requires 0 <= i < |roster|
    requires forall j :: 0 <= j < |plan.expectedExpenses| ==> plan.expectedExpenses[j].familyMember != roster[i].name
    ensures var s := FamilyDistribution(roster, plan, txs, parseFloat)[i];
      s.expected == ZERO
      && s.actual == Total(txs, MemberOfKind(roster[i].name, EXPENSE))
      && s.percentage == LoosePercent(s.actual, ZERO)
  {
    assert PlannedBy(plan.expectedExpenses, roster[i].name, parseFloat) == ZERO by {
      NothingPlannedBy(plan.expectedExpenses, roster[i].name, parseFloat);
    }
  }

  // ---------------------------------------------------------------------
  // Per-category progress (prepareCategoryProgress)

  /** The two lists the category loops run over: the plan's expenses, each
      with its amount parsed, then the month's expense transactions. */
  datatype Item = Plans(category: string, amount: Num) | Spends(t: Transaction)

  function ItemCategory(x: Item): string
  {
    match x
    case Plans(c, _) => c
    case Spends(t) => t.category
  }

  /** A category's record as the loops fill it. `icon` is read from the
      loop's own `categories` object, which hides the imported registry of
      the same name and has no entry for the category at that moment. */
  datatype Tally = Tally(expected: Num, actual: real, icon: Option<string>)

  function AddItem(v: Tally, x: Item): Tally
  {
    match x
    case Plans(_, amount) => v.(expected := Add(v.expected, amount))
    case Spends(t) => v.(actual := v.actual + t.amount)
  }

  /** `categories[c] ??= {expected: 0, actual: 0, icon: categories[c]?.icon}`,
      then the item adds its amount to its side. */
  const ByCategory: Grouping<Item, string, Tally> := Grouping(ItemCategory, Tally(ZERO, 0.0, None), AddItem)

  function PlannedItems(es: seq<LocalEntry>, parseFloat: string -> Num): (r: seq<Item>)
    ensures |r| == |es| && forall i :: 0 <= i < |es| ==> r[i] == Plans(es[i].category, parseFloat(es[i].amount))
  {
    seq(|es|, i requires 0 <= i < |es| => Plans(es[i].category, parseFloat(es[i].amount)))
  }

  function SpentItems(txs: seq<Transaction>): (r: seq<Item>)
    ensures |r| == |txs| && forall i :: 0 <= i < |txs| ==> r[i] == Spends(txs[i])
  {
    seq(|txs|, i requires 0 <= i < |txs| => Spends(txs[i]))
  }

  function ItemsOf(plan: LocalPlan, txs: seq<Transaction>, parseFloat: string -> Num): seq<Item>
  {
    PlannedItems(plan.expectedExpenses, parseFloat) + SpentItems(Filter(txs, IsExpense))
  }

  datatype CategoryRow = CategoryRow(category: string, expected: Num, actual: real, icon: Option<string>,
                                     progress: Num)

  /** `{...cat, progress: (cat.actual / cat.expected) * 100 || 0}`. */
  function RowOf(e: Entry<string, Tally>): CategoryRow
  {
    CategoryRow(e.key, e.value.expected, e.value.actual, e.value.icon,
                LoosePercent(e.value.actual, e.value.expected))
  }

  /** prepareCategoryProgress: one row per category in the order the
      categories first appear. */
  function CategoryProgressData(plan: LocalPlan, txs: seq<Transaction>, parseFloat: string -> Num): seq<CategoryRow>
  {
    var es := Grouped(ItemsOf(plan, txs, parseFloat), ByCategory);
    seq(|es|, i requires 0 <= i < |es| => RowOf(es[i]))
  }

  /** prepareCategoryProgress: the two forEach loops, then the rows. */
  method PrepareCategoryProgress(plan: LocalPlan, txs: seq<Transaction>, parseFloat: string -> Num)
    returns (r: seq<CategoryRow>)
    ensures r == CategoryProgressData(plan, txs, parseFloat)
  {
    var planned := PlannedItems(plan.expectedExpenses, parseFloat);
    var spent := SpentItems(Filter(txs, IsExpense));
    var es := AccumulateAll([], [], ByCategory, planned);
    assert [] + planned == planned;
    es := AccumulateAll(planned, es, ByCategory, spent);
    FoldIsGrouped(planned + spent, ByCategory);
    r := seq(|es|, i requires 0 <= i < |es| => RowOf(es[i]));
  }

  // What the category rows hold

  /** The parsed planned amounts of category `c`. */
  function PlannedIn(es: seq<LocalEntry>, c: string, parseFloat: string -> Num): Num
  {
    if es == [] then ZERO
    else
      var prev := PlannedIn(es[..|es| - 1], c, parseFloat);
      if es[|es| - 1].category == c then Add(prev, parseFloat(es[|es| - 1].amount)) else prev
  }

  predicate PlansCategory(plan: LocalPlan, c: string)
  {
    exists e :: e in plan.expectedExpenses && e.category == c
  }

  lemma {:induction false} PlannedValue(es: seq<LocalEntry>, c: string, parseFloat: string -> Num)
    ensures ValueOf(PlannedItems(es, parseFloat), ByCategory, c) == Tally(PlannedIn(es, c, parseFloat), 0.0, None)
  {
    if es != [] {
      var es', e := es[..|es| - 1], es[|es| - 1];
      PlannedValue(es', c, parseFloat);
      assert PlannedItems(es, parseFloat) == PlannedItems(es', parseFloat) + [Plans(e.category, parseFloat(e.amount))];
      ValueOfSnoc(PlannedItems(es', parseFloat), Plans(e.category, parseFloat(e.amount)), ByCategory, c);
    }
  }

  lemma {:induction false} SpentValue(es: seq<LocalEntry>, txs: seq<Transaction>, c: string, parseFloat: string -> Num)
    ensures ValueOf(PlannedItems(es, parseFloat) + SpentItems(Filter(txs, IsExpense)), ByCategory, c)
         == Tally(PlannedIn(es, c, parseFloat), Total(txs, ExpenseIn(c)), None)
  {
    var planned := PlannedItems(es, parseFloat);
    if txs == [] {
      assert planned + SpentItems(Filter(txs, IsExpense)) == planned;
      PlannedValue(es, c, parseFloat);
    } else {
      var txs', t := txs[..|txs| - 1], txs[|txs| - 1];
      SpentValue(es, txs', c, parseFloat);
      LastSplit(txs);
      FilterSnoc(txs', t, IsExpense);
      var before := planned + SpentItems(Filter(txs', IsExpense));
      if IsExpense(t) {
        assert planned + SpentItems(Filter(txs, IsExpense)) == before + [Spends(t)];
        ValueOfSnoc(before, Spends(t), ByCategory, c);
      } else {
        assert Filter(txs, IsExpense) == Filter(txs', IsExpense);
      }
    }
  }

  /** Each category holds its parsed planned sum, its expense
      transactions' total, and no icon. */
  lemma CategoryValue(plan: LocalPlan, txs: seq<Transaction>, parseFloat: string -> Num, c: string)
    ensures ValueOf(ItemsOf(plan, txs, parseFloat), ByCategory, c)
         == Tally(PlannedIn(plan.expectedExpenses, c, parseFloat), Total(txs, ExpenseIn(c)), None)
  {
    SpentValue(plan.expectedExpenses, txs, c, parseFloat);
  }

  lemma KeyHasItem(plan: LocalPlan, txs: seq<Transaction>, parseFloat: string -> Num, c: string)
    requires c in KeysOf(ItemsOf(plan, txs, parseFloat), ByCategory)
    ensures PlansCategory(plan, c) || Planner.SpendsOn(txs, c)
  {
    var es, spent := plan.expectedExpenses, Filter(txs, IsExpense);
    var items := PlannedItems(es, parseFloat) + SpentItems(spent);
    var ks := KeysOf(items, ByCategory);
    var i :| 0 <= i < |ks| && ks[i] == c;
    if i < |es| {
      assert items[i] == Plans(es[i].category, parseFloat(es[i].amount));
      assert es[i] in es;
    } else {
      assert items[i] == Spends(spent[i - |es|]);
      assert spent[i - |es|] in txs && IsExpense(spent[i - |es|]);
    }
  }

  lemma ItemHasKey(plan: LocalPlan, txs: seq<Transaction>, parseFloat: string -> Num, c: string)
    requires PlansCategory(plan, c) || Planner.SpendsOn(txs, c)
    ensures c in KeysOf(ItemsOf(plan, txs, parseFloat), ByCategory)
  {
    var es, spent := plan.expectedExpenses, Filter(txs, IsExpense);
    var items := PlannedItems(es, parseFloat) + SpentItems(spent);
    var ks := KeysOf(items, ByCategory);
    if PlansCategory(plan, c) {
      var e :| e in es && e.category == c;
      var i :| 0 <= i < |es| && es[i] == e;
      assert items[i] == Plans(e.category, parseFloat(e.amount));
      assert ks[i] == c;
    } else {
      var t :| t in txs && t.kind == EXPENSE && t.category == c;
      var k :| 0 <= k < |spent| && spent[k] == t;
      assert items[|es| + k] == Spends(t);
      assert ks[|es| + k] == c;
    }
  }

  /** The categories are those of the planned expenses and of the expense
      transactions, each once. */
  lemma CategoryKeys(plan: LocalPlan, txs: seq<Transaction>, parseFloat: string -> Num, c: string)
    ensures Distinct(EntryKeys(Grouped(ItemsOf(plan, txs, parseFloat), ByCategory)))
    ensures c in EntryKeys(Grouped(ItemsOf(plan, txs, parseFloat), ByCategory))
        <==> PlansCategory(plan, c) || Planner.SpendsOn(txs, c)
  {
    GroupedKeys(ItemsOf(plan, txs, parseFloat), ByCategory);
    if c in KeysOf(ItemsOf(plan, txs, parseFloat), ByCategory) {
      KeyHasItem(plan, txs, parseFloat, c);
    }
    if PlansCategory(plan, c) || Planner.SpendsOn(txs, c) {
      ItemHasKey(plan, txs, parseFloat, c);
    }
  }

  /** prepareCategoryProgress holds one row per category that is planned
      or spent on, none twice; each row has the category's parsed planned
      sum, its expense total, no icon, and the unguarded percentage. */
  lemma CategoryProgressShows(plan: LocalPlan, txs: seq<Transaction>, parseFloat: string -> Num, c: string)
    ensures var r := CategoryProgressData(plan, txs, parseFloat);
      (forall i, j :: 0 <= i < j < |r| ==> r[i].category != r[j].category)
      && ((exists i :: 0 <= i < |r| && r[i].category == c) <==> PlansCategory(plan, c) || Planner.SpendsOn(txs, c))
      && forall row :: row in r ==>
           row.expected == PlannedIn(plan.expectedExpenses, row.category, parseFloat)
           && row.actual == Total(txs, ExpenseIn(row.category))
           && row.icon.None?
           && row.progress == LoosePercent(row.actual, row.expected)
  {
    var es := Grouped(ItemsOf(plan, txs, parseFloat), ByCategory);
    var r := CategoryProgressData(plan, txs, parseFloat);
    CategoryKeys(plan, txs, parseFloat, c);
    assert forall i :: 0 <= i < |r| ==> r[i].category == EntryKeys(es)[i];
    forall row | row in r
      ensures row.expected == PlannedIn(plan.expectedExpenses, row.category, parseFloat)
      ensures row.actual == Total(txs, ExpenseIn(row.category))
      ensures row.icon.None?
    {
      var i :| 0 <= i < |r| && r[i] == row;
      CategoryValue(plan, txs, parseFloat, row.category);
    }
  }

  /** A category nobody planned has a planned sum of 0. */
  lemma {:induction false} UnplannedIsZero(es: seq<LocalEntry>, c: string, parseFloat: string -> Num)
    requires forall i :: 0 <= i < |es| ==> es[i].category != c
    ensures PlannedIn(es, c, parseFloat) == ZERO
  {
    if es != [] {
      UnplannedIsZero(es[..|es| - 1], c, parseFloat);
    }
  }

  /** A category spent on but not planned has a planned sum of 0, so its
      progress is an infinity once anything is spent on it, not 0. */
  lemma SpentOnlyProgress(plan: LocalPlan, txs: seq<Transaction>, parseFloat: string -> Num, row: CategoryRow)
    requires row in CategoryProgressData(plan, txs, parseFloat) && !PlansCategory(plan, row.category)
    ensures row.expected == ZERO && row.progress == LoosePercent(row.actual, ZERO)
  {
    CategoryProgressShows(plan, txs, parseFloat, row.category);
    var es := plan.expectedExpenses;
    forall i | 0 <= i < |es|
      ensures es[i].category != row.category
    {
      assert es[i] in es;
    }
    UnplannedIsZero(es, row.category, parseFloat);
  }

  // ---------------------------------------------------------------------
  // Merged date timeline (prepareMonthlyTimeline)

  /** The dates that planned entries carry. */
  function DatedTexts(es: seq<LocalEntry>): (ds: seq<string>)
    ensures forall d :: d in ds <==> exists i :: 0 <= i < |es| && es[i].date == Some(d)
  {
    if es == [] then []
    else
      var prev := DatedTexts(es[..|es| - 1]);
      assert forall i :: 0 <= i < |es| - 1 ==> es[..|es| - 1][i] == es[i];
      match es[|es| - 1].date
      case Some(d) => prev + [d]
      case None => prev
  }

  /** Some planned entry has no date. */
  predicate HasUndated(es: seq<LocalEntry>)
  {
    exists i :: 0 <= i < |es| && es[i].date.None?
  }

  function Defined(ss: seq<string>): (r: seq<Option<string>>)
    ensures |r| == |ss| && forall i :: 0 <= i < |ss| ==> r[i] == Some(ss[i])
  {
    seq(|ss|, i requires 0 <= i < |ss| => Some(ss[i]))
  }

  /** `[...new Set([...expense dates, ...transaction dates])].sort()`: the
      distinct dates in ascending order, then `undefined`, which the sort
      always puts last, when a planned expense has no date. Planned income
      adds no date. */
  function TimelineDates(plan: LocalPlan, txs: seq<Transaction>): seq<Option<string>>
    requires Planner.ValidDates(txs)
  {
    Defined(SortedDistinct(DatedTexts(plan.expectedExpenses) + Planner.TransactionDates(txs)))
    + (if HasUndated(plan.expectedExpenses) then [None] else [])
  }

  /** The parsed amounts of the entries whose date is `d`, where an absent
      date matches only an absent date. */
  function PlannedOn(es: seq<LocalEntry>, d: Option<string>, parseFloat: string -> Num): Num
  {
    if es == [] then ZERO
    else
      var prev := PlannedOn(es[..|es| - 1], d, parseFloat);
      if es[|es| - 1].date == d then Add(prev, parseFloat(es[|es| - 1].amount)) else prev
  }

  /** The transactions of `kind` on date `d`; none is on an absent date. */
  function ActualOn(txs: seq<Transaction>, kind: string, d: Option<string>): real
  {
    if d.None? then 0.0 else Total(txs, KindOnIsoDate(kind, d.value))
  }

  datatype TimelinePoint = TimelinePoint(date: Option<string>, expectedExpense: Num, actualExpense: real,
                                         expectedIncome: Num, actualIncome: real)

  function PointOn(plan: LocalPlan, txs: seq<Transaction>, parseFloat: string -> Num, d: Option<string>): TimelinePoint
  {
    TimelinePoint(d, PlannedOn(plan.expectedExpenses, d, parseFloat), ActualOn(txs, EXPENSE, d),
                  PlannedOn(plan.expectedIncome, d, parseFloat), ActualOn(txs, INCOME, d))
  }

  /** prepareMonthlyTimeline: one point per timeline date. */
  function MonthlyTimeline(plan: LocalPlan, txs: seq<Transaction>, parseFloat: string -> Num): (r: seq<TimelinePoint>)
    requires Planner.ValidDates(txs)
    ensures |r| == |TimelineDates(plan, txs)|
    ensures forall i :: 0 <= i < |r| ==> r[i] == PointOn(plan, txs, parseFloat, TimelineDates(plan, txs)[i])
  {
    var ds := TimelineDates(plan, txs);
    seq(|ds|, i requires 0 <= i < |ds| => PointOn(plan, txs, parseFloat, ds[i]))
  }

  predicate DatedExpenseOn(plan: LocalPlan, d: string)
  {
    exists i :: 0 <= i < |plan.expectedExpenses| && plan.expectedExpenses[i].date == Some(d)
  }

  /** The dates run in ascending order with none twice, and only the last
      may be the absent date, which is there exactly when a planned expense
      has no date. */
  lemma TimelineOrder(plan: LocalPlan, txs: seq<Transaction>)
    requires Planner.ValidDates(txs)
    ensures var ds := TimelineDates(plan, txs);
      (forall i :: 0 <= i < |ds| - 1 ==> ds[i].Some?)
      && (forall i, j :: 0 <= i < j < |ds| && ds[j].Some? ==> ds[i].Some? && Precedes(ds[i].value, ds[j].value))
      && (None in ds <==> HasUndated(plan.expectedExpenses))
  {
    var ds := TimelineDates(plan, txs);
    var sorted := SortedDistinct(DatedTexts(plan.expectedExpenses) + Planner.TransactionDates(txs));
    assert forall i :: 0 <= i < |sorted| ==> ds[i] == Some(sorted[i]);
    if None in ds {
      var k :| 0 <= k < |ds| && ds[k] == None;
      assert k == |sorted|;
    }
    if HasUndated(plan.expectedExpenses) {
      assert ds[|sorted|] == None;
    }
  }

  /** A date is on the timeline exactly when a planned expense carries it
      or a transaction falls on it. */
  lemma TimelineMembers(plan: LocalPlan, txs: seq<Transaction>, d: string)
    requires Planner.ValidDates(txs)
    ensures Some(d) in TimelineDates(plan, txs) <==> DatedExpenseOn(plan, d) || Planner.TransactionOn(txs, d)
  {
    var pd, td := DatedTexts(plan.expectedExpenses), Planner.TransactionDates(txs);
    var sorted := SortedDistinct(pd + td);
    var ds := TimelineDates(plan, txs);
    assert d in pd + td <==> d in pd || d in td;
    if Some(d) in ds {
      var k :| 0 <= k < |ds| && ds[k] == Some(d);
      assert k < |sorted| && sorted[k] == d;
    }
    if d in sorted {
      var k :| 0 <= k < |sorted| && sorted[k] == d;
      assert ds[k] == Some(d);
    }
    if d in td {
      var i :| 0 <= i < |td| && td[i] == d;
      assert ToIsoDate(txs[i].date) == d;
    }
    if Planner.TransactionOn(txs, d) {
      var i :| 0 <= i < |txs| && ToIsoDate(txs[i].date) == d;
      assert td[i] == d;
    }
  }

  /** On entries that all lack a date, the absent date collects the whole
      planned sum and every real date none of it. */
  lemma {:induction false} UndatedSums(es: seq<LocalEntry>, d: Option<string>, parseFloat: string -> Num)
    requires forall i :: 0 <= i < |es| ==> es[i].date.None?
    ensures PlannedOn(es, d, parseFloat) == if d.None? then ParseSum(es, parseFloat) else ZERO
  {
    if es != [] {
      UndatedSums(es[..|es| - 1], d, parseFloat);
    }
  }

  /** With a plan made only through the add form, whose entries carry no
      date, the timeline is the transactions' dates followed by one
      undated point holding the whole planned income and expenses, and no
      dated point shows any planned amount. */
  lemma UndatedPlanTimeline(plan: LocalPlan, txs: seq<Transaction>, parseFloat: string -> Num)
    requires Planner.ValidDates(txs) && plan.expectedExpenses != []
    requires forall i :: 0 <= i < |plan.expectedExpenses| ==> plan.expectedExpenses[i].date.None?
    requires forall i :: 0 <= i < |plan.expectedIncome| ==> plan.expectedIncome[i].date.None?
    ensures var r := MonthlyTimeline(plan, txs, parseFloat);
      r != []
      && r[|r| - 1] == TimelinePoint(None, ParseSum(plan.expectedExpenses, parseFloat), 0.0,
                                     ParseSum(plan.expectedIncome, parseFloat), 0.0)
      && forall i :: 0 <= i < |r| - 1 ==> r[i].expectedExpense == ZERO && r[i].expectedIncome == ZERO
  {
    assert HasUndated(plan.expectedExpenses) by {
      assert plan.expectedExpenses[0].date.None?;
    }
    TimelineOrder(plan, txs);
    var r := MonthlyTimeline(plan, txs, parseFloat);
    var ds := TimelineDates(plan, txs);
    assert ds[|ds| - 1] == None;
    UndatedSums(plan.expectedExpenses, None, parseFloat);
    UndatedSums(plan.expectedIncome, None, parseFloat);
    forall i | 0 <= i < |r| - 1
      ensures r[i].expectedExpense == ZERO && r[i].expectedIncome == ZERO
    {
      UndatedSums(plan.expectedExpenses, ds[i], parseFloat);
      UndatedSums(plan.expectedIncome, ds[i], parseFloat);
    }
  }

  // ---------------------------------------------------------------------
  // Day-by-day budget (prepareDailyProgress)

  datatype DayRow = DayRow(day: int, budget: Num, actual: real, variance: Num)

  /** `calculateTotals.expected.expenses / daysInMonth`, with no `|| 0`. */
  function DailyBudget(plan: LocalPlan, month: Planner.Month, parseFloat: string -> Num): Num
    requires Planner.ValidMonth(month)
  {
    Div(ParseSum(plan.expectedExpenses, parseFloat), Finite(Planner.MonthDays(month) as real))
  }

  /** prepareDailyProgress: one row for each day 1..daysInMonth, with
      `dailySpending[day] || 0` as the day's actual spending. */
  function DailyProgress(plan: LocalPlan, txs: seq<Transaction>, month: Planner.Month, parseFloat: string -> Num)
    : (r: seq<DayRow>)
    requires Planner.ValidMonth(month)
    ensures |r| == Planner.MonthDays(month)
    ensures forall i :: 0 <= i < |r| ==> r[i].day == i + 1 && r[i].budget == DailyBudget(plan, month, parseFloat)
  {
    var budget := DailyBudget(plan, month, parseFloat);
    seq(Planner.MonthDays(month), i requires 0 <= i < Planner.MonthDays(month) =>
      DayRow(i + 1, budget, Planner.SpentOnDay(txs, i + 1), Sub(Finite(Planner.SpentOnDay(txs, i + 1)), budget)))
  }

  /** The forEach that fills `dailySpending`, then `Array.from`. */
  method PrepareDailyProgress(plan: LocalPlan, txs: seq<Transaction>, month: Planner.Month, parseFloat: string -> Num)
    returns (r: seq<DayRow>)
    requires Planner.ValidMonth(month)
    ensures r == DailyProgress(plan, txs, month, parseFloat)
  {
    var days := Planner.MonthDays(month);
    var budget := Div(ParseSum(plan.expectedExpenses, parseFloat), Finite(days as real));
    var spending: map<int, real> := map[];
    for i := 0 to |txs|
      invariant forall day :: Planner.SpentIn(spending, day) == Planner.SpentOnDay(txs[..i], day)
    {
      var t, before := txs[i], spending;
      if t.kind == EXPENSE {
        spending := spending[t.date.day := Planner.SpentIn(spending, t.date.day) + t.amount];
      }
      assert txs[..i + 1] == txs[..i] + [t];
      forall day
        ensures Planner.SpentIn(spending, day) == Planner.SpentOnDay(txs[..i + 1], day)
      {
        assert Planner.SpentIn(before, day) == Planner.SpentOnDay(txs[..i], day);
        TotalSnoc(txs[..i], t, KindOnMonthDay(EXPENSE, day));
      }
    }
    assert txs[..|txs|] == txs;
    r := seq(days, i requires 0 <= i < days =>
      DayRow(i + 1, budget, Planner.SpentIn(spending, i + 1), Sub(Finite(Planner.SpentIn(spending, i + 1)), budget)));
  }

  function RowActual(r: DayRow): real
  {
    r.actual
  }

  function RowBudget(r: DayRow): real
  {
    if r.budget.Finite? then r.budget.value else 0.0
  }

  /** When the month's transactions all fall in it, the rows hold every
      expense exactly once: the same spending per day as the server-backed
      copy. */
  lemma DailySpendingCovers(plan: LocalPlan, txs: seq<Transaction>, month: Planner.Month, parseFloat: string -> Num)
    requires Planner.ValidMonth(month) && Planner.InMonth(txs, month)
    ensures SumOf(DailyProgress(plan, txs, month, parseFloat), RowActual) == Total(txs, OfKind(EXPENSE))
  {
    var mine := DailyProgress(plan, txs, month, parseFloat);
    var theirs := Planner.DailyProgress(Planner.EMPTY_PLAN, txs, month);
    SumOfPointwise(mine, theirs, RowActual, Planner.DayActual);
    Planner.DailySpendingCovers(Planner.EMPTY_PLAN, txs, month);
  }

  /** With readable amounts every day's budget is finite and the month's
      budgets add up to the planned expenses. */
  lemma BudgetSpreads(plan: LocalPlan, txs: seq<Transaction>, month: Planner.Month, parseFloat: string -> Num)
    requires Planner.ValidMonth(month) && AllFinite(plan.expectedExpenses, parseFloat)
    ensures var r := DailyProgress(plan, txs, month, parseFloat);
      (forall i :: 0 <= i < |r| ==> r[i].budget.Finite?)
      && SumOf(r, RowBudget) == FiniteSum(plan.expectedExpenses, parseFloat)
  {
    var total := FiniteSum(plan.expectedExpenses, parseFloat);
    assert ParseSum(plan.expectedExpenses, parseFloat) == Finite(total) by {
      ParseSumFinite(plan.expectedExpenses, parseFloat);
    }
    var r := DailyProgress(plan, txs, month, parseFloat);
    var days := Planner.MonthDays(month);
    assert DailyBudget(plan, month, parseFloat) == Finite(total / days as real);
    EvenSpread(r, total, days);
  }

  /** Rows that each budget a `days`-th of `total` add up to `total`. */
  lemma EvenSpread(r: seq<DayRow>, total: real, days: int)
    requires days > 0 && |r| == days
    requires forall i :: 0 <= i < |r| ==> r[i].budget == Finite(total / days as real)
    ensures SumOf(r, RowBudget) == total
  {
    var share := total / days as real;
    assert forall i :: 0 <= i < |r| ==> RowBudget(r[i]) == share;
    SumOfConstant(r, RowBudget, share);
    assert days as real * share == total;
  }

  /** One unreadable planned expense turns every day's budget and variance
      into NaN. */
  lemma UnreadableBudget(plan: LocalPlan, txs: seq<Transaction>, month: Planner.Month, parseFloat: string -> Num,
                         k: int)
    requires Planner.ValidMonth(month)
    requires 0 <= k < |plan.expectedExpenses| && parseFloat(plan.expectedExpenses[k].amount).NaN?
    ensures forall row :: row in DailyProgress(plan, txs, month, parseFloat) ==> row.budget.NaN? && row.variance.NaN?
  {
    assert ParseSum(plan.expectedExpenses, parseFloat).NaN? by {
      ParseSumNaN(plan.expectedExpenses, parseFloat, k);
    }
  }
}
