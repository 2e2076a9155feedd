/** The budgeting heuristics of the assistant's backend service: spending
    totals, the 50/30/20 allocation check, per-category expense
    predictions, the weighted split of a family budget and the savings
    plan. Amounts are reals; the language-model, scaling and curve-fitting
    parts are outside the model (a fitted trend is an input). */
module BudgetAdvisor {
  import opened Common
  import opened Groups
  import opened Calendar

  // ---------------------------------------------------------------------
  // Configuration

  const NEEDS_CATEGORIES: seq<string> := ["Housing", "Utilities", "Groceries", "Transportation", "Insurance", "Healthcare"]
  const WANTS_CATEGORIES: seq<string> := ["Entertainment", "Shopping", "Dining", "Hobbies", "Travel", "Personal Care"]
  const SAVINGS_CATEGORIES: seq<string> := ["Savings", "Investments", "Debt Payment", "Emergency Fund", "Retirement"]

  const NEEDS_PERCENTAGE: real := 0.5
  const WANTS_PERCENTAGE: real := 0.3
  const SAVINGS_PERCENTAGE: real := 0.2

  const MIN_MONTHS_FOR_PREDICTION: nat := 3
  const PREDICTION_MONTHS_AHEAD: int := 3

  const PRIMARY_EARNER_WEIGHT: real := 1.2
  const DEPENDENT_WEIGHT: real := 0.8
  const SPECIAL_NEEDS_WEIGHT: real := 1.3

  const DEFAULT_SAVINGS_PERCENTAGE: real := 0.2
  const AGGRESSIVE_SAVINGS_PERCENTAGE: real := 0.4
  const CONSERVATIVE_SAVINGS_PERCENTAGE: real := 0.1

  /** A transaction as the service receives it. */
  datatype Txn = Txn(amount: real, category: string, date: Date)

  function AmountOf(t: Txn): real
  {
    t.amount
  }

  function CategoryOf(t: Txn): string
  {
    t.category
  }

  function AddAmount(total: real, t: Txn): real
  {
    total + t.amount
  }

  /** `category_totals[category] = category_totals.get(category, 0) + amount`. */
  const ByCategory: Grouping<Txn, string, real> := Grouping(CategoryOf, 0.0, AddAmount)

  /** The category loop, shared by the spending analysis and the budget
      recommendations: one entry per category in first-seen order. */
  method CategoryTotals(txs: seq<Txn>) returns (totals: seq<Entry<string, real>>)
    ensures totals == Grouped(txs, ByCategory)
  {
    totals := [];
    for i := 0 to |txs|
      invariant totals == Fold(txs[..i], ByCategory)
    {
      totals := Accumulate(totals, ByCategory, txs[i]);
      FoldSnoc(txs[..i], txs[i], ByCategory);
      assert txs[..i + 1] == txs[..i] + [txs[i]];
    }
    assert txs[..|txs|] == txs;
    FoldIsGrouped(txs, ByCategory);
  }

  // ---------------------------------------------------------------------
  // Spending analysis

  /** What analyze_spending_patterns answers, its totals only. */
  datatype Analysis = Analysis(totalSpent: real, breakdown: seq<Entry<string, real>>)

  /** analyze_spending_patterns: the amount spent and the per-category
      breakdown, or None for an empty list, on which `StandardScaler`'s
      `fit_transform` raises a `ValueError` (0 samples) that neither route
      catches. */
  method AnalyzeSpending(txs: seq<Txn>) returns (r: Option<Analysis>)
    ensures r.None? <==> txs == []
    ensures r.Some? ==> r.value.totalSpent == SumOf(txs, AmountOf)
    ensures r.Some? ==> r.value.breakdown == Grouped(txs, ByCategory)
    ensures r.Some? ==> SumOf(r.value.breakdown, EntryValue) == r.value.totalSpent
    ensures r.Some? ==> Distinct(EntryKeys(r.value.breakdown))
    ensures r.Some? ==> forall c :: c in EntryKeys(r.value.breakdown) <==> exists i :: 0 <= i < |txs| && txs[i].category == c
  {
    var totalSpent := SumOf(txs, AmountOf);
    var breakdown := CategoryTotals(txs);
    if txs == [] {
      return None;
    }
    GroupedSum(txs, ByCategory, AmountOf);
    GroupedKeys(txs, ByCategory);
    forall c | c in KeysOf(txs, ByCategory)
      ensures exists i :: 0 <= i < |txs| && txs[i].category == c
    {
      var i :| 0 <= i < |txs| && KeysOf(txs, ByCategory)[i] == c;
    }
    forall i | 0 <= i < |txs|
      ensures txs[i].category in KeysOf(txs, ByCategory)
    {
      assert KeysOf(txs, ByCategory)[i] == txs[i].category;
    }
    r := Some(Analysis(totalSpent, breakdown));
  }

  // ---------------------------------------------------------------------
  // The 50/30/20 check

  /** `category_expenses.get(cat, 0)`. */
  function Get(es: seq<Entry<string, real>>, c: string): real
  {
    var i := IndexOfKey(es, c);
    if i < 0 then 0.0 else es[i].value
  }

  /** `sum(category_expenses.get(cat, 0) for cat in cats)`. */
  function SumGets(es: seq<Entry<string, real>>, cats: seq<string>): real
  {
    if cats == [] then 0.0 else SumGets(es, cats[..|cats| - 1]) + Get(es, cats[|cats| - 1])
  }

  function InAny(cats: seq<string>): Txn -> bool
  {
    (t: Txn) => t.category in cats
  }

  /** The reference amount of a group of categories: the expenses whose
      category is in the group, added up. */
  function GroupSpend(txs: seq<Txn>, cats: seq<string>): real
  {
    SumOf(Filter(txs, InAny(cats)), AmountOf)
  }

  /** A lookup in the grouped totals finds the category's own total, and 0
      for a category without expenses. */
  lemma GetGrouped(txs: seq<Txn>, c: string)
    ensures Get(Grouped(txs, ByCategory), c) == ValueOf(txs, ByCategory, c)
  {
    var es := Grouped(txs, ByCategory);
    var i := IndexOfKey(es, c);
    if i < 0 {
      GroupedKeys(txs, ByCategory);
      assert c !in EntryKeys(es);
      ValueOfAbsent(txs, ByCategory, c);
    }
  }

  /** The categories' own totals, added over the group. */
  function SumValues(txs: seq<Txn>, cats: seq<string>): real
  {
    if cats == [] then 0.0 else SumValues(txs, cats[..|cats| - 1]) + ValueOf(txs, ByCategory, cats[|cats| - 1])
  }

  lemma {:induction false} SumGetsGrouped(txs: seq<Txn>, cats: seq<string>)
    ensures SumGets(Grouped(txs, ByCategory), cats) == SumValues(txs, cats)
    decreases |cats|
  {
    if cats != [] {
      SumGetsGrouped(txs, cats[..|cats| - 1]);
      GetGrouped(txs, cats[|cats| - 1]);
    }
  }

  lemma {:induction false} SumValuesEmpty(cats: seq<string>)
    ensures SumValues([], cats) == 0.0
    decreases |cats|
  {
    if cats != [] {
      SumValuesEmpty(cats[..|cats| - 1]);
    }
  }

  /** One more expense raises the group's sum by its amount exactly when
      its category is in the group, once since the group has no repeats. */
  lemma {:induction false} SumValuesSnoc(txs: seq<Txn>, x: Txn, cats: seq<string>)
    requires Distinct(cats)
    ensures SumValues(txs + [x], cats) == SumValues(txs, cats) + (if x.category in cats then x.amount else 0.0)
    decreases |cats|
  {
    if cats != [] {
      var rest, c := cats[..|cats| - 1], cats[|cats| - 1];
      assert Distinct(rest);
      SumValuesSnoc(txs, x, rest);
      ValueOfSnoc(txs, x, ByCategory, c);
      assert x.category in cats <==> x.category in rest || x.category == c;
      assert c !in rest;
    }
  }

  /** The dictionary route and the reference agree on every group without
      repeated categories. */
  lemma {:induction false} SumValuesIsGroupSpend(txs: seq<Txn>, cats: seq<string>)
    requires Distinct(cats)
    ensures SumValues(txs, cats) == GroupSpend(txs, cats)
    decreases |txs|
  {
    if txs == [] {
      SumValuesEmpty(cats);
    } else {
      var seen, x := txs[..|txs| - 1], txs[|txs| - 1];
      LastSplit(txs);
      SumValuesIsGroupSpend(seen, cats);
      SumValuesSnoc(seen, x, cats);
      FilterSnoc(seen, x, InAny(cats));
      SumOfConcat(Filter(seen, InAny(cats)), if InAny(cats)(x) then [x] else [], AmountOf);
      if InAny(cats)(x) {
        SumOfSingle(x, AmountOf);
      }
    }
  }

  /** The share of income each group of categories takes. */
  datatype Allocations = Allocations(needs: real, wants: real, savings: real)

  /** A recommendation, named after its group, with the share that raised
      it; the message text is not modelled. */
  datatype Advice = Advice(category: string, share: real)

  function Rank(category: string): int
  {
    if category == "Needs" then 0 else if category == "Wants" then 1 else 2
  }

  function ShareOf(a: Allocations, category: string): real
  {
    if category == "Needs" then a.needs else if category == "Wants" then a.wants else a.savings
  }

  /** Whether a recommendation for the group is among `r`. */
  predicate Raises(r: seq<Advice>, category: string)
  {
    exists i :: 0 <= i < |r| && r[i].category == category
  }

  /** One group's recommendation, when its condition holds. */
  function Part(condition: bool, category: string, share: real): (r: seq<Advice>)
    ensures |r| <= 1
    ensures r != [] <==> condition
    ensures r != [] ==> r[0] == Advice(category, share)
  {
    if condition then [Advice(category, share)] else []
  }

  /** The specific recommendations: needs above half of income, wants
      above 30% and savings below 20% each raise one. */
  function Recommendations(a: Allocations): (r: seq<Advice>)
    ensures Raises(r, "Needs") <==> a.needs > NEEDS_PERCENTAGE
    ensures Raises(r, "Wants") <==> a.wants > WANTS_PERCENTAGE
    ensures Raises(r, "Savings") <==> a.savings < SAVINGS_PERCENTAGE
  {
    var needs := Part(a.needs > NEEDS_PERCENTAGE, "Needs", a.needs);
    var wants := Part(a.wants > WANTS_PERCENTAGE, "Wants", a.wants);
    var savings := Part(a.savings < SAVINGS_PERCENTAGE, "Savings", a.savings);
    assert "Needs" != "Wants" && "Needs" != "Savings" && "Wants" != "Savings";
    RaisesConcat(needs, wants, savings);
    needs + wants + savings
  }

  lemma RaisesConcat(x: seq<Advice>, y: seq<Advice>, z: seq<Advice>)
    ensures forall c :: Raises(x + y + z, c) <==> Raises(x, c) || Raises(y, c) || Raises(z, c)
  {
    forall c | Raises(x, c) || Raises(y, c) || Raises(z, c)
      ensures Raises(x + y + z, c)
    {
      if Raises(x, c) {
        var i :| 0 <= i < |x| && x[i].category == c;
        assert (x + y + z)[i] == x[i];
      } else if Raises(y, c) {
        var i :| 0 <= i < |y| && y[i].category == c;
        assert (x + y + z)[|x| + i] == y[i];
      } else {
        var i :| 0 <= i < |z| && z[i].category == c;
        assert (x + y + z)[|x| + |y| + i] == z[i];
      }
    }
  }

  /** The recommendations come in the fixed order needs, wants, savings,
      each carrying the share of its own group. */
  lemma RecommendationsOrdered(a: Allocations)
    ensures var r := Recommendations(a);
      forall i :: 0 <= i < |r| ==> r[i].category in ["Needs", "Wants", "Savings"] && r[i].share == ShareOf(a, r[i].category)
    ensures var r := Recommendations(a);
      forall i, j :: 0 <= i < j < |r| ==> Rank(r[i].category) < Rank(r[j].category)
  {
    var needs := Part(a.needs > NEEDS_PERCENTAGE, "Needs", a.needs);
    var wants := Part(a.wants > WANTS_PERCENTAGE, "Wants", a.wants);
    var savings := Part(a.savings < SAVINGS_PERCENTAGE, "Savings", a.savings);
    var r := needs + wants + savings;
    assert Recommendations(a) == r;
    assert "Needs" != "Wants" && "Needs" != "Savings" && "Wants" != "Savings";
    forall i | 0 <= i < |r|
      ensures Rank(r[i].category) == if i < |needs| then 0 else if i < |needs| + |wants| then 1 else 2
      ensures r[i].share == ShareOf(a, r[i].category)
    {
      if i < |needs| {
        assert r[i] == needs[0];
      } else if i < |needs| + |wants| {
        assert r[i] == wants[0];
      } else {
        assert r[i] == savings[i - |needs| - |wants|];
      }
    }
  }

  /** generate_budget_recommendations: the category totals, each group's
      share of income, and the recommendations those shares call for.
      Income 0 raises a division by zero, modelled as `None`. */
  method GenerateBudgetRecommendations(income: real, expenses: seq<Txn>) returns (current: Option<Allocations>, advice: seq<Advice>)
    ensures current.None? <==> income == 0.0
    ensures current.None? ==> advice == []
    ensures current.Some? ==> current.value.needs == GroupSpend(expenses, NEEDS_CATEGORIES) / income
    ensures current.Some? ==> current.value.wants == GroupSpend(expenses, WANTS_CATEGORIES) / income
    ensures current.Some? ==> current.value.savings == GroupSpend(expenses, SAVINGS_CATEGORIES) / income
    ensures current.Some? ==> advice == Recommendations(current.value)
  {
    if income == 0.0 {
      return None, [];
    }
    var totals := CategoryTotals(expenses);
    var shares := Allocations(SumGets(totals, NEEDS_CATEGORIES) / income,
                              SumGets(totals, WANTS_CATEGORIES) / income,
                              SumGets(totals, SAVINGS_CATEGORIES) / income);
    current := Some(shares);
    advice := Recommendations(shares);
    GroupsAreSpend(expenses);
  }

  lemma GroupsAreSpend(expenses: seq<Txn>)
    ensures SumGets(Grouped(expenses, ByCategory), NEEDS_CATEGORIES) == GroupSpend(expenses, NEEDS_CATEGORIES)
    ensures SumGets(Grouped(expenses, ByCategory), WANTS_CATEGORIES) == GroupSpend(expenses, WANTS_CATEGORIES)
    ensures SumGets(Grouped(expenses, ByCategory), SAVINGS_CATEGORIES) == GroupSpend(expenses, SAVINGS_CATEGORIES)
  {
    SumGetsGrouped(expenses, NEEDS_CATEGORIES);
    SumGetsGrouped(expenses, WANTS_CATEGORIES);
    SumGetsGrouped(expenses, SAVINGS_CATEGORIES);
    SumValuesIsGroupSpend(expenses, NEEDS_CATEGORIES);
    SumValuesIsGroupSpend(expenses, WANTS_CATEGORIES);
    SumValuesIsGroupSpend(expenses, SAVINGS_CATEGORIES);
  }

  // ---------------------------------------------------------------------
  // Expense predictions

  /** The month key `f"{year}-{month}"`; the month is 1 to 12, so the text
      and the pair determine each other. */
  datatype Month = Month(year: int, month: int)

  function MonthOf(t: Txn): Month
  {
    Month(t.date.year, t.date.month)
  }

  /** The inner dictionary of one category: a total per month. */
  const ByMonth: Grouping<Txn, Month, real> := Grouping(MonthOf, 0.0, AddAmount)

  function AddToMonths(months: seq<Entry<Month, real>>, t: Txn): seq<Entry<Month, real>>
  {
    AddAt(months, ByMonth, t)
  }

  /** `category_monthly_totals[category][month_key] += amount`, with both
      levels created on first use. */
  const ByCategoryMonth: Grouping<Txn, string, seq<Entry<Month, real>>> := Grouping(CategoryOf, [], AddToMonths)

  function InCategory(c: string): Txn -> bool
  {
    (t: Txn) => t.category == c
  }

  /** A category's inner dictionary is the month grouping of its own
      transactions. */
  lemma {:induction false} MonthsOfCategory(txs: seq<Txn>, c: string)
    ensures ValueOf(txs, ByCategoryMonth, c) == Fold(Filter(txs, InCategory(c)), ByMonth)
    decreases |txs|
  {
    if txs != [] {
      var seen, x := txs[..|txs| - 1], txs[|txs| - 1];
      assert txs == seen + [x];
      MonthsOfCategory(seen, c);
      var before := ValueOf(seen, ByCategoryMonth, c);
      assert ValueOf(txs, ByCategoryMonth, c) == if x.category == c then AddAt(before, ByMonth, x) else before by {
        ValueOfSnoc(seen, x, ByCategoryMonth, c);
      }
      assert Filter(txs, InCategory(c)) == Filter(seen, InCategory(c)) + (if x.category == c then [x] else []) by {
        FilterSnoc(seen, x, InCategory(c));
      }
      if x.category == c {
        FoldSnoc(Filter(seen, InCategory(c)), x, ByMonth);
      } else {
        assert Filter(txs, InCategory(c)) == Filter(seen, InCategory(c));
      }
    }
  }

  /** The grouping loop of the predictions. */
  method GroupByCategoryAndMonth(txs: seq<Txn>) returns (totals: seq<Entry<string, seq<Entry<Month, real>>>>)
    ensures totals == Grouped(txs, ByCategoryMonth)
  {
    totals := [];
    for i := 0 to |txs|
      invariant totals == Fold(txs[..i], ByCategoryMonth)
    {
      var t := txs[i];
      ghost var before := totals;
      var k := IndexOfKey(totals, t.category);
      var months := if k < 0 then [] else totals[k].value;
      months := Accumulate(months, ByMonth, t);
      if k < 0 {
        totals := totals + [Entry(t.category, months)];
      } else {
        totals := totals[k := Entry(t.category, months)];
      }
      assert totals == AddAt(before, ByCategoryMonth, t);
      FoldSnoc(txs[..i], t, ByCategoryMonth);
      assert txs[..i + 1] == txs[..i] + [t];
    }
    assert txs[..|txs|] == txs;
    FoldIsGrouped(txs, ByCategoryMonth);
  }

  /** A category's prediction: the last month's total (last in the order
      the months were first seen, which need not be the latest month), the
      fitted trend, and the projections. */
  datatype Prediction = Prediction(category: string, currentMonthly: real, trend: real, predicted: seq<real>)

  function Max0(x: real): (r: real)
    ensures r >= 0.0
  {
    if x > 0.0 then x else 0.0
  }

  /** The projection `i + 1` months ahead: `max(0, last + trend * (i + 1))`. */
  function Projected(last: real, trend: real, i: int): real
  {
    Max0(last + trend * (i + 1) as real)
  }

  /** `[max(0, last + trend * i) for i in range(1, months_ahead + 1)]`. */
  function Project(last: real, trend: real, monthsAhead: int): (r: seq<real>)
    ensures |r| == if monthsAhead > 0 then monthsAhead else 0
    ensures forall i :: 0 <= i < |r| ==> r[i] == Projected(last, trend, i) && r[i] >= 0.0
  {
    var n := if monthsAhead > 0 then monthsAhead else 0;
    seq(n, i requires 0 <= i < n => Projected(last, trend, i))
  }

  function MonthValues(months: seq<Entry<Month, real>>): (r: seq<real>)
    ensures |r| == |months| && forall i :: 0 <= i < |months| ==> r[i] == months[i].value
  {
    seq(|months|, i requires 0 <= i < |months| => months[i].value)
  }

  /** The prediction one category gets, if it has enough months. The trend
      is whatever the line fit returns on the month totals. */
  function PredictionFor(e: Entry<string, seq<Entry<Month, real>>>, fit: seq<real> -> real, monthsAhead: int): (p: Option<Prediction>)
    ensures p.Some? <==> |e.value| >= MIN_MONTHS_FOR_PREDICTION
    ensures p.Some? ==> p.value.category == e.key && p.value.currentMonthly == e.value[|e.value| - 1].value
    ensures p.Some? ==> p.value.predicted == Project(p.value.currentMonthly, p.value.trend, monthsAhead)
  {
    if |e.value| >= MIN_MONTHS_FOR_PREDICTION then
      var amounts := MonthValues(e.value);
      var last := amounts[|amounts| - 1];
      var trend := fit(amounts);
      Some(Prediction(e.key, last, trend, Project(last, trend, monthsAhead)))
    else None
  }

  /** The predictions dictionary, over the categories in order. */
  function Predictions(es: seq<Entry<string, seq<Entry<Month, real>>>>, fit: seq<real> -> real, monthsAhead: int): seq<Prediction>
  {
    if es == [] then []
    else
      var p := PredictionFor(es[|es| - 1], fit, monthsAhead);
      Predictions(es[..|es| - 1], fit, monthsAhead) + (if p.Some? then [p.value] else [])
  }

  lemma PredictionsSnoc(es: seq<Entry<string, seq<Entry<Month, real>>>>, e: Entry<string, seq<Entry<Month, real>>>, fit: seq<real> -> real, monthsAhead: int)
    ensures var p := PredictionFor(e, fit, monthsAhead);
      Predictions(es + [e], fit, monthsAhead) == Predictions(es, fit, monthsAhead) + (if p.Some? then [p.value] else [])
  {
    assert (es + [e])[..|es|] == es;
  }

  /** One turn of the prediction loop. */
  method AddPrediction(preds: seq<Prediction>, e: Entry<string, seq<Entry<Month, real>>>, fit: seq<real> -> real, monthsAhead: int)
    returns (r: seq<Prediction>)
    ensures var p := PredictionFor(e, fit, monthsAhead); r == preds + (if p.Some? then [p.value] else [])
  {
    r := preds;
    if |e.value| >= MIN_MONTHS_FOR_PREDICTION {
      var amounts := MonthValues(e.value);
      var last := amounts[|amounts| - 1];
      var trend := fit(amounts);
      r := preds + [Prediction(e.key, last, trend, Project(last, trend, monthsAhead))];
    }
  }

  /** predict_future_expenses, the fitted trend given as `fit`. */
  method PredictFutureExpenses(txs: seq<Txn>, fit: seq<real> -> real, monthsAhead: int) returns (preds: seq<Prediction>)
    ensures preds == Predictions(Grouped(txs, ByCategoryMonth), fit, monthsAhead)
  {
    var totals := GroupByCategoryAndMonth(txs);
    preds := [];
    for i := 0 to |totals|
      invariant preds == Predictions(totals[..i], fit, monthsAhead)
    {
      preds := AddPrediction(preds, totals[i], fit, monthsAhead);
      PredictionsSnoc(totals[..i], totals[i], fit, monthsAhead);
      assert totals[..i + 1] == totals[..i] + [totals[i]];
    }
    assert totals[..|totals|] == totals;
  }

  /** Over entries with distinct keys, a key has a prediction exactly when
      its entry has enough months, and that prediction is the entry's. */
  lemma {:induction false} PredictionsOfEntries(es: seq<Entry<string, seq<Entry<Month, real>>>>, fit: seq<real> -> real, monthsAhead: int)
    ensures forall p :: p in Predictions(es, fit, monthsAhead) <==>
      exists j :: 0 <= j < |es| && PredictionFor(es[j], fit, monthsAhead) == Some(p)
    decreases |es|
  {
    if es != [] {
      var rest, e := es[..|es| - 1], es[|es| - 1];
      PredictionsOfEntries(rest, fit, monthsAhead);
      forall p
        ensures (exists j :: 0 <= j < |es| && PredictionFor(es[j], fit, monthsAhead) == Some(p)) <==>
          (exists j :: 0 <= j < |rest| && PredictionFor(rest[j], fit, monthsAhead) == Some(p)) || PredictionFor(e, fit, monthsAhead) == Some(p)
      {
        if exists j :: 0 <= j < |es| && PredictionFor(es[j], fit, monthsAhead) == Some(p) {
          var j :| 0 <= j < |es| && PredictionFor(es[j], fit, monthsAhead) == Some(p);
          if j < |rest| {
            assert rest[j] == es[j];
          }
        }
        if exists j :: 0 <= j < |rest| && PredictionFor(rest[j], fit, monthsAhead) == Some(p) {
          var j :| 0 <= j < |rest| && PredictionFor(rest[j], fit, monthsAhead) == Some(p);
          assert es[j] == rest[j];
        }
      }
    }
  }

  /** The distinct month keys of a list, in first-seen order. */
  function MonthsSeen(txs: seq<Txn>): seq<Month>
  {
    FirstSeen(KeysOf(txs, ByMonth))
  }

  /** The inner dictionary of a category is the month grouping of that
      category's transactions, and the category has an entry as soon as it
      has a transaction. */
  lemma CategoryEntry(txs: seq<Txn>, c: string)
    ensures ValueOf(txs, ByCategoryMonth, c) == Grouped(Filter(txs, InCategory(c)), ByMonth)
    ensures Filter(txs, InCategory(c)) != [] ==> c in EntryKeys(Grouped(txs, ByCategoryMonth))
  {
    var own := Filter(txs, InCategory(c));
    MonthsOfCategory(txs, c);
    FoldIsGrouped(own, ByMonth);
    if own != [] {
      assert own[0] in txs && own[0].category == c;
      var k :| 0 <= k < |txs| && txs[k] == own[0];
      assert KeysOf(txs, ByCategoryMonth)[k] == c;
      GroupedKeys(txs, ByCategoryMonth);
    }
  }

  /** The months seen in a list of transactions number at least one when
      the list is not empty. */
  lemma MonthsSeenNonEmpty(txs: seq<Txn>)
    ensures txs != [] <==> |MonthsSeen(txs)| > 0
  {
    if txs != [] {
      assert KeysOf(txs, ByMonth)[0] in MonthsSeen(txs);
    }
  }

  /** Among entries that give key `c` the value `v`, `c` is predicted
      exactly when it has an entry with enough months, and only with that
      entry's prediction. */
  lemma PredictionsForKey(es: seq<Entry<string, seq<Entry<Month, real>>>>, fit: seq<real> -> real, monthsAhead: int,
                          c: string, v: seq<Entry<Month, real>>)
    requires forall j :: 0 <= j < |es| && es[j].key == c ==> es[j].value == v
    ensures (exists p :: p in Predictions(es, fit, monthsAhead) && p.category == c) <==> c in EntryKeys(es) && |v| >= MIN_MONTHS_FOR_PREDICTION
    ensures forall p :: p in Predictions(es, fit, monthsAhead) && p.category == c ==> PredictionFor(Entry(c, v), fit, monthsAhead) == Some(p)
  {
    var preds := Predictions(es, fit, monthsAhead);
    PredictionsOfEntries(es, fit, monthsAhead);
    forall p | p in preds && p.category == c
      ensures PredictionFor(Entry(c, v), fit, monthsAhead) == Some(p) && c in EntryKeys(es)
    {
      var j :| 0 <= j < |es| && PredictionFor(es[j], fit, monthsAhead) == Some(p);
      assert es[j] == Entry(c, v);
    }
    if c in EntryKeys(es) && |v| >= MIN_MONTHS_FOR_PREDICTION {
      var j :| 0 <= j < |es| && es[j].key == c;
      assert es[j] == Entry(c, v);
      assert PredictionFor(es[j], fit, monthsAhead).value in preds;
    }
  }

  /** A category is predicted exactly when its transactions span at least
      three distinct months. */
  lemma PredictedCategories(txs: seq<Txn>, fit: seq<real> -> real, monthsAhead: int, c: string)
    ensures (exists p :: p in Predictions(Grouped(txs, ByCategoryMonth), fit, monthsAhead) && p.category == c) <==>
      |MonthsSeen(Filter(txs, InCategory(c)))| >= MIN_MONTHS_FOR_PREDICTION
  {
    var es := Grouped(txs, ByCategoryMonth);
    var own := Filter(txs, InCategory(c));
    var months := Grouped(own, ByMonth);
    CategoryEntry(txs, c);
    MonthsSeenNonEmpty(own);
    assert |months| == |MonthsSeen(own)|;
    PredictionsForKey(es, fit, monthsAhead, c, months);
  }

  /** Every prediction is the one its category's month grouping gives. */
  lemma PredictionOfCategory(txs: seq<Txn>, fit: seq<real> -> real, monthsAhead: int, p: Prediction)
    requires p in Predictions(Grouped(txs, ByCategoryMonth), fit, monthsAhead)
    ensures PredictionFor(Entry(p.category, Grouped(Filter(txs, InCategory(p.category)), ByMonth)), fit, monthsAhead) == Some(p)
  {
    var c := p.category;
    var months := Grouped(Filter(txs, InCategory(c)), ByMonth);
    var es := Grouped(txs, ByCategoryMonth);
    assert forall j :: 0 <= j < |es| && es[j].key == c ==> es[j].value == months by {
      CategoryEntry(txs, c);
    }
    PredictionsForKey(es, fit, monthsAhead, c, months);
  }

  /** A category's prediction starts from the total of the month seen last
      (which need not be the latest month) and projects `monthsAhead`
      non-negative amounts. */
  lemma PredictionStart(txs: seq<Txn>, fit: seq<real> -> real, monthsAhead: int, p: Prediction)
    requires p in Predictions(Grouped(txs, ByCategoryMonth), fit, monthsAhead)
    ensures |MonthsSeen(Filter(txs, InCategory(p.category)))| >= MIN_MONTHS_FOR_PREDICTION
    ensures p.currentMonthly == LastMonthTotal(Filter(txs, InCategory(p.category)))
    ensures |p.predicted| == (if monthsAhead > 0 then monthsAhead else 0)
    ensures forall i :: 0 <= i < |p.predicted| ==> p.predicted[i] >= 0.0
  {
    PredictionOfCategory(txs, fit, monthsAhead, p);
    PredictionOfMonths(Filter(txs, InCategory(p.category)), fit, monthsAhead, p);
  }

  /** The prediction made from a month grouping starts from the total of the
      month seen last. */
  lemma PredictionOfMonths(own: seq<Txn>, fit: seq<real> -> real, monthsAhead: int, p: Prediction)
    requires PredictionFor(Entry(p.category, Grouped(own, ByMonth)), fit, monthsAhead) == Some(p)
    ensures |MonthsSeen(own)| >= MIN_MONTHS_FOR_PREDICTION
    ensures p.currentMonthly == LastMonthTotal(own)
  {
    LastMonth(own);
  }

  /** The total of the month in which the transactions were seen last. */
  function LastMonthTotal(own: seq<Txn>): real
    requires |MonthsSeen(own)| > 0
  {
    var seen := MonthsSeen(own);
    ValueOf(own, ByMonth, seen[|seen| - 1])
  }

  /** The last entry of a month grouping is the month seen last. */
  lemma LastMonth(own: seq<Txn>)
    ensures |Grouped(own, ByMonth)| == |MonthsSeen(own)|
    ensures var months := Grouped(own, ByMonth); var seen := MonthsSeen(own);
      |seen| > 0 ==> months[|months| - 1].value == ValueOf(own, ByMonth, seen[|seen| - 1])
  {
  }

  // ---------------------------------------------------------------------
  // The family split

  /** A family member as the optimiser reads it: `role` and
      `special_needs` may be absent. */
  datatype FamilyMember = FamilyMember(id: int, role: Option<string>, specialNeeds: bool)

  function RoleWeight(role: Option<string>): (w: real)
    ensures w > 0.0
  {
    if role == Some("primary_earner") then PRIMARY_EARNER_WEIGHT
    else if role == Some("dependent") then DEPENDENT_WEIGHT
    else 1.0
  }

  /** A member's weight: 1.0, scaled by the role's factor and by the
      special-needs factor when it applies. */
  function Weight(m: FamilyMember): (w: real)
    ensures w > 0.0
    ensures m.specialNeeds ==> w == RoleWeight(m.role) * SPECIAL_NEEDS_WEIGHT
    ensures !m.specialNeeds ==> w == RoleWeight(m.role)
  {
    var w := 1.0 * RoleWeight(m.role);
    if m.specialNeeds then w * SPECIAL_NEEDS_WEIGHT else w
  }

  function IdOf(m: FamilyMember): int
  {
    m.id
  }

  /** `member_weights[member['id']] = weight` overwrites an earlier entry. */
  function SetWeight(previous: real, m: FamilyMember): real
  {
    Weight(m)
  }

  const ById: Grouping<FamilyMember, int, real> := Grouping(IdOf, 0.0, SetWeight)

  /** `(weight / total_weight) * total_budget`. */
  function Allocation(weight: real, total: real, budget: real): real
    requires total != 0.0
  {
    weight / total * budget
  }

  /** Each entry's share of the budget, under the same key. */
  function Shares(weights: seq<Entry<int, real>>, total: real, budget: real): (r: seq<Entry<int, real>>)
    requires weights == [] || total != 0.0
    ensures |r| == |weights|
    ensures forall i :: 0 <= i < |r| ==> r[i] == Entry(weights[i].key, Allocation(weights[i].value, total, budget))
  {
    seq(|weights|, i requires 0 <= i < |weights| => Entry(weights[i].key, Allocation(weights[i].value, total, budget)))
  }

  /** `total_weight`: the weights of all members, repeated ids included;
      positive as soon as there is a member. */
  function TotalWeight(members: seq<FamilyMember>): (t: real)
    ensures t >= 0.0
    ensures members != [] ==> t > 0.0
  {
    if members == [] then 0.0 else TotalWeight(members[..|members| - 1]) + Weight(members[|members| - 1])
  }

  /** Grouping no members gives no entries. */
  lemma GroupedNone(members: seq<FamilyMember>)
    ensures members == [] ==> Grouped(members, ById) == []
  {
    if members == [] {
      assert KeysOf(members, ById) == [];
    }
  }

  /** The first loop: the weight of each id and the running total. */
  method WeighMembers(members: seq<FamilyMember>) returns (weights: seq<Entry<int, real>>, totalWeight: real)
    ensures weights == Grouped(members, ById)
    ensures totalWeight == TotalWeight(members)
  {
    weights := [];
    totalWeight := 0.0;
    for i := 0 to |members|
      invariant weights == Fold(members[..i], ById)
      invariant totalWeight == TotalWeight(members[..i])
    {
      weights := Accumulate(weights, ById, members[i]);
      totalWeight := totalWeight + Weight(members[i]);
      FoldSnoc(members[..i], members[i], ById);
      assert members[..i + 1] == members[..i] + [members[i]];
      assert members[..i + 1][..i] == members[..i];
    }
    assert members[..|members|] == members;
    FoldIsGrouped(members, ById);
  }

  /** optimize_family_budget, before rounding: the weights by id, their
      total, and each id's allocation. */
  method OptimizeFamilyBudget(members: seq<FamilyMember>, totalBudget: real)
    returns (weights: seq<Entry<int, real>>, totalWeight: real, allocations: seq<Entry<int, real>>)
    ensures weights == Grouped(members, ById)
    ensures totalWeight == TotalWeight(members)
    ensures allocations == Shares(weights, totalWeight, totalBudget)
  {
    weights, totalWeight := WeighMembers(members);
    GroupedNone(members);
    allocations := [];
    for i := 0 to |weights|
      invariant |allocations| == i
      invariant forall j :: 0 <= j < i ==> allocations[j] == Entry(weights[j].key, Allocation(weights[j].value, totalWeight, totalBudget))
    {
      allocations := allocations + [Entry(weights[i].key, Allocation(weights[i].value, totalWeight, totalBudget))];
    }
  }

  /** The weight entries of members with pairwise distinct ids: one per
      member, in order. */
  function WeightEntries(members: seq<FamilyMember>): (r: seq<Entry<int, real>>)
    ensures |r| == |members| && forall i :: 0 <= i < |members| ==> r[i] == Entry(members[i].id, Weight(members[i]))
  {
    seq(|members|, i requires 0 <= i < |members| => Entry(members[i].id, Weight(members[i])))
  }

  predicate DistinctIds(members: seq<FamilyMember>)
  {
    forall i, j :: 0 <= i < j < |members| ==> members[i].id != members[j].id
  }

  lemma {:induction false} FoldDistinctIds(members: seq<FamilyMember>)
    requires DistinctIds(members)
    ensures Fold(members, ById) == WeightEntries(members)
  {
    if members != [] {
      var seen, x := members[..|members| - 1], members[|members| - 1];
      FoldDistinctIds(seen);
      var es := WeightEntries(seen);
      assert IndexOfKey(es, x.id) < 0 by {
        forall j | 0 <= j < |es|
          ensures es[j].key != x.id
        {
          assert members[j].id != members[|members| - 1].id;
        }
      }
      assert AddAt(es, ById, x) == es + [Entry(x.id, Weight(x))];
    }
  }

  lemma {:induction false} SharesSum(weights: seq<Entry<int, real>>, total: real, budget: real)
    requires total != 0.0
    ensures SumOf(Shares(weights, total, budget), EntryValue) == Allocation(SumOf(weights, EntryValue), total, budget)
  {
    if weights != [] {
      var rest := weights[..|weights| - 1];
      SharesSum(rest, total, budget);
      assert Shares(weights, total, budget)[..|rest|] == Shares(rest, total, budget);
      var w := weights[|weights| - 1].value;
      var a := SumOf(rest, EntryValue);
      assert (a + w) / total * budget == a / total * budget + w / total * budget;
    }
  }

  lemma {:induction false} WeightsAddUp(members: seq<FamilyMember>)
    ensures SumOf(WeightEntries(members), EntryValue) == TotalWeight(members)
  {
    if members != [] {
      var rest := members[..|members| - 1];
      WeightsAddUp(rest);
      assert WeightEntries(members)[..|rest|] == WeightEntries(rest);
    }
  }

  /** With distinct ids, the whole budget is handed out: one allocation
      per member, proportional to its weight, all adding up to the budget. */
  lemma BudgetFullyAllocated(members: seq<FamilyMember>, totalBudget: real)
    requires members != [] && DistinctIds(members)
    ensures SumOf(Shares(Grouped(members, ById), TotalWeight(members), totalBudget), EntryValue) == totalBudget
    ensures |Shares(Grouped(members, ById), TotalWeight(members), totalBudget)| == |members|
    ensures forall i :: 0 <= i < |members| ==>
      Shares(Grouped(members, ById), TotalWeight(members), totalBudget)[i] ==
      Entry(members[i].id, Allocation(Weight(members[i]), TotalWeight(members), totalBudget))
  {
    var total := TotalWeight(members);
    var weights := WeightEntries(members);
    assert Grouped(members, ById) == weights by {
      FoldDistinctIds(members);
      FoldIsGrouped(members, ById);
    }
    var allocations := Shares(weights, total, totalBudget);
    assert SumOf(allocations, EntryValue) == Allocation(total, total, totalBudget) by {
      SharesSum(weights, total, totalBudget);
      WeightsAddUp(members);
    }
    assert Allocation(total, total, totalBudget) == totalBudget by {
      assert total / total == 1.0;
    }
  }

  /** Repeated ids lose part of the budget: the dictionary keeps one weight
      for the id, while the total counts both. Two plain members with the
      same id are allocated half the budget. */
  lemma RepeatedIdHalvesBudget(totalBudget: real)
    ensures var m := FamilyMember(1, None, false);
      SumOf(Shares(Grouped([m, m], ById), TotalWeight([m, m]), totalBudget), EntryValue) == totalBudget / 2.0
  {
    var m := FamilyMember(1, None, false);
    var es := Fold([m, m], ById);
    assert [m][..0] == [];
    assert [m, m][..1] == [m];
    assert Fold([m], ById) == [Entry(1, 1.0)];
    assert es == [Entry(1, 1.0)];
    FoldIsGrouped([m, m], ById);
    assert Weight(m) == 1.0;
    assert TotalWeight([m]) == 1.0;
    assert TotalWeight([m, m]) == 2.0;
    SharesSum(es, 2.0, totalBudget);
    SumOfSingle(Entry(1, 1.0), EntryValue);
  }

  // ---------------------------------------------------------------------
  // The savings plan

  datatype Saving = Saving(category: string, potentialSavings: real, suggestion: string)

  function Potential(s: Saving): real
  {
    s.potentialSavings
  }

  /** _find_potential_savings: three fixed suggestions worth 5%, 10% and
      3% of the monthly expenses. */
  function FindPotentialSavings(monthlyExpenses: real): (r: seq<Saving>)
    ensures |r| == 3
    ensures r[0].category == "Subscriptions" && r[1].category == "Dining Out" && r[2].category == "Utilities"
    ensures SumOf(r, Potential) == 0.18 * monthlyExpenses
    ensures monthlyExpenses >= 0.0 ==> forall i :: 0 <= i < 3 ==> r[i].potentialSavings >= 0.0
  {
    var r := [
      Saving("Subscriptions", monthlyExpenses * 0.05, "Review and cancel unused subscriptions"),
      Saving("Dining Out", monthlyExpenses * 0.1, "Cook more meals at home"),
      Saving("Utilities", monthlyExpenses * 0.03, "Implement energy-saving measures")
    ];
    assert r[..2][..1] == [r[0]] && r[..2] == [r[0], r[1]];
    SumOfSingle(r[0], Potential);
    r
  }

  /** The suggested rate for a goal `months` away: aggressive under a
      year, conservative beyond three years, the default in between. */
  function RateFor(months: real): (rate: real)
    ensures months < 12.0 <==> rate == AGGRESSIVE_SAVINGS_PERCENTAGE
    ensures months > 36.0 <==> rate == CONSERVATIVE_SAVINGS_PERCENTAGE
    ensures 12.0 <= months <= 36.0 <==> rate == DEFAULT_SAVINGS_PERCENTAGE
  {
    if months < 12.0 then AGGRESSIVE_SAVINGS_PERCENTAGE
    else if months > 36.0 then CONSERVATIVE_SAVINGS_PERCENTAGE
    else DEFAULT_SAVINGS_PERCENTAGE
  }

  datatype SavingsPlan = SavingsPlan(currentSavings: real, goalAmount: real, requiredMonthly: real, suggestedRate: real,
                                     isFeasible: bool, monthsToGoal: real, recommendations: seq<Saving>)

  /** generate_savings_plan, with the target date given as the number of
      whole days from now to it (`None`: no target). The result is `None`
      where the service divides by zero: a target today, or no target and
      nothing left over each month. */
  function GenerateSavingsPlan(goalAmount: real, currentSavings: real, monthlyIncome: real, monthlyExpenses: real,
                               daysToTarget: Option<int>): (r: Option<SavingsPlan>)
    ensures r.None? <==> (daysToTarget.Some? && daysToTarget.value == 0) || (daysToTarget.None? && monthlyIncome == monthlyExpenses)
    ensures r.Some? ==> r.value.currentSavings == currentSavings && r.value.goalAmount == goalAmount
    ensures r.Some? && daysToTarget.None? ==>
      r.value.isFeasible && r.value.suggestedRate == DEFAULT_SAVINGS_PERCENTAGE &&
      r.value.requiredMonthly == (monthlyIncome - monthlyExpenses) * DEFAULT_SAVINGS_PERCENTAGE
    ensures r.Some? && daysToTarget.Some? ==>
      r.value.monthsToGoal == daysToTarget.value as real / 30.0 &&
      (r.value.isFeasible <==> r.value.requiredMonthly <= monthlyIncome - monthlyExpenses) &&
      r.value.suggestedRate == RateFor(r.value.monthsToGoal)
    ensures r.Some? ==> (r.value.recommendations != [] <==> !r.value.isFeasible)
    ensures r.Some? && !r.value.isFeasible ==> r.value.recommendations == FindPotentialSavings(monthlyExpenses)
  {
    var available := monthlyIncome - monthlyExpenses;
    var needed := goalAmount - currentSavings;
    match daysToTarget
    case Some(days) =>
      if days == 0 then None
      else
        var months := days as real / 30.0;
        var required := needed / months;
        var feasible := required <= available;
        Some(SavingsPlan(currentSavings, goalAmount, required, RateFor(months), feasible, months,
                         if feasible then [] else FindPotentialSavings(monthlyExpenses)))
    case None =>
      var required := available * DEFAULT_SAVINGS_PERCENTAGE;
      if required == 0.0 then None
      else
        Some(SavingsPlan(currentSavings, goalAmount, required, DEFAULT_SAVINGS_PERCENTAGE, true, needed / required, []))
  }

  /** Saving the required amount for the stated number of months reaches
      the goal exactly, with or without a target date. */
  lemma PlanReachesGoal(goalAmount: real, currentSavings: real, monthlyIncome: real, monthlyExpenses: real, daysToTarget: Option<int>)
    ensures var r := GenerateSavingsPlan(goalAmount, currentSavings, monthlyIncome, monthlyExpenses, daysToTarget);
      r.Some? ==> currentSavings + r.value.requiredMonthly * r.value.monthsToGoal == goalAmount
  {
    var r := GenerateSavingsPlan(goalAmount, currentSavings, monthlyIncome, monthlyExpenses, daysToTarget);
    if r.Some? {
      var needed := goalAmount - currentSavings;
      if daysToTarget.Some? {
        var months := daysToTarget.value as real / 30.0;
        assert months != 0.0;
        assert needed / months * months == needed;
      } else {
        var required := (monthlyIncome - monthlyExpenses) * DEFAULT_SAVINGS_PERCENTAGE;
        assert required != 0.0;
        assert required * (needed / required) == needed;
      }
    }
  }
}
