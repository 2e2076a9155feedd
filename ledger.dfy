/** Ledger transactions as the web client receives them, the filtered sums
    that every screen computes with `filter(...).reduce((s, t) => s + amount, 0)`,
    and the per-date income/expense timeline shared by the dashboard and
    the family dashboard. */
module Ledger {
  import opened Common
  import opened Calendar

  const INCOME: string := "income"
  const EXPENSE: string := "expense"

  /** A transaction record. `kind` is the `type` string ("income",
      "expense", or anything else the server holds); `description` may be
      absent, and so is `userId` on a record the client built itself. */
  datatype Transaction = Transaction(
    id: int,
    kind: string,
    amount: real,
    category: string,
    description: Option<string>,
    date: Date,
    familyMember: string,
    userId: Option<int>)

  /** The filters the screens sum over. */
  datatype Query =
    | Everything
    | OfKind(kind: string)                        // t.type === kind
    | NotOfKind(kind: string)                     // t.type !== kind
    | ExpenseIn(category: string)                 // an expense of that category
    | ByMember(name: string)                      // t.familyMember === name
    | MemberOfKind(name: string, kind: string)    // both of the above
    | MemberNotOfKind(name: string, kind: string) // that member, any other type
    | UserOfKind(userId: int, kind: string)       // t.userId === id && t.type === kind
    | OnDate(date: Date, income: bool)            // that date; income, or anything else
    | OnDateOfKind(date: Date, kind: string)      // that date and t.type === kind
    | DateIs(date: Date)                          // that date, any type
    | InDates(dates: seq<Date>)                   // one of these dates
    | KindOnWeekday(kind: string, weekday: int)   // t.type === kind on that weekday
    | KindOnIsoDate(kind: string, text: string)   // t.type === kind and t.date === text
    | KindOnMonthDay(kind: string, day: int)      // t.type === kind on that day of its month

  predicate Matches(t: Transaction, q: Query)
  {
    match q
    case Everything => true
    case OfKind(k) => t.kind == k
    case NotOfKind(k) => t.kind != k
    case ExpenseIn(c) => t.kind == EXPENSE && t.category == c
    case ByMember(n) => t.familyMember == n
    case MemberOfKind(n, k) => t.familyMember == n && t.kind == k
    case MemberNotOfKind(n, k) => t.familyMember == n && t.kind != k
    case UserOfKind(u, k) => t.userId == Some(u) && t.kind == k
    case OnDate(d, inc) => t.date == d && (t.kind == INCOME) == inc
    case OnDateOfKind(d, k) => t.date == d && t.kind == k
    case DateIs(d) => t.date == d
    case InDates(ds) => t.date in ds
    case KindOnWeekday(k, w) => t.kind == k && Weekday(t.date) == w
    case KindOnIsoDate(k, text) => t.kind == k && Valid(t.date) && ToIsoDate(t.date) == text
    case KindOnMonthDay(k, day) => t.kind == k && t.date.day == day
  }

  predicate IsExpense(t: Transaction)
  {
    t.kind == EXPENSE
  }

  /** The amounts of the matching transactions, added left to right from 0. */
  function Total(txs: seq<Transaction>, q: Query): real
  {
    if txs == [] then 0.0
    else Total(txs[..|txs| - 1], q) + (if Matches(txs[|txs| - 1], q) then txs[|txs| - 1].amount else 0.0)
  }

  /** How many transactions match. */
  function Count(txs: seq<Transaction>, q: Query): nat
  {
    if txs == [] then 0
    else Count(txs[..|txs| - 1], q) + (if Matches(txs[|txs| - 1], q) then 1 else 0)
  }

  lemma TotalSnoc(txs: seq<Transaction>, t: Transaction, q: Query)
    ensures Total(txs + [t], q) == Total(txs, q) + (if Matches(t, q) then t.amount else 0.0)
  {
    assert (txs + [t])[..|txs|] == txs;
  }

  lemma {:induction false} TotalConcat(a: seq<Transaction>, b: seq<Transaction>, q: Query)
    ensures Total(a + b, q) == Total(a, q) + Total(b, q)
    decreases |b|
  {
    if b == [] {
      assert a + b == a;
    } else {
      var b' := b[..|b| - 1];
      assert a + b == (a + b') + [b[|b| - 1]];
      assert b == b' + [b[|b| - 1]];
      TotalConcat(a, b', q);
      TotalSnoc(a + b', b[|b| - 1], q);
      TotalSnoc(b', b[|b| - 1], q);
    }
  }

  /** A total over no matching transaction is 0. */
  lemma {:induction false} TotalNone(txs: seq<Transaction>, q: Query)
    requires forall i :: 0 <= i < |txs| ==> !Matches(txs[i], q)
    ensures Total(txs, q) == 0.0
  {
    if txs != [] {
      TotalNone(txs[..|txs| - 1], q);
    }
  }

  /** Two filters that split every transaction between them split the total. */
  lemma {:induction false} TotalPartition(txs: seq<Transaction>, q: Query, p1: Query, p2: Query)
    requires forall t :: Matches(t, q) <==> (Matches(t, p1) || Matches(t, p2))
    requires forall t :: !(Matches(t, p1) && Matches(t, p2))
    ensures Total(txs, q) == Total(txs, p1) + Total(txs, p2)
  {
    if txs != [] {
      TotalPartition(txs[..|txs| - 1], q, p1, p2);
    }
  }

  /** Filters that agree on every transaction of the list give the same total. */
  lemma {:induction false} TotalAgree(txs: seq<Transaction>, q1: Query, q2: Query)
    requires forall i :: 0 <= i < |txs| ==> (Matches(txs[i], q1) <==> Matches(txs[i], q2))
    ensures Total(txs, q1) == Total(txs, q2)
  {
    if txs != [] {
      TotalAgree(txs[..|txs| - 1], q1, q2);
    }
  }

  // ---------------------------------------------------------------------
  // The per-date timeline (FinanceManager's prepareTimelineData and
  // FamilyDashboard's timelineData)

  /** One timeline point: the income and the non-income amounts of a date. */
  datatype DayTotals = DayTotals(date: Date, income: real, expense: real)

  function DatesOf(txs: seq<Transaction>): (ds: seq<Date>)
    ensures |ds| == |txs| && forall i :: 0 <= i < |txs| ==> ds[i] == txs[i].date
  {
    seq(|txs|, i requires 0 <= i < |txs| => txs[i].date)
  }

  function DayTotalsOf(txs: seq<Transaction>, d: Date): DayTotals
  {
    DayTotals(d, Total(txs, OnDate(d, true)), Total(txs, OnDate(d, false)))
  }

  function DayKey(b: DayTotals): real
  {
    DayNumber(b.date) as real
  }

  function BucketDate(b: DayTotals): Date
  {
    b.date
  }

  function BucketTotal(b: DayTotals): real
  {
    b.income + b.expense
  }

  /** The buckets of the dates `ds`, in that order. */
  function BucketsFor(txs: seq<Transaction>, ds: seq<Date>): (bs: seq<DayTotals>)
    ensures |bs| == |ds| && forall k :: 0 <= k < |ds| ==> bs[k] == DayTotalsOf(txs, ds[k])
  {
    seq(|ds|, k requires 0 <= k < |ds| => DayTotalsOf(txs, ds[k]))
  }

  /** The timeline: one bucket per distinct date, sorted by date. */
  function Timeline(txs: seq<Transaction>): seq<DayTotals>
  {
    SortBy(BucketsFor(txs, FirstSeen(DatesOf(txs))), DayKey, false)
  }

  /** The bucket after `t`'s amount is added to its income or expense side. */
  function AddAmount(b: DayTotals, t: Transaction): DayTotals
  {
    if t.kind == INCOME then b.(income := b.income + t.amount) else b.(expense := b.expense + t.amount)
  }

  lemma DayTotalsSnoc(txs: seq<Transaction>, t: Transaction, d: Date)
    ensures DayTotalsOf(txs + [t], d) ==
      if t.date != d then DayTotalsOf(txs, d)
      else if t.kind == INCOME then DayTotalsOf(txs, d).(income := DayTotalsOf(txs, d).income + t.amount)
      else DayTotalsOf(txs, d).(expense := DayTotalsOf(txs, d).expense + t.amount)
  {
    TotalSnoc(txs, t, OnDate(d, true));
    TotalSnoc(txs, t, OnDate(d, false));
  }

  lemma DatesOfSnoc(txs: seq<Transaction>, t: Transaction)
    ensures DatesOf(txs + [t]) == DatesOf(txs) + [t.date]
    ensures FirstSeen(DatesOf(txs + [t])) ==
      if t.date in DatesOf(txs) then FirstSeen(DatesOf(txs)) else FirstSeen(DatesOf(txs)) + [t.date]
  {
    assert DatesOf(txs + [t]) == DatesOf(txs) + [t.date];
    FirstSeenSnoc(DatesOf(txs), t.date);
  }

  lemma DayTotalsAbsent(txs: seq<Transaction>, d: Date)
    requires d !in DatesOf(txs)
    ensures DayTotalsOf(txs, d) == DayTotals(d, 0.0, 0.0)
  {
    TotalNone(txs, OnDate(d, true));
    TotalNone(txs, OnDate(d, false));
  }

  /** Where date `d` sits among the entries, or -1: a property lookup on
      the dictionary object, whose entries keep their insertion order. */
  function IndexOfDate(entries: seq<DayTotals>, d: Date): (k: int)
    ensures -1 <= k < |entries|
    ensures k >= 0 ==> entries[k].date == d
    ensures k < 0 ==> forall j :: 0 <= j < |entries| ==> entries[j].date != d
  {
    if entries == [] then -1
    else if entries[|entries| - 1].date == d then |entries| - 1
    else IndexOfDate(entries[..|entries| - 1], d)
  }

  /** The dictionary after one more transaction: a zero bucket is opened
      for a date not seen yet, then the amount goes to its income or
      expense side. */
  function AddTo(entries: seq<DayTotals>, t: Transaction): seq<DayTotals>
  {
    var k := IndexOfDate(entries, t.date);
    var widened := if k < 0 then entries + [DayTotals(t.date, 0.0, 0.0)] else entries;
    var at := if k < 0 then |entries| else k;
    widened[at := AddAmount(widened[at], t)]
  }

  /** The dictionary after the transactions `txs`, taken in order. */
  function Accumulate(txs: seq<Transaction>): seq<DayTotals>
  {
    if txs == [] then [] else AddTo(Accumulate(txs[..|txs| - 1]), txs[|txs| - 1])
  }

  /** Builds the timeline as the source does: a dictionary keyed by date,
      filled in one pass, then its values sorted by date. */
  method BuildTimeline(txs: seq<Transaction>) returns (r: seq<DayTotals>)
    ensures r == Timeline(txs)
  {
    var timeline: seq<DayTotals> := [];
    var i := 0;
    while i < |txs|
      invariant 0 <= i <= |txs|
      invariant timeline == Accumulate(txs[..i])
    {
      var t := txs[i];
      ghost var before := timeline;
      var k := IndexOfDate(timeline, t.date);
      if k < 0 {
        timeline := timeline + [DayTotals(t.date, 0.0, 0.0)];
        k := |timeline| - 1;
      }
      var entry := timeline[k];
      if t.kind == INCOME {
        entry := entry.(income := entry.income + t.amount);
      } else {
        entry := entry.(expense := entry.expense + t.amount);
      }
      timeline := timeline[k := entry];
      assert timeline == AddTo(before, t);
      assert txs[..i + 1][..i] == txs[..i];
      i := i + 1;
    }
    assert txs[..i] == txs;
    AccumulateBuckets(txs);
    r := SortBy(timeline, DayKey, false);
  }

  /** The dictionary holds one bucket per distinct date, in first-seen order. */
  lemma {:induction false} AccumulateBuckets(txs: seq<Transaction>)
    ensures Accumulate(txs) == BucketsFor(txs, FirstSeen(DatesOf(txs)))
  {
    if txs != [] {
      var seen, t := txs[..|txs| - 1], txs[|txs| - 1];
      AccumulateBuckets(seen);
      assert Accumulate(txs) == AddTo(Accumulate(seen), t);
      AddToStep(seen, t);
      LastSplit(txs);
    }
  }

  /** One step of the loop agrees with recomputing the buckets. */
  lemma AddToStep(seen: seq<Transaction>, t: Transaction)
    ensures AddTo(BucketsFor(seen, FirstSeen(DatesOf(seen))), t)
         == BucketsFor(seen + [t], FirstSeen(DatesOf(seen + [t])))
  {
    DatesOfSnoc(seen, t);
    if t.date in DatesOf(seen) {
      AddToSeen(seen, t, FirstSeen(DatesOf(seen)));
    } else {
      AddToUnseen(seen, t, FirstSeen(DatesOf(seen)));
    }
  }

  /** A date that already has a bucket: only that bucket changes. */
  lemma AddToSeen(seen: seq<Transaction>, t: Transaction, ds: seq<Date>)
    requires Distinct(ds) && t.date in ds
    ensures AddTo(BucketsFor(seen, ds), t) == BucketsFor(seen + [t], ds)
  {
    var before := BucketsFor(seen, ds);
    var j :| 0 <= j < |ds| && ds[j] == t.date;
    assert before[j].date == t.date;
    var k := IndexOfDate(before, t.date);
    assert ds[k] == t.date;
    AddStep(seen, t, ds, k);
  }

  /** A date seen for the first time: its bucket opens at the end. */
  lemma AddToUnseen(seen: seq<Transaction>, t: Transaction, ds: seq<Date>)
    requires Distinct(ds) && t.date !in ds && t.date !in DatesOf(seen)
    ensures AddTo(BucketsFor(seen, ds), t) == BucketsFor(seen + [t], ds + [t.date])
  {
    var before := BucketsFor(seen, ds);
    DayTotalsAbsent(seen, t.date);
    BucketsForSnoc(seen, ds, t.date);
    AddStep(seen, t, ds + [t.date], |before|);
  }

  lemma BucketsForSnoc(txs: seq<Transaction>, ds: seq<Date>, d: Date)
    ensures BucketsFor(txs, ds + [d]) == BucketsFor(txs, ds) + [DayTotalsOf(txs, d)]
  {
  }

  /** Adding `t` to the bucket of its date is the same as recomputing every
      bucket with `t` included. */
  lemma AddStep(seen: seq<Transaction>, t: Transaction, ds: seq<Date>, k: int)
    requires Distinct(ds) && 0 <= k < |ds| && ds[k] == t.date
    ensures BucketsFor(seen, ds)[k := AddAmount(BucketsFor(seen, ds)[k], t)] == BucketsFor(seen + [t], ds)
  {
    forall p | 0 <= p < |ds|
      ensures BucketsFor(seen, ds)[k := AddAmount(BucketsFor(seen, ds)[k], t)][p] == DayTotalsOf(seen + [t], ds[p])
    {
      DayTotalsSnoc(seen, t, ds[p]);
    }
  }

  function BucketDates(bs: seq<DayTotals>): (ds: seq<Date>)
    ensures |ds| == |bs| && forall k :: 0 <= k < |bs| ==> ds[k] == bs[k].date
  {
    seq(|bs|, k requires 0 <= k < |bs| => bs[k].date)
  }

  /** The timeline is in ascending date order, and each bucket holds its
      date's income and non-income totals. */
  lemma TimelineBuckets(txs: seq<Transaction>)
    ensures SortedBy(Timeline(txs), DayKey, false)
    ensures forall k :: 0 <= k < |Timeline(txs)| ==>
      Timeline(txs)[k] == DayTotalsOf(txs, Timeline(txs)[k].date)
  {
    var bs := BucketsFor(txs, FirstSeen(DatesOf(txs)));
    var r := Timeline(txs);
    forall k | 0 <= k < |r|
      ensures r[k] == DayTotalsOf(txs, r[k].date)
    {
      assert r[k] in multiset(bs);
    }
  }

  /** The timeline has a bucket for exactly the dates that occur, one each. */
  lemma TimelineDates(txs: seq<Transaction>)
    ensures forall d :: d in BucketDates(Timeline(txs)) <==> d in DatesOf(txs)
    ensures Distinct(BucketDates(Timeline(txs)))
  {
    var bs := BucketsFor(txs, FirstSeen(DatesOf(txs)));
    PermutedDates(bs, Timeline(txs));
    PermutationKeysDistinct(bs, Timeline(txs), BucketDate);
  }

  /** Reordering buckets keeps the set of their dates. */
  lemma PermutedDates(bs: seq<DayTotals>, r: seq<DayTotals>)
    requires multiset(r) == multiset(bs)
    ensures forall d :: d in BucketDates(r) <==> d in BucketDates(bs)
  {
    forall d | d in BucketDates(r)
      ensures d in BucketDates(bs)
    {
      var k :| 0 <= k < |r| && BucketDates(r)[k] == d;
      assert r[k] in multiset(bs);
      var m :| 0 <= m < |bs| && bs[m] == r[k];
      assert BucketDates(bs)[m] == d;
    }
    forall d | d in BucketDates(bs)
      ensures d in BucketDates(r)
    {
      var m :| 0 <= m < |bs| && BucketDates(bs)[m] == d;
      assert bs[m] in multiset(r);
      var k :| 0 <= k < |r| && r[k] == bs[m];
      assert BucketDates(r)[k] == d;
    }
  }

  /** The buckets add up to the sum of all amounts. */
  lemma TimelineSum(txs: seq<Transaction>)
    ensures SumOf(Timeline(txs), BucketTotal) == Total(txs, Everything)
  {
    var ds := FirstSeen(DatesOf(txs));
    var bs := BucketsFor(txs, ds);
    SumOfPermutation(Timeline(txs), bs, BucketTotal);
    forall i | 0 <= i < |txs|
      ensures txs[i].date in ds
    {
      assert DatesOf(txs)[i] == txs[i].date;
    }
    BucketsSum(txs, ds);
  }

  /** The buckets of a list of distinct dates covering every transaction sum to the total. */
  lemma BucketsSum(txs: seq<Transaction>, ds: seq<Date>)
    requires Distinct(ds)
    requires forall i :: 0 <= i < |txs| ==> txs[i].date in ds
    ensures SumOf(BucketsFor(txs, ds), BucketTotal) == Total(txs, Everything)
  {
    BucketsSumInDates(txs, ds);
    TotalAgree(txs, InDates(ds), Everything);
  }

  lemma {:induction false} BucketsSumInDates(txs: seq<Transaction>, ds: seq<Date>)
    requires Distinct(ds)
    ensures SumOf(BucketsFor(txs, ds), BucketTotal) == Total(txs, InDates(ds))
    decreases |ds|
  {
    if ds == [] {
      TotalNone(txs, InDates(ds));
    } else {
      var ds', d := ds[..|ds| - 1], ds[|ds| - 1];
      LastSplit(ds);
      assert Distinct(ds') && d !in ds';
      BucketsSumInDates(txs, ds');
      assert SumOf(BucketsFor(txs, ds), BucketTotal)
          == SumOf(BucketsFor(txs, ds'), BucketTotal) + BucketTotal(DayTotalsOf(txs, d)) by {
        BucketsForSnoc(txs, ds', d);
        assert BucketsFor(txs, ds) == BucketsFor(txs, ds') + [DayTotalsOf(txs, d)];
      }
      assert BucketTotal(DayTotalsOf(txs, d)) == Total(txs, DateIs(d)) by {
        DateSplit(d);
        TotalPartition(txs, DateIs(d), OnDate(d, true), OnDate(d, false));
      }
      assert Total(txs, InDates(ds)) == Total(txs, InDates(ds')) + Total(txs, DateIs(d)) by {
        InDatesSplit(ds, ds', d);
        TotalPartition(txs, InDates(ds), InDates(ds'), DateIs(d));
      }
    }
  }

  /** A date's transactions are its income ones and its other ones. */
  lemma DateSplit(d: Date)
    ensures forall t :: Matches(t, DateIs(d)) <==> (Matches(t, OnDate(d, true)) || Matches(t, OnDate(d, false)))
    ensures forall t :: !(Matches(t, OnDate(d, true)) && Matches(t, OnDate(d, false)))
  {
  }

  /** A transaction on one of distinct dates is on the last one or on one of the others. */
  lemma InDatesSplit(ds: seq<Date>, rest: seq<Date>, d: Date)
    requires ds == rest + [d] && d !in rest
    ensures forall t :: Matches(t, InDates(ds)) <==> (Matches(t, InDates(rest)) || Matches(t, DateIs(d)))
    ensures forall t :: !(Matches(t, InDates(rest)) && Matches(t, DateIs(d)))
  {
  }
}
