/** The Flask application's own handlers over its tables: registration, the
    transaction routes (add, partial update, delete) with their ownership
    guards, the two dashboards and the monthly-plan routes keyed by user
    and month. Each handler changes the tables only when it commits; an
    answer 400, 403 or 500 leaves them as they were. */
module BackendApp {
  import opened Common
  import opened Calendar
  import opened BackendStore

  const INCOME: string := "income"
  const EXPENSE: string := "expense"

  /** The fields `add_transaction` insists on. */
  const REQUIRED: seq<string> := ["type", "amount", "category", "date", "familyMember"]

  /** A stored transaction as the handlers write it. */
  datatype Record = Record(userId: int, kind: Value, amount: real, category: Value, description: Value,
                           date: Date, familyMember: Value, isRecurring: Value)

  datatype Row = Row(id: int, rec: Record)

  /** The NOT NULL columns of `Transaction` that a body can leave empty: a
      null `type`, or a null category (its `category_id`), makes the commit
      raise `IntegrityError`, which the generic handler answers 500. */
  predicate Storable(rec: Record)
  {
    rec.kind != Null && rec.category != Null
  }

  /** What `get_monthly_plan` answers. */
  datatype PlanView = PlanView(month: string, expectedIncome: Value, expectedExpenses: Value, notes: Value)

  /** The status a failed conversion is answered with. */
  function ErrorStatus<T>(c: Conv<T>): (s: int)
    ensures c.BadValue? ==> s == 400
    ensures c.BadType? ==> s == 500
  {
    if c.BadValue? then 400 else 500
  }

  predicate Complete(body: Body)
  {
    forall f :: f in REQUIRED ==> f in body
  }

  /** `Transaction.query.get_or_404(id)`, as the index of the row or -1. */
  function FindRow(rows: seq<Row>, id: int): (k: int)
    ensures -1 <= k < |rows|
    ensures k >= 0 ==> rows[k].id == id
    ensures k < 0 ==> forall j :: 0 <= j < |rows| ==> rows[j].id != id
  {
    if rows == [] then -1
    else if rows[0].id == id then 0
    else
      var k := FindRow(rows[1..], id);
      if k < 0 then -1 else k + 1
  }

  predicate RowIds(rows: seq<Row>, next: int)
  {
    (forall i, j :: 0 <= i < j < |rows| ==> rows[i].id < rows[j].id) &&
    (forall i :: 0 <= i < |rows| ==> 1 <= rows[i].id < next)
  }

  /** The update of `update_transaction` on a stored record: the fields
      present in the body are written in the order of the source, the
      amount converted before the date, and the first conversion that
      raises decides the error. */
  function Patch(r: Record, body: Body, parse: Parsers): (p: Conv<Record>)
    ensures p.Ok? <==> ("amount" in body ==> ToFloat(body["amount"], parse).Ok?) &&
                       ("date" in body ==> ToDate(body["date"], parse).Ok?)
    ensures "amount" in body && !ToFloat(body["amount"], parse).Ok? ==>
      ErrorStatus(p) == ErrorStatus(ToFloat(body["amount"], parse))
    ensures ("amount" !in body || ToFloat(body["amount"], parse).Ok?) && "date" in body && !ToDate(body["date"], parse).Ok? ==>
      ErrorStatus(p) == ErrorStatus(ToDate(body["date"], parse))
    ensures p.Ok? ==> p.value.userId == r.userId
    ensures p.Ok? ==> p.value.kind == Get(body, "type", r.kind) && p.value.category == Get(body, "category", r.category)
    ensures p.Ok? ==> p.value.description == Get(body, "description", r.description)
    ensures p.Ok? ==> p.value.familyMember == Get(body, "familyMember", r.familyMember)
    ensures p.Ok? ==> p.value.isRecurring == Get(body, "isRecurring", r.isRecurring)
    ensures p.Ok? ==> p.value.amount == if "amount" in body then ToFloat(body["amount"], parse).value else r.amount
    ensures p.Ok? ==> p.value.date == if "date" in body then ToDate(body["date"], parse).value else r.date
  {
    var amount := if "amount" in body then ToFloat(body["amount"], parse) else Ok(r.amount);
    var date := if "date" in body then ToDate(body["date"], parse) else Ok(r.date);
    if amount.BadValue? then BadValue
    else if amount.BadType? then BadType
    else if date.BadValue? then BadValue
    else if date.BadType? then BadType
    else
      Ok(r.(kind := Get(body, "type", r.kind), amount := amount.value, category := Get(body, "category", r.category),
            description := Get(body, "description", r.description), date := date.value,
            familyMember := Get(body, "familyMember", r.familyMember), isRecurring := Get(body, "isRecurring", r.isRecurring)))
  }

  /** A body without an amount and a date cannot fail, and leaves both as
      they were. */
  lemma PatchWithoutConversions(r: Record, body: Body, parse: Parsers)
    requires "amount" !in body && "date" !in body
    ensures Patch(r, body, parse).Ok?
    ensures Patch(r, body, parse).value.amount == r.amount && Patch(r, body, parse).value.date == r.date
  {
  }

  // ---------------------------------------------------------------------
  // The two handlers against the Transaction model as declared

  /** add_transaction as written against `Transaction` of models.py: the
      constructor is handed `category=` a JSON value, which the `category`
      relationship cannot hold, and `family_member=`, which the model does
      not declare. Once both conversions pass, the constructor raises and
      the generic handler answers 500, so no body is ever stored. */
  function AddStatusAsWritten(body: Option<Body>, parse: Parsers): (s: int)
    ensures s != 201
    ensures body.None? ==> s == 500
    ensures body.Some? && !Complete(body.value) ==> s == 400
    ensures body.Some? && Complete(body.value) && !ToFloat(body.value["amount"], parse).Ok? ==>
      s == ErrorStatus(ToFloat(body.value["amount"], parse))
    ensures body.Some? && Complete(body.value) && ToFloat(body.value["amount"], parse).Ok? ==>
      s == if ToDate(body.value["date"], parse).Ok? then 500 else ErrorStatus(ToDate(body.value["date"], parse))
  {
    if body.None? then 500
    else if !Complete(body.value) then 400
    else
      var amount := ToFloat(body.value["amount"], parse);
      var date := ToDate(body.value["date"], parse);
      if !amount.Ok? then ErrorStatus(amount)
      else if !date.Ok? then ErrorStatus(date)
      else 500
  }

  /** The status of a handler and the record the table holds after it. */
  datatype Outcome = Outcome(status: int, stored: Record)

  /** update_transaction as written, on the caller's own row (whose category
      exists): an empty body is answered 400 before any assignment. Assigning a body value other than null
      to the `category` relationship raises before anything is committed;
      a null category passes the assignment and the NOT NULL `category_id`
      refuses the commit. Without a category the commit goes through, with
      `family_member` an attribute no column stores, and then the answer
      cannot be built (the row's Category object is not JSON
      serialisable): the change is kept and the caller is answered 500,
      unless it sets the NOT NULL `type` to null, which the commit refuses. */
  function UpdateOwnRowAsWritten(r: Record, body: Body, parse: Parsers): (o: Outcome)
    ensures o.status != 200
    ensures o.status != 500 ==> o.stored == r
    ensures "category" in body ==> o.stored == r
    ensures body == map[] ==> o == Outcome(400, r)
    ensures "amount" !in body && "date" !in body && "category" in body ==> o.status == 500
    ensures body != map[] && "category" !in body && Patch(r, body, parse).Ok? ==>
      o.status == 500 &&
      o.stored == if Patch(r, body, parse).value.kind == Null then r
                  else Patch(r, body, parse).value.(familyMember := r.familyMember)
    ensures !Patch(r, body, parse).Ok? && ("category" !in body || body["category"] == Null) ==>
      o == Outcome(ErrorStatus(Patch(r, body, parse)), r)
  {
    if body == map[] then Outcome(400, r)
    else
    var amount := if "amount" in body then ToFloat(body["amount"], parse) else Ok(r.amount);
    if !amount.Ok? then Outcome(ErrorStatus(amount), r)
    else if "category" in body && body["category"] != Null then Outcome(500, r)
    else
      var p := Patch(r, body, parse);
      if !p.Ok? then Outcome(ErrorStatus(p), r)
      else if "category" in body || p.value.kind == Null then Outcome(500, r)
      else Outcome(500, p.value.(familyMember := r.familyMember))
  }

  /** As written, an update the table keeps is reported as a failure: a
      body that changes only the type to a non-null value is committed and
      answered 500, and one that sets it to null is refused and answered
      500 too. */
  lemma {:induction false} UpdateAsWrittenKeepsFailedChange(r: Record, body: Body, parse: Parsers)
    requires body.Keys == {"type"} && body["type"] != r.kind
    ensures UpdateOwnRowAsWritten(r, body, parse).status == 500
    ensures UpdateOwnRowAsWritten(r, body, parse).stored == if body["type"] == Null then r else r.(kind := body["type"])
  {
    PatchWithoutConversions(r, body, parse);
    assert "category" !in body && "familyMember" !in body && "description" !in body && "isRecurring" !in body;
  }

  // ---------------------------------------------------------------------
  // Dashboard sums

  /** What a row adds to the `kind` sum of user `me`: its amount when it is
      one of that user's rows of that type, nothing otherwise. */
  function Contribution(me: int, kind: string): Row -> real
  {
    (r: Row) => if r.rec.userId == me && r.rec.kind == Text(kind) then r.rec.amount else 0.0
  }

  /** `sum(float(t.amount) for t in transactions if t.type == kind)` over
      the user's rows. */
  function KindTotal(rows: seq<Row>, me: int, kind: string): real
  {
    SumOf(rows, Contribution(me, kind))
  }

  function Counted(me: int, kind: string): Row -> bool
  {
    (r: Row) => r.rec.userId == me && r.rec.kind == Text(kind)
  }

  function RowAmount(r: Row): real
  {
    r.rec.amount
  }

  /** The dashboard sum is the sum of the amounts of exactly the user's rows
      of that type: rows of other users and of other types count in no
      sum. */
  lemma {:induction false} KindTotalIsSum(rows: seq<Row>, me: int, kind: string)
    ensures KindTotal(rows, me, kind) == SumOf(Filter(rows, Counted(me, kind)), RowAmount)
  {
    if rows != [] {
      var init, last := rows[..|rows| - 1], rows[|rows| - 1];
      var kept := Filter(init, Counted(me, kind));
      assert KindTotal(rows, me, kind) == KindTotal(init, me, kind) + Contribution(me, kind)(last);
      KindTotalIsSum(init, me, kind);
      assert rows == init + [last];
      FilterSnoc(init, last, Counted(me, kind));
      if Counted(me, kind)(last) {
        assert Contribution(me, kind)(last) == RowAmount(last);
        SumOfSnoc(kept, last, RowAmount);
      } else {
        assert Contribution(me, kind)(last) == 0.0;
        assert Filter(rows, Counted(me, kind)) == kept;
      }
    }
  }

  /** Deleting a row takes its contribution out of every sum. */
  lemma DeleteLowersTotal(rows: seq<Row>, k: int, me: int, kind: string)
    requires 0 <= k < |rows|
    ensures KindTotal(Without(rows, k), me, kind) == KindTotal(rows, me, kind) - Contribution(me, kind)(rows[k])
  {
    SumOfWithout(rows, k, Contribution(me, kind));
  }

  /** Replacing a row swaps its contribution for the new one's. */
  lemma ReplaceShiftsTotal(rows: seq<Row>, k: int, r: Row, me: int, kind: string)
    requires 0 <= k < |rows|
    ensures KindTotal(rows[k := r], me, kind) ==
      KindTotal(rows, me, kind) - Contribution(me, kind)(rows[k]) + Contribution(me, kind)(r)
  {
    SumOfWithout(rows, k, Contribution(me, kind));
    SumOfWithout(rows[k := r], k, Contribution(me, kind));
    assert Without(rows[k := r], k) == Without(rows, k);
  }

  /** Adding a row adds its contribution. */
  lemma AddRaisesTotal(rows: seq<Row>, r: Row, me: int, kind: string)
    ensures KindTotal(rows + [r], me, kind) == KindTotal(rows, me, kind) + Contribution(me, kind)(r)
  {
    assert (rows + [r])[..|rows|] == rows;
  }

  /** The plan a user sees for a month: the stored one, or the empty
      structure `{month, expectedIncome: [], expectedExpenses: [], notes: ''}`. */
  function ViewOf(plans: seq<PlanRow>, me: int, month: string): (v: PlanView)
    ensures PersonalPlan(plans, me, month) < 0 ==> v == PlanView(month, Items([]), Items([]), Text(""))
    ensures var k := PersonalPlan(plans, me, month);
      k >= 0 ==> v == PlanView(month, plans[k].expectedIncome, plans[k].expectedExpenses, plans[k].notes)
  {
    var k := PersonalPlan(plans, me, month);
    if k < 0 then PlanView(month, Items([]), Items([]), Text(""))
    else PlanView(plans[k].month, plans[k].expectedIncome, plans[k].expectedExpenses, plans[k].notes)
  }

  /** The view a save leaves behind: each field in the body, else the one
      seen before. */
  function MergeView(v: PlanView, body: Body): PlanView
  {
    PlanView(v.month, Get(body, "expectedIncome", v.expectedIncome), Get(body, "expectedExpenses", v.expectedExpenses),
             Get(body, "notes", v.notes))
  }

  class App {
    var users: seq<UserRow>
    var txns: seq<Row>
    var plans: seq<PlanRow>
    var nextUserId: int
    var nextTxnId: int
    var nextPlanId: int

    /** Every table is keyed by an auto-increment id, emails are unique
        and present (the column is NOT NULL), and every stored transaction
        fills its NOT NULL columns. */
    predicate Valid()
      reads this
    {
      nextUserId >= 1 && nextTxnId >= 1 && nextPlanId >= 1 &&
      UserIds(users, nextUserId) && EmailsDistinct(users) && RowIds(txns, nextTxnId) && PlanIds(plans, nextPlanId) &&
      (forall i :: 0 <= i < |users| ==> users[i].email != Null) &&
      (forall i :: 0 <= i < |txns| ==> Storable(txns[i].rec))
    }

    constructor ()
      ensures users == [] && txns == [] && plans == []
      ensures nextUserId == 1 && nextTxnId == 1 && nextPlanId == 1
      ensures Valid()
    {
      users := [];
      txns := [];
      plans := [];
      nextUserId := 1;
      nextTxnId := 1;
      nextPlanId := 1;
    }

    /** register: 400 without an email or a password, 400 for an email
        already taken, 500 when the password is not a string (it cannot be
        encoded) or the email is null (the NOT NULL column refuses the
        commit), otherwise a new user with role "user" and the hashed
        password (`hashed`, the output of bcrypt with a fresh salt). Emails
        stay unique. */
    method Register(body: Option<Body>, hashed: string) returns (status: int)
      requires Valid()
      modifies this
      ensures Valid()
      ensures Falsy(body) || "email" !in body.value || "password" !in body.value ==> status == 400
      ensures !Falsy(body) && "email" in body.value && "password" in body.value ==>
        ((exists i :: 0 <= i < |old(users)| && old(users)[i].email == body.value["email"]) ==> status == 400) &&
        ((forall i :: 0 <= i < |old(users)| ==> old(users)[i].email != body.value["email"]) ==>
           status == if body.value["password"].Text? && body.value["email"] != Null then 201 else 500)
      ensures !Falsy(body) && "email" in body.value && "password" in body.value && body.value["email"] == Null ==>
        status == 500
      ensures status == 201 ==> users == old(users) + [UserRow(old(nextUserId), body.value["email"], hashed, "user", None)]
      ensures status == 201 ==> nextUserId == old(nextUserId) + 1
      ensures status != 201 ==> users == old(users) && nextUserId == old(nextUserId)
      ensures txns == old(txns) && plans == old(plans) && nextTxnId == old(nextTxnId) && nextPlanId == old(nextPlanId)
    {
      if Falsy(body) || "email" !in body.value || "password" !in body.value {
        return 400;
      }
      var data := body.value;
      var i := 0;
      while i < |users|
        invariant 0 <= i <= |users|
        invariant forall j :: 0 <= j < i ==> users[j].email != data["email"]
      {
        if users[i].email == data["email"] {
          return 400;
        }
        i := i + 1;
      }
      if !data["password"].Text? || data["email"] == Null {
        return 500;
      }
      users := users + [UserRow(nextUserId, data["email"], hashed, "user", None)];
      nextUserId := nextUserId + 1;
      status := 201;
    }

    /** add_transaction: an absent body raises (500), a missing required
        field is 400, a bad amount or date is answered as its conversion
        error, the amount first, a null type or category is refused by its
        NOT NULL column (500); otherwise the new row is appended under the
        next id and belongs to the caller. */
    method AddTransaction(me: int, body: Option<Body>, parse: Parsers) returns (status: int, id: int)
      requires Valid()
      modifies this
      ensures Valid()
      ensures body.None? ==> status == 500
      ensures body.Some? && !Complete(body.value) ==> status == 400
      ensures body.Some? && Complete(body.value) && !ToFloat(body.value["amount"], parse).Ok? ==>
        status == ErrorStatus(ToFloat(body.value["amount"], parse))
      ensures body.Some? && Complete(body.value) && ToFloat(body.value["amount"], parse).Ok? && !ToDate(body.value["date"], parse).Ok? ==>
        status == ErrorStatus(ToDate(body.value["date"], parse))
      ensures body.Some? && Complete(body.value) && ToFloat(body.value["amount"], parse).Ok? &&
              ToDate(body.value["date"], parse).Ok? && (body.value["type"] == Null || body.value["category"] == Null) ==>
        status == 500
      ensures status == 201 <==> body.Some? && Complete(body.value) &&
                                 ToFloat(body.value["amount"], parse).Ok? && ToDate(body.value["date"], parse).Ok? &&
                                 body.value["type"] != Null && body.value["category"] != Null
      ensures status == 201 ==>
        var data := body.value;
        id == old(nextTxnId) && nextTxnId == id + 1 &&
        txns == old(txns) + [Row(id, Record(me, data["type"], ToFloat(data["amount"], parse).value, data["category"],
                                            Get(data, "description", Text("")), ToDate(data["date"], parse).value,
                                            data["familyMember"], Get(data, "isRecurring", Flag(false))))]
      ensures status != 201 ==> txns == old(txns) && nextTxnId == old(nextTxnId)
      ensures users == old(users) && plans == old(plans) && nextUserId == old(nextUserId) && nextPlanId == old(nextPlanId)
    {
      id := 0;
      if body.None? {
        return 500, id;
      }
      var data := body.value;
      var f := 0;
      while f < |REQUIRED|
        invariant 0 <= f <= |REQUIRED|
        invariant forall g :: 0 <= g < f ==> REQUIRED[g] in data
      {
        if REQUIRED[f] !in data {
          return 400, id;
        }
        f := f + 1;
      }
      assert REQUIRED[0] in data && REQUIRED[1] in data && REQUIRED[2] in data && REQUIRED[3] in data && REQUIRED[4] in data;
      var amount := ToFloat(data["amount"], parse);
      if !amount.Ok? {
        return ErrorStatus(amount), id;
      }
      var date := ToDate(data["date"], parse);
      if !date.Ok? {
        return ErrorStatus(date), id;
      }
      if data["type"] == Null || data["category"] == Null {
        return 500, id;
      }
      var rec := Record(me, data["type"], amount.value, data["category"], Get(data, "description", Text("")),
                        date.value, data["familyMember"], Get(data, "isRecurring", Flag(false)));
      id := nextTxnId;
      txns := txns + [Row(id, rec)];
      nextTxnId := nextTxnId + 1;
      status := 201;
    }

    /** update_transaction: an unknown id raises inside the handler (500),
        another user's row is 403, an empty body 400, a bad conversion its
        error, a patch that empties a NOT NULL column 500; otherwise the row
        becomes `Patch` of itself, fields set one by one. */
    method UpdateTransaction(me: int, id: int, body: Option<Body>, parse: Parsers) returns (status: int)
      requires Valid()
      modifies this
      ensures Valid()
      ensures var k := FindRow(old(txns), id);
        (k < 0 ==> status == 500) &&
        (k >= 0 && old(txns)[k].rec.userId != me ==> status == 403) &&
        (k >= 0 && old(txns)[k].rec.userId == me && Falsy(body) ==> status == 400) &&
        (k >= 0 && old(txns)[k].rec.userId == me && !Falsy(body) ==>
          var p := Patch(old(txns)[k].rec, body.value, parse);
          (p.Ok? && Storable(p.value) ==> status == 200 && txns == old(txns)[k := Row(id, p.value)]) &&
          (p.Ok? && !Storable(p.value) ==> status == 500) &&
          (!p.Ok? ==> status == ErrorStatus(p)))
      ensures status != 200 ==> txns == old(txns)
      ensures users == old(users) && plans == old(plans)
      ensures nextUserId == old(nextUserId) && nextTxnId == old(nextTxnId) && nextPlanId == old(nextPlanId)
    {
      var k := FindRow(txns, id);
      if k < 0 {
        return 500;
      }
      if txns[k].rec.userId != me {
        return 403;
      }
      if Falsy(body) {
        return 400;
      }
      var patched := ApplyPatch(txns[k].rec, body.value, parse);
      if !patched.Ok? {
        return ErrorStatus(patched);
      }
      if !Storable(patched.value) {
        return 500;
      }
      txns := txns[k := Row(id, patched.value)];
      status := 200;
    }

    /** The field-by-field assignments of update_transaction on one record:
        the first conversion that raises stops them. */
    static method ApplyPatch(r: Record, data: Body, parse: Parsers) returns (p: Conv<Record>)
      ensures p == Patch(r, data, parse)
    {
      var rec := r;
      if "type" in data {
        rec := rec.(kind := data["type"]);
      }
      if "amount" in data {
        var amount := ToFloat(data["amount"], parse);
        if !amount.Ok? {
          return if amount.BadValue? then BadValue else BadType;
        }
        rec := rec.(amount := amount.value);
      }
      if "category" in data {
        rec := rec.(category := data["category"]);
      }
      if "description" in data {
        rec := rec.(description := data["description"]);
      }
      if "date" in data {
        var date := ToDate(data["date"], parse);
        if !date.Ok? {
          return if date.BadValue? then BadValue else BadType;
        }
        rec := rec.(date := date.value);
      }
      if "familyMember" in data {
        rec := rec.(familyMember := data["familyMember"]);
      }
      if "isRecurring" in data {
        rec := rec.(isRecurring := data["isRecurring"]);
      }
      p := Ok(rec);
    }

    /** delete_transaction: 500 for an unknown id, 403 for another user's
        row, otherwise the row leaves the table. */
    method DeleteTransaction(me: int, id: int) returns (status: int)
      requires Valid()
      modifies this
      ensures Valid()
      ensures var k := FindRow(old(txns), id);
        (k < 0 ==> status == 500 && txns == old(txns)) &&
        (k >= 0 && old(txns)[k].rec.userId != me ==> status == 403 && txns == old(txns)) &&
        (k >= 0 && old(txns)[k].rec.userId == me ==> status == 200 && txns == Without(old(txns), k))
      ensures users == old(users) && plans == old(plans)
      ensures nextUserId == old(nextUserId) && nextTxnId == old(nextTxnId) && nextPlanId == old(nextPlanId)
    {
      var k := FindRow(txns, id);
      if k < 0 {
        return 500;
      }
      if txns[k].rec.userId != me {
        return 403;
      }
      ghost var before := txns;
      txns := txns[..k] + txns[k + 1..];
      assert forall i :: 0 <= i < |txns| ==> txns[i] == before[if i < k then i else i + 1];
      status := 200;
    }

    /** get_dashboard: the caller's income, expenses and their difference. */
    method Dashboard(me: int) returns (income: real, expenses: real, balance: real)
      ensures income == KindTotal(txns, me, INCOME)
      ensures expenses == KindTotal(txns, me, EXPENSE)
      ensures balance == income - expenses
    {
      income, expenses := 0.0, 0.0;
      for i := 0 to |txns|
        invariant income == KindTotal(txns[..i], me, INCOME)
        invariant expenses == KindTotal(txns[..i], me, EXPENSE)
      {
        var t := txns[i];
        assert txns[..i + 1] == txns[..i] + [t];
        AddRaisesTotal(txns[..i], t, me, INCOME);
        AddRaisesTotal(txns[..i], t, me, EXPENSE);
        if t.rec.userId == me && t.rec.kind == Text(INCOME) {
          income := income + t.rec.amount;
        }
        if t.rec.userId == me && t.rec.kind == Text(EXPENSE) {
          expenses := expenses + t.rec.amount;
        }
      }
      assert txns[..|txns|] == txns;
      balance := income - expenses;
    }

    /** get_family_dashboard reads the same rows as the personal dashboard
        (the caller's own) and so gives the same three figures. */
    method FamilyDashboard(me: int) returns (familyIncome: real, familyExpenses: real, familyBalance: real)
      ensures familyIncome == KindTotal(txns, me, INCOME)
      ensures familyExpenses == KindTotal(txns, me, EXPENSE)
      ensures familyBalance == familyIncome - familyExpenses
    {
      familyIncome, familyExpenses, familyBalance := Dashboard(me);
    }

    /** get_monthly_plan. */
    function GetMonthlyPlan(me: int, month: string): PlanView
      reads this
    {
      ViewOf(plans, me, month)
    }

    /** save_monthly_plan: 400 without data; otherwise the caller's plan for
        the month is created with defaults or has the fields in the body
        overwritten, and reading it back gives the view seen before merged
        with the body. */
    method SaveMonthlyPlan(me: int, month: string, body: Option<Body>) returns (status: int)
      requires Valid()
      modifies this
      ensures Valid()
      ensures Falsy(body) ==> status == 400 && plans == old(plans) && nextPlanId == old(nextPlanId)
      ensures !Falsy(body) ==> status == 200
      ensures !Falsy(body) ==> var k := PersonalPlan(old(plans), me, month);
        (k < 0 ==> plans == old(plans) + [NewPlan(old(nextPlanId), me, None, month, body.value)] && nextPlanId == old(nextPlanId) + 1) &&
        (k >= 0 ==> plans == old(plans)[k := MergePlan(old(plans)[k], body.value)] && nextPlanId == old(nextPlanId))
      ensures !Falsy(body) ==> GetMonthlyPlan(me, month) == MergeView(old(GetMonthlyPlan(me, month)), body.value)
      ensures users == old(users) && txns == old(txns) && nextUserId == old(nextUserId) && nextTxnId == old(nextTxnId)
    {
      if Falsy(body) {
        return 400;
      }
      var data := body.value;
      var k := PersonalPlan(plans, me, month);
      if k < 0 {
        var plan := NewPlan(nextPlanId, me, None, month, data);
        PersonalPlanAppend(plans, plan, me, month);
        PlanIdsAppend(plans, plan, nextPlanId);
        plans := plans + [plan];
        nextPlanId := nextPlanId + 1;
      } else {
        var plan := MergePlan(plans[k], data);
        PersonalPlanSameKeys(plans, k, plan, me, month);
        PlanIdsReplace(plans, k, plan, nextPlanId);
        plans := plans[k := plan];
      }
      status := 200;
    }
  }
}
