/** What the two backend route sets share: request bodies as JSON objects,
    `dict.get` with a default, Python's conversions that raise, and the user
    and monthly-plan tables. A table is a sequence of rows in id order,
    which is the order `query.first()` and `query.all()` see them in. */
module BackendStore {
  import opened Common
  import opened Calendar

  /** A JSON value as a handler reads it out of a request body. Objects
      nested inside a value are kept as raw text. */
  datatype Value = Null | Flag(b: bool) | Number(n: real) | Text(s: string) | Items(items: seq<Value>) | Other(raw: Json)

  /** A request body that is a JSON object. */
  type Body = map<string, Value>

  /** `data.get(key, default)`: a key that is present gives its value, even
      when that value is null. */
  function Get(body: Body, key: string, default: Value): (v: Value)
    ensures key in body ==> v == body[key]
    ensures key !in body ==> v == default
  {
    if key in body then body[key] else default
  }

  /** `if not data`: an absent body and an empty object are both falsy. */
  predicate Falsy(body: Option<Body>)
  {
    body.None? || body.value == map[]
  }

  /** The outcome of a Python conversion: a value, a `ValueError` (the
      handlers answer 400) or a `TypeError` (caught by the generic handler,
      500). */
  datatype Conv<T> = Ok(value: T) | BadValue | BadType

  /** How the text forms are read: `float(s)` and
      `datetime.strptime(s, '%Y-%m-%d')` on a string, `None` where Python
      raises `ValueError`. */
  datatype Parsers = Parsers(number: string -> Option<real>, date: string -> Option<Date>)

  /** `float(v)`: numbers as they are, booleans as 1.0 and 0.0, strings
      through the parser, and a `TypeError` for null, lists and objects. */
  function ToFloat(v: Value, parse: Parsers): (r: Conv<real>)
    ensures v.Number? ==> r == Ok(v.n)
    ensures v.Text? ==> (r.Ok? <==> parse.number(v.s).Some?) && (r.Ok? ==> r.value == parse.number(v.s).value)
    ensures r.BadType? <==> v.Null? || v.Items? || v.Other?
  {
    match v
    case Number(n) => Ok(n)
    case Flag(b) => Ok(if b then 1.0 else 0.0)
    case Text(s) => if parse.number(s).Some? then Ok(parse.number(s).value) else BadValue
    case _ => BadType
  }

  /** `datetime.strptime(v, '%Y-%m-%d')`: only a string can be parsed. */
  function ToDate(v: Value, parse: Parsers): (r: Conv<Date>)
    ensures r.Ok? <==> v.Text? && parse.date(v.s).Some?
    ensures r.Ok? ==> r.value == parse.date(v.s).value
    ensures r.BadType? <==> !v.Text?
  {
    if !v.Text? then BadType
    else if parse.date(v.s).Some? then Ok(parse.date(v.s).value)
    else BadValue
  }

  /** A row of the user table. */
  datatype UserRow = UserRow(id: int, email: Value, password: string, role: string, familyId: Option<int>)

  /** A row of the monthly-plan table; `familyId` is null for a plan that
      belongs to no family. */
  datatype PlanRow = PlanRow(id: int, userId: int, familyId: Option<int>, month: string,
                             expectedIncome: Value, expectedExpenses: Value, notes: Value)

  /** The first user with that id, or -1 (`User.query.get`). */
  function FindUser(users: seq<UserRow>, id: int): (k: int)
    ensures -1 <= k < |users|
    ensures k >= 0 ==> users[k].id == id && forall j :: 0 <= j < k ==> users[j].id != id
    ensures k < 0 ==> forall j :: 0 <= j < |users| ==> users[j].id != id
  {
    if users == [] then -1
    else if users[0].id == id then 0
    else
      var k := FindUser(users[1..], id);
      if k < 0 then -1 else k + 1
  }

  /** The first plan of that user for that month, or -1
      (`filter_by(user_id=…, month=…).first()`). */
  function PersonalPlan(plans: seq<PlanRow>, user: int, month: string): (k: int)
    ensures -1 <= k < |plans|
    ensures k >= 0 ==> plans[k].userId == user && plans[k].month == month
    ensures k >= 0 ==> forall j :: 0 <= j < k ==> !(plans[j].userId == user && plans[j].month == month)
    ensures k < 0 ==> forall j :: 0 <= j < |plans| ==> !(plans[j].userId == user && plans[j].month == month)
  {
    if plans == [] then -1
    else if plans[0].userId == user && plans[0].month == month then 0
    else
      var k := PersonalPlan(plans[1..], user, month);
      if k < 0 then -1 else k + 1
  }

  /** The first plan of that family for that month, or -1
      (`filter_by(family_id=…, month=…).first()`). */
  function FamilyPlan(plans: seq<PlanRow>, family: int, month: string): (k: int)
    ensures -1 <= k < |plans|
    ensures k >= 0 ==> plans[k].familyId == Some(family) && plans[k].month == month
    ensures k >= 0 ==> forall j :: 0 <= j < k ==> !(plans[j].familyId == Some(family) && plans[j].month == month)
    ensures k < 0 ==> forall j :: 0 <= j < |plans| ==> !(plans[j].familyId == Some(family) && plans[j].month == month)
  {
    if plans == [] then -1
    else if plans[0].familyId == Some(family) && plans[0].month == month then 0
    else
      var k := FamilyPlan(plans[1..], family, month);
      if k < 0 then -1 else k + 1
  }

  /** Ids strictly ascending and all in [1, next): the table of an
      auto-increment primary key. */
  predicate PlanIds(plans: seq<PlanRow>, next: int)
  {
    (forall i, j :: 0 <= i < j < |plans| ==> plans[i].id < plans[j].id) &&
    (forall i :: 0 <= i < |plans| ==> 1 <= plans[i].id < next)
  }

  predicate UserIds(users: seq<UserRow>, next: int)
  {
    (forall i, j :: 0 <= i < j < |users| ==> users[i].id < users[j].id) &&
    (forall i :: 0 <= i < |users| ==> 1 <= users[i].id < next)
  }

  /** No two users share an email. */
  predicate EmailsDistinct(users: seq<UserRow>)
  {
    forall i, j :: 0 <= i < j < |users| ==> users[i].email != users[j].email
  }

  /** The plan fields a save or an update writes: each field present in the
      body replaces the stored one, each absent field keeps it. */
  function MergePlan(p: PlanRow, body: Body): (r: PlanRow)
    ensures r.id == p.id && r.userId == p.userId && r.familyId == p.familyId && r.month == p.month
    ensures r.expectedIncome == Get(body, "expectedIncome", p.expectedIncome)
    ensures r.expectedExpenses == Get(body, "expectedExpenses", p.expectedExpenses)
    ensures r.notes == Get(body, "notes", p.notes)
  {
    p.(expectedIncome := Get(body, "expectedIncome", p.expectedIncome),
       expectedExpenses := Get(body, "expectedExpenses", p.expectedExpenses),
       notes := Get(body, "notes", p.notes))
  }

  /** A new plan's fields: the body's, or an empty list, an empty list and
      an empty note. */
  function NewPlan(id: int, user: int, family: Option<int>, month: string, body: Body): (r: PlanRow)
    ensures r.id == id && r.userId == user && r.familyId == family && r.month == month
    ensures r.expectedIncome == Get(body, "expectedIncome", Items([]))
    ensures r.expectedExpenses == Get(body, "expectedExpenses", Items([]))
    ensures r.notes == Get(body, "notes", Text(""))
  {
    MergePlan(PlanRow(id, user, family, month, Items([]), Items([]), Text("")), body)
  }

  /** Merging the same body twice changes nothing the first merge did not. */
  lemma MergeIdempotent(p: PlanRow, body: Body)
    ensures MergePlan(MergePlan(p, body), body) == MergePlan(p, body)
  {
  }

  /** A first index found by `PersonalPlan` stays found after a row is
      appended, and an appended row is found when nothing before it
      matches. */
  lemma PersonalPlanAppend(plans: seq<PlanRow>, r: PlanRow, user: int, month: string)
    ensures var k := PersonalPlan(plans, user, month);
      k >= 0 ==> PersonalPlan(plans + [r], user, month) == k
    ensures PersonalPlan(plans, user, month) < 0 && r.userId == user && r.month == month ==>
      PersonalPlan(plans + [r], user, month) == |plans|
  {
    var k := PersonalPlan(plans, user, month);
    if k >= 0 {
      assert (plans + [r])[k] == plans[k];
    }
    if k < 0 && r.userId == user && r.month == month {
      assert (plans + [r])[|plans|] == r;
    }
  }

  /** Two rows match the same (user, month) lookups when they agree on user
      and month. */
  predicate SameKeys(a: PlanRow, b: PlanRow)
  {
    a.userId == b.userId && a.familyId == b.familyId && a.month == b.month
  }

  /** Overwriting a row with one of the same keys moves no personal
      lookup. */
  lemma PersonalPlanSameKeys(plans: seq<PlanRow>, k: int, r: PlanRow, user: int, month: string)
    requires 0 <= k < |plans| && SameKeys(plans[k], r)
    ensures PersonalPlan(plans[k := r], user, month) == PersonalPlan(plans, user, month)
  {
    assert forall j :: 0 <= j < |plans| ==>
      ((plans[k := r][j].userId == user && plans[k := r][j].month == month) <==> (plans[j].userId == user && plans[j].month == month));
  }

  /** Overwriting a row with one of the same keys moves no family lookup. */
  lemma FamilyPlanSameKeys(plans: seq<PlanRow>, k: int, r: PlanRow, family: int, month: string)
    requires 0 <= k < |plans| && SameKeys(plans[k], r)
    ensures FamilyPlan(plans[k := r], family, month) == FamilyPlan(plans, family, month)
  {
    assert forall j :: 0 <= j < |plans| ==>
      ((plans[k := r][j].familyId == Some(family) && plans[k := r][j].month == month) <==> (plans[j].familyId == Some(family) && plans[j].month == month));
  }

  /** Appending the row with the next id keeps the ids ascending. */
  lemma PlanIdsAppend(plans: seq<PlanRow>, plan: PlanRow, next: int)
    requires PlanIds(plans, next) && next >= 1 && plan.id == next
    ensures PlanIds(plans + [plan], next + 1)
  {
  }

  /** Rewriting a row under its own id keeps the ids ascending. */
  lemma PlanIdsReplace(plans: seq<PlanRow>, k: int, plan: PlanRow, next: int)
    requires PlanIds(plans, next) && 0 <= k < |plans| && plan.id == plans[k].id
    ensures PlanIds(plans[k := plan], next)
  {
  }

  /** Deleting a row keeps the ids ascending. */
  lemma PlanIdsWithout(plans: seq<PlanRow>, k: int, next: int)
    requires PlanIds(plans, next) && 0 <= k < |plans|
    ensures PlanIds(Without(plans, k), next)
  {
    var rest := Without(plans, k);
    assert forall i :: 0 <= i < |rest| ==> rest[i] == plans[if i < k then i else i + 1];
  }
}
