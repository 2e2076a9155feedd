/** The monthly-plan blueprint: plans looked up first by user and month,
    then by the user's family and month, created, upserted and deleted.
    A handler reaches an outcome (an error status, a plan, or the empty
    structure) which is then serialised. The serialisation as written calls
    a `to_dict` method that plans do not have; the corrected one uses the
    module's own `monthly_plan_to_dict`. */
module PlanRoutes {
  import opened Common
  import opened BackendStore

  /** `monthly_plan_to_dict` of a plan. */
  datatype PlanDict = PlanDict(id: int, month: string, expectedIncome: Value, expectedExpenses: Value,
                               notes: Value, isFamilyPlan: bool)

  /** Where a handler got to: refused with a status, a plan to send with a
      status, or the empty structure of a month without a plan. */
  datatype Outcome = Refused(status: int) | Found(status: int, plan: PlanRow) | NoPlan(month: string, isFamilyPlan: bool)

  /** The response body and status. */
  datatype Answer = StatusOnly(code: int) | Dict(code: int, dict: PlanDict) | EmptyPlan(code: int, month: string, isFamilyPlan: bool)

  /** monthly_plan_to_dict: nothing for no plan; a plan is a family plan
      exactly when it has a family id, whatever its value. */
  function MonthlyPlanToDict(plan: Option<PlanRow>): (d: Option<PlanDict>)
    ensures d.Some? <==> plan.Some?
    ensures d.Some? ==> (d.value.isFamilyPlan <==> plan.value.familyId.Some?)
    ensures d.Some? ==> d.value.id == plan.value.id && d.value.month == plan.value.month
    ensures d.Some? ==> d.value.expectedIncome == plan.value.expectedIncome &&
                        d.value.expectedExpenses == plan.value.expectedExpenses && d.value.notes == plan.value.notes
  {
    match plan
    case None => None
    case Some(p) => Some(PlanDict(p.id, p.month, p.expectedIncome, p.expectedExpenses, p.notes, p.familyId.Some?))
  }

  /** The serialisation the handlers evidently intend: a plan goes out
      through `monthly_plan_to_dict` with the handler's status. */
  function Respond(o: Outcome): (a: Answer)
    ensures o.Refused? ==> a == StatusOnly(o.status)
    ensures o.Found? ==> a.Dict? && a.code == o.status && Some(a.dict) == MonthlyPlanToDict(Some(o.plan))
    ensures o.NoPlan? ==> a == EmptyPlan(200, o.month, o.isFamilyPlan)
  {
    match o
    case Refused(s) => StatusOnly(s)
    case Found(s, p) => Dict(s, MonthlyPlanToDict(Some(p)).value)
    case NoPlan(m, f) => EmptyPlan(200, m, f)
  }

  /** The serialisation as written: `monthly_plan.to_dict()` raises
      `AttributeError` on every plan, which the handler's `except` answers
      with 500. */
  function RespondAsWritten(o: Outcome): (a: Answer)
    ensures o.Found? ==> a == StatusOnly(500)
    ensures !o.Found? ==> a == Respond(o)
  {
    if o.Found? then StatusOnly(500) else Respond(o)
  }

  /** The two serialisations part exactly on outcomes that carry a plan:
      there the one as written answers 500 although the handler succeeded
      (and, for create and update, had already committed). */
  lemma AsWrittenLosesEveryPlan(o: Outcome)
    ensures RespondAsWritten(o) != Respond(o) <==> o.Found?
  {
  }

  /** `if user.family_id`: a family id counts only when it is not 0. */
  predicate HasFamily(u: UserRow)
  {
    u.familyId.Some? && u.familyId.value != 0
  }

  /** The lookup get and update share: the user's own plan for the month,
      else, for a user in a family, the family's first plan for it. */
  function Lookup(plans: seq<PlanRow>, u: UserRow, month: string): (k: int)
    ensures -1 <= k < |plans|
    ensures PersonalPlan(plans, u.id, month) >= 0 ==> k == PersonalPlan(plans, u.id, month)
    ensures PersonalPlan(plans, u.id, month) < 0 && HasFamily(u) ==> k == FamilyPlan(plans, u.familyId.value, month)
    ensures PersonalPlan(plans, u.id, month) < 0 && !HasFamily(u) ==> k == -1
  {
    var k := PersonalPlan(plans, u.id, month);
    if k < 0 && HasFamily(u) then FamilyPlan(plans, u.familyId.value, month) else k
  }

  /** No user holds two plans for the same month. */
  predicate OnePerMonth(plans: seq<PlanRow>)
  {
    forall i, j :: 0 <= i < j < |plans| ==> !(plans[i].userId == plans[j].userId && plans[i].month == plans[j].month)
  }

  /** Once the user's only plan for a month is deleted, the personal lookup
      finds nothing, so a later get falls back on the family's plan. */
  lemma {:induction false} DeleteLeavesNoPersonalPlan(plans: seq<PlanRow>, k: int, user: int, month: string)
    requires OnePerMonth(plans)
    requires 0 <= k < |plans| && plans[k].userId == user && plans[k].month == month
    ensures PersonalPlan(Without(plans, k), user, month) < 0
    ensures OnePerMonth(Without(plans, k))
  {
    var rest := Without(plans, k);
    assert forall i :: 0 <= i < |rest| ==> rest[i] == plans[if i < k then i else i + 1];
    forall j | 0 <= j < |rest|
      ensures !(rest[j].userId == user && rest[j].month == month)
    {
      if j < k {
        assert rest[j] == plans[j];
      } else {
        assert rest[j] == plans[j + 1];
      }
    }
  }

  /** A new plan of a user with no plan for that month keeps one plan per
      user and month, and is what the lookup then finds. */
  lemma AppendPlan(plans: seq<PlanRow>, u: UserRow, month: string, plan: PlanRow)
    requires OnePerMonth(plans) && PersonalPlan(plans, u.id, month) < 0
    requires plan.userId == u.id && plan.month == month
    ensures OnePerMonth(plans + [plan])
    ensures Lookup(plans + [plan], u, month) == |plans|
  {
    PersonalPlanAppend(plans, plan, u.id, month);
    assert forall i :: 0 <= i < |plans| ==> (plans + [plan])[i] == plans[i];
  }

  /** Overwriting the plan the lookup found with one of the same keys keeps
      one plan per user and month, and the lookup still finds it. */
  lemma ReplacePlan(plans: seq<PlanRow>, u: UserRow, month: string, k: int, plan: PlanRow)
    requires OnePerMonth(plans) && 0 <= k < |plans| && k == Lookup(plans, u, month)
    requires SameKeys(plans[k], plan)
    ensures OnePerMonth(plans[k := plan])
    ensures Lookup(plans[k := plan], u, month) == k
  {
    PersonalPlanSameKeys(plans, k, plan, u.id, month);
    if HasFamily(u) {
      FamilyPlanSameKeys(plans, k, plan, u.familyId.value, month);
    }
  }

  class Service {
    var users: seq<UserRow>
    var plans: seq<PlanRow>
    var nextPlanId: int

    predicate Valid()
      reads this
    {
      nextPlanId >= 1 && PlanIds(plans, nextPlanId) && OnePerMonth(plans)
    }

    constructor (users: seq<UserRow>)
      ensures this.users == users && plans == [] && nextPlanId == 1
      ensures Valid()
    {
      this.users := users;
      plans := [];
      nextPlanId := 1;
    }

    /** get_monthly_plan: 401 for an unknown user; the plan the lookup
        finds; else the empty structure, a family plan exactly when the user
        has a family id. */
    function Get(me: int, month: string): (o: Outcome)
      reads this
      ensures FindUser(users, me) < 0 ==> o == Refused(401)
      ensures var u := FindUser(users, me);
        u >= 0 ==> var k := Lookup(plans, users[u], month);
          (k >= 0 ==> o == Found(200, plans[k])) &&
          (k < 0 ==> o == NoPlan(month, users[u].familyId.Some?))
    {
      var u := FindUser(users, me);
      if u < 0 then Refused(401)
      else
        var k := Lookup(plans, users[u], month);
        if k < 0 then NoPlan(month, users[u].familyId.Some?) else Found(200, plans[k])
    }

    /** create_monthly_plan: 401 for an unknown user, 400 when the user
        already has a plan for the month, 500 without a body (reading it
        raises); otherwise a new plan carrying the user's family id. */
    method Create(me: int, month: string, body: Option<Body>) returns (o: Outcome)
      requires Valid()
      modifies this
      ensures Valid()
      ensures FindUser(users, me) < 0 ==> o == Refused(401)
      ensures FindUser(users, me) >= 0 && PersonalPlan(old(plans), me, month) >= 0 ==> o == Refused(400)
      ensures FindUser(users, me) >= 0 && PersonalPlan(old(plans), me, month) < 0 && body.None? ==> o == Refused(500)
      ensures o.Found? <==> FindUser(users, me) >= 0 && PersonalPlan(old(plans), me, month) < 0 && body.Some?
      ensures o.Found? ==>
        o.status == 201 && o.plan == NewPlan(old(nextPlanId), me, users[FindUser(users, me)].familyId, month, body.value) &&
        plans == old(plans) + [o.plan] && nextPlanId == old(nextPlanId) + 1
      ensures o.Found? ==> Get(me, month) == Found(200, o.plan)
      ensures !o.Found? ==> plans == old(plans) && nextPlanId == old(nextPlanId)
      ensures users == old(users)
    {
      var u := FindUser(users, me);
      if u < 0 {
        return Refused(401);
      }
      if PersonalPlan(plans, me, month) >= 0 {
        return Refused(400);
      }
      if body.None? {
        return Refused(500);
      }
      var plan := NewPlan(nextPlanId, me, users[u].familyId, month, body.value);
      AppendPlan(plans, users[u], month, plan);
      PlanIdsAppend(plans, plan, nextPlanId);
      plans := plans + [plan];
      nextPlanId := nextPlanId + 1;
      o := Found(201, plan);
    }

    /** update_monthly_plan: 401 for an unknown user, 500 without a body;
        otherwise the plan get would return (the user's own, else the
        family's) has the fields in the body overwritten, or a new plan is
        made, and get then returns exactly the plan written. */
    method Update(me: int, month: string, body: Option<Body>) returns (o: Outcome)
      requires Valid()
      modifies this
      ensures Valid()
      ensures FindUser(users, me) < 0 ==> o == Refused(401)
      ensures FindUser(users, me) >= 0 && body.None? ==> o == Refused(500)
      ensures o.Found? <==> FindUser(users, me) >= 0 && body.Some?
      ensures o.Found? ==> var u := users[FindUser(users, me)]; var k := Lookup(old(plans), u, month);
        o.status == 200 &&
        (k >= 0 ==> o.plan == MergePlan(old(plans)[k], body.value) && plans == old(plans)[k := o.plan] &&
                    nextPlanId == old(nextPlanId)) &&
        (k < 0 ==> o.plan == NewPlan(old(nextPlanId), me, u.familyId, month, body.value) &&
                   plans == old(plans) + [o.plan] && nextPlanId == old(nextPlanId) + 1)
      ensures o.Found? ==> Get(me, month) == Found(200, o.plan)
      ensures !o.Found? ==> plans == old(plans) && nextPlanId == old(nextPlanId)
      ensures users == old(users)
    {
      var u := FindUser(users, me);
      if u < 0 {
        return Refused(401);
      }
      if body.None? {
        return Refused(500);
      }
      var k := Lookup(plans, users[u], month);
      if k < 0 {
        var plan := NewPlan(nextPlanId, me, users[u].familyId, month, body.value);
        AppendPlan(plans, users[u], month, plan);
        PlanIdsAppend(plans, plan, nextPlanId);
        plans := plans + [plan];
        nextPlanId := nextPlanId + 1;
        o := Found(200, plan);
      } else {
        var plan := MergePlan(plans[k], body.value);
        ReplacePlan(plans, users[u], month, k, plan);
        PlanIdsReplace(plans, k, plan, nextPlanId);
        plans := plans[k := plan];
        o := Found(200, plan);
      }
    }

    /** delete_monthly_plan: only the user's own plan is considered (no
        user check and no family fallback); 404 without one. Afterwards the
        lookup of get falls back on the family's plan. */
    method Delete(me: int, month: string) returns (status: int)
      requires Valid()
      modifies this
      ensures Valid()
      ensures var k := PersonalPlan(old(plans), me, month);
        (k < 0 ==> status == 404 && plans == old(plans)) &&
        (k >= 0 ==> status == 200 && plans == Without(old(plans), k))
      ensures status == 200 && FindUser(users, me) >= 0 ==> var u := users[FindUser(users, me)];
        Lookup(plans, u, month) == if HasFamily(u) then FamilyPlan(plans, u.familyId.value, month) else -1
      ensures users == old(users) && nextPlanId == old(nextPlanId)
    {
      var k := PersonalPlan(plans, me, month);
      if k < 0 {
        return 404;
      }
      DeleteLeavesNoPersonalPlan(plans, k, me, month);
      PlanIdsWithout(plans, k, nextPlanId);
      plans := plans[..k] + plans[k + 1..];
      status := 200;
    }
  }
}
