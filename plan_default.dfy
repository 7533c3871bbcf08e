/** The default plan and check steps of the planner: the plan runs the whole
    pipeline once with the criteria the payload carries, and the check is the
    default criteria check. */
module PlanDefault {
  import opened Wrappers
  import opened Values
  import Planner
  import CriteriaCheck

  /** The fields of `PlannerCriteria`: the ones the criteria check reads.
      The model itself is not part of this model; its fields default to
      None. */
  const CriteriaKeys: set<string> :=
    {"max_budget_LKR", "payback_threshold_months", "require_data_complete", "co2_reduction_goal_pct", "max_disruption"}

  /** `PlannerCriteria(**criteria_in).model_dump()`: the known fields, each
      given value or None; other keys are dropped. */
  function CriteriaDump(ci: Obj): (r: Obj)
    ensures r.Keys == CriteriaKeys
    ensures forall k :: k in CriteriaKeys ==> r[k] == Get(ci, k)
  {
    map k | k in CriteriaKeys :: Get(ci, k)
  }

  /** `(raw_payload.get("planner", {}) or {}).get("criteria", {})`; None
      where `.get` meets a value that is not a dict. */
  function CriteriaInput(raw: Obj): Option<Value> {
    var planner := GetOr(raw, "planner", Dict(map[]));
    var holder := if Truthy(planner) then planner else Dict(map[]);
    if holder.Dict? then Some(GetOr(holder.fields, "criteria", Dict(map[]))) else None
  }

  /** `default_plan_step(raw_payload)`. `accepts` stands for the criteria
      model's validation; None where the step raises: the planner entry or
      its criteria are not dicts, or validation fails. */
  function DefaultPlan(raw: Obj, accepts: Obj -> bool): (r: Option<Obj>)
    ensures r.Some? ==> r.value.Keys == {"name", "inputs", "criteria"}
    ensures r.Some? ==> r.value["name"] == Str("full_pipeline") && r.value["inputs"] == Dict(raw)
    ensures r.Some? <==> CriteriaInput(raw).Some? && CriteriaInput(raw).value.Dict? && accepts(CriteriaInput(raw).value.fields)
    ensures r.Some? ==> r.value["criteria"] == Dict(CriteriaDump(CriteriaInput(raw).value.fields))
  {
    match CriteriaInput(raw)
    case None => None
    case Some(ci) =>
      if !ci.Dict? || !accepts(ci.fields) then None
      else Some(map["name" := Str("full_pipeline"), "inputs" := Dict(raw), "criteria" := Dict(CriteriaDump(ci.fields))])
  }

  /** A payload with no `planner` entry, or a falsy one, plans against empty
      criteria: every field None. */
  lemma NoPlannerNoCriteria(raw: Obj, accepts: Obj -> bool)
    requires !Truthy(Get(raw, "planner"))
    requires accepts(map[])
    ensures DefaultPlan(raw, accepts).Some?
    ensures forall k :: k in CriteriaKeys ==> AsObj(DefaultPlan(raw, accepts).value["criteria"])[k] == Null
  {
    assert CriteriaInput(raw) == Some(Dict(map[]));
  }

  /** `check_against_criteria` as a check step; it raises where the criteria
      are not a dict. */
  function DefaultCheck(show: Value -> string): (Obj, Value) -> Option<Planner.Outcome<CriteriaCheck.Verdict>> {
    (result: Obj, criteria: Value) =>
      if !criteria.Dict? then None
      else match CriteriaCheck.Check(result, criteria.fields, show)
        case None => None
        case Some(k) => Some(Planner.Outcome(k.ok, k.reason, k.patch))
  }

  /** With the default plan step, every attempt checks against a dict with
      exactly the criteria fields, built from the payload it planned from. */
  lemma {:induction false} DefaultCriteria<R>(accepts: Obj -> bool, act: Obj -> Option<Obj>,
                                              check: (Obj, Value) -> Option<Planner.Outcome<R>>, n: nat, raw: Obj)
    requires 0 < n && Planner.RunFrom(p => DefaultPlan(p, accepts), act, check, n, 0, raw).Some?
    ensures var out := Planner.RunFrom(p => DefaultPlan(p, accepts), act, check, n, 0, raw).value;
      forall j :: 0 <= j < |out.trace| ==>
        Planner.Criteria(out.trace[j].plan).Dict? && Planner.Criteria(out.trace[j].plan).fields.Keys == CriteriaKeys
        && "name" in out.trace[j].plan && out.trace[j].plan["name"] == Str("full_pipeline")
  {
    var plan := p => DefaultPlan(p, accepts);
    var out := Planner.RunFrom(plan, act, check, n, 0, raw).value;
    var ps := Planner.RunPayloads(plan, act, check, n, 0, raw);
    forall j | 0 <= j < |out.trace|
      ensures Planner.Criteria(out.trace[j].plan).Dict? && Planner.Criteria(out.trace[j].plan).fields.Keys == CriteriaKeys
      ensures "name" in out.trace[j].plan && out.trace[j].plan["name"] == Str("full_pipeline")
    {
      assert DefaultPlan(ps[j], accepts) == Some(out.trace[j].plan);
    }
  }

  /** The default check step passes the criteria check's verdict through,
      so a passing attempt never carries a patch. */
  lemma {:induction false} DefaultCheckOutcome(show: Value -> string, result: Obj, criteria: Obj, k: CriteriaCheck.Checked)
    requires CriteriaCheck.Check(result, criteria, show) == Some(k)
    ensures DefaultCheck(show)(result, Dict(criteria)) == Some(Planner.Outcome(k.ok, k.reason, k.patch))
    ensures k.ok ==> k.patch == map[]
  {
    CriteriaCheck.OkMeansNoReasons(result, criteria, show);
  }
}
