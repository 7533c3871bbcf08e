/** The default criteria check the planner runs after each attempt: it reads
    the attempt's result, evaluates every criterion that applies, and returns
    whether all passed, the reasons for any failure, and a patch of policy
    settings for the next attempt. Pydantic objects in the result are read
    as their dumps. */
module CriteriaCheck {
  import opened Wrappers
  import opened Text
  import opened Values
  import opened Models
  import opened Lists
  import ImpactEstimator

  // ---------------------------------------------------------------------------
  // Disruption ranks

  /** `_disr_rank`: the lower-cased label's rank, 2 for anything unknown. */
  function DisrRank(level: string): (r: nat)
    ensures r <= 3
    ensures Lower(level) == "low" ==> r == 1
    ensures !IsLevel(Lower(level)) ==> r == 2
  {
    LevelRank(Lower(level))
  }

  /** The rank of one listed recommendation: its `disruption` when that is a
      string, "medium" for a dict without one and for anything that is not a
      dict. */
  function ItemRank(x: Value): (r: nat)
    ensures r <= 3
    ensures !x.Dict? ==> r == 2
  {
    var d := if x.Dict? then Get(x.fields, "disruption") else Str("medium");
    DisrRank(if d.Str? then d.s else "medium")
  }

  /** The highest rank in a list, 0 for the empty list. */
  function MaxRank(xs: seq<Value>): (r: nat)
    ensures r <= 3
  {
    if xs == [] then 0 else
      var i :| 0 <= i < |xs| && ItemRank(xs[i]) == MaxOf(xs, ItemRank);
      MaxOf(xs, ItemRank)
  }

  /** A string's characters, each as a one-character string. */
  function Chars(s: string): (r: seq<Value>)
    ensures |r| == |s|
  {
    if s == [] then [] else [Str([s[0]])] + Chars(s[1..])
  }

  /** What `for r in recs` iterates: a list's items, a string's characters or
      a dict's keys; None where the value is not iterable. Characters and
      keys are not dicts, so only their number matters. */
  function Iterated(v: Value): Option<seq<Value>> {
    match v
    case List(xs) => Some(xs)
    case Str(s) => Some(Chars(s))
    case Dict(m) => Some(if m == map[] then [] else [Str("key")])
    case _ => None
  }

  lemma MaxOfSnoc<T>(xs: seq<T>, i: nat, f: T -> nat)
    requires i < |xs|
    ensures MaxOf(xs[..i + 1], f) == if MaxOf(xs[..i], f) >= f(xs[i]) then MaxOf(xs[..i], f) else f(xs[i])
  {
    assert xs[..i + 1][..i] == xs[..i];
  }

  /** `_collect_disruption`; None where iterating raises. Anything that is not
      a dict (None among them) holds no recommendations. */
  function Collect(v: Value): Option<nat> {
    if !v.Dict? then Some(0)
    else match Iterated(GetOr(v.fields, "recommendations", List([])))
      case Some(xs) => Some(MaxRank(xs))
      case None => None
  }

  /** The loop of `_collect_disruption`. */
  method CollectDisruption(v: Value) returns (r: Option<nat>)
    ensures r == Collect(v)
  {
    if !v.Dict? {
      return Some(0);
    }
    var it := Iterated(GetOr(v.fields, "recommendations", List([])));
    if it.None? {
      return None;
    }
    var xs := it.value;
    var maxRank := 0;
    var i := 0;
    while i < |xs|
      invariant 0 <= i <= |xs|
      invariant maxRank == MaxOf(xs[..i], ItemRank)
    {
      var k := ItemRank(xs[i]);
      MaxOfSnoc(xs, i, ItemRank);
      if k > maxRank {
        maxRank := k;
      }
      i := i + 1;
    }
    assert xs[..|xs|] == xs;
    return Some(maxRank);
  }

  // ---------------------------------------------------------------------------
  // Reading the result

  /** The numbers the check reads from the result. */
  datatype Inputs = Inputs(capex: real, blended: Option<real>, kwhSaved: real, baseline: real, tariff: real)

  /** `x.model_dump()` or `x or {}`; None where a truthy non-dict makes
      `.get` raise. */
  function AsDict(v: Value): Option<Obj> {
    if !Truthy(v) then Some(map[])
    else if v.Dict? then Some(v.fields)
    else None
  }

  /** The totals and baseline the check reads. None where `.get` is called
      on something that is not a dict. */
  function ReadInputs(result: Obj): Option<Inputs> {
    var ip := Get(result, "impact_plan");
    var plan := if Truthy(ip) then ip else Get(result, "plan");
    match (AsDict(Get(result, "normalized")), AsDict(plan))
    case (Some(n), Some(p)) =>
      var totals := GetOr(p, "totals", Dict(map[]));
      if !totals.Dict? then None
      else
        var t := totals.fields;
        var b := Get(t, "blended_payback_months");
        Some(Inputs(
          NumOr(Get(t, "total_capex_LKR"), 0.0),
          if b.Null? then None else Some(NumOr(b, 0.0)),
          NumOr(Get(t, "total_monthly_kwh_saved"), 0.0),
          NumOr(Get(n, "monthly_kWh"), 0.0),
          NumOr(Get(n, "tariff_LKR_per_kWh"), 0.0)))
    case _ => None
  }

  // ---------------------------------------------------------------------------
  // The criteria

  datatype Reason =
    | DataIncomplete(missing: seq<string>)
    | OverBudget(capex: real, max: real)
    | PaybackTooLong(payback: real, threshold: real)
    | Co2Shortfall(achieved: real, goal: real)
    | DisruptionTooHigh(seen: nat, cap: nat)

  /** The position of each kind of reason in the fixed order. */
  function Rank(r: Reason): nat {
    match r
    case DataIncomplete(_) => 0
    case OverBudget(_, _) => 1
    case PaybackTooLong(_, _) => 2
    case Co2Shortfall(_, _) => 3
    case DisruptionTooHigh(_, _) => 4
  }

  /** `"OK"`, or the failure reasons joined; their wording is not modelled. */
  datatype Verdict = Ok | Failed(reasons: seq<Reason>)

  datatype Checked = Checked(ok: bool, reason: Verdict, patch: Obj)

  /** What each criterion adds: reasons, and settings for the patch's
      `policy` entry. */
  datatype Part = Part(reasons: seq<Reason>, settings: map<string, Value>)

  function Missing(x: Inputs): (r: seq<string>)
    ensures "monthly_kWh" in r <==> x.baseline <= 0.0
    ensures "tariff_LKR_per_kWh" in r <==> x.tariff <= 0.0
  {
    (if x.baseline <= 0.0 then ["monthly_kWh"] else [])
    + (if x.tariff <= 0.0 then ["tariff_LKR_per_kWh"] else [])
  }

  function DataPart(c: Obj, x: Inputs): Part {
    if Truthy(Get(c, "require_data_complete")) && Missing(x) != [] then Part([DataIncomplete(Missing(x))], map[])
    else Part([], map[])
  }

  function BudgetPart(c: Obj, x: Inputs): Part {
    var m := NumOr(Get(c, "max_budget_LKR"), 0.0);
    if !Get(c, "max_budget_LKR").Null? && x.capex > m then
      Part([OverBudget(x.capex, m)], map["target_budget_LKR" := Float(m)])
    else Part([], map[])
  }

  function PaybackPart(c: Obj, x: Inputs): Part {
    var t := NumOr(Get(c, "payback_threshold_months"), 0.0);
    if !Get(c, "payback_threshold_months").Null? && x.blended.Some? && x.blended.value > t then
      Part([PaybackTooLong(x.blended.value, t)], map["payback_threshold_months" := Float(t)])
    else Part([], map[])
  }

  /** The achieved reduction, relative to a positive baseline. */
  function AchievedPct(x: Inputs): real
    requires x.baseline > 0.0
  {
    Ratio(x.kwhSaved, x.baseline) * 100.0
  }

  /** The reduction goal applies to a positive baseline and is missed by
      more than 1e-9. */
  predicate Co2Fails(c: Obj, x: Inputs) {
    !Get(c, "co2_reduction_goal_pct").Null? && x.baseline > 0.0
    && AchievedPct(x) + 0.000000001 < NumOr(Get(c, "co2_reduction_goal_pct"), 0.0)
  }

  function Co2Part(c: Obj, x: Inputs): Part {
    var g := NumOr(Get(c, "co2_reduction_goal_pct"), 0.0);
    if Co2Fails(c, x) then
      Part([Co2Shortfall(AchievedPct(x), g)], map["co2_reduction_goal_pct" := Float(g)])
    else Part([], map[])
  }

  /** `str(v).lower()`; `show` stands for `str()` of a value that is not a
      string. */
  function CapLabel(v: Value, show: Value -> string): string {
    Lower(if v.Str? then v.s else show(v))
  }

  /** The disruption criterion; None where collecting the ranks raises. */
  function DisruptionPart(c: Obj, recs: Value, show: Value -> string): Option<Part> {
    if Get(c, "max_disruption").Null? then Some(Part([], map[]))
    else
      var cap := CapLabel(Get(c, "max_disruption"), show);
      match Collect(recs)
      case None => None
      case Some(seen) =>
        Some(if seen > DisrRank(cap) then Part([DisruptionTooHigh(seen, DisrRank(cap))], map["max_disruption" := Str(cap)])
             else Part([], map[]))
  }

  /** The patch: empty, or a `policy` entry holding the settings. */
  function PatchOf(settings: map<string, Value>): Obj {
    if settings == map[] then map[] else map["policy" := Dict(settings)]
  }

  /** `check_against_criteria(result, criteria)`; None where it raises. */
  function Check(result: Obj, c: Obj, show: Value -> string): Option<Checked> {
    match ReadInputs(result)
    case None => None
    case Some(x) =>
      match DisruptionPart(c, Get(result, "recommendations"), show)
      case None => None
      case Some(p5) =>
        var p1 := DataPart(c, x);
        var p2 := BudgetPart(c, x);
        var p3 := PaybackPart(c, x);
        var p4 := Co2Part(c, x);
        var reasons := p1.reasons + p2.reasons + p3.reasons + p4.reasons + p5.reasons;
        var settings := p2.settings + p3.settings + p4.settings + p5.settings;
        Some(Checked(reasons == [], if reasons == [] then Ok else Failed(reasons), PatchOf(settings)))
  }

  /** `patch.setdefault("policy", {})[k] = v` */
  function SetPolicy(patch: Obj, k: string, v: Value): Obj {
    var sub := if "policy" in patch then AsObj(patch["policy"]) else map[];
    patch["policy" := Dict(sub[k := v])]
  }

  lemma SetPolicyOfPatch(settings: map<string, Value>, k: string, v: Value)
    ensures SetPolicy(PatchOf(settings), k, v) == PatchOf(settings[k := v])
  {
    assert settings[k := v] != map[] by { assert k in settings[k := v]; }
  }

  /** The data-completeness criterion: a reason, never a patch entry. */
  method DataCriterion(c: Obj, x: Inputs, ok: bool, reasons: seq<Reason>) returns (ok': bool, reasons': seq<Reason>)
    requires ok == (reasons == [])
    ensures reasons' == reasons + DataPart(c, x).reasons
    ensures ok' == (reasons' == [])
  {
    ok', reasons' := ok, reasons;
    if Truthy(Get(c, "require_data_complete")) {
      var missing: seq<string> := [];
      if x.baseline <= 0.0 {
        missing := missing + ["monthly_kWh"];
      }
      if x.tariff <= 0.0 {
        missing := missing + ["tariff_LKR_per_kWh"];
      }
      assert missing == Missing(x);
      if missing != [] {
        ok' := false;
        reasons' := reasons' + [DataIncomplete(missing)];
      }
    }
  }

  /** Records a failed criterion: its reason, and its setting in the patch. */
  method Fail(reasons: seq<Reason>, patch: Obj, ghost settings: map<string, Value>, why: Reason, k: string, v: Value)
    returns (ok': bool, reasons': seq<Reason>, patch': Obj)
    requires patch == PatchOf(settings)
    ensures !ok' && reasons' == reasons + [why]
    ensures patch' == PatchOf(settings + map[k := v])
  {
    ok' := false;
    reasons' := reasons + [why];
    SetPolicyOfPatch(settings, k, v);
    assert settings + map[k := v] == settings[k := v];
    patch' := SetPolicy(patch, k, v);
  }

  method BudgetCriterion(c: Obj, x: Inputs, ok: bool, reasons: seq<Reason>, patch: Obj, ghost settings: map<string, Value>)
    returns (ok': bool, reasons': seq<Reason>, patch': Obj)
    requires patch == PatchOf(settings) && ok == (reasons == [])
    ensures reasons' == reasons + BudgetPart(c, x).reasons
    ensures patch' == PatchOf(settings + BudgetPart(c, x).settings)
    ensures ok' == (reasons' == [])
  {
    ok', reasons', patch' := ok, reasons, patch;
    assert settings + map[] == settings;
    if !Get(c, "max_budget_LKR").Null? {
      var maxBudget := NumOr(Get(c, "max_budget_LKR"), 0.0);
      if x.capex > maxBudget {
        ok', reasons', patch' := Fail(reasons, patch, settings, OverBudget(x.capex, maxBudget), "target_budget_LKR", Float(maxBudget));
      }
    }
  }

  method PaybackCriterion(c: Obj, x: Inputs, ok: bool, reasons: seq<Reason>, patch: Obj, ghost settings: map<string, Value>)
    returns (ok': bool, reasons': seq<Reason>, patch': Obj)
    requires patch == PatchOf(settings) && ok == (reasons == [])
    ensures reasons' == reasons + PaybackPart(c, x).reasons
    ensures patch' == PatchOf(settings + PaybackPart(c, x).settings)
    ensures ok' == (reasons' == [])
  {
    ok', reasons', patch' := ok, reasons, patch;
    assert settings + map[] == settings;
    if !Get(c, "payback_threshold_months").Null? && x.blended.Some? {
      var thr := NumOr(Get(c, "payback_threshold_months"), 0.0);
      if x.blended.value > thr {
        ok', reasons', patch' := Fail(reasons, patch, settings, PaybackTooLong(x.blended.value, thr), "payback_threshold_months", Float(thr));
      }
    }
  }

  method Co2Criterion(c: Obj, x: Inputs, ok: bool, reasons: seq<Reason>, patch: Obj, ghost settings: map<string, Value>)
    returns (ok': bool, reasons': seq<Reason>, patch': Obj)
    requires patch == PatchOf(settings) && ok == (reasons == [])
    ensures reasons' == reasons + Co2Part(c, x).reasons
    ensures patch' == PatchOf(settings + Co2Part(c, x).settings)
    ensures ok' == (reasons' == [])
  {
    ok', reasons', patch' := ok, reasons, patch;
    assert settings + map[] == settings;
    if !Get(c, "co2_reduction_goal_pct").Null? && x.baseline > 0.0 {
      var goal := NumOr(Get(c, "co2_reduction_goal_pct"), 0.0);
      var achieved := AchievedPct(x);
      if achieved + 0.000000001 < goal {
        ok', reasons', patch' := Fail(reasons, patch, settings, Co2Shortfall(achieved, goal), "co2_reduction_goal_pct", Float(goal));
      }
    }
  }

  /** The disruption criterion; None where collecting the ranks raises. */
  method DisruptionCriterion(c: Obj, recs: Value, show: Value -> string, ok: bool, reasons: seq<Reason>, patch: Obj,
                             ghost settings: map<string, Value>)
    returns (failed: bool, ok': bool, reasons': seq<Reason>, patch': Obj)
    requires patch == PatchOf(settings) && ok == (reasons == [])
    ensures failed <==> DisruptionPart(c, recs, show).None?
    ensures !failed ==> reasons' == reasons + DisruptionPart(c, recs, show).value.reasons
    ensures !failed ==> patch' == PatchOf(settings + DisruptionPart(c, recs, show).value.settings)
    ensures !failed ==> ok' == (reasons' == [])
  {
    failed, ok', reasons', patch' := false, ok, reasons, patch;
    assert settings + map[] == settings;
    if !Get(c, "max_disruption").Null? {
      var cap := CapLabel(Get(c, "max_disruption"), show);
      var seen := CollectDisruption(recs);
      if seen.None? {
        failed := true;
        return;
      }
      var rankCap := DisrRank(cap);
      if seen.value > rankCap {
        ok', reasons', patch' := Fail(reasons, patch, settings, DisruptionTooHigh(seen.value, rankCap), "max_disruption", Str(cap));
      }
    }
  }

  /** `check_against_criteria`: each applicable criterion in turn, with no
      short-circuit. */
  method CheckAgainstCriteria(result: Obj, c: Obj, show: Value -> string) returns (r: Option<Checked>)
    ensures r == Check(result, c, show)
  {
    var input := ReadInputs(result);
    if input.None? {
      return None;
    }
    var x := input.value;
    ghost var p1, p2, p3, p4 := DataPart(c, x), BudgetPart(c, x), PaybackPart(c, x), Co2Part(c, x);
    var reasons: seq<Reason> := [];
    var patch: Obj := map[];
    var ok := true;
    ok, reasons := DataCriterion(c, x, ok, reasons);
    assert reasons == p1.reasons;
    ok, reasons, patch := BudgetCriterion(c, x, ok, reasons, patch, map[]);
    assert map[] + p2.settings == p2.settings;
    ghost var s2 := p2.settings;
    ok, reasons, patch := PaybackCriterion(c, x, ok, reasons, patch, s2);
    ghost var s3 := s2 + p3.settings;
    ok, reasons, patch := Co2Criterion(c, x, ok, reasons, patch, s3);
    ghost var s4 := s3 + p4.settings;
    ghost var r4 := reasons;
    assert r4 == p1.reasons + p2.reasons + p3.reasons + p4.reasons;
    var failed;
    failed, ok, reasons, patch := DisruptionCriterion(c, Get(result, "recommendations"), show, ok, reasons, patch, s4);
    if failed {
      return None;
    }
    ghost var p5 := DisruptionPart(c, Get(result, "recommendations"), show).value;
    assert reasons == r4 + p5.reasons;
    assert patch == PatchOf(s4 + p5.settings);
    return Some(Checked(ok, if ok then Ok else Failed(reasons), patch));
  }

  // ---------------------------------------------------------------------------
  // Properties of the check

  /** The reasons of a verdict, none for `"OK"`. */
  function Reasons(k: Checked): seq<Reason> {
    if k.reason.Ok? then [] else k.reason.reasons
  }

  /** The `policy` settings a patch carries. */
  function Policy(patch: Obj): Obj {
    if "policy" in patch then AsObj(patch["policy"]) else map[]
  }

  /** Every criterion adds at most one reason, of its own kind, and a setting
      exactly when it adds a reason; only the data criterion adds no setting. */
  predicate WellFormed(p: Part, rank: nat, key: string) {
    |p.reasons| <= 1
    && (forall i :: 0 <= i < |p.reasons| ==> Rank(p.reasons[i]) == rank)
    && (if p.reasons == [] || rank == 0 then p.settings == map[] else p.settings.Keys == {key})
  }

  lemma PartsWellFormed(c: Obj, x: Inputs, recs: Value, show: Value -> string)
    ensures WellFormed(DataPart(c, x), 0, "")
    ensures WellFormed(BudgetPart(c, x), 1, "target_budget_LKR")
    ensures WellFormed(PaybackPart(c, x), 2, "payback_threshold_months")
    ensures WellFormed(Co2Part(c, x), 3, "co2_reduction_goal_pct")
    ensures DisruptionPart(c, recs, show).Some? ==> WellFormed(DisruptionPart(c, recs, show).value, 4, "max_disruption")
  {
    BudgetWellFormed(c, x);
    PaybackWellFormed(c, x);
    Co2WellFormed(c, x);
    DisruptionWellFormed(c, recs, show);
  }

  lemma BudgetWellFormed(c: Obj, x: Inputs)
    ensures WellFormed(BudgetPart(c, x), 1, "target_budget_LKR")
  {
  }

  lemma PaybackWellFormed(c: Obj, x: Inputs)
    ensures WellFormed(PaybackPart(c, x), 2, "payback_threshold_months")
  {
  }

  lemma Co2WellFormed(c: Obj, x: Inputs)
    ensures WellFormed(Co2Part(c, x), 3, "co2_reduction_goal_pct")
  {
  }

  lemma DisruptionWellFormed(c: Obj, recs: Value, show: Value -> string)
    ensures DisruptionPart(c, recs, show).Some? ==> WellFormed(DisruptionPart(c, recs, show).value, 4, "max_disruption")
  {
    if !Get(c, "max_disruption").Null? && Collect(recs).Some? {
      var cap := CapLabel(Get(c, "max_disruption"), show);
      TooHighWellFormed(Collect(recs).value, DisrRank(cap), cap);
    }
  }

  lemma TooHighWellFormed(seen: nat, capRank: nat, cap: string)
    ensures WellFormed(if seen > capRank then Part([DisruptionTooHigh(seen, capRank)], map["max_disruption" := Str(cap)])
                       else Part([], map[]), 4, "max_disruption")
  {
  }

  /** The check raises only where reading the inputs raises, or where the
      disruption criterion applies and the recommendations cannot be
      iterated. */
  lemma CheckRaises(result: Obj, c: Obj, show: Value -> string)
    ensures Check(result, c, show).None? <==>
      ReadInputs(result).None?
      || (!Get(c, "max_disruption").Null? && Collect(Get(result, "recommendations")).None?)
  {
  }

  /** A passing check carries no reasons and an empty patch; a failing one has
      at least one reason. */
  lemma {:induction false} OkMeansNoReasons(result: Obj, c: Obj, show: Value -> string)
    requires Check(result, c, show).Some?
    ensures Check(result, c, show).value.ok <==> Reasons(Check(result, c, show).value) == []
    ensures Check(result, c, show).value.ok ==> Check(result, c, show).value.patch == map[]
  {
    var x := ReadInputs(result).value;
    var recs := Get(result, "recommendations");
    PartsWellFormed(c, x, recs, show);
    var p1, p2, p3, p4, p5 := DataPart(c, x), BudgetPart(c, x), PaybackPart(c, x), Co2Part(c, x), DisruptionPart(c, recs, show).value;
    var reasons := p1.reasons + p2.reasons + p3.reasons + p4.reasons + p5.reasons;
    if reasons == [] {
      assert p2.reasons == [] && p3.reasons == [] && p4.reasons == [] && p5.reasons == [] by {
        assert |reasons| == |p1.reasons| + |p2.reasons| + |p3.reasons| + |p4.reasons| + |p5.reasons|;
      }
      assert p2.settings + p3.settings + p4.settings + p5.settings == map[];
    }
  }

  /** The reasons come in the fixed order of the criteria, each kind at most
      once. */
  lemma {:induction false} ReasonsInOrder(result: Obj, c: Obj, show: Value -> string)
    requires Check(result, c, show).Some?
    ensures var rs := Reasons(Check(result, c, show).value);
      forall i, j :: 0 <= i < j < |rs| ==> Rank(rs[i]) < Rank(rs[j])
  {
    var x := ReadInputs(result).value;
    var recs := Get(result, "recommendations");
    PartsWellFormed(c, x, recs, show);
    var p1, p2, p3, p4, p5 := DataPart(c, x), BudgetPart(c, x), PaybackPart(c, x), Co2Part(c, x), DisruptionPart(c, recs, show).value;
    var rs := p1.reasons + p2.reasons + p3.reasons + p4.reasons + p5.reasons;
    RanksOfParts(p1, p2, p3, p4, p5);
    assert Reasons(Check(result, c, show).value) == rs;
  }

  lemma RanksOfParts(p1: Part, p2: Part, p3: Part, p4: Part, p5: Part)
    requires WellFormed(p1, 0, "") && WellFormed(p2, 1, "target_budget_LKR")
    requires WellFormed(p3, 2, "payback_threshold_months") && WellFormed(p4, 3, "co2_reduction_goal_pct")
    requires WellFormed(p5, 4, "max_disruption")
    ensures var rs := p1.reasons + p2.reasons + p3.reasons + p4.reasons + p5.reasons;
      forall i, j :: 0 <= i < j < |rs| ==> Rank(rs[i]) < Rank(rs[j])
  {
    var rs := p1.reasons + p2.reasons + p3.reasons + p4.reasons + p5.reasons;
    var starts := [0, |p1.reasons|, |p1.reasons| + |p2.reasons|, |p1.reasons| + |p2.reasons| + |p3.reasons|,
                   |p1.reasons| + |p2.reasons| + |p3.reasons| + |p4.reasons|];
    forall i | 0 <= i < |rs|
      ensures Rank(rs[i]) == if i < starts[1] then 0 else if i < starts[2] then 1 else if i < starts[3] then 2
                             else if i < starts[4] then 3 else 4
    {
    }
  }

  /** The parts a successful check is made of. */
  lemma Decompose(result: Obj, c: Obj, show: Value -> string, k: Checked, x: Inputs)
    returns (p1: Part, p2: Part, p3: Part, p4: Part, p5: Part)
    requires Check(result, c, show) == Some(k) && ReadInputs(result) == Some(x)
    ensures p1 == DataPart(c, x) && p2 == BudgetPart(c, x) && p3 == PaybackPart(c, x) && p4 == Co2Part(c, x)
    ensures Some(p5) == DisruptionPart(c, Get(result, "recommendations"), show)
    ensures Reasons(k) == p1.reasons + p2.reasons + p3.reasons + p4.reasons + p5.reasons
    ensures Policy(k.patch) == p2.settings + p3.settings + p4.settings + p5.settings
    ensures WellFormed(p1, 0, "") && WellFormed(p2, 1, "target_budget_LKR")
    ensures WellFormed(p3, 2, "payback_threshold_months") && WellFormed(p4, 3, "co2_reduction_goal_pct")
    ensures WellFormed(p5, 4, "max_disruption")
  {
    var recs := Get(result, "recommendations");
    PartsWellFormed(c, x, recs, show);
    p1, p2, p3, p4, p5 := DataPart(c, x), BudgetPart(c, x), PaybackPart(c, x), Co2Part(c, x), DisruptionPart(c, recs, show).value;
  }

  /** A reason is among the reasons exactly when the criterion of its kind
      produced it. */
  lemma FindReason(rr: Reason, p1: Part, p2: Part, p3: Part, p4: Part, p5: Part, pj: Part)
    requires WellFormed(p1, 0, "") && WellFormed(p2, 1, "target_budget_LKR")
    requires WellFormed(p3, 2, "payback_threshold_months") && WellFormed(p4, 3, "co2_reduction_goal_pct")
    requires WellFormed(p5, 4, "max_disruption")
    requires pj == [p1, p2, p3, p4, p5][Rank(rr)]
    ensures rr in p1.reasons + p2.reasons + p3.reasons + p4.reasons + p5.reasons <==> rr in pj.reasons
  {
    var rs := p1.reasons + p2.reasons + p3.reasons + p4.reasons + p5.reasons;
    if rr in rs {
      var i :| 0 <= i < |rs| && rs[i] == rr;
      assert rr in p1.reasons || rr in p2.reasons || rr in p3.reasons || rr in p4.reasons || rr in p5.reasons;
    }
  }

  /** A setting is in the patch exactly when its own criterion set it, and it
      holds that criterion's value. */
  lemma FindSetting(key: string, p2: Part, p3: Part, p4: Part, p5: Part, pj: Part)
    requires WellFormed(p2, 1, "target_budget_LKR")
    requires WellFormed(p3, 2, "payback_threshold_months") && WellFormed(p4, 3, "co2_reduction_goal_pct")
    requires WellFormed(p5, 4, "max_disruption")
    requires (key == "target_budget_LKR" && pj == p2) || (key == "payback_threshold_months" && pj == p3)
          || (key == "co2_reduction_goal_pct" && pj == p4) || (key == "max_disruption" && pj == p5)
    ensures var all := p2.settings + p3.settings + p4.settings + p5.settings;
      (key in all <==> key in pj.settings) && (key in all ==> all[key] == pj.settings[key])
  {
  }

  /** The budget criterion applies whenever a budget is given, and fails
      exactly when the capital cost exceeds it; the patch then caps the next
      attempt's budget at it. */
  lemma {:induction false} BudgetVerdict(result: Obj, c: Obj, show: Value -> string, k: Checked, x: Inputs)
    requires Check(result, c, show) == Some(k) && ReadInputs(result) == Some(x)
    ensures var m := NumOr(Get(c, "max_budget_LKR"), 0.0);
      var fails := !Get(c, "max_budget_LKR").Null? && x.capex > m;
      (OverBudget(x.capex, m) in Reasons(k) <==> fails)
      && ("target_budget_LKR" in Policy(k.patch) <==> fails)
      && (fails ==> Policy(k.patch)["target_budget_LKR"] == Float(m))
  {
    var p1, p2, p3, p4, p5 := Decompose(result, c, show, k, x);
    var m := NumOr(Get(c, "max_budget_LKR"), 0.0);
    FindReason(OverBudget(x.capex, m), p1, p2, p3, p4, p5, p2);
    FindSetting("target_budget_LKR", p2, p3, p4, p5, p2);
  }

  /** The payback criterion applies only where a blended payback is known,
      and fails exactly when it exceeds the threshold. */
  lemma {:induction false} PaybackVerdict(result: Obj, c: Obj, show: Value -> string, k: Checked, x: Inputs)
    requires Check(result, c, show) == Some(k) && ReadInputs(result) == Some(x)
    ensures var t := NumOr(Get(c, "payback_threshold_months"), 0.0);
      var fails := !Get(c, "payback_threshold_months").Null? && x.blended.Some? && x.blended.value > t;
      (x.blended.Some? ==> (PaybackTooLong(x.blended.value, t) in Reasons(k) <==> fails))
      && ("payback_threshold_months" in Policy(k.patch) <==> fails)
      && (fails ==> Policy(k.patch)["payback_threshold_months"] == Float(t))
  {
    var p1, p2, p3, p4, p5 := Decompose(result, c, show, k, x);
    var t := NumOr(Get(c, "payback_threshold_months"), 0.0);
    if x.blended.Some? {
      FindReason(PaybackTooLong(x.blended.value, t), p1, p2, p3, p4, p5, p3);
    }
    FindSetting("payback_threshold_months", p2, p3, p4, p5, p3);
  }

  /** The reduction goal applies only to a positive baseline, and fails
      exactly when the achieved share falls short of it by more than 1e-9. */
  lemma {:induction false} Co2Verdict(result: Obj, c: Obj, show: Value -> string, k: Checked, x: Inputs)
    requires Check(result, c, show) == Some(k) && ReadInputs(result) == Some(x)
    ensures var g := NumOr(Get(c, "co2_reduction_goal_pct"), 0.0);
      (x.baseline > 0.0 ==> (Co2Shortfall(AchievedPct(x), g) in Reasons(k) <==> Co2Fails(c, x)))
      && ("co2_reduction_goal_pct" in Policy(k.patch) <==> Co2Fails(c, x))
      && (Co2Fails(c, x) ==> Policy(k.patch)["co2_reduction_goal_pct"] == Float(g))
  {
    var p1, p2, p3, p4, p5 := Decompose(result, c, show, k, x);
    var g := NumOr(Get(c, "co2_reduction_goal_pct"), 0.0);
    if x.baseline > 0.0 {
      FindReason(Co2Shortfall(AchievedPct(x), g), p1, p2, p3, p4, p5, p4);
    }
    FindSetting("co2_reduction_goal_pct", p2, p3, p4, p5, p4);
  }

  /** The disruption cap fails exactly when some listed recommendation ranks
      above it; the patch then carries the lower-cased cap. */
  lemma {:induction false} DisruptionVerdict(result: Obj, c: Obj, show: Value -> string, k: Checked, x: Inputs)
    requires Check(result, c, show) == Some(k) && ReadInputs(result) == Some(x)
    ensures var cap := CapLabel(Get(c, "max_disruption"), show);
      var seen := Collect(Get(result, "recommendations"));
      var fails := !Get(c, "max_disruption").Null? && seen.Some? && seen.value > DisrRank(cap);
      (seen.Some? ==> (DisruptionTooHigh(seen.value, DisrRank(cap)) in Reasons(k) <==> fails))
      && ("max_disruption" in Policy(k.patch) <==> fails)
      && (fails ==> Policy(k.patch)["max_disruption"] == Str(cap))
  {
    var p1, p2, p3, p4, p5 := Decompose(result, c, show, k, x);
    var cap := CapLabel(Get(c, "max_disruption"), show);
    var seen := Collect(Get(result, "recommendations"));
    if seen.Some? {
      FindReason(DisruptionTooHigh(seen.value, DisrRank(cap)), p1, p2, p3, p4, p5, p5);
    }
    FindSetting("max_disruption", p2, p3, p4, p5, p5);
  }

  /** Missing inputs are reported only when completeness is required, and
      never put anything in the patch: the patch names only the other four
      criteria. */
  lemma {:induction false} DataVerdict(result: Obj, c: Obj, show: Value -> string, k: Checked, x: Inputs)
    requires Check(result, c, show) == Some(k) && ReadInputs(result) == Some(x)
    ensures DataIncomplete(Missing(x)) in Reasons(k) <==> Truthy(Get(c, "require_data_complete")) && Missing(x) != []
    ensures Policy(k.patch).Keys <= {"target_budget_LKR", "payback_threshold_months", "co2_reduction_goal_pct", "max_disruption"}
  {
    var p1, p2, p3, p4, p5 := Decompose(result, c, show, k, x);
    FindReason(DataIncomplete(Missing(x)), p1, p2, p3, p4, p5, p1);
  }

  /** The dump of the estimator's totals, as it sits in `impact_plan`. */
  function TotalsDump(t: ImpactEstimator.ImpactTotals): Obj {
    map["kWh_saved_per_month" := Float(t.kwh), "LKR_saved_per_month" := Float(t.lkr),
        "co2_kg_saved_per_month" := Float(t.co2)]
  }

  /** The check reads `total_capex_LKR`, `blended_payback_months` and
      `total_monthly_kwh_saved`, none of which the estimator's totals carry:
      on an estimator plan the capital cost and savings read as 0 and there is
      no blended payback, so the payback criterion never fails (for the
      budget criterion see `EstimatorBudgetUnread`), and a reduction
      goal above 1e-9 fails on every positive baseline, however much the plan
      saves. */
  lemma {:induction false} EstimatorTotalsUnread(result: Obj, c: Obj, show: Value -> string, k: Checked, x: Inputs,
                                                 plan: Obj, t: ImpactEstimator.ImpactTotals)
    requires Check(result, c, show) == Some(k) && ReadInputs(result) == Some(x)
    requires Get(result, "impact_plan") == Dict(plan) && plan != map[] && Get(plan, "totals") == Dict(TotalsDump(t))
    ensures x.capex == 0.0 && x.blended.None? && x.kwhSaved == 0.0
    ensures "payback_threshold_months" !in Policy(k.patch)
    ensures x.baseline > 0.0 && !Get(c, "co2_reduction_goal_pct").Null?
            && NumOr(Get(c, "co2_reduction_goal_pct"), 0.0) > 0.000000001
            ==> Co2Shortfall(0.0, NumOr(Get(c, "co2_reduction_goal_pct"), 0.0)) in Reasons(k)
  {
    EstimatorTotalsRead(result, x, plan, t);
    PaybackVerdict(result, c, show, k, x);
    Co2Verdict(result, c, show, k, x);
    if x.baseline > 0.0 {
      ZeroRatio(x.baseline);
    }
  }

  /** On an estimator plan the capital cost reads as 0, so the budget
      criterion fails only for a negative budget. */
  lemma EstimatorBudgetUnread(result: Obj, c: Obj, show: Value -> string, k: Checked, x: Inputs,
                              plan: Obj, t: ImpactEstimator.ImpactTotals)
    requires Check(result, c, show) == Some(k) && ReadInputs(result) == Some(x)
    requires Get(result, "impact_plan") == Dict(plan) && plan != map[] && Get(plan, "totals") == Dict(TotalsDump(t))
    ensures var m := NumOr(Get(c, "max_budget_LKR"), 0.0);
      OverBudget(0.0, m) in Reasons(k) <==> !Get(c, "max_budget_LKR").Null? && m < 0.0
  {
    EstimatorTotalsRead(result, x, plan, t);
    BudgetVerdict(result, c, show, k, x);
  }

  /** The totals an estimator plan carries hold none of the keys the check reads. */
  lemma EstimatorTotalsRead(result: Obj, x: Inputs, plan: Obj, t: ImpactEstimator.ImpactTotals)
    requires ReadInputs(result) == Some(x)
    requires Get(result, "impact_plan") == Dict(plan) && plan != map[] && Get(plan, "totals") == Dict(TotalsDump(t))
    ensures x.capex == 0.0 && x.blended.None? && x.kwhSaved == 0.0
  {
    var d := TotalsDump(t);
    assert "total_capex_LKR" !in d && "blended_payback_months" !in d && "total_monthly_kwh_saved" !in d;
  }

  lemma ZeroRatio(b: real)
    requires b > 0.0
    ensures Ratio(0.0, b) == 0.0
  {
  }
}
