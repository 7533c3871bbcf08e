/** The deterministic parts of the recommendation composer: number
    formatting, the four placeholders of the system prompt and their
    substitution into a template, and the shaping of the proposer's reply
    into validated recommendations. `str()` of a float, list or dict is the
    parameter `show`; the template is a parameter, since reading it is file
    I/O. */
module Composer {
  import opened Wrappers
  import opened Text
  import opened Values
  import opened Models
  import Lists

  // ---------------------------------------------------------------------------
  // str() and _fmt

  /** `str(v)`: exact for None, bools, ints and strings. */
  function PyStr(v: Value, show: Value -> string): (r: string)
    ensures v.Str? ==> r == v.s
    ensures v.Int? ==> r == IntToString(v.i)
  {
    match v
    case Null => "None"
    case Bool(b) => if b then "True" else "False"
    case Int(i) => IntToString(i)
    case Str(s) => s
    case _ => show(v)
  }

  predicate Integral(x: real) {
    x == x.Floor as real
  }

  /** `str(float(x))` for a non-finite float. */
  function NonFiniteText(n: Num): string {
    match n
    case NaN => "nan"
    case PosInf => "inf"
    case NegInf => "-inf"
    case Finite(_) => []
  }

  /** `_fmt(v, default_str)`: an int, a bool or an integral float renders as
      an int; another float or a numeric string as `str(float(v))`; None and
      anything `float()` rejects as the default. */
  function Fmt(v: Value, default: string, show: Value -> string): (r: string)
    ensures v.Null? || v.List? || v.Dict? ==> r == default
    ensures v.Int? ==> r == IntToString(v.i)
    ensures v.Bool? ==> r == (if v.b then "1" else "0")
    ensures v.Float? && Integral(v.f) ==> r == IntToString(v.f.Floor)
    ensures v.Float? && !Integral(v.f) ==> r == show(v)
    ensures v.Str? && PyFloat(v).None? ==> r == default
  {
    match v
    case Null => default
    case Bool(b) => if b then "1" else "0"
    case Int(i) => IntToString(i)
    case Float(f) => if Integral(f) then IntToString(f.Floor) else show(Float(f))
    case Str(s) =>
      (match ParseFloatString(s)
       case None => default
       case Some(Finite(x)) => show(Float(x))
       case Some(n) => NonFiniteText(n))
    case _ => default
  }

  /** An integral float and the int it equals render alike, and an int
      renders as its decimal digits with an optional minus sign. */
  lemma FmtIntegral(n: int, default: string, show: Value -> string)
    ensures Fmt(Float(n as real), default, show) == Fmt(Int(n), default, show)
    ensures forall k :: 0 <= k < |Fmt(Int(n), default, show)| ==>
      Fmt(Int(n), default, show)[k] == '-' || IsDigit(Fmt(Int(n), default, show)[k])
  {
    assert (n as real).Floor == n;
  }

  // ---------------------------------------------------------------------------
  // The system prompt's placeholders

  datatype Placeholders = Placeholders(budget: string, payback: string, co2Goal: string, maxDisruption: string)

  const Defaults := Placeholders("unbounded", "unbounded", "none", "medium")

  const BudgetKey := "target_budget_LKR"
  const PaybackKey := "payback_threshold_months"
  const Co2Key := "co2_reduction_goal_pct"
  const DisruptionKey := "max_disruption"

  /** The budget placeholder for a budget that is not None: `str(int(v))`
      when `float(v)` is integral, `str(v)` otherwise; None where `float()` or
      `int()` raises. */
  function BudgetText(v: Value, show: Value -> string): (r: Option<string>)
    ensures v.Int? ==> r == Some(IntToString(v.i))
    ensures v.Float? && Integral(v.f) ==> r == Some(IntToString(v.f.Floor))
    ensures v.Float? && !Integral(v.f) ==> r == Some(show(v))
    ensures v.List? || v.Dict? ==> r.None?
  {
    match PyFloat(v)
    case None => None
    case Some(Finite(x)) =>
      if Integral(x) then
        (match PyInt(v)
         case None => None
         case Some(n) => Some(IntToString(n)))
      else Some(PyStr(v, show))
    case Some(_) => Some(PyStr(v, show))
  }

  /** The payback placeholder: `str(int(v))`; None where `int()` raises. */
  function PaybackText(v: Value): (r: Option<string>)
    ensures v.Int? ==> r == Some(IntToString(v.i))
    ensures v.Float? ==> r == Some(IntToString(Trunc(v.f)))
  {
    match PyInt(v)
    case None => None
    case Some(n) => Some(IntToString(n))
  }

  /** Each placeholder from its policy entry. */
  function BudgetPlaceholder(v: Value, show: Value -> string): Option<string> {
    if v.Null? then Some("unbounded") else BudgetText(v, show)
  }

  function PaybackPlaceholder(v: Value): Option<string> {
    if v.Null? then Some("unbounded") else PaybackText(v)
  }

  function Co2Placeholder(v: Value, show: Value -> string): string {
    if v.Null? then "none" else PyStr(v, show)
  }

  function DisruptionPlaceholder(v: Value, show: Value -> string): string {
    if Truthy(v) then Strip(Lower(PyStr(v, show))) else "medium"
  }

  /** The placeholder values `_build_system_prompt` derives from the policy
      dump; None where a conversion raises. Without a policy, or with an empty
      one, every placeholder keeps its default. */
  function PromptValues(policy: Option<Obj>, show: Value -> string): (r: Option<Placeholders>)
    ensures policy.None? || policy.value == map[] ==> r == Some(Defaults)
    ensures r.Some? && policy.Some? && Get(policy.value, BudgetKey).Null? ==> r.value.budget == "unbounded"
    ensures r.Some? && policy.Some? && Get(policy.value, PaybackKey).Null? ==> r.value.payback == "unbounded"
    ensures r.Some? && policy.Some? && Get(policy.value, Co2Key).Null? ==> r.value.co2Goal == "none"
    ensures r.Some? && policy.Some? && !Truthy(Get(policy.value, DisruptionKey)) ==> r.value.maxDisruption == "medium"
  {
    if policy.None? || policy.value == map[] then Some(Defaults)
    else
      var p := policy.value;
      var budget := BudgetPlaceholder(Get(p, BudgetKey), show);
      var payback := PaybackPlaceholder(Get(p, PaybackKey));
      if budget.Some? && payback.Some? then
        Some(Placeholders(budget.value, payback.value, Co2Placeholder(Get(p, Co2Key), show),
                          DisruptionPlaceholder(Get(p, DisruptionKey), show)))
      else None
  }

  /** The placeholders a validated policy gives: they never raise, an
      integral budget renders as an int, the payback threshold as its int,
      and the disruption ceiling as the level itself. */
  lemma {:induction false} PolicyPlaceholders(g: PolicyGoals, show: Value -> string)
    requires g.Valid()
    ensures var r := PromptValues(Some(DumpPolicyGoals(g)), show);
      && r.Some?
      && r.value.budget == (if g.targetBudget.None? then "unbounded"
                            else if Integral(g.targetBudget.value) then IntToString(g.targetBudget.value.Floor)
                            else show(Float(g.targetBudget.value)))
      && r.value.payback == (if g.paybackThreshold.None? then "unbounded" else IntToString(g.paybackThreshold.value))
      && r.value.co2Goal == (if g.co2Goal.None? then "none" else show(Float(g.co2Goal.value)))
      && r.value.maxDisruption == g.maxDisruption
  {
    var d := DumpPolicyGoals(g);
    DumpEntries(g);
    assert d != map[] by {
      assert DisruptionKey in d;
    }
    BudgetOfGoal(g.targetBudget, show);
    Co2OfGoal(g.co2Goal, show);
    LevelTextFixed(g.maxDisruption);
    assert DisruptionPlaceholder(Str(g.maxDisruption), show) == g.maxDisruption;
  }

  lemma BudgetOfGoal(x: Option<real>, show: Value -> string)
    ensures BudgetPlaceholder(OptFloat(x), show) == Some(if x.None? then "unbounded"
      else if Integral(x.value) then IntToString(x.value.Floor) else show(Float(x.value)))
  {
  }

  lemma Co2OfGoal(x: Option<real>, show: Value -> string)
    ensures Co2Placeholder(OptFloat(x), show) == (if x.None? then "none" else show(Float(x.value)))
  {
  }

  lemma DumpEntries(g: PolicyGoals)
    ensures var d := DumpPolicyGoals(g);
      && Get(d, BudgetKey) == OptFloat(g.targetBudget)
      && Get(d, PaybackKey) == (if g.paybackThreshold.Some? then Int(g.paybackThreshold.value) else Null)
      && Get(d, Co2Key) == OptFloat(g.co2Goal)
      && Get(d, DisruptionKey) == Str(g.maxDisruption)
  {
    var d := DumpPolicyGoals(g);
    assert d[BudgetKey] == OptFloat(g.targetBudget);
    assert d[PaybackKey] == (if g.paybackThreshold.Some? then Int(g.paybackThreshold.value) else Null);
    assert d[Co2Key] == OptFloat(g.co2Goal);
    assert d[DisruptionKey] == Str(g.maxDisruption);
  }

  lemma LevelTextFixed(s: string)
    requires IsLevel(s)
    ensures s != [] && Strip(Lower(s)) == s
  {
    if s == "none" {
      LowerFixed("none");
    } else if s == "low" {
      LowerFixed("low");
    } else if s == "medium" {
      LowerFixed("medium");
    } else {
      LowerFixed("high");
    }
    StripFixed(s);
  }

  // ---------------------------------------------------------------------------
  // Substitution into the template

  /** The system prompt: the four placeholders replaced in turn. */
  function SystemPrompt(tmpl: string, ph: Placeholders): string {
    var s1 := ReplaceAll(tmpl, "{BUDGET}", ph.budget);
    var s2 := ReplaceAll(s1, "{PAYBACK}", ph.payback);
    var s3 := ReplaceAll(s2, "{CO2_GOAL}", ph.co2Goal);
    ReplaceAll(s3, "{MAX_DISRUPTION}", ph.maxDisruption)
  }

  /** `_build_system_prompt(policy)` with the template given. */
  function BuildSystemPrompt(policy: Option<Obj>, tmpl: string, show: Value -> string): (r: Option<string>)
    ensures r.Some? <==> PromptValues(policy, show).Some?
  {
    match PromptValues(policy, show)
    case None => None
    case Some(ph) => Some(SystemPrompt(tmpl, ph))
  }

  /** Only the four placeholders are substituted: a template holding none of
      them is the prompt, whatever the policy. */
  lemma PlaceholderFree(tmpl: string, ph: Placeholders)
    requires !Contains(tmpl, "{BUDGET}") && !Contains(tmpl, "{PAYBACK}")
    requires !Contains(tmpl, "{CO2_GOAL}") && !Contains(tmpl, "{MAX_DISRUPTION}")
    ensures SystemPrompt(tmpl, ph) == tmpl
  {
    ReplaceAbsent(tmpl, "{BUDGET}", ph.budget);
    ReplaceAbsent(tmpl, "{PAYBACK}", ph.payback);
    ReplaceAbsent(tmpl, "{CO2_GOAL}", ph.co2Goal);
    ReplaceAbsent(tmpl, "{MAX_DISRUPTION}", ph.maxDisruption);
  }

  /** Replacing a pattern by itself changes nothing. */
  lemma {:induction false} ReplaceBySelf(s: string, pat: string)
    requires pat != []
    ensures ReplaceAll(s, pat, pat) == s
    decreases |s|
  {
    if s != [] {
      if StartsWith(s, pat) {
        ReplaceBySelf(s[|pat|..], pat);
        assert s[..|pat|] + s[|pat|..] == s;
      } else {
        ReplaceBySelf(s[1..], pat);
        assert [s[0]] + s[1..] == s;
      }
    }
  }

  /** A template holding each placeholder verbatim as its own value comes
      back unchanged. */
  lemma SelfPlaceholders(tmpl: string)
    ensures SystemPrompt(tmpl, Placeholders("{BUDGET}", "{PAYBACK}", "{CO2_GOAL}", "{MAX_DISRUPTION}")) == tmpl
  {
    ReplaceBySelf(tmpl, "{BUDGET}");
    ReplaceBySelf(tmpl, "{PAYBACK}");
    ReplaceBySelf(tmpl, "{CO2_GOAL}");
    ReplaceBySelf(tmpl, "{MAX_DISRUPTION}");
  }

  // ---------------------------------------------------------------------------
  // _shape_recommendations

  /** The items of `obj["recommendations"]`: none unless `obj` is a dict and
      the entry is a list. */
  function RecsList(obj: Value): (r: seq<Value>)
    ensures !obj.Dict? ==> r == []
  {
    if obj.Dict? && Get(obj.fields, "recommendations").List? then obj.fields["recommendations"].items else []
  }

  /** The strings of a list, in order. */
  function StrOnly(xs: seq<Value>): (r: seq<string>)
    ensures |r| <= |xs|
    ensures forall s :: s in r ==> Str(s) in xs
  {
    if xs == [] then []
    else var rest := StrOnly(xs[1..]);
      if xs[0].Str? then [xs[0].s] + rest else rest
  }

  /** The characters of a string, each as a one-character string. */
  function CharStrings(s: string): (r: seq<string>)
    ensures |r| == |s|
    ensures forall i :: 0 <= i < |s| ==> r[i] == [s[i]]
  {
    if s == [] then [] else [[s[0]]] + CharStrings(s[1..])
  }

  /** `[s for s in v if isinstance(s, str)]`; None where `v` cannot be
      iterated. */
  function StepsOf(v: Value): Option<seq<string>> {
    match v
    case List(xs) => Some(StrOnly(xs))
    case Str(s) => Some(CharStrings(s))
    case _ => None
  }

  /** `float(v)` for a required number of the rebuild; None where it raises
      or gives a non-finite value. */
  function NumField(v: Value): Option<real> {
    FiniteFloat(v)
  }

  /** An optional number of the rebuild: None stays None. */
  function OptNumField(v: Value): Option<Value> {
    if v.Null? then Some(Null)
    else match FiniteFloat(v)
      case None => None
      case Some(x) => Some(Float(x))
  }

  /** The dict the rebuild hands to `Recommendation(...)`. */
  function RebuiltDict(d: Obj, action: Value, pmin: real, pmax: real, cost: real, kwh: Value, pb: Value,
                       steps: seq<string>, show: Value -> string): (r: Obj)
    ensures "steps" in r && r["steps"] == List(StrItems(steps))
  {
    map[
      "action" := Str(PyStr(action, show)),
      "pct_kwh_reduction_min" := Float(pmin),
      "pct_kwh_reduction_max" := Float(pmax),
      "est_cost" := Float(cost),
      "notes" := (if Truthy(Get(d, "notes")) then Get(d, "notes") else Str("")),
      "disruption" := Str(Lower(PyStr(GetOr(d, "disruption", Str("medium")), show))),
      "kwh_saved_per_month" := kwh,
      "payback_months" := pb,
      "steps" := List(StrItems(steps))]
  }

  /** The rebuild after a failed validation: skipped (Some(None)) unless
      action, both percentages and the cost are all given; None where it
      raises. */
  function Rebuild(d: Obj, show: Value -> string): (r: Option<Option<Recommendation>>)
    ensures r.Some? && r.value.Some? ==> r.value.value.Valid()
  {
    var action := Get(d, "action");
    var pmin := Get(d, "pct_kwh_reduction_min");
    var pmax := Get(d, "pct_kwh_reduction_max");
    var cost := Get(d, "est_cost");
    if action.Null? || pmin.Null? || pmax.Null? || cost.Null? then Some(None)
    else
      match (StepsOf(GetOr(d, "steps", List([]))), NumField(pmin), NumField(pmax), NumField(cost),
             OptNumField(Get(d, "kwh_saved_per_month")), OptNumField(Get(d, "payback_months")))
      case (Some(steps), Some(lo), Some(hi), Some(c), Some(kwh), Some(pb)) =>
        (match ParseRecommendation(RebuiltDict(d, action, lo, hi, c, kwh, pb, steps, show))
         case None => None
         case Some(rec) => Some(Some(rec)))
      case _ => None
  }

  /** The rebuild happens only with action, both percentages and the cost
      given, and keeps exactly the string steps of a list, in order. */
  lemma RebuildSteps(d: Obj, show: Value -> string, rec: Recommendation)
    requires Rebuild(d, show) == Some(Some(rec))
    ensures !Get(d, "action").Null? && !Get(d, "pct_kwh_reduction_min").Null?
    ensures !Get(d, "pct_kwh_reduction_max").Null? && !Get(d, "est_cost").Null?
    ensures "steps" !in d ==> rec.steps == []
    ensures "steps" in d && d["steps"].List? ==> rec.steps == StrOnly(d["steps"].items)
  {
    var steps := StepsOf(GetOr(d, "steps", List([]))).value;
    var action := Get(d, "action");
    var lo := NumField(Get(d, "pct_kwh_reduction_min")).value;
    var hi := NumField(Get(d, "pct_kwh_reduction_max")).value;
    var c := NumField(Get(d, "est_cost")).value;
    var kwh := OptNumField(Get(d, "kwh_saved_per_month")).value;
    var pb := OptNumField(Get(d, "payback_months")).value;
    var built := RebuiltDict(d, action, lo, hi, c, kwh, pb, steps, show);
    assert ParseRecommendation(built) == Some(rec);
    StringListOfStrItems(steps);
  }

  /** One item: non-dicts are skipped, a dict is validated as it is and
      rebuilt where that fails. */
  function ShapeItem(item: Value, show: Value -> string): (r: Option<Option<Recommendation>>)
    ensures r.Some? && r.value.Some? ==> r.value.value.Valid()
    ensures !item.Dict? ==> r == Some(None)
  {
    if !item.Dict? then Some(None)
    else match ParseRecommendation(item.fields)
      case Some(rec) => Some(Some(rec))
      case None => Rebuild(item.fields, show)
  }

  /** `ShapeItem` as a function value. */
  function ShapeFn(show: Value -> string): Value -> Option<Option<Recommendation>> {
    x => ShapeItem(x, show)
  }

  /** The cleaned list for `items`, in order, with `shape` deciding each
      item; None where an item raises. Every kept element is the shape of
      some item. */
  function ShapeAll<T>(items: seq<Value>, shape: Value -> Option<Option<T>>): (r: Option<seq<T>>)
    ensures r.Some? ==> |r.value| <= |items|
    ensures r.Some? ==> forall j :: 0 <= j < |r.value| ==>
      exists i :: 0 <= i < |items| && shape(items[i]) == Some(Some(r.value[j]))
    ensures r.None? <==> exists i :: 0 <= i < |items| && shape(items[i]).None?
  {
    if items == [] then Some([])
    else
      var init := items[..|items| - 1];
      assert forall i :: 0 <= i < |init| ==> init[i] == items[i];
      match ShapeAll(init, shape)
      case None => None
      case Some(done) =>
        match shape(items[|items| - 1])
        case None => None
        case Some(o) =>
          if o.Some? then Some(done + [o.value]) else Some(done)
  }

  /** `_shape_recommendations(obj)`: every recommendation it returns is
      validated. */
  function Shape(obj: Value, show: Value -> string): (r: Option<seq<Recommendation>>)
    ensures !obj.Dict? ==> r == Some([])
    ensures r.Some? ==> forall j :: 0 <= j < |r.value| ==> r.value[j].Valid()
  {
    var items := RecsList(obj);
    var shape := ShapeFn(show);
    var r := ShapeAll(items, shape);
    assert r.Some? ==> forall j :: 0 <= j < |r.value| ==> r.value[j].Valid() by {
      if r.Some? {
        forall j | 0 <= j < |r.value|
          ensures r.value[j].Valid()
        {
          var i :| 0 <= i < |items| && shape(items[i]) == Some(Some(r.value[j]));
          assert ShapeItem(items[i], show) == Some(Some(r.value[j]));
        }
      }
    }
    r
  }

  /** `_shape_recommendations`, the loop over the items. */
  method ShapeRecommendations(obj: Value, show: Value -> string) returns (r: Option<seq<Recommendation>>)
    ensures r == Shape(obj, show)
  {
    var recs := RecsList(obj);
    ghost var shape := ShapeFn(show);
    var cleaned: seq<Recommendation> := [];
    for i := 0 to |recs|
      invariant ShapeAll(recs[..i], shape) == Some(cleaned)
    {
      ShapeAllSnoc(recs, shape, i);
      var item := recs[i];
      if !item.Dict? {
        assert shape(item) == Some(None);
        continue;
      }
      var direct := ParseRecommendation(item.fields);
      if direct.Some? {
        assert shape(item) == Some(Some(direct.value));
        cleaned := cleaned + [direct.value];
      } else {
        var rebuilt := Rebuild(item.fields, show);
        assert shape(item) == rebuilt;
        if rebuilt.None? {
          ShapeNoneStays(recs, shape, i + 1);
          return None;
        }
        if rebuilt.value.Some? {
          cleaned := cleaned + [rebuilt.value.value];
        }
      }
    }
    assert recs[..|recs|] == recs;
    return Some(cleaned);
  }

  lemma ShapeNoneStays<T>(items: seq<Value>, shape: Value -> Option<Option<T>>, n: nat)
    requires 0 < n <= |items| && shape(items[n - 1]).None?
    ensures ShapeAll(items, shape).None?
  {
  }

  /** Dumps of validated recommendations come back as the same list. */
  lemma ShapeOfDumps(recs: seq<Recommendation>, show: Value -> string)
    requires forall j :: 0 <= j < |recs| ==> recs[j].Valid()
    ensures ShapeAll(DumpValues(recs), ShapeFn(show)) == Some(recs)
  {
    var items := DumpValues(recs);
    forall i | 0 <= i < |items|
      ensures ShapeFn(show)(items[i]) == Some(Some(recs[i]))
    {
      ShapeOfDump(recs[i], show);
    }
    AllKept(items, ShapeFn(show), recs);
  }

  /** Where every item is kept as itself, the list is kept whole. */
  lemma {:induction false} AllKept<T>(items: seq<Value>, shape: Value -> Option<Option<T>>, xs: seq<T>)
    requires |items| == |xs|
    requires forall i :: 0 <= i < |items| ==> shape(items[i]) == Some(Some(xs[i]))
    ensures ShapeAll(items, shape) == Some(xs)
    decreases |items|
  {
    if items != [] {
      var n := |items| - 1;
      var init := items[..n];
      assert forall i :: 0 <= i < n ==> init[i] == items[i];
      AllKept(init, shape, xs[..n]);
      assert shape(items[n]) == Some(Some(xs[n]));
      ShapeAllLast(items, shape);
      Lists.FrontLast(xs);
    }
  }

  /** `ShapeAll` of one more item of a prefix. */
  lemma ShapeAllSnoc<T>(items: seq<Value>, shape: Value -> Option<Option<T>>, i: int)
    requires 0 <= i < |items|
    ensures ShapeAll(items[..i + 1], shape) ==
      match ShapeAll(items[..i], shape)
      case None => None
      case Some(done) =>
        match shape(items[i])
        case None => None
        case Some(o) => if o.Some? then Some(done + [o.value]) else Some(done)
  {
    assert items[..i + 1][..i] == items[..i];
    ShapeAllLast(items[..i + 1], shape);
  }

  /** `ShapeAll` of a non-empty list, by its last item. */
  lemma ShapeAllLast<T>(items: seq<Value>, shape: Value -> Option<Option<T>>)
    requires items != []
    ensures ShapeAll(items, shape) ==
      match ShapeAll(items[..|items| - 1], shape)
      case None => None
      case Some(done) =>
        match shape(items[|items| - 1])
        case None => None
        case Some(o) => if o.Some? then Some(done + [o.value]) else Some(done)
  {
  }

  lemma ShapeOfDump(rec: Recommendation, show: Value -> string)
    requires rec.Valid()
    ensures ShapeItem(Dict(DumpRecommendation(rec)), show) == Some(Some(rec))
  {
    RecommendationRoundTrip(rec);
  }

  function DumpValues(recs: seq<Recommendation>): (r: seq<Value>)
    ensures |r| == |recs|
    ensures forall j :: 0 <= j < |recs| ==> r[j] == Dict(DumpRecommendation(recs[j]))
  {
    seq(|recs|, j requires 0 <= j < |recs| => Dict(DumpRecommendation(recs[j])))
  }

  /** Items that are not dicts contribute nothing. */
  lemma {:induction false} NonDictsSkipped(items: seq<Value>, show: Value -> string)
    requires forall i :: 0 <= i < |items| ==> !items[i].Dict?
    ensures ShapeAll(items, ShapeFn(show)) == Some([])
    decreases |items|
  {
    if items != [] {
      var init := items[..|items| - 1];
      NonDictsSkipped(init, show);
    }
  }
}
