/** The validated records of the pipeline: policy goals, recommendations and
    audit findings, with their field validators and bounds. Validation of a
    dict is a partial function: None where the model would raise a
    validation error. */
module Models {
  import opened Wrappers
  import opened Text
  import opened Values

  // ---------------------------------------------------------------------------
  // Disruption levels

  predicate IsLevel(s: string) {
    s == "none" || s == "low" || s == "medium" || s == "high"
  }

  /** The ordinal none < low < medium < high; an unknown label ranks as "medium". */
  function LevelRank(k: string): (r: nat)
    ensures r <= 3
    ensures !IsLevel(k) ==> r == 2
  {
    if k == "none" then 0 else if k == "low" then 1 else if k == "high" then 3 else 2
  }

  /** `str(v).strip().lower()` for a string. */
  function NormKey(s: string): string {
    Lower(Strip(s))
  }

  lemma LowerFixed(s: string)
    requires forall i :: 0 <= i < |s| ==> !('A' <= s[i] <= 'Z')
    ensures Lower(s) == s
  {
  }

  /** A canonical level is its own key. */
  lemma LevelKeyFixed(s: string)
    requires IsLevel(s)
    ensures NormKey(s) == s
  {
    StripFixed(s);
    LowerFixed(s);
  }

  /** `_normalize_disruption` of PolicyGoals and `_norm_disruption` of
      Recommendation, which behave alike: None and anything that is not one of
      the four levels once trimmed and lower-cased become "medium". `str()` of
      a non-string never spells a level (it holds a digit, a bracket or a
      capital T/F, or is "nan"/"inf"), so only strings can name one. */
  function NormalizeDisruption(v: Value): (r: string)
    ensures IsLevel(r)
    ensures r != "medium" ==> v.Str? && NormKey(v.s) == r
  {
    if v.Str? && IsLevel(NormKey(v.s)) then NormKey(v.s) else "medium"
  }

  /** A string naming a level, in any case and with blanks around it, gives that level. */
  lemma NormalizeDisruptionKeeps(s: string)
    requires IsLevel(NormKey(s))
    ensures NormalizeDisruption(Str(s)) == NormKey(s)
  {
  }

  /** Each level normalises to itself. */
  lemma DisruptionOfLevel(s: string)
    requires IsLevel(s)
    ensures NormalizeDisruption(Str(s)) == s
  {
    LevelKeyFixed(s);
    NormalizeDisruptionKeeps(s);
  }

  /** Normalising twice is normalising once. */
  lemma NormalizeDisruptionIdempotent(v: Value)
    ensures NormalizeDisruption(Str(NormalizeDisruption(v))) == NormalizeDisruption(v)
  {
    DisruptionOfLevel(NormalizeDisruption(v));
  }

  lemma LowKey(s: string)
    requires s == "Low"
    ensures NormKey(s) == "low"
  {
    assert StripLeft(s) == s;
    assert StripRight(s) == s;
    assert Lower(s) == "low";
  }

  /** The intake example: "Low" becomes "low". */
  lemma LowBecomesLow(s: string)
    requires s == "Low"
    ensures NormalizeDisruption(Str(s)) == "low"
  {
    LowKey(s);
    NormalizeDisruptionKeeps(s);
  }

  // ---------------------------------------------------------------------------
  // Numeric fields

  /** `_none_if_empty`: "" and None read as None. */
  function NoneIfEmpty(v: Value): (r: Value)
    ensures r.Null? <==> (v.Null? || v == Str(""))
    ensures !r.Null? ==> r == v
  {
    if v == Str("") then Null else v
  }

  /** A float field: ints, floats, bools and numeric strings are accepted. */
  function FloatField(v: Value): (r: Option<real>)
    ensures v.Float? ==> r == Some(v.f)
    ensures v.Int? ==> r == Some(v.i as real)
    ensures v.Null? || v.List? || v.Dict? ==> r.None?
  {
    FiniteFloat(v)
  }

  /** An int field: ints, bools, integral floats and digit strings are accepted. */
  function IntField(v: Value): (r: Option<int>)
    ensures v.Int? ==> r == Some(v.i)
    ensures v.Float? ==> (r.Some? <==> v.f == v.f.Floor as real)
    ensures r.Some? && v.Float? ==> r.value as real == v.f
    ensures v.Null? || v.List? || v.Dict? ==> r.None?
  {
    match v
    case Float(f) => if f == f.Floor as real then Some(f.Floor) else None
    case _ => PyInt(v)
  }

  /** An optional float field with a lower and possibly an upper bound.
      The outer None is a validation error, the inner one an absent value. */
  function OptRealInRange(v: Value, lo: real, hi: Option<real>): (r: Option<Option<real>>)
    ensures v.Null? ==> r == Some(None)
    ensures r.Some? && r.value.Some? ==> lo <= r.value.value && (hi.Some? ==> r.value.value <= hi.value)
    ensures v.Float? && lo <= v.f && (hi.None? || v.f <= hi.value) ==> r == Some(Some(v.f))
  {
    if v.Null? then Some(None)
    else match FloatField(v)
      case Some(x) => if lo <= x && (hi.None? || x <= hi.value) then Some(Some(x)) else None
      case None => None
  }

  /** A dumped optional float. */
  function OptFloat(x: Option<real>): Value {
    if x.Some? then Float(x.value) else Null
  }

  // ---------------------------------------------------------------------------
  // PolicyGoals

  datatype PolicyGoals = PolicyGoals(
    targetBudget: Option<real>,
    paybackThreshold: Option<int>,
    co2Goal: Option<real>,
    maxDisruption: string)
  {
    /** The field bounds: budget and threshold at least 0, the CO2 goal a percentage. */
    predicate Valid() {
      && (targetBudget.Some? ==> targetBudget.value >= 0.0)
      && (paybackThreshold.Some? ==> paybackThreshold.value >= 0)
      && (co2Goal.Some? ==> 0.0 <= co2Goal.value <= 100.0)
      && IsLevel(maxDisruption)
    }
  }

  /** The `payback_threshold_months` field: an int of at least 0, or absent. */
  function ThresholdField(v: Value): (r: Option<Option<int>>)
    ensures v.Null? ==> r == Some(None)
    ensures r.Some? && r.value.Some? ==> r.value.value >= 0
    ensures v.Int? && v.i >= 0 ==> r == Some(Some(v.i))
  {
    if v.Null? then Some(None)
    else match IntField(v)
      case Some(n) => if n >= 0 then Some(Some(n)) else None
      case None => None
  }

  /** `PolicyGoals(**d)`; extra keys are ignored. A missing `max_disruption`
      takes the default "medium"; a present one goes through the validator. */
  function ParsePolicyGoals(d: Obj): (r: Option<PolicyGoals>)
    ensures r.Some? ==> r.value.Valid()
    ensures r.Some? ==> (r.value.targetBudget.None? <==> NoneIfEmpty(Get(d, "target_budget_LKR")).Null?)
    ensures r.Some? && "max_disruption" in d ==> r.value.maxDisruption == NormalizeDisruption(d["max_disruption"])
    ensures "max_disruption" !in d && r.Some? ==> r.value.maxDisruption == "medium"
  {
    var budget := OptRealInRange(NoneIfEmpty(Get(d, "target_budget_LKR")), 0.0, None);
    var goal := OptRealInRange(NoneIfEmpty(Get(d, "co2_reduction_goal_pct")), 0.0, Some(100.0));
    var payback := ThresholdField(Get(d, "payback_threshold_months"));
    var level := if "max_disruption" in d then NormalizeDisruption(d["max_disruption"]) else "medium";
    if budget.Some? && goal.Some? && payback.Some? then
      Some(PolicyGoals(budget.value, payback.value, goal.value, level))
    else None
  }

  /** `model_dump()` of PolicyGoals. */
  function DumpPolicyGoals(g: PolicyGoals): (r: Obj)
    ensures r.Keys == {"target_budget_LKR", "payback_threshold_months", "co2_reduction_goal_pct", "max_disruption"}
  {
    map[
      "target_budget_LKR" := OptFloat(g.targetBudget),
      "payback_threshold_months" := (if g.paybackThreshold.Some? then Int(g.paybackThreshold.value) else Null),
      "co2_reduction_goal_pct" := OptFloat(g.co2Goal),
      "max_disruption" := Str(g.maxDisruption)]
  }

  /** Validating a dump gives back the same goals. */
  lemma PolicyGoalsRoundTrip(g: PolicyGoals)
    requires g.Valid()
    ensures ParsePolicyGoals(DumpPolicyGoals(g)) == Some(g)
  {
    var d := DumpPolicyGoals(g);
    DisruptionOfLevel(g.maxDisruption);
    assert d["max_disruption"] == Str(g.maxDisruption);
    assert Get(d, "target_budget_LKR") == OptFloat(g.targetBudget);
    assert Get(d, "co2_reduction_goal_pct") == OptFloat(g.co2Goal);
    assert Get(d, "payback_threshold_months") == (if g.paybackThreshold.Some? then Int(g.paybackThreshold.value) else Null);
    OptRealRoundTrip(g.targetBudget, 0.0, None);
    OptRealRoundTrip(g.co2Goal, 0.0, Some(100.0));
    PolicyGoalsOf(d, g.targetBudget, g.paybackThreshold, g.co2Goal, g.maxDisruption);
  }

  /** `PolicyGoals(**d)` assembled from what each field validates to. */
  lemma PolicyGoalsOf(d: Obj, b: Option<real>, p: Option<int>, g: Option<real>, level: string)
    requires OptRealInRange(NoneIfEmpty(Get(d, "target_budget_LKR")), 0.0, None) == Some(b)
    requires OptRealInRange(NoneIfEmpty(Get(d, "co2_reduction_goal_pct")), 0.0, Some(100.0)) == Some(g)
    requires ThresholdField(Get(d, "payback_threshold_months")) == Some(p)
    requires (if "max_disruption" in d then NormalizeDisruption(d["max_disruption"]) else "medium") == level
    ensures ParsePolicyGoals(d) == Some(PolicyGoals(b, p, g, level))
  {
  }

  lemma OptRealRoundTrip(x: Option<real>, lo: real, hi: Option<real>)
    requires x.Some? ==> lo <= x.value && (hi.Some? ==> x.value <= hi.value)
    ensures OptRealInRange(NoneIfEmpty(OptFloat(x)), lo, hi) == Some(x)
    ensures OptRealInRange(OptFloat(x), lo, hi) == Some(x)
  {
  }

  lemma DigitsStep(s: string, n: nat)
    requires s != [] && AllDigits(s) && DigitsValue(s[..|s| - 1]) == n
    ensures DigitsValue(s) == n * 10 + (s[|s| - 1] as int - '0' as int)
  {
  }

  lemma PlainStrip(s: string)
    requires s == "150000" || s == "12"
    ensures Strip(s) == s && SplitSign(s) == (false, s) && AllDigits(s)
  {
    assert StripLeft(s) == s;
    assert StripRight(s) == s;
  }

  lemma PlainNotSpecial(s: string)
    requires s == "150000"
    ensures Lower(s) != "inf" && Lower(s) != "infinity" && Lower(s) != "nan" && Find(s, '.') == -1
  {
    assert Lower(s) == s;
  }

  lemma BudgetDigits(s: string)
    requires s == "150000"
    ensures DigitsValue(s) == 150000
  {
    assert AllDigits(s);
    DigitsStep(s[..1], 0);
    DigitsStep(s[..2], 1);
    assert s[..3][..2] == s[..2];
    DigitsStep(s[..3], 15);
    assert s[..4][..3] == s[..3];
    DigitsStep(s[..4], 150);
    assert s[..5][..4] == s[..4];
    DigitsStep(s[..5], 1500);
    assert s[..5] == s[..|s| - 1];
    DigitsStep(s, 15000);
  }

  lemma MonthsDigits(s: string)
    requires s == "12"
    ensures DigitsValue(s) == 12
  {
    assert AllDigits(s);
    DigitsStep(s[..1], 0);
    assert s[..1] == s[..|s| - 1];
    DigitsStep(s, 1);
  }

  lemma DecimalOfDigits(s: string, n: nat)
    requires Find(s, '.') == -1 && AllDigits(s) && s != [] && DigitsValue(s) == n
    ensures ParseUnsignedDecimal(s) == Some(n as real)
  {
    assert FractionValue([]) == 0.0;
  }

  lemma FloatOfDecimal(s: string, x: real)
    requires Strip(s) == s && SplitSign(s) == (false, s)
    requires Lower(s) != "inf" && Lower(s) != "infinity" && Lower(s) != "nan"
    requires ParseUnsignedDecimal(s) == Some(x)
    ensures ParseFloatString(s) == Some(Finite(x))
  {
  }

  lemma IntOfPlainDigits(s: string, n: nat)
    requires Strip(s) == s && SplitSign(s) == (false, s) && AllDigits(s) && s != [] && DigitsValue(s) == n
    ensures IntField(Str(s)) == Some(n)
  {
    assert PyInt(Str(s)) == Some(n);
  }

  /** The intake example: "150000" becomes 150000.0, "12" becomes 12, 20 becomes
      20.0 and "Low" becomes "low". */
  lemma IntakePolicyExample(d: Obj, budget: string, months: string, level: string)
    requires budget == "150000" && months == "12" && level == "Low"
    requires d == map["target_budget_LKR" := Str(budget), "payback_threshold_months" := Str(months),
                      "co2_reduction_goal_pct" := Int(20), "max_disruption" := Str(level)]
    ensures ParsePolicyGoals(d) == Some(PolicyGoals(Some(150000.0), Some(12), Some(20.0), "low"))
  {
    ExampleBudget(budget);
    ExampleThreshold(months);
    LowBecomesLow(level);
    ExampleGoal(Int(20));
    IntakeFields(d, budget, months, level);
    PolicyGoalsOf(d, Some(150000.0), Some(12), Some(20.0), "low");
  }

  lemma ExampleGoal(v: Value)
    requires v == Int(20)
    ensures OptRealInRange(NoneIfEmpty(v), 0.0, Some(100.0)) == Some(Some(20.0))
  {
    assert NoneIfEmpty(v) == v;
    assert FloatField(v) == Some(20.0);
  }

  lemma ExampleBudget(budget: string)
    requires budget == "150000"
    ensures OptRealInRange(NoneIfEmpty(Str(budget)), 0.0, None) == Some(Some(150000.0))
  {
    PlainStrip(budget);
    PlainNotSpecial(budget);
    BudgetDigits(budget);
    DecimalOfDigits(budget, 150000);
    FloatOfDecimal(budget, 150000.0);
    assert FloatField(Str(budget)) == Some(150000.0);
  }

  lemma ExampleThreshold(months: string)
    requires months == "12"
    ensures ThresholdField(Str(months)) == Some(Some(12))
  {
    PlainStrip(months);
    MonthsDigits(months);
    IntOfPlainDigits(months, 12);
  }

  lemma IntakeFields(d: Obj, budget: string, months: string, level: string)
    requires d == map["target_budget_LKR" := Str(budget), "payback_threshold_months" := Str(months),
                      "co2_reduction_goal_pct" := Int(20), "max_disruption" := Str(level)]
    ensures Get(d, "target_budget_LKR") == Str(budget) && Get(d, "payback_threshold_months") == Str(months)
    ensures Get(d, "co2_reduction_goal_pct") == Int(20) && "max_disruption" in d && d["max_disruption"] == Str(level)
  {
  }

  // ---------------------------------------------------------------------------
  // NormalizedInput

  /** The fields of `NormalizedInput` the pipeline's arithmetic reads. */
  datatype NormalizedInput = NormalizedInput(monthlyKwh: real, tariff: real, policy: Option<PolicyGoals>)

  // ---------------------------------------------------------------------------
  // Recommendation

  datatype Recommendation = Recommendation(
    action: string,
    steps: seq<string>,
    pctMin: real,
    pctMax: real,
    estCost: real,
    notes: Option<string>,
    disruption: string,
    kwhSaved: Option<real>,
    payback: Option<real>)
  {
    /** The field bounds: a level, and saved kWh and payback at least 0 when present. */
    predicate Valid() {
      && IsLevel(disruption)
      && (kwhSaved.Some? ==> kwhSaved.value >= 0.0)
      && (payback.Some? ==> payback.value >= 0.0)
    }
  }

  /** A `List[str]` field: a list whose items are all strings. */
  function StringList(v: Value): (r: Option<seq<string>>)
    ensures v.List? && r.Some? ==> |r.value| == |v.items|
    ensures !v.List? ==> r.None?
  {
    if v.List? then StringItems(v.items) else None
  }

  function StringItems(xs: seq<Value>): (r: Option<seq<string>>)
    ensures r.Some? ==> |r.value| == |xs| && forall i :: 0 <= i < |xs| ==> xs[i] == Str(r.value[i])
    ensures r.None? ==> exists i :: 0 <= i < |xs| && !xs[i].Str?
  {
    if xs == [] then Some([])
    else
      var rest := StringItems(xs[1..]);
      if xs[0].Str? && rest.Some? then Some([xs[0].s] + rest.value)
      else
        assert !xs[0].Str? || exists i :: 0 <= i < |xs[1..]| && !xs[1..][i].Str?;
        None
  }

  /** An `Optional[str]` field. */
  function OptString(v: Value): Option<Option<string>> {
    match v
    case Null => Some(None)
    case Str(s) => Some(Some(s))
    case _ => None
  }

  /** `Recommendation(**d)`; extra keys are ignored, missing optional fields
      take their defaults. */
  function ParseRecommendation(d: Obj): (r: Option<Recommendation>)
    ensures r.Some? ==> r.value.Valid()
    ensures r.Some? ==> "action" in d && d["action"] == Str(r.value.action)
    ensures r.Some? && "steps" in d ==> StringList(d["steps"]) == Some(r.value.steps)
    ensures r.Some? && "steps" !in d ==> r.value.steps == []
    ensures (!("action" in d) || !("pct_kwh_reduction_min" in d) || !("pct_kwh_reduction_max" in d)
             || !("est_cost" in d)) ==> r.None?
  {
    var action := Get(d, "action");
    var steps := if "steps" in d then StringList(d["steps"]) else Some([]);
    var pmin := if "pct_kwh_reduction_min" in d then FloatField(d["pct_kwh_reduction_min"]) else None;
    var pmax := if "pct_kwh_reduction_max" in d then FloatField(d["pct_kwh_reduction_max"]) else None;
    var cost := if "est_cost" in d then FloatField(d["est_cost"]) else None;
    var notes := if "notes" in d then OptString(d["notes"]) else Some(Some(""));
    var level := if "disruption" in d then NormalizeDisruption(d["disruption"]) else "medium";
    var kwh := OptRealInRange(Get(d, "kwh_saved_per_month"), 0.0, None);
    var pb := OptRealInRange(Get(d, "payback_months"), 0.0, None);
    if action.Str? && steps.Some? && pmin.Some? && pmax.Some? && cost.Some? && notes.Some?
       && kwh.Some? && pb.Some?
    then Some(Recommendation(action.s, steps.value, pmin.value, pmax.value, cost.value,
                             notes.value, level, kwh.value, pb.value))
    else None
  }

  function StrItems(xs: seq<string>): (r: seq<Value>)
    ensures |r| == |xs| && forall i :: 0 <= i < |xs| ==> r[i] == Str(xs[i])
  {
    if xs == [] then [] else [Str(xs[0])] + StrItems(xs[1..])
  }

  /** `model_dump()` of a Recommendation. */
  function DumpRecommendation(r: Recommendation): (d: Obj)
    ensures d.Keys == {"action", "steps", "pct_kwh_reduction_min", "pct_kwh_reduction_max", "est_cost",
                       "notes", "disruption", "kwh_saved_per_month", "payback_months"}
  {
    map[
      "action" := Str(r.action),
      "steps" := List(StrItems(r.steps)),
      "pct_kwh_reduction_min" := Float(r.pctMin),
      "pct_kwh_reduction_max" := Float(r.pctMax),
      "est_cost" := Float(r.estCost),
      "notes" := (if r.notes.Some? then Str(r.notes.value) else Null),
      "disruption" := Str(r.disruption),
      "kwh_saved_per_month" := OptFloat(r.kwhSaved),
      "payback_months" := OptFloat(r.payback)]
  }

  lemma StringListOfStrItems(xs: seq<string>)
    ensures StringList(List(StrItems(xs))) == Some(xs)
  {
    var v := StrItems(xs);
    assert forall i :: 0 <= i < |v| ==> v[i].Str?;
    var r := StringItems(v);
    assert r.Some?;
    forall i | 0 <= i < |xs|
      ensures r.value[i] == xs[i]
    {
      assert Str(r.value[i]) == v[i] == Str(xs[i]);
    }
    assert |r.value| == |xs|;
    assert r.value == xs;
    assert StringList(List(v)) == r;
  }

  /** Validating a dump gives back the same recommendation. */
  lemma RecommendationRoundTrip(r: Recommendation)
    requires r.Valid()
    ensures ParseRecommendation(DumpRecommendation(r)) == Some(r)
  {
    var d := DumpRecommendation(r);
    StringListOfStrItems(r.steps);
    DisruptionOfLevel(r.disruption);
    DumpFields(r);
    OptRealRoundTrip(r.kwhSaved, 0.0, None);
    OptRealRoundTrip(r.payback, 0.0, None);
    assert OptString(d["notes"]) == Some(r.notes);
    RecommendationOf(d, r);
  }

  /** The entries of a dump. */
  lemma DumpFields(r: Recommendation)
    ensures var d := DumpRecommendation(r);
      && d["action"] == Str(r.action) && d["steps"] == List(StrItems(r.steps))
      && d["pct_kwh_reduction_min"] == Float(r.pctMin) && d["pct_kwh_reduction_max"] == Float(r.pctMax)
      && d["est_cost"] == Float(r.estCost) && d["notes"] == (if r.notes.Some? then Str(r.notes.value) else Null)
      && d["disruption"] == Str(r.disruption)
      && Get(d, "kwh_saved_per_month") == OptFloat(r.kwhSaved) && Get(d, "payback_months") == OptFloat(r.payback)
  {
  }

  /** `Recommendation(**d)` assembled from what each field validates to. */
  lemma RecommendationOf(d: Obj, r: Recommendation)
    requires "action" in d && d["action"] == Str(r.action)
    requires "steps" in d && StringList(d["steps"]) == Some(r.steps)
    requires "pct_kwh_reduction_min" in d && FloatField(d["pct_kwh_reduction_min"]) == Some(r.pctMin)
    requires "pct_kwh_reduction_max" in d && FloatField(d["pct_kwh_reduction_max"]) == Some(r.pctMax)
    requires "est_cost" in d && FloatField(d["est_cost"]) == Some(r.estCost)
    requires "notes" in d && OptString(d["notes"]) == Some(r.notes)
    requires "disruption" in d && NormalizeDisruption(d["disruption"]) == r.disruption
    requires OptRealInRange(Get(d, "kwh_saved_per_month"), 0.0, None) == Some(r.kwhSaved)
    requires OptRealInRange(Get(d, "payback_months"), 0.0, None) == Some(r.payback)
    ensures ParseRecommendation(d) == Some(r)
  {
  }

  // ---------------------------------------------------------------------------
  // Finding

  predicate IsArea(s: string) {
    s == "lighting" || s == "AC" || s == "standby" || s == "envelope" || s == "other"
  }

  predicate IsSeverity(s: string) {
    s == "low" || s == "med" || s == "high"
  }

  /** The alias table of `_normalize_area`, keyed by the trimmed lower-cased text. */
  function AreaAlias(k: string): (r: Option<string>)
    ensures r.Some? ==> IsArea(r.value)
  {
    if k == "ac" || k == "a/c" || k == "aircon" || k == "air-conditioning" || k == "air_conditioning"
       || k == "hvac" then Some("AC")
    else if k == "lighting" || k == "lights" then Some("lighting")
    else if k == "standby" || k == "idle" || k == "phantom" then Some("standby")
    else if k == "envelope" || k == "insulation" || k == "building_shell" || k == "shell" then Some("envelope")
    else if k == "other" || k == "operations" then Some("other")
    else None
  }

  /** `_normalize_area`: None gives "other", an alias gives its area, and any
      other value comes back as it was (for the Literal check to reject). As
      with the disruption levels, `str()` of a non-string is never an alias. */
  function NormalizeArea(v: Value): (r: Value)
    ensures v.Null? ==> r == Str("other")
    ensures r != v ==> r.Str? && IsArea(r.s)
    ensures v.Str? && AreaAlias(NormKey(v.s)).None? ==> r == v
  {
    if v.Null? then Str("other")
    else if v.Str? && AreaAlias(NormKey(v.s)).Some? then Str(AreaAlias(NormKey(v.s)).value)
    else v
  }

  /** Each canonical area maps to itself. */
  lemma AreaCanonicalFixed(s: string)
    requires IsArea(s)
    ensures NormalizeArea(Str(s)) == Str(s)
  {
    StripFixed(s);
    if s == "AC" {
      assert Lower(s) == "ac";
      assert AreaAlias("ac") == Some("AC");
      AreaOfKey(s, "ac");
    } else {
      LowerFixed(s);
      AreaAliasFixed(s);
      AreaOfKey(s, s);
    }
  }

  lemma AreaAliasFixed(s: string)
    requires IsArea(s) && s != "AC"
    ensures AreaAlias(s) == Some(s)
  {
    if s == "lighting" {
      assert AreaAlias("lighting") == Some("lighting");
    } else if s == "standby" {
      assert AreaAlias("standby") == Some("standby");
    } else if s == "envelope" {
      assert AreaAlias("envelope") == Some("envelope");
    } else {
      assert AreaAlias("other") == Some("other");
    }
  }

  lemma AreaOfKey(s: string, k: string)
    requires k == NormKey(s) && AreaAlias(k).Some?
    ensures NormalizeArea(Str(s)) == Str(AreaAlias(k).value)
  {
  }

  /** Normalising an area twice is normalising it once. */
  lemma NormalizeAreaIdempotent(v: Value)
    ensures NormalizeArea(NormalizeArea(v)) == NormalizeArea(v)
  {
    var r := NormalizeArea(v);
    if r != v {
      AreaCanonicalFixed(r.s);
    }
  }

  /** The alias table of `_normalize_severity`. */
  function SeverityAlias(k: string): (r: Option<string>)
    ensures r.Some? ==> IsSeverity(r.value)
  {
    if k == "low" || k == "lo" || k == "l" then Some("low")
    else if k == "med" || k == "mid" || k == "medium" || k == "moderate" || k == "m" then Some("med")
    else if k == "high" || k == "hi" || k == "h" || k == "severe" then Some("high")
    else None
  }

  /** `_normalize_severity`: None gives "low", an alias gives its severity,
      anything else comes back as it was. */
  function NormalizeSeverity(v: Value): (r: Value)
    ensures v.Null? ==> r == Str("low")
    ensures r != v ==> r.Str? && IsSeverity(r.s)
    ensures v.Str? && SeverityAlias(NormKey(v.s)).None? ==> r == v
  {
    if v.Null? then Str("low")
    else if v.Str? && SeverityAlias(NormKey(v.s)).Some? then Str(SeverityAlias(NormKey(v.s)).value)
    else v
  }

  lemma SeverityCanonicalFixed(s: string)
    requires IsSeverity(s)
    ensures NormalizeSeverity(Str(s)) == Str(s)
  {
    StripFixed(s);
    LowerFixed(s);
    var k := NormKey(s);
    assert SeverityAlias(k) == Some(s);
    SeverityOfKey(s, k);
  }

  lemma SeverityOfKey(s: string, k: string)
    requires k == NormKey(s) && SeverityAlias(k).Some?
    ensures NormalizeSeverity(Str(s)) == Str(SeverityAlias(k).value)
  {
  }

  /** Normalising a severity twice is normalising it once. */
  lemma NormalizeSeverityIdempotent(v: Value)
    ensures NormalizeSeverity(NormalizeSeverity(v)) == NormalizeSeverity(v)
  {
    var r := NormalizeSeverity(v);
    if r != v {
      SeverityCanonicalFixed(r.s);
    }
  }

  datatype Finding = Finding(area: string, issue: string, severity: string, reason: string)
  {
    predicate Valid() {
      IsArea(area) && IsSeverity(severity)
    }
  }

  /** `Finding(**d)`: all four fields are required; area and severity are
      normalised first and must then be one of their literals. */
  function ParseFinding(d: Obj): (r: Option<Finding>)
    ensures r.Some? ==> r.value.Valid()
    ensures r.Some? ==> "area" in d && "severity" in d && "issue" in d && "reason" in d
  {
    if "area" in d && "issue" in d && "severity" in d && "reason" in d then
      var area := NormalizeArea(d["area"]);
      var sev := NormalizeSeverity(d["severity"]);
      if area.Str? && IsArea(area.s) && d["issue"].Str? && sev.Str? && IsSeverity(sev.s) && d["reason"].Str?
      then Some(Finding(area.s, d["issue"].s, sev.s, d["reason"].s))
      else None
    else None
  }
}
