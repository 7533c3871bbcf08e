/** `apply_policy`: the twin of the policy agent that works on validated
    recommendations. It dumps them to dicts, runs the same three stages,
    writes each computed payback into the dicts in place, and validates the
    survivors again.

    The stages take a flag `clamp`. With `clamp` false they are the code as
    written, whose payback divides the raw cost; with `clamp` true they are
    the corrected variant that clamps the cost at 0 as the policy agent does.
    The two keep the same items and differ only in a negative payback, which
    the rebuild rejects. */
module Constraints {
  import opened Wrappers
  import opened Text
  import opened Values
  import opened Sorting
  import opened Lists
  import opened Models
  import PolicyAgent

  // ---------------------------------------------------------------------------
  // Per-action helpers

  /** `_IDX.get((level or "medium").strip().lower(), 2)`. Unlike the policy
      agent this one strips blanks. The levels reaching it are strings or
      None; None and "" read as "medium". */
  function RankOf(v: Value): (r: nat)
    ensures r <= 3
    ensures !v.Str? || v.s == "" ==> r == 2
  {
    if v.Str? && v.s != "" then LevelRank(NormKey(v.s)) else 2
  }

  /** `_disruption_ok` */
  predicate DisruptionOk(level: Value, cap: string) {
    RankOf(level) <= RankOf(Str(cap))
  }

  /** `min(max(_num(pct_kwh_reduction_min), 0), 100) / 100` */
  function PctFraction(a: Obj): (r: real)
    ensures 0.0 <= r <= 1.0
  {
    Min(Max(NumOr(Get(a, "pct_kwh_reduction_min"), 0.0), 0.0), 100.0) / 100.0
  }

  /** `_est_kwh_saved_per_month` */
  function EstKwhSaved(a: Obj, base: real): (r: real)
    ensures !Get(a, "kwh_saved_per_month").Null? ==> r >= 0.0
    ensures base >= 0.0 ==> r >= 0.0
    ensures base >= 0.0 && Get(a, "kwh_saved_per_month").Null? ==> r <= base
  {
    if !Get(a, "kwh_saved_per_month").Null? then Max(NumOr(Get(a, "kwh_saved_per_month"), 0.0), 0.0)
    else Scale(base, PctFraction(a))
  }

  /** `_monthly_savings_LKR`, clamped at 0 here. */
  function MonthlySavings(a: Obj, base: real, tariff: real): (r: real)
    ensures r >= 0.0
  {
    Max(Mul(EstKwhSaved(a, base), Max(tariff, 0.0)), 0.0)
  }

  /** `max(_num(est_cost), 0)` */
  function Capex(a: Obj): (r: real)
    ensures r >= 0.0
  {
    Max(NumOr(Get(a, "est_cost"), 0.0), 0.0)
  }

  /** `_payback_months` as written: a declared payback is trusted when it is
      at least 0 and read as None otherwise, with no fall-through; an
      undeclared one is the raw, unclamped cost over the monthly savings. */
  function PaybackAsWritten(a: Obj, base: real, tariff: real): (r: Option<real>)
    ensures !Get(a, "payback_months").Null? ==>
      (r.Some? <==> NumOr(Get(a, "payback_months"), -1.0) >= 0.0)
      && (r.Some? ==> r.value == NumOr(Get(a, "payback_months"), -1.0))
    ensures Get(a, "payback_months").Null? ==> (r.Some? <==> MonthlySavings(a, base, tariff) > 0.0)
    ensures NumOr(Get(a, "est_cost"), 0.0) >= 0.0 && r.Some? ==> r.value >= 0.0
  {
    if !Get(a, "payback_months").Null? then
      var p := NumOr(Get(a, "payback_months"), -1.0);
      if p >= 0.0 then Some(p) else None
    else
      var monthly := MonthlySavings(a, base, tariff);
      if monthly > 0.0 then Some(Ratio(NumOr(Get(a, "est_cost"), 0.0), monthly)) else None
  }

  /** `_payback_months` with the cost clamped at 0, as the policy agent does:
      never negative, the payback as written raised to 0, and equal to the
      code as written whenever the cost is not negative. */
  function PaybackMonths(a: Obj, base: real, tariff: real): (r: Option<real>)
    ensures r.Some? ==> r.value >= 0.0
    ensures r.None? <==> PaybackAsWritten(a, base, tariff).None?
    ensures r.Some? ==> r.value == Max(PaybackAsWritten(a, base, tariff).value, 0.0)
    ensures NumOr(Get(a, "est_cost"), 0.0) >= 0.0 ==> r == PaybackAsWritten(a, base, tariff)
  {
    if !Get(a, "payback_months").Null? then
      var p := NumOr(Get(a, "payback_months"), -1.0);
      if p >= 0.0 then Some(p) else None
    else
      var monthly := MonthlySavings(a, base, tariff);
      if monthly > 0.0 then
        ClampedRatio(NumOr(Get(a, "est_cost"), 0.0), monthly);
        Some(Ratio(Capex(a), monthly))
      else None
  }

  /** Dividing the clamped cost is clamping the quotient. */
  lemma ClampedRatio(c: real, m: real)
    requires m > 0.0
    ensures Ratio(Max(c, 0.0), m) == Max(Ratio(c, m), 0.0)
  {
    if c < 0.0 {
      assert Ratio(0.0, m) == 0.0;
    }
  }

  /** `_value_per_LKR` */
  function ValuePerLkr(a: Obj, base: real): (r: real)
    ensures base >= 0.0 ==> r >= 0.0
    ensures Capex(a) == 0.0 && EstKwhSaved(a, base) > 0.0 ==> r == 1000000000000.0
    ensures Capex(a) > 0.0 ==> r == EstKwhSaved(a, base) / Capex(a)
  {
    PolicyAgent.FreeOrRatio(EstKwhSaved(a, base), Capex(a))
  }

  // ---------------------------------------------------------------------------
  // The stages, as functions of the list

  function CapRule(cap: string): Obj -> bool {
    (a: Obj) => DisruptionOk(Get(a, "disruption"), cap)
  }

  /** The payback recorded on an item: as written, or with the cost clamped. */
  function Payback(a: Obj, base: real, tariff: real, clamp: bool): Option<real> {
    if clamp then PaybackMonths(a, base, tariff) else PaybackAsWritten(a, base, tariff)
  }

  /** The item after `a["payback_months"] = pb`. */
  function Annotate(a: Obj, base: real, tariff: real, clamp: bool): Obj {
    a["payback_months" := OptFloat(Payback(a, base, tariff, clamp))]
  }

  /** Annotating adds or overwrites `payback_months` and leaves every other
      key as it was. */
  lemma AnnotateFields(a: Obj, base: real, tariff: real, clamp: bool)
    ensures Annotate(a, base, tariff, clamp).Keys == a.Keys + {"payback_months"}
    ensures forall k :: k in a && k != "payback_months" ==> Annotate(a, base, tariff, clamp)[k] == a[k]
    ensures Annotate(a, base, tariff, clamp)["payback_months"] == OptFloat(Payback(a, base, tariff, clamp))
  {
  }

  /** The keep rule: a defined payback within the threshold, or an undefined
      one with a cost of at most 5000. */
  predicate Keeps(a: Obj, thr: int, base: real, tariff: real) {
    var pb := PaybackAsWritten(a, base, tariff);
    if pb.None? then NumOr(Get(a, "est_cost"), 0.0) <= 5000.0 else pb.value <= thr as real
  }

  /** What the payback loop appends to `kept` for one item, if anything. Both
      variants decide by the payback as written: for a threshold of at least
      0 the clamped payback passes exactly when it does. */
  function KeepRule(thr: int, base: real, tariff: real, clamp: bool): Obj -> Option<Obj> {
    (a: Obj) => if Keeps(a, thr, base, tariff) then Some(Annotate(a, base, tariff, clamp)) else None
  }

  /** For a threshold of at least 0 the keep rule reads the same with the
      clamped payback. */
  lemma KeepsClamped(a: Obj, thr: int, base: real, tariff: real)
    requires thr >= 0
    ensures var pb := PaybackMonths(a, base, tariff);
      Keeps(a, thr, base, tariff) == if pb.None? then NumOr(Get(a, "est_cost"), 0.0) <= 5000.0 else pb.value <= thr as real
  {
  }

  function RankKey(base: real): Obj -> Key {
    (a: Obj) => Key(-ValuePerLkr(a, base), 0.0, 0.0)
  }

  /** The disruption stage; it runs only under a policy with a truthy ceiling. */
  function DisruptionStep(items: seq<Obj>, policy: Option<PolicyGoals>): (seq<Obj>, seq<PolicyAgent.Note>) {
    if policy.Some? && policy.value.maxDisruption != "" then
      var kept := Filter(items, CapRule(policy.value.maxDisruption));
      (kept, if |kept| < |items| then [PolicyAgent.DisruptionDropped] else [])
    else (items, [])
  }

  /** The payback stage; the threshold is already an int of at least 0. */
  function PaybackStep(items: seq<Obj>, policy: Option<PolicyGoals>, base: real, tariff: real, clamp: bool)
    : (seq<Obj>, seq<PolicyAgent.Note>)
  {
    if policy.Some? && policy.value.paybackThreshold.Some? then
      var t := if policy.value.paybackThreshold.value > 0 then policy.value.paybackThreshold.value else 0;
      var f := KeepRule(t, base, tariff, clamp);
      (FilterMap(items, f), if Misses(items, f) > 0 then [PolicyAgent.PaybackFiltered(Misses(items, f), t)] else [])
    else (items, [])
  }

  /** The budget stage. */
  function BudgetStep(items: seq<Obj>, policy: Option<PolicyGoals>, base: real): (seq<Obj>, seq<PolicyAgent.Note>) {
    if policy.Some? && policy.value.targetBudget.Some? then
      var b := Max(policy.value.targetBudget.value, 0.0);
      var ranked := SortBy(items, RankKey(base));
      (Greedy(ranked, Capex, b, 0.0), [PolicyAgent.BudgetApplied(Spent(ranked, Capex, b, 0.0), b)])
    else (items, [])
  }

  /** The dict `_to_model` validates: the item's fields with the defaults it
      supplies for empty steps, notes and disruption. */
  function ModelFields(d: Obj): Obj {
    map[
      "action" := Get(d, "action"),
      "steps" := (if Truthy(Get(d, "steps")) then Get(d, "steps") else List([])),
      "pct_kwh_reduction_min" := GetOr(d, "pct_kwh_reduction_min", Float(0.0)),
      "pct_kwh_reduction_max" := GetOr(d, "pct_kwh_reduction_max", Float(0.0)),
      "est_cost" := GetOr(d, "est_cost", Float(0.0)),
      "notes" := (if Truthy(Get(d, "notes")) then Get(d, "notes") else Str("")),
      "disruption" := (if Truthy(Get(d, "disruption")) then Get(d, "disruption") else Str("medium")),
      "kwh_saved_per_month" := Get(d, "kwh_saved_per_month"),
      "payback_months" := Get(d, "payback_months")]
  }

  /** `_to_model`; None where validation fails. */
  function ToModel(d: Obj): Option<Recommendation> {
    ParseRecommendation(ModelFields(d))
  }

  /** `[_to_model(a) for a in items]`; None as soon as one item fails. */
  function ToModels(ds: seq<Obj>): (r: Option<seq<Recommendation>>)
    ensures r.Some? ==> |r.value| == |ds|
    ensures r.Some? ==> forall j :: 0 <= j < |ds| ==> ToModel(ds[j]) == Some(r.value[j])
    ensures r.None? ==> exists j :: 0 <= j < |ds| && ToModel(ds[j]).None?
  {
    Lists.AllOf(ds, ToModel)
  }

  function Dumps(recs: seq<Recommendation>): (r: seq<Obj>)
    ensures |r| == |recs|
    ensures forall i :: 0 <= i < |recs| ==> r[i] == DumpRecommendation(recs[i])
  {
    seq(|recs|, i requires 0 <= i < |recs| => DumpRecommendation(recs[i]))
  }

  /** `Recommendations(recommendations=..., policy_report=report)` */
  datatype RecommendationsOut = RecommendationsOut(recommendations: seq<Recommendation>, policyReport: Option<PolicyAgent.Report>)

  datatype Applied = Applied(out: RecommendationsOut, report: PolicyAgent.Report)

  /** The clamped baseline and tariff. */
  function Baseline(n: NormalizedInput): (r: real)
    ensures r >= 0.0 && (n.monthlyKwh >= 0.0 ==> r == n.monthlyKwh)
  {
    Max(n.monthlyKwh, 0.0)
  }

  function TariffOf(n: NormalizedInput): (r: real)
    ensures r >= 0.0 && (n.tariff >= 0.0 ==> r == n.tariff)
  {
    Max(n.tariff, 0.0)
  }

  /** The items the three stages leave, and their notes. */
  function Selected(recs: seq<Recommendation>, n: NormalizedInput, clamp: bool): (seq<Obj>, seq<PolicyAgent.Note>) {
    var base := Baseline(n);
    var (i1, n1) := DisruptionStep(Dumps(recs), n.policy);
    var (i2, n2) := PaybackStep(i1, n.policy, base, TariffOf(n), clamp);
    var (i3, n3) := BudgetStep(i2, n.policy, base);
    (i3, n1 + n2 + n3)
  }

  /** What `apply_policy(recs, normalized)` returns (with `clamp` false);
      None where rebuilding an item raises. The report returned is the one
      stored on the output. */
  function Apply(recs: seq<Recommendation>, n: NormalizedInput, clamp: bool): (r: Option<Applied>)
    ensures r.Some? ==> r.value.out.policyReport == Some(r.value.report)
    ensures r.Some? ==> r.value.report.unmetConstraints == []
    ensures r.Some? <==> ToModels(Selected(recs, n, clamp).0).Some?
  {
    var (items, notes) := Selected(recs, n, clamp);
    var report := PolicyAgent.Report(notes, []);
    match ToModels(items)
    case Some(models) => Some(Applied(RecommendationsOut(models, Some(report)), report))
    case None => None
  }

  // ---------------------------------------------------------------------------
  // The procedure

  /** The payback loop: every item's `payback_months` is overwritten in place
      with its payback as written, and the kept items are those same dicts. */
  method AnnotatePayback(items: array<Obj>, thr: int, base: real, tariff: real)
    returns (kept: seq<Obj>, dropped: nat)
    modifies items
    ensures forall i :: 0 <= i < items.Length ==> items[i] == Annotate(old(items[i]), base, tariff, false)
    ensures kept == FilterMap(old(items[..]), KeepRule(thr, base, tariff, false))
    ensures dropped == Misses(old(items[..]), KeepRule(thr, base, tariff, false))
  {
    ghost var orig := items[..];
    kept := [];
    dropped := 0;
    var i := 0;
    while i < items.Length
      invariant 0 <= i <= items.Length
      invariant forall j :: 0 <= j < i ==> items[j] == Annotate(orig[j], base, tariff, false)
      invariant forall j :: i <= j < items.Length ==> items[j] == orig[j]
      invariant kept == FilterMap(orig[..i], KeepRule(thr, base, tariff, false))
      invariant dropped == Misses(orig[..i], KeepRule(thr, base, tariff, false))
    {
      KeepRuleSnoc(orig, thr, base, tariff, i);
      var keep := AnnotateAt(items, i, thr, base, tariff);
      if keep {
        kept := kept + [items[i]];
      } else {
        dropped := dropped + 1;
      }
      i := i + 1;
    }
    assert orig[..items.Length] == orig;
  }

  /** One pass of the payback loop's body: record item `i`'s payback and say
      whether it is kept. */
  method AnnotateAt(items: array<Obj>, i: int, thr: int, base: real, tariff: real) returns (keep: bool)
    requires 0 <= i < items.Length
    modifies items
    ensures items[..] == old(items[..])[i := Annotate(old(items[i]), base, tariff, false)]
    ensures keep == Keeps(old(items[i]), thr, base, tariff)
  {
    var a := items[i];
    keep := Keeps(a, thr, base, tariff);
    items[i] := Annotate(a, base, tariff, false);
  }

  /** One more item through the payback loop's keep rule. */
  lemma KeepRuleSnoc(xs: seq<Obj>, thr: int, base: real, tariff: real, i: int)
    requires 0 <= i < |xs|
    ensures FilterMap(xs[..i + 1], KeepRule(thr, base, tariff, false))
      == FilterMap(xs[..i], KeepRule(thr, base, tariff, false))
         + (if Keeps(xs[i], thr, base, tariff) then [Annotate(xs[i], base, tariff, false)] else [])
    ensures Misses(xs[..i + 1], KeepRule(thr, base, tariff, false))
      == Misses(xs[..i], KeepRule(thr, base, tariff, false)) + (if Keeps(xs[i], thr, base, tariff) then 0 else 1)
  {
    FilterMapSnoc(xs, KeepRule(thr, base, tariff, false), i);
  }

  /** The payback stage of `apply_policy`, on a fresh buffer of the items. */
  method ApplyPayback(items: seq<Obj>, policy: Option<PolicyGoals>, base: real, tariff: real)
    returns (out: seq<Obj>, notes: seq<PolicyAgent.Note>)
    ensures (out, notes) == PaybackStep(items, policy, base, tariff, false)
  {
    out, notes := items, [];
    if policy.Some? && policy.value.paybackThreshold.Some? {
      var t := if policy.value.paybackThreshold.value > 0 then policy.value.paybackThreshold.value else 0;
      var buf := new Obj[|items|](j requires 0 <= j < |items| => items[j]);
      assert buf[..] == items;
      var dropped;
      out, dropped := AnnotatePayback(buf, t, base, tariff);
      if dropped > 0 {
        notes := [PolicyAgent.PaybackFiltered(dropped, t)];
      }
    }
  }

  /** The budget stage of `apply_policy`. */
  method ApplyBudget(items: seq<Obj>, policy: Option<PolicyGoals>, base: real)
    returns (out: seq<Obj>, notes: seq<PolicyAgent.Note>)
    ensures (out, notes) == BudgetStep(items, policy, base)
  {
    out, notes := items, [];
    if policy.Some? && policy.value.targetBudget.Some? {
      var b := Max(policy.value.targetBudget.value, 0.0);
      var ranked := SortBy(items, RankKey(base));
      var spent;
      out, spent := GreedyPass(ranked, Capex, b);
      notes := [PolicyAgent.BudgetApplied(spent, b)];
    }
  }

  /** `apply_policy`, as written */
  method ApplyPolicy(recs: seq<Recommendation>, n: NormalizedInput) returns (r: Option<Applied>)
    ensures r == Apply(recs, n, false)
  {
    var base := Baseline(n);
    var r1, n1 := DisruptionStep(Dumps(recs), n.policy).0, DisruptionStep(Dumps(recs), n.policy).1;
    var r2, n2 := ApplyPayback(r1, n.policy, base, TariffOf(n));
    var r3, n3 := ApplyBudget(r2, n.policy, base);
    var models := ToModels(r3);
    if models.None? {
      return None;
    }
    var report := PolicyAgent.Report(n1 + n2 + n3, []);
    return Some(Applied(RecommendationsOut(models.value, Some(report)), report));
  }

  // ---------------------------------------------------------------------------
  // Rebuilding the validated recommendations

  /** The recommendation `_to_model` rebuilds from a dump: absent notes come
      back as the empty string, everything else as it was. */
  function Rebuilt(r: Recommendation): Recommendation {
    r.(notes := Some(r.notes.GetOr("")))
  }

  /** The defaults `_to_model` fills in turn a dump of a valid recommendation
      into a dump of its rebuilt form. */
  lemma ModelFieldsOfDump(r: Recommendation)
    requires r.Valid()
    ensures ModelFields(DumpRecommendation(r)) == DumpRecommendation(Rebuilt(r))
  {
    var d := DumpRecommendation(r);
    assert !Truthy(d["steps"]) ==> r.steps == [];
    assert Truthy(d["disruption"]);
  }

  /** Rebuilding a dump of a valid recommendation succeeds and gives back the
      same fields. */
  lemma ToModelOfDump(r: Recommendation)
    requires r.Valid()
    ensures ToModel(DumpRecommendation(r)) == Some(Rebuilt(r))
  {
    ModelFieldsOfDump(r);
    RecommendationRoundTrip(Rebuilt(r));
  }

  /** A dict that is the dump of a valid recommendation. */
  ghost predicate IsDump(d: Obj) {
    exists r: Recommendation :: r.Valid() && d == DumpRecommendation(r)
  }

  /** Recording a clamped payback on a dump gives the dump of the same
      recommendation with that payback, which is still valid. (As written a
      negative payback can be recorded instead: see RebateRaises.) */
  lemma AnnotateDump(r: Recommendation, base: real, tariff: real)
    requires r.Valid()
    ensures var q := r.(payback := PaybackMonths(DumpRecommendation(r), base, tariff));
      q.Valid() && Annotate(DumpRecommendation(r), base, tariff, true) == DumpRecommendation(q)
  {
  }

  lemma AnnotateKeepsDump(d: Obj, base: real, tariff: real)
    requires IsDump(d)
    ensures IsDump(Annotate(d, base, tariff, true))
  {
    var r: Recommendation :| r.Valid() && d == DumpRecommendation(r);
    AnnotateDump(r, base, tariff);
  }

  lemma DumpsAreDumps(recs: seq<Recommendation>)
    requires forall i :: 0 <= i < |recs| ==> recs[i].Valid()
    ensures forall i :: 0 <= i < |Dumps(recs)| ==> IsDump(Dumps(recs)[i])
  {
    forall i | 0 <= i < |recs|
      ensures IsDump(Dumps(recs)[i])
    {
      assert recs[i].Valid() && Dumps(recs)[i] == DumpRecommendation(recs[i]);
    }
  }

  // ---------------------------------------------------------------------------
  // What the stages keep

  /** The disruption stage keeps only items of the input. */
  lemma DisruptionStepPreserves(items: seq<Obj>, policy: Option<PolicyGoals>, p: Obj -> bool)
    requires forall i :: 0 <= i < |items| ==> p(items[i])
    ensures var out := DisruptionStep(items, policy).0; forall j :: 0 <= j < |out| ==> p(out[j])
  {
    if policy.Some? && policy.value.maxDisruption != "" {
      var cap := policy.value.maxDisruption;
      FilterSound(items, CapRule(cap));
      SubMultisetPreserves(Filter(items, CapRule(cap)), items, p);
    }
  }

  /** The budget stage keeps only items of the input. */
  lemma BudgetStepPreserves(items: seq<Obj>, policy: Option<PolicyGoals>, base: real, p: Obj -> bool)
    requires forall i :: 0 <= i < |items| ==> p(items[i])
    ensures var out := BudgetStep(items, policy, base).0; forall j :: 0 <= j < |out| ==> p(out[j])
  {
    if policy.Some? && policy.value.targetBudget.Some? {
      RankedGreedyPreserves(items, RankKey(base), Capex, Max(policy.value.targetBudget.value, 0.0), p);
    }
  }

  /** The payback stage keeps a property that recording the payback keeps. */
  lemma PaybackStepPreserves(items: seq<Obj>, policy: Option<PolicyGoals>, base: real, tariff: real, clamp: bool,
                              p: Obj -> bool)
    requires forall i :: 0 <= i < |items| ==> p(items[i])
    requires forall a :: p(a) ==> p(Annotate(a, base, tariff, clamp))
    ensures var out := PaybackStep(items, policy, base, tariff, clamp).0; forall j :: 0 <= j < |out| ==> p(out[j])
  {
    if policy.Some? && policy.value.paybackThreshold.Some? {
      var t := if policy.value.paybackThreshold.value > 0 then policy.value.paybackThreshold.value else 0;
      FilterMapPreserves(items, KeepRule(t, base, tariff, clamp), p, p);
    }
  }

  /** Every item the clamped stages leave is a dump of a valid recommendation. */
  lemma SelectedAreDumps(recs: seq<Recommendation>, n: NormalizedInput)
    requires forall i :: 0 <= i < |recs| ==> recs[i].Valid()
    ensures var out := Selected(recs, n, true).0; forall j :: 0 <= j < |out| ==> IsDump(out[j])
  {
    var base := Baseline(n);
    var tariff := TariffOf(n);
    var dump := (d: Obj) => IsDump(d);
    var i0 := Dumps(recs);
    DumpsAreDumps(recs);
    var i1 := DisruptionStep(i0, n.policy).0;
    DisruptionStepPreserves(i0, n.policy, dump);
    var i2 := PaybackStep(i1, n.policy, base, tariff, true).0;
    forall a | dump(a)
      ensures dump(Annotate(a, base, tariff, true))
    {
      AnnotateKeepsDump(a, base, tariff);
    }
    PaybackStepPreserves(i1, n.policy, base, tariff, true, dump);
    BudgetStepPreserves(i2, n.policy, base, dump);
  }

  /** With the cost clamped, rebuilding never fails: for valid input
      recommendations the corrected variant always returns. */
  lemma ApplyRebuilds(recs: seq<Recommendation>, n: NormalizedInput)
    requires forall i :: 0 <= i < |recs| ==> recs[i].Valid()
    ensures Apply(recs, n, true).Some?
  {
    var out := Selected(recs, n, true).0;
    SelectedAreDumps(recs, n);
    forall j | 0 <= j < |out|
      ensures ToModel(out[j]).Some?
    {
      assert IsDump(out[j]);
      var r: Recommendation :| r.Valid() && out[j] == DumpRecommendation(r);
      ToModelOfDump(r);
    }
  }

  function RebuiltAll(recs: seq<Recommendation>): (r: seq<Recommendation>)
    ensures |r| == |recs| && forall i :: 0 <= i < |recs| ==> r[i] == Rebuilt(recs[i])
  {
    seq(|recs|, i requires 0 <= i < |recs| => Rebuilt(recs[i]))
  }

  /** Without a policy every stage passes its items through without notes. */
  lemma NoPolicySelectsAll(recs: seq<Recommendation>, n: NormalizedInput, clamp: bool)
    requires n.policy.None?
    ensures Selected(recs, n, clamp) == (Dumps(recs), [])
  {
    var i0 := Dumps(recs);
    assert DisruptionStep(i0, None) == (i0, []);
    assert PaybackStep(i0, None, Baseline(n), TariffOf(n), clamp) == (i0, []);
    assert BudgetStep(i0, None, Baseline(n)) == (i0, []);
    var nil: seq<PolicyAgent.Note> := [];
    assert nil + nil + nil == nil;
  }

  /** Without a policy nothing is filtered, as written or clamped: the
      recommendations come back in order with empty notes filled in, and the
      report is empty. */
  lemma ApplyNoPolicy(recs: seq<Recommendation>, n: NormalizedInput, clamp: bool)
    requires n.policy.None?
    requires forall i :: 0 <= i < |recs| ==> recs[i].Valid()
    ensures Apply(recs, n, clamp) == Some(Applied(RecommendationsOut(RebuiltAll(recs), Some(PolicyAgent.Report([], []))),
                                                  PolicyAgent.Report([], [])))
  {
    NoPolicySelectsAll(recs, n, clamp);
    NoPolicySelectsAll(recs, n, true);
    ApplyRebuilds(recs, n);
    var ms := ToModels(Dumps(recs)).value;
    forall j | 0 <= j < |recs|
      ensures ms[j] == Rebuilt(recs[j])
    {
      ToModelOfDump(recs[j]);
    }
    assert ms == RebuiltAll(recs);
  }

  /** Each recommendation the corrected variant returns is the rebuilt form
      of a valid recommendation whose dump is the item at the same position. */
  lemma OutputOfItem(recs: seq<Recommendation>, n: NormalizedInput, j: int) returns (r: Recommendation)
    requires forall i :: 0 <= i < |recs| ==> recs[i].Valid()
    requires Apply(recs, n, true).Some?
    requires 0 <= j < |Apply(recs, n, true).value.out.recommendations|
    ensures |Apply(recs, n, true).value.out.recommendations| == |Selected(recs, n, true).0|
    ensures r.Valid() && Selected(recs, n, true).0[j] == DumpRecommendation(r)
    ensures Apply(recs, n, true).value.out.recommendations[j] == Rebuilt(r)
  {
    var items := Selected(recs, n, true).0;
    SelectedAreDumps(recs, n);
    assert IsDump(items[j]);
    r :| r.Valid() && items[j] == DumpRecommendation(r);
    ToModelOfDump(r);
  }

  // ---------------------------------------------------------------------------
  // What the policy guarantees

  /** The fields the stages read back from a dump. */
  lemma DumpFields(r: Recommendation)
    ensures Get(DumpRecommendation(r), "disruption") == Str(r.disruption)
    ensures Get(DumpRecommendation(r), "est_cost") == Float(r.estCost)
    ensures Get(DumpRecommendation(r), "payback_months") == OptFloat(r.payback)
  {
  }

  /** A recorded payback: none with a cost of at most 5000, or one within the
      threshold. */
  predicate PaybackRecorded(a: Obj, t: int) {
    match Get(a, "payback_months")
    case Null => NumOr(Get(a, "est_cost"), 0.0) <= 5000.0
    case Float(p) => p <= t as real
    case _ => false
  }

  lemma SelectedRespectsDisruption(recs: seq<Recommendation>, n: NormalizedInput)
    requires n.policy.Some? && n.policy.value.maxDisruption != ""
    ensures var out := Selected(recs, n, true).0;
      forall j :: 0 <= j < |out| ==> DisruptionOk(Get(out[j], "disruption"), n.policy.value.maxDisruption)
  {
    var base := Baseline(n);
    var tariff := TariffOf(n);
    var ok := CapRule(n.policy.value.maxDisruption);
    var i0 := Dumps(recs);
    var i1 := DisruptionStep(i0, n.policy).0;
    FilterSound(i0, ok);
    var i2 := PaybackStep(i1, n.policy, base, tariff, true).0;
    forall a | ok(a)
      ensures ok(Annotate(a, base, tariff, true))
    {
      assert Get(Annotate(a, base, tariff, true), "disruption") == Get(a, "disruption");
    }
    PaybackStepPreserves(i1, n.policy, base, tariff, true, ok);
    BudgetStepPreserves(i2, n.policy, base, ok);
  }

  lemma SelectedRespectsPayback(recs: seq<Recommendation>, n: NormalizedInput, t: int)
    requires n.policy.Some? && n.policy.value.paybackThreshold.Some?
    requires t == if n.policy.value.paybackThreshold.value > 0 then n.policy.value.paybackThreshold.value else 0
    ensures var out := Selected(recs, n, true).0; forall j :: 0 <= j < |out| ==> PaybackRecorded(out[j], t)
  {
    var base := Baseline(n);
    var tariff := TariffOf(n);
    var i1 := DisruptionStep(Dumps(recs), n.policy).0;
    var i2 := PaybackStep(i1, n.policy, base, tariff, true).0;
    var f := KeepRule(t, base, tariff, true);
    var rec := (a: Obj) => PaybackRecorded(a, t);
    forall a | f(a).Some?
      ensures rec(f(a).value)
    {
      KeptRecorded(a, t, base, tariff, true);
    }
    FilterMapPreserves(i1, f, (a: Obj) => true, rec);
    BudgetStepPreserves(i2, n.policy, base, rec);
  }

  /** An item the payback rule keeps carries its payback on the kept copy,
      as written or clamped. */
  lemma KeptRecorded(a: Obj, t: int, base: real, tariff: real, clamp: bool)
    requires t >= 0
    requires KeepRule(t, base, tariff, clamp)(a).Some?
    ensures PaybackRecorded(KeepRule(t, base, tariff, clamp)(a).value, t)
  {
    AnnotateFields(a, base, tariff, clamp);
    KeepsClamped(a, t, base, tariff);
    assert Get(Annotate(a, base, tariff, clamp), "est_cost") == Get(a, "est_cost");
  }

  lemma SelectedRespectsBudget(recs: seq<Recommendation>, n: NormalizedInput, b: real)
    requires n.policy.Some? && n.policy.value.targetBudget.Some?
    requires b == Max(n.policy.value.targetBudget.value, 0.0)
    ensures var out := Selected(recs, n, true).0; var notes := Selected(recs, n, true).1;
      && Total(out, Capex) <= b
      && SortedBy(out, RankKey(Baseline(n)))
      && |notes| > 0 && notes[|notes| - 1] == PolicyAgent.BudgetApplied(Total(out, Capex), b)
  {
    var base := Baseline(n);
    var i1 := DisruptionStep(Dumps(recs), n.policy).0;
    var i2 := PaybackStep(i1, n.policy, base, TariffOf(n), true).0;
    RankedGreedy(i2, RankKey(base), Capex, b);
  }

  /** Under a disruption ceiling every recommendation the corrected variant
      returns is within it. */
  lemma ApplyRespectsDisruption(recs: seq<Recommendation>, n: NormalizedInput)
    requires forall i :: 0 <= i < |recs| ==> recs[i].Valid()
    requires n.policy.Some? && n.policy.value.maxDisruption != ""
    ensures Apply(recs, n, true).Some?
    ensures var out := Apply(recs, n, true).value.out.recommendations;
      forall j :: 0 <= j < |out| ==> DisruptionOk(Str(out[j].disruption), n.policy.value.maxDisruption)
  {
    ApplyRebuilds(recs, n);
    SelectedRespectsDisruption(recs, n);
    var out := Apply(recs, n, true).value.out.recommendations;
    forall j | 0 <= j < |out|
      ensures DisruptionOk(Str(out[j].disruption), n.policy.value.maxDisruption)
    {
      var r := OutputOfItem(recs, n, j);
      DumpFields(r);
    }
  }

  /** Under a payback threshold every recommendation the corrected variant
      returns either has no payback and costs at most 5000, or pays back
      within the threshold. */
  lemma ApplyRespectsPayback(recs: seq<Recommendation>, n: NormalizedInput, t: int)
    requires forall i :: 0 <= i < |recs| ==> recs[i].Valid()
    requires n.policy.Some? && n.policy.value.paybackThreshold.Some?
    requires t == if n.policy.value.paybackThreshold.value > 0 then n.policy.value.paybackThreshold.value else 0
    ensures Apply(recs, n, true).Some?
    ensures var out := Apply(recs, n, true).value.out.recommendations;
      forall j :: 0 <= j < |out| ==>
        (out[j].payback.None? && out[j].estCost <= 5000.0)
        || (out[j].payback.Some? && 0.0 <= out[j].payback.value <= t as real)
  {
    ApplyRebuilds(recs, n);
    SelectedRespectsPayback(recs, n, t);
    var items := Selected(recs, n, true).0;
    var out := Apply(recs, n, true).value.out.recommendations;
    forall j | 0 <= j < |out|
      ensures (out[j].payback.None? && out[j].estCost <= 5000.0)
        || (out[j].payback.Some? && 0.0 <= out[j].payback.value <= t as real)
    {
      var r := OutputOfItem(recs, n, j);
      assert PaybackRecorded(DumpRecommendation(r), t);
      DumpFields(r);
    }
  }

  /** The clamped cost of a returned recommendation. */
  function CostOf(q: Recommendation): (r: real)
    ensures r >= 0.0 && (q.estCost >= 0.0 ==> r == q.estCost)
  {
    Max(q.estCost, 0.0)
  }

  /** Under a budget the clamped costs of what the corrected variant returns
      fit it, and the last note reports what they cost. */
  lemma ApplyRespectsBudget(recs: seq<Recommendation>, n: NormalizedInput, b: real)
    requires forall i :: 0 <= i < |recs| ==> recs[i].Valid()
    requires n.policy.Some? && n.policy.value.targetBudget.Some?
    requires b == Max(n.policy.value.targetBudget.value, 0.0)
    ensures Apply(recs, n, true).Some?
    ensures var a := Apply(recs, n, true).value; var notes := a.report.notes;
      && Total(a.out.recommendations, CostOf) <= b
      && |notes| > 0 && notes[|notes| - 1] == PolicyAgent.BudgetApplied(Total(a.out.recommendations, CostOf), b)
  {
    ApplyRebuilds(recs, n);
    SelectedRespectsBudget(recs, n, b);
    CostsCarriedOver(recs, n);
    ApplyNotes(recs, n, true);
    var a := Apply(recs, n, true).value;
    BudgetCarried(Total(a.out.recommendations, CostOf), Total(Selected(recs, n, true).0, Capex),
                  a.report.notes, Selected(recs, n, true).1, b);
  }

  /** What the budget stage reports carries over to the returned plan. */
  lemma BudgetCarried(total: real, spent: real, notes: seq<PolicyAgent.Note>, stageNotes: seq<PolicyAgent.Note>, b: real)
    requires total == spent && notes == stageNotes
    requires spent <= b
    requires |stageNotes| > 0 && stageNotes[|stageNotes| - 1] == PolicyAgent.BudgetApplied(spent, b)
    ensures total <= b && |notes| > 0 && notes[|notes| - 1] == PolicyAgent.BudgetApplied(total, b)
  {
  }

  /** The notes of the report are the stages' notes. */
  lemma ApplyNotes(recs: seq<Recommendation>, n: NormalizedInput, clamp: bool)
    requires Apply(recs, n, clamp).Some?
    ensures Apply(recs, n, clamp).value.report.notes == Selected(recs, n, clamp).1
  {
  }

  /** The clamped costs of the returned recommendations add up to the costs
      the budget stage summed. */
  lemma CostsCarriedOver(recs: seq<Recommendation>, n: NormalizedInput)
    requires forall i :: 0 <= i < |recs| ==> recs[i].Valid()
    requires Apply(recs, n, true).Some?
    ensures Total(Apply(recs, n, true).value.out.recommendations, CostOf) == Total(Selected(recs, n, true).0, Capex)
  {
    var items := Selected(recs, n, true).0;
    var out := Apply(recs, n, true).value.out.recommendations;
    forall j | 0 <= j < |items|
      ensures Capex(items[j]) == CostOf(out[j])
    {
      var r := OutputOfItem(recs, n, j);
      DumpFields(r);
    }
    TotalPointwise(items, Capex, out, CostOf);
  }

  // ---------------------------------------------------------------------------
  // The code as written against the corrected variant

  /** A recorded payback below 0, which the rebuild rejects. */
  predicate NegativePayback(d: Obj) {
    Get(d, "payback_months").Float? && Get(d, "payback_months").f < 0.0
  }

  /** The item with a recorded negative payback raised to 0. */
  function ClampPayback(d: Obj): Obj {
    if NegativePayback(d) then d["payback_months" := Float(0.0)] else d
  }

  /** The clamped annotation is the annotation as written with a negative
      payback raised to 0. */
  lemma AnnotateClamps(a: Obj, base: real, tariff: real)
    ensures Annotate(a, base, tariff, true) == ClampPayback(Annotate(a, base, tariff, false))
  {
    var w := Annotate(a, base, tariff, false);
    assert Get(w, "payback_months") == OptFloat(PaybackAsWritten(a, base, tariff));
    if NegativePayback(w) {
      assert PaybackMonths(a, base, tariff) == Some(0.0);
      assert w["payback_months" := Float(0.0)] == a["payback_months" := Float(0.0)];
    }
  }

  /** Raising the recorded payback changes neither the rank nor the cost. */
  lemma ClampKeepsRank(d: Obj, base: real)
    ensures RankKey(base)(ClampPayback(d)) == RankKey(base)(d)
    ensures Capex(ClampPayback(d)) == Capex(d)
  {
    var c := ClampPayback(d);
    assert Get(c, "est_cost") == Get(d, "est_cost");
    assert Get(c, "kwh_saved_per_month") == Get(d, "kwh_saved_per_month");
    assert Get(c, "pct_kwh_reduction_min") == Get(d, "pct_kwh_reduction_min");
    assert PctFraction(c) == PctFraction(d);
    assert EstKwhSaved(c, base) == EstKwhSaved(d, base);
  }

  /** The budget stage commutes with raising negative paybacks to 0. */
  lemma BudgetClamps(items: seq<Obj>, policy: Option<PolicyGoals>, base: real)
    ensures BudgetStep(Map(items, ClampPayback), policy, base).0 == Map(BudgetStep(items, policy, base).0, ClampPayback)
    ensures BudgetStep(Map(items, ClampPayback), policy, base).1 == BudgetStep(items, policy, base).1
  {
    if policy.Some? && policy.value.targetBudget.Some? {
      var b := Max(policy.value.targetBudget.value, 0.0);
      var key := RankKey(base);
      forall y
        ensures key(ClampPayback(y)) == key(y) && Capex(ClampPayback(y)) == Capex(y)
      {
        ClampKeepsRank(y, base);
      }
      SortByMap(items, key, ClampPayback);
      GreedyMap(SortBy(items, key), Capex, b, 0.0, ClampPayback);
    }
  }

  /** The corrected stages leave the notes and the items the stages as
      written leave, each with a negative payback raised to 0. */
  lemma SelectedClamps(recs: seq<Recommendation>, n: NormalizedInput)
    ensures Selected(recs, n, true).1 == Selected(recs, n, false).1
    ensures Selected(recs, n, true).0 == Map(Selected(recs, n, false).0, ClampPayback)
      || Selected(recs, n, true) == Selected(recs, n, false)
    ensures n.policy.Some? && n.policy.value.paybackThreshold.Some? ==>
      Selected(recs, n, true).0 == Map(Selected(recs, n, false).0, ClampPayback)
  {
    if n.policy.Some? && n.policy.value.paybackThreshold.Some? {
      var base := Baseline(n);
      var tariff := TariffOf(n);
      var i1 := DisruptionStep(Dumps(recs), n.policy).0;
      var t := if n.policy.value.paybackThreshold.value > 0 then n.policy.value.paybackThreshold.value else 0;
      var fw := KeepRule(t, base, tariff, false);
      var fc := KeepRule(t, base, tariff, true);
      forall a
        ensures (fc(a).Some? <==> fw(a).Some?) && (fw(a).Some? ==> fc(a).value == ClampPayback(fw(a).value))
      {
        AnnotateClamps(a, base, tariff);
      }
      FilterMapThen(i1, fw, fc, ClampPayback);
      var i2 := PaybackStep(i1, n.policy, base, tariff, false).0;
      assert PaybackStep(i1, n.policy, base, tariff, true) == (Map(i2, ClampPayback), PaybackStep(i1, n.policy, base, tariff, false).1);
      BudgetClamps(i2, n.policy, base);
    }
  }

  /** A rebuilt item never carries a negative payback. */
  lemma RebuiltNotNegative(d: Obj)
    requires ToModel(d).Some?
    ensures !NegativePayback(d)
  {
    assert Get(ModelFields(d), "payback_months") == Get(d, "payback_months");
  }

  /** The rebuild rejects a recorded negative payback. */
  lemma RebuildRejectsNegative(d: Obj)
    requires NegativePayback(d)
    ensures ToModel(d).None?
  {
    var m := ModelFields(d);
    assert Get(m, "payback_months") == Get(d, "payback_months");
    assert OptRealInRange(Get(m, "payback_months"), 0.0, None).None?;
  }

  /** Items without a negative payback are left as they are by clamping. */
  lemma NoNegativeFixed(items: seq<Obj>)
    requires forall j :: 0 <= j < |items| ==> !NegativePayback(items[j])
    ensures Map(items, ClampPayback) == items
  {
    forall j | 0 <= j < |items|
      ensures Map(items, ClampPayback)[j] == items[j]
    {
    }
  }

  /** Items that all rebuild carry no negative payback. */
  lemma RebuiltItemsNotNegative(items: seq<Obj>)
    requires ToModels(items).Some?
    ensures forall j :: 0 <= j < |items| ==> !NegativePayback(items[j])
  {
    forall j | 0 <= j < |items|
      ensures !NegativePayback(items[j])
    {
      RebuiltNotNegative(items[j]);
    }
  }

  /** Wherever `apply_policy` as written returns, it returns what the
      corrected variant returns. */
  lemma AsWrittenAgrees(recs: seq<Recommendation>, n: NormalizedInput)
    requires Apply(recs, n, false).Some?
    ensures Apply(recs, n, false) == Apply(recs, n, true)
  {
    SelectedClamps(recs, n);
    var items := Selected(recs, n, false).0;
    RebuiltItemsNotNegative(items);
    NoNegativeFixed(items);
    assert Selected(recs, n, true) == Selected(recs, n, false);
  }

  /** For valid recommendations, without a negative payback among the items
      kept as written, `apply_policy` as written returns. */
  lemma NoNegativeReturns(recs: seq<Recommendation>, n: NormalizedInput)
    requires forall i :: 0 <= i < |recs| ==> recs[i].Valid()
    requires var items := Selected(recs, n, false).0; forall j :: 0 <= j < |items| ==> !NegativePayback(items[j])
    ensures Apply(recs, n, false).Some?
  {
    NoNegativeFixed(Selected(recs, n, false).0);
    SelectedClamps(recs, n);
    ApplyRebuilds(recs, n);
    assert Selected(recs, n, true) == Selected(recs, n, false);
  }

  /** A negative payback among the items makes the rebuild fail. */
  lemma NegativeFails(items: seq<Obj>, j: int)
    requires 0 <= j < |items| && NegativePayback(items[j])
    ensures ToModels(items).None?
  {
    RebuildRejectsNegative(items[j]);
  }

  /** For valid recommendations `apply_policy` as written raises exactly when
      an item it keeps carries a negative payback. */
  lemma AsWrittenRaisesIff(recs: seq<Recommendation>, n: NormalizedInput)
    requires forall i :: 0 <= i < |recs| ==> recs[i].Valid()
    ensures var items := Selected(recs, n, false).0;
      Apply(recs, n, false).None? <==> exists j :: 0 <= j < |items| && NegativePayback(items[j])
  {
    var items := Selected(recs, n, false).0;
    if exists j :: 0 <= j < |items| && NegativePayback(items[j]) {
      var j :| 0 <= j < |items| && NegativePayback(items[j]);
      NegativeFails(items, j);
    } else {
      NoNegativeReturns(recs, n);
    }
  }

  /** Wherever `apply_policy` as written returns, its recommendations respect
      the ceiling, the threshold and the budget. */
  lemma AsWrittenRespects(recs: seq<Recommendation>, n: NormalizedInput)
    requires forall i :: 0 <= i < |recs| ==> recs[i].Valid()
    requires Apply(recs, n, false).Some?
    ensures var out := Apply(recs, n, false).value.out.recommendations;
      n.policy.Some? && n.policy.value.maxDisruption != "" ==>
        forall j :: 0 <= j < |out| ==> DisruptionOk(Str(out[j].disruption), n.policy.value.maxDisruption)
    ensures var out := Apply(recs, n, false).value.out.recommendations;
      n.policy.Some? && n.policy.value.paybackThreshold.Some? ==>
        var t := if n.policy.value.paybackThreshold.value > 0 then n.policy.value.paybackThreshold.value else 0;
        forall j :: 0 <= j < |out| ==>
          (out[j].payback.None? && out[j].estCost <= 5000.0)
          || (out[j].payback.Some? && 0.0 <= out[j].payback.value <= t as real)
    ensures var a := Apply(recs, n, false).value; var notes := a.report.notes;
      n.policy.Some? && n.policy.value.targetBudget.Some? ==>
        var b := Max(n.policy.value.targetBudget.value, 0.0);
        && Total(a.out.recommendations, CostOf) <= b
        && |notes| > 0 && notes[|notes| - 1] == PolicyAgent.BudgetApplied(Total(a.out.recommendations, CostOf), b)
  {
    AsWrittenAgrees(recs, n);
    if n.policy.Some? && n.policy.value.maxDisruption != "" {
      ApplyRespectsDisruption(recs, n);
    }
    if n.policy.Some? && n.policy.value.paybackThreshold.Some? {
      var t := if n.policy.value.paybackThreshold.value > 0 then n.policy.value.paybackThreshold.value else 0;
      ApplyRespectsPayback(recs, n, t);
    }
    if n.policy.Some? && n.policy.value.targetBudget.Some? {
      ApplyRespectsBudget(recs, n, Max(n.policy.value.targetBudget.value, 0.0));
    }
  }

  // ---------------------------------------------------------------------------
  // The two twins compared

  /** On a baseline of at least 0 the savings, costs and ranking values agree
      with the policy agent's. */
  lemma TwinsAgreeOnEstimates(a: Obj, base: real, tariff: real)
    requires base >= 0.0
    ensures EstKwhSaved(a, base) == PolicyAgent.EstKwhSaved(a, base)
    ensures MonthlySavings(a, base, tariff) == PolicyAgent.MonthlySavings(a, base, tariff)
    ensures Capex(a) == PolicyAgent.Capex(a)
    ensures ValuePerLkr(a, base) == PolicyAgent.ValuePerLkr(a, base)
  {
    assert PctFraction(a) == PolicyAgent.PctFraction(a);
  }

  /** Unless a negative payback is declared, the clamped payback agrees with
      the policy agent's. The payback as written agrees too when the cost is
      not negative, and differs whenever an undeclared payback has a negative
      cost and positive savings. */
  lemma TwinsAgreeOnPayback(a: Obj, base: real, tariff: real)
    requires base >= 0.0
    requires Get(a, "payback_months").Null? || NumOr(Get(a, "payback_months"), -1.0) >= 0.0
    ensures PaybackMonths(a, base, tariff) == PolicyAgent.PaybackMonths(a, base, tariff)
    ensures NumOr(Get(a, "est_cost"), 0.0) >= 0.0 ==>
      PaybackAsWritten(a, base, tariff) == PolicyAgent.PaybackMonths(a, base, tariff)
    ensures Get(a, "payback_months").Null? && NumOr(Get(a, "est_cost"), 0.0) < 0.0 && MonthlySavings(a, base, tariff) > 0.0
      ==> PaybackAsWritten(a, base, tariff) != PolicyAgent.PaybackMonths(a, base, tariff)
  {
    TwinsAgreeOnEstimates(a, base, tariff);
  }

  /** A declared negative payback reads as undefined here, where the policy
      agent falls back to computing it. */
  lemma DeclaredNegativePayback(a: Obj)
    requires a == map["payback_months" := Float(-1.0), "kwh_saved_per_month" := Float(10.0), "est_cost" := Float(500.0)]
    ensures PaybackMonths(a, 0.0, 50.0) == None
    ensures PolicyAgent.PaybackMonths(a, 0.0, 50.0) == Some(1.0)
  {
    assert Get(a, "payback_months") == Float(-1.0);
    assert Get(a, "kwh_saved_per_month") == Float(10.0);
    assert Get(a, "est_cost") == Float(500.0);
    assert PolicyAgent.EstKwhSaved(a, 0.0) == 10.0;
    assert PolicyAgent.MonthlySavings(a, 0.0, 50.0) == 500.0;
  }

  /** Blanks around a level are stripped here and not by the policy agent:
      " low" ranks as low here and as medium there. */
  lemma RankStripsBlanks(s: string)
    requires s == " low"
    ensures RankOf(Str(s)) == 1
    ensures PolicyAgent.RankOf(Str(s)) == 2
  {
    StripSpaceLow(s);
    LowerFixed("low");
    LowerFixed(s);
    assert s != "none" && s != "low" && s != "high";
  }

  lemma StripSpaceLow(s: string)
    requires s == " low"
    ensures Strip(s) == "low"
  {
    assert s[1..] == "low";
    assert StripLeft(s) == StripLeft("low");
    LowUnstripped("low");
  }

  lemma LowUnstripped(s: string)
    requires s == "low"
    ensures StripLeft(s) == s && StripRight(s) == s
  {
    assert !IsSpace(s[0]) && !IsSpace(s[|s| - 1]);
  }

  // ---------------------------------------------------------------------------
  // A negative cost, as written

  /** A valid recommendation with a negative cost (a rebate) under any
      threshold: as written its payback is negative, so it passes the
      threshold, is annotated with that negative payback, and rebuilding it
      fails the `payback_months >= 0` bound. With the cost clamped the
      payback is 0, as the policy agent computes it, and the rebuild
      succeeds. */
  lemma NegativeCostBreaksRebuild(r: Recommendation, t: int)
    requires r == Recommendation("LED", [], 10.0, 20.0, -100.0, None, "low", None, None)
    requires t >= 0
    ensures r.Valid()
    ensures var d := DumpRecommendation(r);
      && PaybackAsWritten(d, 320.0, 62.0).Some? && PaybackAsWritten(d, 320.0, 62.0).value < 0.0
      && Keeps(d, t, 320.0, 62.0)
      && NegativePayback(Annotate(d, 320.0, 62.0, false))
      && ToModel(Annotate(d, 320.0, 62.0, false)).None?
      && ToModel(Annotate(d, 320.0, 62.0, true)) == Some(Rebuilt(r).(payback := Some(0.0)))
      && PolicyAgent.PaybackMonths(d, 320.0, 62.0) == Some(0.0)
  {
    var d := DumpRecommendation(r);
    DumpFields(r);
    assert Get(d, "kwh_saved_per_month") == Null;
    assert Get(d, "pct_kwh_reduction_min") == Float(10.0);
    assert PctFraction(d) == 0.1;
    assert EstKwhSaved(d, 320.0) == 32.0;
    assert MonthlySavings(d, 320.0, 62.0) == 1984.0;
    assert Capex(d) == 0.0;
    assert PaybackMonths(d, 320.0, 62.0) == Some(0.0);
    var bad := Annotate(d, 320.0, 62.0, false);
    assert Get(bad, "payback_months") == Float(PaybackAsWritten(d, 320.0, 62.0).value);
    RebuildRejectsNegative(bad);
    AnnotateDump(r, 320.0, 62.0);
    ToModelOfDump(r.(payback := Some(0.0)));
    TwinsAgreeOnPayback(d, 320.0, 62.0);
  }

  /** The finding on a whole call: under any threshold and a "low" ceiling,
      `apply_policy` as written raises on the single rebate recommendation,
      where the corrected variant returns. */
  lemma RebateRaises(r: Recommendation, n: NormalizedInput, t: int)
    requires r == Recommendation("LED", [], 10.0, 20.0, -100.0, None, "low", None, None)
    requires t >= 0
    requires n == NormalizedInput(320.0, 62.0, Some(PolicyGoals(None, Some(t), None, "low")))
    ensures Apply([r], n, false).None?
    ensures Apply([r], n, true).Some?
  {
    RebateKept(r, n, t);
    KeptNegativeRaises([r], n, 0);
  }

  /** A kept item with a negative payback makes `apply_policy` as written
      raise, while the corrected variant returns. */
  lemma KeptNegativeRaises(recs: seq<Recommendation>, n: NormalizedInput, j: int)
    requires forall i :: 0 <= i < |recs| ==> recs[i].Valid()
    requires 0 <= j < |Selected(recs, n, false).0| && NegativePayback(Selected(recs, n, false).0[j])
    ensures Apply(recs, n, false).None? && Apply(recs, n, true).Some?
  {
    NegativeFails(Selected(recs, n, false).0, j);
    ApplyRebuilds(recs, n);
  }

  /** Under that policy the rebate is the one item the stages as written keep. */
  lemma RebateKept(r: Recommendation, n: NormalizedInput, t: int)
    requires r == Recommendation("LED", [], 10.0, 20.0, -100.0, None, "low", None, None)
    requires t >= 0
    requires n == NormalizedInput(320.0, 62.0, Some(PolicyGoals(None, Some(t), None, "low")))
    ensures r.Valid()
    ensures Selected([r], n, false).0 == [Annotate(DumpRecommendation(r), 320.0, 62.0, false)]
    ensures NegativePayback(Selected([r], n, false).0[0])
  {
    NegativeCostBreaksRebuild(r, t);
    var d := DumpRecommendation(r);
    DumpFields(r);
    assert Dumps([r]) == [d];
    SingleKept(d, n.policy.value, t);
    assert Baseline(n) == 320.0 && TariffOf(n) == 62.0;
  }

  /** Under that policy a single low-disruption item that the keep rule keeps
      comes through the stages as written, annotated. */
  lemma SingleKept(d: Obj, p: PolicyGoals, t: int)
    requires t >= 0
    requires p == PolicyGoals(None, Some(t), None, "low")
    requires Get(d, "disruption") == Str("low") && Keeps(d, t, 320.0, 62.0)
    ensures DisruptionStep([d], Some(p)).0 == [d]
    ensures PaybackStep([d], Some(p), 320.0, 62.0, false).0 == [Annotate(d, 320.0, 62.0, false)]
  {
    SingleFilter(d, CapRule("low"));
    SinglePayback(d, p, t, KeepRule(t, 320.0, 62.0, false));
  }

  lemma SinglePayback(d: Obj, p: PolicyGoals, t: int, f: Obj -> Option<Obj>)
    requires p.paybackThreshold == Some(t) && t >= 0
    requires f == KeepRule(t, 320.0, 62.0, false) && f(d).Some?
    ensures PaybackStep([d], Some(p), 320.0, 62.0, false).0 == [f(d).value]
  {
    SingleFilterMap(d, f);
  }

  lemma SingleFilter(d: Obj, keep: Obj -> bool)
    requires keep(d)
    ensures Filter([d], keep) == [d]
  {
    assert [d][..0] == [];
  }

  lemma SingleFilterMap(d: Obj, f: Obj -> Option<Obj>)
    requires f(d).Some?
    ensures FilterMap([d], f) == [f(d).value]
  {
    assert [d][..0] == [];
  }
}
