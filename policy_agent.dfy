/** The deterministic post-processor that enforces a user's policy on the
    recommendations: a disruption ceiling, a payback ceiling and a greedy
    budget allocation, in that order. It works on plain dicts and copies the
    items it annotates. */
module PolicyAgent {
  import opened Wrappers
  import opened Text
  import opened Values
  import opened Sorting
  import opened Lists
  import opened Models

  // ---------------------------------------------------------------------------
  // Per-action helpers

  /** `_DISR.get(str(x or "medium").lower(), 2)`. A falsy value reads as
      "medium"; `str()` of any other non-string never names a level, so it
      ranks 2 as well. There is no strip here. */
  function RankOf(v: Value): (r: nat)
    ensures r <= 3
    ensures !v.Str? ==> r == 2
  {
    if v.Str? then LevelRank(Lower(v.s)) else 2
  }

  /** `_disruption_ok` */
  predicate DisruptionOk(level: Value, cap: Value) {
    RankOf(level) <= RankOf(cap)
  }

  /** `_est_kwh_saved`: a declared saving wins (clamped at 0); otherwise the
      baseline times the minimum reduction percentage clamped into [0, 100]. */
  function EstKwhSaved(a: Obj, base: real): (r: real)
    ensures !Get(a, "kwh_saved_per_month").Null? ==> r >= 0.0
    ensures base >= 0.0 ==> r >= 0.0
    ensures base >= 0.0 && Get(a, "kwh_saved_per_month").Null? ==> r <= base
  {
    if !Get(a, "kwh_saved_per_month").Null? then Max(NumOr(Get(a, "kwh_saved_per_month"), 0.0), 0.0)
    else Scale(base, PctFraction(a))
  }

  /** `max(min(_num(pct_kwh_reduction_min), 100), 0) / 100` */
  function PctFraction(a: Obj): (r: real)
    ensures 0.0 <= r <= 1.0
  {
    ClampReal(NumOr(Get(a, "pct_kwh_reduction_min"), 0.0), 0.0, 100.0) / 100.0
  }

  /** `_monthly_savings_LKR` */
  function MonthlySavings(a: Obj, base: real, tariff: real): (r: real)
    ensures base >= 0.0 ==> r >= 0.0
  {
    Mul(EstKwhSaved(a, base), Max(tariff, 0.0))
  }

  /** `max(_num(est_cost), 0)` */
  function Capex(a: Obj): (r: real)
    ensures r >= 0.0
  {
    Max(NumOr(Get(a, "est_cost"), 0.0), 0.0)
  }

  /** `_payback_months`: a declared finite payback of at least 0 is trusted;
      otherwise clamped cost over monthly savings when those are positive;
      otherwise undefined. */
  function PaybackMonths(a: Obj, base: real, tariff: real): (r: Option<real>)
    ensures r.Some? ==> r.value >= 0.0
    ensures ((Get(a, "payback_months").Null? || NumOr(Get(a, "payback_months"), -1.0) < 0.0)
             && MonthlySavings(a, base, tariff) <= 0.0) ==> r.None?
  {
    if !Get(a, "payback_months").Null? && NumOr(Get(a, "payback_months"), -1.0) >= 0.0 then
      Some(NumOr(Get(a, "payback_months"), -1.0))
    else
      var monthly := MonthlySavings(a, base, tariff);
      if monthly > 0.0 then Some(Ratio(Capex(a), monthly)) else None
  }

  /** `_value_per_lkr`: kWh per LKR of clamped cost; a free action ranks 1e12
      when it saves anything and 0 otherwise. */
  function ValuePerLkr(a: Obj, base: real): (r: real)
    ensures base >= 0.0 ==> r >= 0.0
    ensures Capex(a) == 0.0 && EstKwhSaved(a, base) > 0.0 ==> r == 1000000000000.0
    ensures Capex(a) > 0.0 ==> r == EstKwhSaved(a, base) / Capex(a)
  {
    FreeOrRatio(EstKwhSaved(a, base), Capex(a))
  }

  function FreeOrRatio(kwh: real, capex: real): (r: real)
    requires capex >= 0.0
    ensures kwh >= 0.0 ==> r >= 0.0
    ensures capex == 0.0 && kwh > 0.0 ==> r == 1000000000000.0
    ensures capex > 0.0 ==> r * capex == kwh
  {
    if capex <= 0.0 then (if kwh > 0.0 then 1000000000000.0 else 0.0)
    else Ratio(kwh, capex)
  }

  /** A copy of `a` with `payback_months` set. */
  function Annotate(a: Obj, pb: Option<real>): (r: Obj)
    ensures r.Keys == a.Keys + {"payback_months"}
    ensures forall k :: k in a && k != "payback_months" ==> r[k] == a[k]
  {
    a["payback_months" := OptFloat(pb)]
  }

  // ---------------------------------------------------------------------------
  // The stages, as functions of the list

  /** `[r for r in list(v or []) if isinstance(r, dict)]`; None where `list()`
      raises (a truthy number or bool). A string or dict iterates to strings. */
  function DictItems(v: Value): Option<seq<Obj>> {
    if !Truthy(v) then Some([])
    else match v
      case List(xs) => Some(Dicts(xs))
      case Str(_) => Some([])
      case Dict(_) => Some([])
      case _ => None
  }

  function Dicts(xs: seq<Value>): (r: seq<Obj>)
    ensures |r| <= |xs|
  {
    if xs == [] then []
    else Dicts(xs[..|xs| - 1]) + (if xs[|xs| - 1].Dict? then [xs[|xs| - 1].fields] else [])
  }

  /** The disruption test of one action against the policy's ceiling. */
  function CapRule(cap: Value): Obj -> bool {
    (a: Obj) => DisruptionOk(Get(a, "disruption"), cap)
  }

  /** The disruption filter. */
  function WithinCap(xs: seq<Obj>, cap: Value): seq<Obj> {
    Filter(xs, CapRule(cap))
  }

  /** The payback keep rule for one action: a defined payback within the
      threshold, or an undefined one with a cost of at most 5000. The kept
      action is a copy annotated with its payback. */
  function PaybackKeep(a: Obj, thr: int, base: real, tariff: real): (r: Option<Obj>)
    ensures r.Some? <==>
      ((PaybackMonths(a, base, tariff).Some? && PaybackMonths(a, base, tariff).value <= thr as real)
       || (PaybackMonths(a, base, tariff).None? && NumOr(Get(a, "est_cost"), 0.0) <= 5000.0))
    ensures r.Some? ==> r.value == Annotate(a, PaybackMonths(a, base, tariff))
  {
    var pb := PaybackMonths(a, base, tariff);
    if pb.None? then (if NumOr(Get(a, "est_cost"), 0.0) <= 5000.0 then Some(Annotate(a, None)) else None)
    else if pb.value <= thr as real then Some(Annotate(a, pb))
    else None
  }

  function KeepRule(thr: int, base: real, tariff: real): Obj -> Option<Obj> {
    (a: Obj) => PaybackKeep(a, thr, base, tariff)
  }

  datatype Kept = Kept(items: seq<Obj>, dropped: nat)

  /** The payback loop over `xs`: the kept copies and the number dropped. */
  function PaybackStage(xs: seq<Obj>, thr: int, base: real, tariff: real): (r: Kept)
    ensures |r.items| + r.dropped == |xs|
  {
    Kept(FilterMap(xs, KeepRule(thr, base, tariff)), Misses(xs, KeepRule(thr, base, tariff)))
  }

  /** The ranking key: descending kWh per LKR, as an ascending key. */
  function RankKey(base: real): Obj -> Key {
    (a: Obj) => Key(-ValuePerLkr(a, base), 0.0, 0.0)
  }

  datatype Note =
    | DisruptionDropped
    | PaybackFiltered(count: nat, threshold: int)
    | BudgetApplied(spent: real, budget: real)

  datatype Report = Report(notes: seq<Note>, unmetConstraints: seq<string>)

  datatype Outcome = Outcome(recs: seq<Obj>, report: Report)

  /** The policy's payback threshold `max(int(t), 0)`: absent, or None where `int()` raises. */
  function Threshold(p: Obj): Option<Option<int>> {
    var t := Get(p, "payback_threshold_months");
    if t.Null? then Some(None)
    else match PyInt(t)
      case Some(n) => Some(Some(if n > 0 then n else 0))
      case None => None
  }

  /** The policy's budget `max(float(b), 0)`: absent, or None where `float()`
      raises or gives a non-finite number. */
  function Budget(p: Obj): Option<Option<real>> {
    var b := Get(p, "target_budget_LKR");
    if b.Null? then Some(None)
    else match FiniteFloat(b)
      case Some(x) => Some(Some(Max(x, 0.0)))
      case None => None
  }

  function DisruptionStep(recs: seq<Obj>, p: Obj): (seq<Obj>, seq<Note>) {
    if Truthy(Get(p, "max_disruption")) then
      var kept := WithinCap(recs, Get(p, "max_disruption"));
      (kept, if |kept| < |recs| then [DisruptionDropped] else [])
    else (recs, [])
  }

  function PaybackStep(recs: seq<Obj>, thr: Option<int>, base: real, tariff: real): (seq<Obj>, seq<Note>) {
    if thr.None? then (recs, [])
    else
      var k := PaybackStage(recs, thr.value, base, tariff);
      (k.items, if k.dropped > 0 then [PaybackFiltered(k.dropped, thr.value)] else [])
  }

  function BudgetStep(recs: seq<Obj>, budget: Option<real>, base: real): (seq<Obj>, seq<Note>) {
    if budget.None? then (recs, [])
    else
      var ranked := SortBy(recs, RankKey(base));
      (Greedy(ranked, Capex, budget.value, 0.0),
       [BudgetApplied(Spent(ranked, Capex, budget.value, 0.0), budget.value)])
  }

  /** What `enforce_policy(recommendations, policy, baseline, tariff)` returns;
      None where it raises. */
  function Enforce(recommendations: Obj, policy: Option<Obj>, base: real, tariff: real): Option<Outcome> {
    match DictItems(Get(recommendations, "recommendations"))
    case None => None
    case Some(recs) =>
      if policy.None? || policy.value == map[] then Some(Outcome(recs, Report([], [])))
      else
        var p := policy.value;
        match (Threshold(p), Budget(p))
        case (Some(thr), Some(budget)) =>
          var (r1, n1) := DisruptionStep(recs, p);
          var (r2, n2) := PaybackStep(r1, thr, base, tariff);
          var (r3, n3) := BudgetStep(r2, budget, base);
          Some(Outcome(r3, Report(n1 + n2 + n3, [])))
        case _ => None
  }

  // ---------------------------------------------------------------------------
  // The procedure

  /** The payback loop of `enforce_policy`. */
  method FilterPayback(recs: seq<Obj>, t: int, base: real, tariff: real)
    returns (kept: seq<Obj>, dropped: nat)
    ensures Kept(kept, dropped) == PaybackStage(recs, t, base, tariff)
  {
    kept := [];
    dropped := 0;
    var i := 0;
    while i < |recs|
      invariant 0 <= i <= |recs|
      invariant kept == FilterMap(recs[..i], KeepRule(t, base, tariff))
      invariant dropped == Misses(recs[..i], KeepRule(t, base, tariff))
    {
      FilterMapSnoc(recs, KeepRule(t, base, tariff), i);
      var a := recs[i];
      var pb := PaybackMonths(a, base, tariff);
      assert KeepRule(t, base, tariff)(a) == PaybackKeep(a, t, base, tariff);
      if pb.None? {
        if NumOr(Get(a, "est_cost"), 0.0) <= 5000.0 {
          a := Annotate(a, None);
          kept := kept + [a];
        } else {
          dropped := dropped + 1;
        }
      } else if pb.value <= t as real {
        a := Annotate(a, pb);
        kept := kept + [a];
      } else {
        dropped := dropped + 1;
      }
      i := i + 1;
    }
    assert recs[..|recs|] == recs;
  }

  /** The disruption stage of `enforce_policy`. */
  method ApplyDisruption(recs: seq<Obj>, p: Obj) returns (out: seq<Obj>, notes: seq<Note>)
    ensures (out, notes) == DisruptionStep(recs, p)
  {
    out, notes := recs, [];
    var cap := Get(p, "max_disruption");
    if Truthy(cap) {
      out := WithinCap(recs, cap);
      if |out| < |recs| {
        notes := [DisruptionDropped];
      }
    }
  }

  /** The payback stage of `enforce_policy`. */
  method ApplyPayback(recs: seq<Obj>, thr: Option<int>, base: real, tariff: real)
    returns (out: seq<Obj>, notes: seq<Note>)
    ensures (out, notes) == PaybackStep(recs, thr, base, tariff)
  {
    out, notes := recs, [];
    if thr.Some? {
      var dropped;
      out, dropped := FilterPayback(recs, thr.value, base, tariff);
      if dropped > 0 {
        notes := [PaybackFiltered(dropped, thr.value)];
      }
    }
  }

  /** The budget stage of `enforce_policy`. */
  method ApplyBudget(recs: seq<Obj>, budget: Option<real>, base: real)
    returns (out: seq<Obj>, notes: seq<Note>)
    ensures (out, notes) == BudgetStep(recs, budget, base)
  {
    out, notes := recs, [];
    if budget.Some? {
      var ranked := SortBy(recs, RankKey(base));
      var spent;
      out, spent := GreedyPass(ranked, Capex, budget.value);
      notes := [BudgetApplied(spent, budget.value)];
    }
  }

  /** `enforce_policy`: the three stages in order, each adding its note. */
  method EnforcePolicy(recommendations: Obj, policy: Option<Obj>, base: real, tariff: real)
    returns (r: Option<Outcome>)
    ensures r == Enforce(recommendations, policy, base, tariff)
  {
    var items := DictItems(Get(recommendations, "recommendations"));
    if items.None? {
      return None;
    }
    if policy.None? || policy.value == map[] {
      return Some(Outcome(items.value, Report([], [])));
    }
    var p := policy.value;
    var thr := Threshold(p);
    var budget := Budget(p);
    if thr.None? || budget.None? {
      return None;
    }
    var r1, n1 := ApplyDisruption(items.value, p);
    var r2, n2 := ApplyPayback(r1, thr.value, base, tariff);
    var r3, n3 := ApplyBudget(r2, budget.value, base);
    return Some(Outcome(r3, Report(n1 + n2 + n3, [])));
  }

  // ---------------------------------------------------------------------------
  // Properties of the stages

  /** The annotation touches nothing the estimates or the disruption filter read. */
  lemma AnnotateKeepsInputs(a: Obj, pb: Option<real>, base: real)
    ensures Get(Annotate(a, pb), "disruption") == Get(a, "disruption")
    ensures Get(Annotate(a, pb), "est_cost") == Get(a, "est_cost")
    ensures Capex(Annotate(a, pb)) == Capex(a)
    ensures EstKwhSaved(Annotate(a, pb), base) == EstKwhSaved(a, base)
    ensures ValuePerLkr(Annotate(a, pb), base) == ValuePerLkr(a, base)
  {
    var b := Annotate(a, pb);
    assert Get(b, "kwh_saved_per_month") == Get(a, "kwh_saved_per_month");
    assert Get(b, "pct_kwh_reduction_min") == Get(a, "pct_kwh_reduction_min");
    assert Get(b, "est_cost") == Get(a, "est_cost");
    assert Get(b, "disruption") == Get(a, "disruption");
    SameEstimates(a, b, base);
  }

  /** Two actions that agree on the entries the estimates read have the same estimates. */
  lemma SameEstimates(a: Obj, b: Obj, base: real)
    requires Get(b, "kwh_saved_per_month") == Get(a, "kwh_saved_per_month")
    requires Get(b, "pct_kwh_reduction_min") == Get(a, "pct_kwh_reduction_min")
    requires Get(b, "est_cost") == Get(a, "est_cost")
    ensures Capex(b) == Capex(a) && EstKwhSaved(b, base) == EstKwhSaved(a, base)
    ensures ValuePerLkr(b, base) == ValuePerLkr(a, base)
  {
    assert PctFraction(b) == PctFraction(a);
  }

  /** The payback written into the copy is the one recomputed from it. */
  lemma PaybackOfAnnotated(a: Obj, base: real, tariff: real)
    ensures var pb := PaybackMonths(a, base, tariff);
      PaybackMonths(Annotate(a, pb), base, tariff) == pb
  {
    var pb := PaybackMonths(a, base, tariff);
    AnnotateKeepsInputs(a, pb, base);
    var b := Annotate(a, pb);
    assert Get(b, "payback_months") == OptFloat(pb);
    assert MonthlySavings(b, base, tariff) == MonthlySavings(a, base, tariff);
    if pb.Some? {
      assert NumOr(Float(pb.value), -1.0) == pb.value;
    } else {
      assert Get(b, "payback_months").Null?;
    }
  }

  /** A kept copy passes the rule again and is its own annotation. */
  lemma PaybackKeepFixed(a: Obj, thr: int, base: real, tariff: real)
    requires PaybackKeep(a, thr, base, tariff).Some?
    ensures var b := PaybackKeep(a, thr, base, tariff).value; PaybackKeep(b, thr, base, tariff) == Some(b)
  {
    var pb := PaybackMonths(a, base, tariff);
    var b := Annotate(a, pb);
    PaybackOfAnnotated(a, base, tariff);
    AnnotateKeepsInputs(a, pb, base);
    assert Annotate(b, pb) == b;
  }

  /** Every action the stage keeps passes the payback rule and carries its payback. */
  lemma PaybackStageSound(xs: seq<Obj>, thr: int, base: real, tariff: real)
    ensures var k := PaybackStage(xs, thr, base, tariff).items;
      forall j :: 0 <= j < |k| ==> PaybackKeep(k[j], thr, base, tariff) == Some(k[j])
  {
    var f := KeepRule(thr, base, tariff);
    forall x | f(x).Some?
      ensures f(f(x).value) == Some(f(x).value)
    {
      PaybackKeepFixed(x, thr, base, tariff);
    }
    FilterMapPreserves(xs, f, (x: Obj) => true, (y: Obj) => f(y) == Some(y));
  }

  /** Nothing is dropped exactly when every action passes the rule. */
  lemma PaybackStageDropsNone(xs: seq<Obj>, thr: int, base: real, tariff: real)
    ensures PaybackStage(xs, thr, base, tariff).dropped == 0
      <==> forall i :: 0 <= i < |xs| ==> PaybackKeep(xs[i], thr, base, tariff).Some?
  {
    MissesZero(xs, KeepRule(thr, base, tariff));
  }

  /** On actions that already pass and carry their payback the stage changes
      nothing. */
  lemma PaybackStageFixed(xs: seq<Obj>, thr: int, base: real, tariff: real)
    requires forall i :: 0 <= i < |xs| ==> PaybackKeep(xs[i], thr, base, tariff) == Some(xs[i])
    ensures PaybackStage(xs, thr, base, tariff) == Kept(xs, 0)
  {
    FilterMapFixed(xs, KeepRule(thr, base, tariff));
  }

  /** The payback stage is idempotent. */
  lemma PaybackStageIdempotent(xs: seq<Obj>, thr: int, base: real, tariff: real)
    ensures var k := PaybackStage(xs, thr, base, tariff).items;
      PaybackStage(k, thr, base, tariff) == Kept(k, 0)
  {
    PaybackStageSound(xs, thr, base, tariff);
    PaybackStageFixed(PaybackStage(xs, thr, base, tariff).items, thr, base, tariff);
  }

  /** The payback stage keeps the disruption levels it is given. */
  lemma PaybackStageKeepsDisruption(xs: seq<Obj>, thr: int, base: real, tariff: real, cap: Value)
    requires forall i :: 0 <= i < |xs| ==> CapRule(cap)(xs[i])
    ensures var k := PaybackStage(xs, thr, base, tariff).items;
      forall j :: 0 <= j < |k| ==> CapRule(cap)(k[j])
  {
    var f := KeepRule(thr, base, tariff);
    forall x | CapRule(cap)(x) && f(x).Some?
      ensures CapRule(cap)(f(x).value)
    {
      AnnotateKeepsInputs(x, PaybackMonths(x, base, tariff), base);
    }
    FilterMapPreserves(xs, f, CapRule(cap), CapRule(cap));
  }

  /** Every action left by the disruption filter respects the ceiling; the
      filter drops nothing exactly when every action already does. */
  lemma WithinCapSound(xs: seq<Obj>, cap: Value)
    ensures forall i :: 0 <= i < |WithinCap(xs, cap)| ==> DisruptionOk(Get(WithinCap(xs, cap)[i], "disruption"), cap)
    ensures multiset(WithinCap(xs, cap)) <= multiset(xs)
    ensures WithinCap(xs, cap) == xs <==> forall i :: 0 <= i < |xs| ==> DisruptionOk(Get(xs[i], "disruption"), cap)
  {
    FilterSound(xs, CapRule(cap));
    FilterKeepsAll(xs, CapRule(cap));
  }

  /** The budget stage chooses a sub-multiset of its input, ordered by
      descending kWh per LKR, whose clamped costs sum to what the note reports,
      and that is within the budget. */
  lemma BudgetStepBound(recs: seq<Obj>, b: real, base: real)
    requires b >= 0.0
    ensures var (out, notes) := BudgetStep(recs, Some(b), base);
      && multiset(out) <= multiset(recs)
      && SortedBy(out, RankKey(base))
      && Total(out, Capex) <= b
      && notes == [BudgetApplied(Total(out, Capex), b)]
  {
    RankedGreedy(recs, RankKey(base), Capex, b);
  }

  // ---------------------------------------------------------------------------
  // Properties of enforce_policy

  /** The budget stage keeps any property every one of its inputs has. */
  lemma BudgetStepPreserves(recs: seq<Obj>, budget: Option<real>, base: real, p: Obj -> bool)
    requires forall i :: 0 <= i < |recs| ==> p(recs[i])
    ensures var out := BudgetStep(recs, budget, base).0; forall j :: 0 <= j < |out| ==> p(out[j])
    ensures |BudgetStep(recs, budget, base).0| <= |recs|
  {
    if budget.Some? {
      RankedGreedyPreserves(recs, RankKey(base), Capex, budget.value, p);
    }
  }

  lemma BudgetOfPolicy(p: Obj)
    requires Budget(p).Some? && Budget(p).value.Some?
    ensures Budget(p).value.value >= 0.0
  {
  }

  /** Every action returned under a disruption ceiling respects it. */
  lemma EnforceRespectsDisruption(recommendations: Obj, policy: Obj, base: real, tariff: real)
    requires Enforce(recommendations, Some(policy), base, tariff).Some?
    requires Truthy(Get(policy, "max_disruption"))
    ensures var out := Enforce(recommendations, Some(policy), base, tariff).value.recs;
      forall j :: 0 <= j < |out| ==> DisruptionOk(Get(out[j], "disruption"), Get(policy, "max_disruption"))
  {
    var recs := DictItems(Get(recommendations, "recommendations")).value;
    var cap := Get(policy, "max_disruption");
    var thr := Threshold(policy).value;
    var budget := Budget(policy).value;
    var r1 := DisruptionStep(recs, policy).0;
    WithinCapSound(recs, cap);
    var r2 := PaybackStep(r1, thr, base, tariff).0;
    if thr.Some? {
      PaybackStageKeepsDisruption(r1, thr.value, base, tariff, cap);
    }
    assert forall i :: 0 <= i < |r2| ==> CapRule(cap)(r2[i]);
    BudgetStepPreserves(r2, budget, base, CapRule(cap));
  }

  /** Every action returned under a payback threshold passes the payback rule
      and carries its own payback. */
  lemma EnforceRespectsPayback(recommendations: Obj, policy: Obj, base: real, tariff: real, t: int)
    requires Enforce(recommendations, Some(policy), base, tariff).Some?
    requires policy != map[] && Threshold(policy) == Some(Some(t))
    ensures var out := Enforce(recommendations, Some(policy), base, tariff).value.recs;
      forall j :: 0 <= j < |out| ==> PaybackKeep(out[j], t, base, tariff) == Some(out[j])
  {
    var recs := DictItems(Get(recommendations, "recommendations")).value;
    var budget := Budget(policy).value;
    var r1 := DisruptionStep(recs, policy).0;
    var r2 := PaybackStep(r1, Some(t), base, tariff).0;
    PaybackStageSound(r1, t, base, tariff);
    assert forall i :: 0 <= i < |r2| ==> KeepRule(t, base, tariff)(r2[i]) == Some(r2[i]);
    BudgetStepPreserves(r2, budget, base, (a: Obj) => KeepRule(t, base, tariff)(a) == Some(a));
  }

  /** Under a budget the clamped costs of the returned actions fit it, the
      actions come in descending kWh per LKR, and the last note reports what
      was spent. */
  lemma EnforceRespectsBudget(recommendations: Obj, policy: Obj, base: real, tariff: real, b: real)
    requires Enforce(recommendations, Some(policy), base, tariff).Some?
    requires policy != map[] && Budget(policy) == Some(Some(b))
    ensures var o := Enforce(recommendations, Some(policy), base, tariff).value;
      && b >= 0.0
      && Total(o.recs, Capex) <= b
      && SortedBy(o.recs, RankKey(base))
      && |o.report.notes| > 0
      && o.report.notes[|o.report.notes| - 1] == BudgetApplied(Total(o.recs, Capex), b)
  {
    var recs := DictItems(Get(recommendations, "recommendations")).value;
    var thr := Threshold(policy).value;
    var r1 := DisruptionStep(recs, policy).0;
    var r2 := PaybackStep(r1, thr, base, tariff).0;
    BudgetOfPolicy(policy);
    BudgetStepBound(r2, b, base);
  }

  /** The copy the payback stage keeps of an action: the action annotated
      with its own payback. */
  function Annotated(base: real, tariff: real): Obj -> Obj {
    (a: Obj) => Annotate(a, PaybackMonths(a, base, tariff))
  }

  /** Under a threshold the payback stage returns annotated copies of its
      inputs, each at most as often as its original occurs. */
  lemma PaybackStepSubMultiset(xs: seq<Obj>, t: int, base: real, tariff: real)
    ensures multiset(PaybackStep(xs, Some(t), base, tariff).0) <= multiset(Map(xs, Annotated(base, tariff)))
  {
    FilterMapSubMultiset(xs, KeepRule(t, base, tariff), Annotated(base, tariff));
  }

  /** The budget stage returns some of its inputs, each at most as often as it
      occurs. */
  lemma BudgetStepSubMultiset(xs: seq<Obj>, budget: Option<real>, base: real)
    ensures multiset(BudgetStep(xs, budget, base).0) <= multiset(xs)
  {
    if budget.Some? {
      GreedySubMultiset(SortBy(xs, RankKey(base)), Capex, budget.value, 0.0);
    }
  }

  /** `enforce_policy` invents nothing: the disruption filter keeps some of the
      dict entries; without a threshold the result is drawn from those, and
      under one from their copies annotated with their own payback. */
  lemma EnforceSubMultiset(recommendations: Obj, policy: Obj, base: real, tariff: real)
    requires Enforce(recommendations, Some(policy), base, tariff).Some?
    requires policy != map[]
    ensures var recs := DictItems(Get(recommendations, "recommendations")).value;
      var kept := DisruptionStep(recs, policy).0;
      var out := Enforce(recommendations, Some(policy), base, tariff).value.recs;
      && multiset(kept) <= multiset(recs)
      && (Threshold(policy) == Some(None) ==> multiset(out) <= multiset(kept) && multiset(out) <= multiset(recs))
      && (Threshold(policy).Some? && Threshold(policy).value.Some? ==>
            multiset(out) <= multiset(Map(kept, Annotated(base, tariff))))
  {
    var recs := DictItems(Get(recommendations, "recommendations")).value;
    var kept := DisruptionStep(recs, policy).0;
    var thr := Threshold(policy).value;
    var r2 := PaybackStep(kept, thr, base, tariff).0;
    if Truthy(Get(policy, "max_disruption")) {
      WithinCapSound(recs, Get(policy, "max_disruption"));
    }
    BudgetStepSubMultiset(r2, Budget(policy).value, base);
    if thr.Some? {
      PaybackStepSubMultiset(kept, thr.value, base, tariff);
    }
  }

  /** The dicts as list items, as `{"recommendations": recs}` holds them. */
  function AsValues(xs: seq<Obj>): (r: seq<Value>)
    ensures |r| == |xs|
    ensures forall i :: 0 <= i < |xs| ==> r[i] == Dict(xs[i])
  {
    seq(|xs|, i requires 0 <= i < |xs| => Dict(xs[i]))
  }

  lemma {:induction false} DictsOfAsValues(xs: seq<Obj>)
    ensures Dicts(AsValues(xs)) == xs
    decreases |xs|
  {
    if xs != [] {
      var p := xs[..|xs| - 1];
      DictsOfAsValues(p);
      assert AsValues(xs)[..|xs| - 1] == AsValues(p);
      assert p + [xs[|xs| - 1]] == xs;
    }
  }

  /** Without a policy nothing is filtered: the dict entries of the list come
      back in their original order, and the report is empty. */
  lemma NoPolicy(recommendations: Obj, policy: Option<Obj>, base: real, tariff: real, xs: seq<Obj>)
    requires policy.None? || policy.value == map[]
    requires Get(recommendations, "recommendations") == List(AsValues(xs))
    ensures Enforce(recommendations, policy, base, tariff) == Some(Outcome(xs, Report([], [])))
  {
    DictsOfAsValues(xs);
  }

  /** Only dicts are kept, and every dict of the list is. */
  lemma {:induction false} DictsMembers(xs: seq<Value>)
    ensures forall o :: o in Dicts(xs) <==> Dict(o) in xs
    decreases |xs|
  {
    if xs != [] {
      var p := xs[..|xs| - 1];
      DictsMembers(p);
      assert xs == p + [xs[|xs| - 1]];
    }
  }

  /** The recommendations object `enforce_policy` returns. */
  function Wrap(recs: seq<Obj>): Obj {
    map["recommendations" := List(AsValues(recs))]
  }

  lemma ItemsOfWrap(recs: seq<Obj>)
    ensures DictItems(Get(Wrap(recs), "recommendations")) == Some(recs)
  {
    DictsOfAsValues(recs);
  }

  /** Enforcing the same policy on the result again returns the same actions:
      they are within the ceiling, pass the payback rule with their payback
      already recorded, are in rank order and fit the budget together. Only
      the budget note is issued again. */
  lemma EnforceIdempotent(recommendations: Obj, policy: Obj, base: real, tariff: real)
    requires Enforce(recommendations, Some(policy), base, tariff).Some?
    requires policy != map[]
    ensures var o := Enforce(recommendations, Some(policy), base, tariff).value;
      var again := Enforce(Wrap(o.recs), Some(policy), base, tariff);
      && again.Some?
      && again.value.recs == o.recs
      && again.value.report.notes == (if Budget(policy) == Some(None) then [] else [o.report.notes[|o.report.notes| - 1]])
  {
    var o := Enforce(recommendations, Some(policy), base, tariff).value;
    var xs := o.recs;
    var thr := Threshold(policy).value;
    var budget := Budget(policy).value;
    assert DictItems(Get(Wrap(xs), "recommendations")) == Some(xs) by { ItemsOfWrap(xs); }
    assert DisruptionStep(xs, policy) == (xs, []) by {
      if Truthy(Get(policy, "max_disruption")) {
        EnforceRespectsDisruption(recommendations, policy, base, tariff);
        WithinCapSound(xs, Get(policy, "max_disruption"));
      }
    }
    assert PaybackStep(xs, thr, base, tariff) == (xs, []) by {
      if thr.Some? {
        EnforceRespectsPayback(recommendations, policy, base, tariff, thr.value);
        PaybackStageFixed(xs, thr.value, base, tariff);
      }
    }
    assert BudgetStep(xs, budget, base) == (xs, if budget.None? then [] else [o.report.notes[|o.report.notes| - 1]]) by {
      if budget.Some? {
        BudgetStepAgain(recommendations, policy, base, tariff, budget.value);
      }
    }
  }

  lemma BudgetStepAgain(recommendations: Obj, policy: Obj, base: real, tariff: real, b: real)
    requires Enforce(recommendations, Some(policy), base, tariff).Some?
    requires policy != map[] && Budget(policy) == Some(Some(b))
    ensures var o := Enforce(recommendations, Some(policy), base, tariff).value;
      BudgetStep(o.recs, Some(b), base) == (o.recs, [o.report.notes[|o.report.notes| - 1]])
  {
    var xs := Enforce(recommendations, Some(policy), base, tariff).value.recs;
    EnforceRespectsBudget(recommendations, policy, base, tariff, b);
    SortBySortedIdentity(xs, RankKey(base));
    GreedyTakesAllThatFit(xs, Capex, b, 0.0);
    GreedyWithinBudget(xs, Capex, b, 0.0);
  }

  /** The disruption note is issued exactly when a ceiling is set and some
      action exceeds it. */
  lemma EnforceDisruptionNote(recommendations: Obj, policy: Obj, base: real, tariff: real)
    requires Enforce(recommendations, Some(policy), base, tariff).Some?
    requires policy != map[]
    ensures var o := Enforce(recommendations, Some(policy), base, tariff).value;
      var recs := DictItems(Get(recommendations, "recommendations")).value;
      DisruptionDropped in o.report.notes <==>
        Truthy(Get(policy, "max_disruption"))
        && exists i :: 0 <= i < |recs| && !DisruptionOk(Get(recs[i], "disruption"), Get(policy, "max_disruption"))
  {
    var recs := DictItems(Get(recommendations, "recommendations")).value;
    var cap := Get(policy, "max_disruption");
    var thr := Threshold(policy).value;
    var budget := Budget(policy).value;
    var (r1, n1) := DisruptionStep(recs, policy);
    var (r2, n2) := PaybackStep(r1, thr, base, tariff);
    var (r3, n3) := BudgetStep(r2, budget, base);
    EnforceUnfold(recommendations, policy, base, tariff);
    LaterStagesNoDisruptionNote(r1, thr, base, tariff, r2, budget);
    if Truthy(cap) {
      WithinCapSound(recs, cap);
      FilterKeepsAll(recs, CapRule(cap));
    }
  }

  predicate HasPaybackNote(notes: seq<Note>) {
    exists i :: 0 <= i < |notes| && notes[i].PaybackFiltered?
  }

  /** The payback note is issued exactly when a threshold is set and some
      action left by the disruption filter fails the payback rule. */
  lemma EnforcePaybackNote(recommendations: Obj, policy: Obj, base: real, tariff: real, t: int)
    requires Enforce(recommendations, Some(policy), base, tariff).Some?
    requires policy != map[] && Threshold(policy) == Some(Some(t))
    ensures var o := Enforce(recommendations, Some(policy), base, tariff).value;
      var r1 := DisruptionStep(DictItems(Get(recommendations, "recommendations")).value, policy).0;
      HasPaybackNote(o.report.notes) <==>
        exists i :: 0 <= i < |r1| && PaybackKeep(r1[i], t, base, tariff).None?
  {
    var recs := DictItems(Get(recommendations, "recommendations")).value;
    var s1 := DisruptionStep(recs, policy);
    var s2 := PaybackStep(s1.0, Some(t), base, tariff);
    var s3 := BudgetStep(s2.0, Budget(policy).value, base);
    EnforceUnfold(recommendations, policy, base, tariff);
    OtherStagesNoPaybackNote(recs, policy, s2.0, Budget(policy).value, base);
    PaybackNoteIn(s1.1, s2.1, s3.1);
    PaybackStepNote(s1.0, t, base, tariff);
    PaybackStageDropsNone(s1.0, t, base, tariff);
  }

  lemma PaybackStepNote(xs: seq<Obj>, t: int, base: real, tariff: real)
    ensures HasPaybackNote(PaybackStep(xs, Some(t), base, tariff).1) <==> PaybackStage(xs, t, base, tariff).dropped > 0
  {
    var n := PaybackStep(xs, Some(t), base, tariff).1;
    if HasPaybackNote(n) {
      var i :| 0 <= i < |n| && n[i].PaybackFiltered?;
    }
    if PaybackStage(xs, t, base, tariff).dropped > 0 {
      assert n[0].PaybackFiltered?;
    }
  }

  /** `enforce_policy` under a non-empty policy that does not raise is the
      three stages in order. */
  lemma EnforceUnfold(recommendations: Obj, policy: Obj, base: real, tariff: real)
    requires Enforce(recommendations, Some(policy), base, tariff).Some?
    requires policy != map[]
    ensures var recs := DictItems(Get(recommendations, "recommendations")).value;
      var s1 := DisruptionStep(recs, policy);
      var s2 := PaybackStep(s1.0, Threshold(policy).value, base, tariff);
      var s3 := BudgetStep(s2.0, Budget(policy).value, base);
      && Threshold(policy).Some? && Budget(policy).Some?
      && Enforce(recommendations, Some(policy), base, tariff) == Some(Outcome(s3.0, Report(s1.1 + s2.1 + s3.1, [])))
  {
  }

  /** Only the disruption stage issues the disruption note. */
  lemma LaterStagesNoDisruptionNote(r1: seq<Obj>, thr: Option<int>, base: real, tariff: real, r2: seq<Obj>,
                                    budget: Option<real>)
    ensures DisruptionDropped !in PaybackStep(r1, thr, base, tariff).1 + BudgetStep(r2, budget, base).1
  {
  }

  /** Only the payback stage issues a payback note. */
  lemma OtherStagesNoPaybackNote(recs: seq<Obj>, policy: Obj, xs: seq<Obj>, budget: Option<real>, base: real)
    ensures forall i :: 0 <= i < |DisruptionStep(recs, policy).1| ==> !DisruptionStep(recs, policy).1[i].PaybackFiltered?
    ensures forall i :: 0 <= i < |BudgetStep(xs, budget, base).1| ==> !BudgetStep(xs, budget, base).1[i].PaybackFiltered?
  {
  }

  lemma PaybackNoteIn(n1: seq<Note>, n2: seq<Note>, n3: seq<Note>)
    requires forall i :: 0 <= i < |n1| ==> !n1[i].PaybackFiltered?
    requires forall i :: 0 <= i < |n3| ==> !n3[i].PaybackFiltered?
    ensures HasPaybackNote(n1 + n2 + n3) <==> HasPaybackNote(n2)
  {
    var notes := n1 + n2 + n3;
    if HasPaybackNote(notes) {
      var i :| 0 <= i < |notes| && notes[i].PaybackFiltered?;
      assert notes[i] == n2[i - |n1|];
    }
    if HasPaybackNote(n2) {
      var i :| 0 <= i < |n2| && n2[i].PaybackFiltered?;
      assert notes[|n1| + i] == n2[i];
    }
  }
}
