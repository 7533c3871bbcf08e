/** The impact estimator: per-action savings, cost, CO2 and payback, the
    plan totals, the quick-win list and the structure of the plan text. The
    emission factor, read from a defaults file in the original, is a
    parameter here. */
module ImpactEstimator {
  import opened Wrappers
  import opened Values
  import opened Sorting
  import opened Lists
  import opened Models
  import Constraints

  // ---------------------------------------------------------------------------
  // One action

  /** `_est_kwh_saved_per_month`: a declared saving wins, clamped at 0;
      otherwise the baseline times the minimum reduction percentage, clamped
      into [0, 100]. The maximum percentage is never read. */
  function EstKwhSaved(rec: Recommendation, base: real): (r: real)
    ensures rec.kwhSaved.Some? ==> r == Max(rec.kwhSaved.value, 0.0)
    ensures base >= 0.0 ==> r >= 0.0
    ensures base >= 0.0 && rec.kwhSaved.None? ==> r <= base
  {
    if rec.kwhSaved.Some? then Max(rec.kwhSaved.value, 0.0)
    else Scale(base, Min(Max(rec.pctMin, 0.0), 100.0) / 100.0)
  }

  /** `_monthly_savings_LKR` */
  function MonthlySavings(kwh: real, tariff: real): (r: real)
    ensures r >= 0.0
    ensures kwh >= 0.0 && tariff >= 0.0 ==> r == Mul(kwh, tariff)
  {
    Max(Mul(kwh, Max(tariff, 0.0)), 0.0)
  }

  /** `_payback_months`: a declared payback of at least 0 is trusted;
      otherwise cost over monthly savings when those are positive. */
  function PaybackMonths(cost: real, monthly: real, fallback: Option<real>): (r: Option<real>)
    ensures fallback.Some? && fallback.value >= 0.0 ==> r == fallback
    ensures (fallback.None? || fallback.value < 0.0) ==> (r.Some? <==> monthly > 0.0)
    ensures (fallback.None? || fallback.value < 0.0) && r.Some? ==> r.value * monthly == cost
    ensures cost >= 0.0 && r.Some? ==> r.value >= 0.0
  {
    if fallback.Some? && fallback.value >= 0.0 then fallback
    else if monthly > 0.0 then Some(Ratio(cost, monthly))
    else None
  }

  /** `ImpactAction` */
  datatype ImpactAction = ImpactAction(
    action: string,
    kwh: real,
    lkr: real,
    estCost: real,
    notes: string,
    co2: real,
    disruption: string,
    payback: Option<real>)
  {
    /** The field bounds `ImpactAction` declares: CO2 and payback at least 0
        and a disruption level. */
    predicate Valid() {
      && co2 >= 0.0
      && (payback.Some? ==> payback.value >= 0.0)
      && IsLevel(disruption)
    }
  }

  /** `_mk_action` */
  function MkAction(rec: Recommendation, base: real, tariff: real, ef: real): ImpactAction {
    var kwh := EstKwhSaved(rec, base);
    var lkr := MonthlySavings(kwh, tariff);
    var cost := Max(rec.estCost, 0.0);
    ImpactAction(
      rec.action, kwh, lkr, cost,
      rec.notes.GetOr(""),
      Max(Mul(kwh, Max(ef, 0.0)), 0.0),
      if rec.disruption != "" then rec.disruption else "medium",
      PaybackMonths(cost, lkr, rec.payback))
  }

  /** An action built from a valid recommendation on a baseline of at least 0
      satisfies `ImpactAction`'s bounds, so building it never raises, and all
      its quantities are at least 0. */
  lemma MkActionValid(rec: Recommendation, base: real, tariff: real, ef: real)
    requires rec.Valid() && base >= 0.0
    ensures var a := MkAction(rec, base, tariff, ef);
      && a.Valid()
      && a.kwh >= 0.0 && a.lkr >= 0.0 && a.estCost >= 0.0
      && a.action == rec.action
      && (rec.estCost >= 0.0 ==> a.estCost == rec.estCost)
      && (rec.payback.Some? ==> a.payback == rec.payback)
  {
  }

  /** The maximum reduction percentage plays no part in the estimate. */
  lemma PctMaxUnused(rec: Recommendation, base: real, tariff: real, ef: real, x: real)
    ensures MkAction(rec.(pctMax := x), base, tariff, ef) == MkAction(rec, base, tariff, ef)
  {
  }

  /** The estimate agrees with the policy filter's on the dump of the same
      recommendation. */
  lemma SavingsMatchPolicy(rec: Recommendation, base: real)
    ensures EstKwhSaved(rec, base) == Constraints.EstKwhSaved(DumpRecommendation(rec), base)
  {
    var d := DumpRecommendation(rec);
    assert Get(d, "kwh_saved_per_month") == OptFloat(rec.kwhSaved);
    assert Get(d, "pct_kwh_reduction_min") == Float(rec.pctMin);
    assert Constraints.PctFraction(d) == Min(Max(rec.pctMin, 0.0), 100.0) / 100.0;
  }

  /** On a baseline of 320 kWh and a tariff of 62 LKR/kWh, a free action with
      a 10% minimum reduction saves 32 kWh and 1984 LKR a month and pays back
      at once; one with 5% costing 50000 saves 16 kWh and 992 LKR and pays
      back in 50000/992 months. */
  lemma WorkedExamples(r1: Recommendation, r2: Recommendation, ef: real)
    requires r1 == Recommendation("Delamp", [], 10.0, 15.0, 0.0, None, "low", None, None)
    requires r2 == Recommendation("Inverter AC", [], 5.0, 8.0, 50000.0, None, "medium", None, None)
    ensures var a := MkAction(r1, 320.0, 62.0, ef); a.kwh == 32.0 && a.lkr == 1984.0 && a.payback == Some(0.0)
    ensures var a := MkAction(r2, 320.0, 62.0, ef); a.kwh == 16.0 && a.lkr == 992.0 && a.payback == Some(50000.0 / 992.0)
  {
    assert EstKwhSaved(r1, 320.0) == 32.0;
    assert MonthlySavings(32.0, 62.0) == 1984.0;
    assert EstKwhSaved(r2, 320.0) == 16.0;
    assert MonthlySavings(16.0, 62.0) == 992.0;
  }

  // ---------------------------------------------------------------------------
  // The plan

  datatype ImpactTotals = ImpactTotals(kwh: real, lkr: real, co2: real)

  /** The lines of the plan text; their wording and rounding are not modelled. */
  datatype PlanLine =
    | Heading
    | SavingsLine(lkr: real)
    | EnergyLine(kwh: real, pct: real)
    | Co2Line(co2: real, pct: real)
    | QuickWinsHeading
    | QuickWinLine(action: string, kwh: real, lkr: real, cost: real, payback: Option<real>)
    | GoalUnmet(achieved: real, goal: real)

  datatype ImpactPlan = ImpactPlan(
    quickWins: seq<ImpactAction>,
    allActions: seq<ImpactAction>,
    totals: ImpactTotals,
    lines: seq<PlanLine>,
    policy: Option<PolicyGoals>)

  /** `[_mk_action(r, ...) for r in recs]` */
  function Actions(recs: seq<Recommendation>, base: real, tariff: real, ef: real): (r: seq<ImpactAction>)
    ensures |r| == |recs|
    ensures forall i :: 0 <= i < |recs| ==> r[i] == MkAction(recs[i], base, tariff, ef)
  {
    seq(|recs|, i requires 0 <= i < |recs| => MkAction(recs[i], base, tariff, ef))
  }

  /** The action loop of `estimate_impact`. No action fails to build (see
      `MkActionValid`), so none is skipped. */
  method BuildActions(recs: seq<Recommendation>, base: real, tariff: real, ef: real)
    returns (actions: seq<ImpactAction>)
    ensures actions == Actions(recs, base, tariff, ef)
  {
    actions := [];
    var i := 0;
    while i < |recs|
      invariant 0 <= i <= |recs|
      invariant actions == Actions(recs[..i], base, tariff, ef)
    {
      actions := actions + [MkAction(recs[i], base, tariff, ef)];
      i := i + 1;
    }
    assert recs[..|recs|] == recs;
  }

  function KwhOf(a: ImpactAction): real { a.kwh }
  function LkrOf(a: ImpactAction): real { a.lkr }
  function Co2Of(a: ImpactAction): real { a.co2 }

  /** The quick-win test: cheap, or a known payback within six months. */
  predicate IsQuickWin(a: ImpactAction) {
    a.estCost <= 10000.0 || (a.payback.Some? && a.payback.value <= 6.0)
  }

  /** The quick-win order: cost, then payback (undefined last), then most
      kWh saved first. */
  function QuickKey(a: ImpactAction): Key {
    Key(a.estCost, if a.payback.Some? then a.payback.value else 1000000000.0, -a.kwh)
  }

  function QuickWins(actions: seq<ImpactAction>): seq<ImpactAction> {
    SortBy(Filter(actions, IsQuickWin), QuickKey)
  }

  /** The percentages achieved, with the emission factor; None where the CO2
      percentage divides by zero. */
  function Achieved(totals: ImpactTotals, base: real, ef: real): (r: Option<(real, real)>)
    ensures base <= 0.0 ==> r == Some((0.0, 0.0))
    ensures r.None? <==> base > 0.0 && ef == 0.0
    ensures r.Some? && base > 0.0 ==> r.value.0 * base == totals.kwh * 100.0
  {
    if base <= 0.0 then Some((0.0, 0.0))
    else if base * ef == 0.0 then None
    else Some((Ratio(totals.kwh * 100.0, base), totals.co2 / (base * ef) * 100.0))
  }

  /** Whether the CO2 goal warning is issued. */
  predicate GoalMissed(policy: Option<PolicyGoals>, achievedCo2: real) {
    policy.Some? && policy.value.co2Goal.Some? && achievedCo2 + 0.000000001 < policy.value.co2Goal.value
  }

  function QuickWinLines(qs: seq<ImpactAction>): (r: seq<PlanLine>)
    ensures |r| == |qs|
    ensures forall i :: 0 <= i < |qs| ==> r[i] == QuickWinLine(qs[i].action, qs[i].kwh, qs[i].lkr, qs[i].estCost, qs[i].payback)
  {
    seq(|qs|, i requires 0 <= i < |qs| => QuickWinLine(qs[i].action, qs[i].kwh, qs[i].lkr, qs[i].estCost, qs[i].payback))
  }

  /** The plan's lines: the three summary lines, the quick wins under their
      heading when there are any, and the goal warning. */
  function Lines(t: ImpactTotals, pctKwh: real, pctCo2: real, qs: seq<ImpactAction>, policy: Option<PolicyGoals>)
    : seq<PlanLine>
  {
    [Heading, SavingsLine(t.lkr), EnergyLine(t.kwh, pctKwh), Co2Line(t.co2, pctCo2)]
    + (if qs != [] then [QuickWinsHeading] + QuickWinLines(qs) else [])
    + (if GoalMissed(policy, pctCo2) then [GoalUnmet(pctCo2, policy.value.co2Goal.value)] else [])
  }

  /** `estimate_impact(normalized, recs)` with emission factor `ef`; None
      where it raises. */
  function Estimate(n: NormalizedInput, recs: seq<Recommendation>, ef: real): Option<ImpactPlan> {
    var base := Max(n.monthlyKwh, 0.0);
    var actions := Actions(recs, base, Max(n.tariff, 0.0), ef);
    var totals := ImpactTotals(Total(actions, KwhOf), Total(actions, LkrOf), Total(actions, Co2Of));
    var qs := QuickWins(actions);
    match Achieved(totals, base, ef)
    case None => None
    case Some((pk, pc)) => Some(ImpactPlan(qs, actions, totals, Lines(totals, pk, pc, qs, n.policy), n.policy))
  }

  /** The line-building part of `estimate_impact`. */
  method BuildLines(t: ImpactTotals, pk: real, pc: real, qs: seq<ImpactAction>, policy: Option<PolicyGoals>)
    returns (lines: seq<PlanLine>)
    ensures lines == Lines(t, pk, pc, qs, policy)
  {
    var head := [Heading, SavingsLine(t.lkr), EnergyLine(t.kwh, pk), Co2Line(t.co2, pc)];
    lines := head;
    if qs != [] {
      lines := lines + [QuickWinsHeading];
      var i := 0;
      while i < |qs|
        invariant 0 <= i <= |qs|
        invariant lines == head + [QuickWinsHeading] + QuickWinLines(qs[..i])
      {
        var q := qs[i];
        assert QuickWinLines(qs[..i + 1]) == QuickWinLines(qs[..i]) + [QuickWinLine(q.action, q.kwh, q.lkr, q.estCost, q.payback)];
        lines := lines + [QuickWinLine(q.action, q.kwh, q.lkr, q.estCost, q.payback)];
        i := i + 1;
      }
      assert qs[..|qs|] == qs;
    }
    if GoalMissed(policy, pc) {
      lines := lines + [GoalUnmet(pc, policy.value.co2Goal.value)];
    }
  }

  /** `estimate_impact` */
  method EstimateImpact(n: NormalizedInput, recs: seq<Recommendation>, ef: real) returns (r: Option<ImpactPlan>)
    ensures r == Estimate(n, recs, ef)
  {
    var base := Max(n.monthlyKwh, 0.0);
    var tariff := Max(n.tariff, 0.0);
    var actions := BuildActions(recs, base, tariff, ef);
    var totals := ImpactTotals(Total(actions, KwhOf), Total(actions, LkrOf), Total(actions, Co2Of));
    var qs := QuickWins(actions);
    var achieved := Achieved(totals, base, ef);
    if achieved.None? {
      return None;
    }
    var lines := BuildLines(totals, achieved.value.0, achieved.value.1, qs, n.policy);
    return Some(ImpactPlan(qs, actions, totals, lines, n.policy));
  }

  // ---------------------------------------------------------------------------
  // Properties of the plan

  /** The plan raises exactly when the baseline is positive and the emission
      factor is 0; otherwise it lists one action per recommendation, in
      order, and carries the policy through. */
  lemma EstimateShape(n: NormalizedInput, recs: seq<Recommendation>, ef: real)
    ensures Estimate(n, recs, ef).None? <==> n.monthlyKwh > 0.0 && ef == 0.0
    ensures var p := Estimate(n, recs, ef); p.Some? ==>
      && |p.value.allActions| == |recs|
      && (forall i :: 0 <= i < |recs| ==>
            p.value.allActions[i] == MkAction(recs[i], Max(n.monthlyKwh, 0.0), Max(n.tariff, 0.0), ef))
      && p.value.policy == n.policy
  {
  }

  /** With valid recommendations every total is at least 0 and every action
      satisfies its bounds. */
  lemma TotalsNonNegative(n: NormalizedInput, recs: seq<Recommendation>, ef: real)
    requires forall i :: 0 <= i < |recs| ==> recs[i].Valid()
    requires Estimate(n, recs, ef).Some?
    ensures var p := Estimate(n, recs, ef).value;
      && p.totals.kwh >= 0.0 && p.totals.lkr >= 0.0 && p.totals.co2 >= 0.0
      && forall i :: 0 <= i < |p.allActions| ==> p.allActions[i].Valid()
  {
    var base := Max(n.monthlyKwh, 0.0);
    var actions := Actions(recs, base, Max(n.tariff, 0.0), ef);
    forall i | 0 <= i < |recs|
      ensures actions[i].Valid() && actions[i].kwh >= 0.0 && actions[i].lkr >= 0.0
    {
      MkActionValid(recs[i], base, Max(n.tariff, 0.0), ef);
    }
    TotalNonNegative(actions, KwhOf);
    TotalNonNegative(actions, LkrOf);
    TotalNonNegative(actions, Co2Of);
  }

  /** The quick wins are exactly the actions that are cheap or pay back
      within six months, each as often as in the full list, sorted by cost,
      payback and kWh saved, with ties in input order. */
  lemma QuickWinsSpec(actions: seq<ImpactAction>, k: Key)
    ensures var qs := QuickWins(actions);
      && (forall j :: 0 <= j < |qs| ==> IsQuickWin(qs[j]))
      && multiset(qs) <= multiset(actions)
      && (forall a :: a in actions && IsQuickWin(a) ==> a in qs)
      && SortedBy(qs, QuickKey)
      && WithKey(qs, QuickKey, k) == WithKey(Filter(actions, IsQuickWin), QuickKey, k)
  {
    var f := Filter(actions, IsQuickWin);
    FilterSound(actions, IsQuickWin);
    FilterComplete(actions, IsQuickWin);
    SortBySorted(f, QuickKey);
    SortByStable(f, QuickKey, k);
    var qs := QuickWins(actions);
    forall j | 0 <= j < |qs|
      ensures IsQuickWin(qs[j])
    {
      assert qs[j] in multiset(f);
      var i :| 0 <= i < |f| && f[i] == qs[j];
    }
    forall a | a in actions && IsQuickWin(a)
      ensures a in qs
    {
      assert a in multiset(f);
    }
  }

  /** The achieved percentages are 0 on a zero baseline. */
  lemma ZeroBaseline(n: NormalizedInput, recs: seq<Recommendation>, ef: real)
    requires n.monthlyKwh <= 0.0
    ensures var p := Estimate(n, recs, ef);
      && p.Some?
      && p.value.lines[2].pct == 0.0 && p.value.lines[3].pct == 0.0
  {
  }

  /** The quick-win heading appears exactly when there are quick wins, and
      one line follows it per quick win, in order. */
  lemma QuickWinLinesShape(n: NormalizedInput, recs: seq<Recommendation>, ef: real)
    requires Estimate(n, recs, ef).Some?
    ensures var p := Estimate(n, recs, ef).value;
      && (QuickWinsHeading in p.lines <==> p.quickWins != [])
      && (p.quickWins != [] ==>
            && p.lines[4] == QuickWinsHeading
            && forall i :: 0 <= i < |p.quickWins| ==> p.lines[5 + i].QuickWinLine? && p.lines[5 + i].action == p.quickWins[i].action)
  {
    var p := Estimate(n, recs, ef).value;
    var (pk, pc) := Achieved(p.totals, Max(n.monthlyKwh, 0.0), ef).value;
    LinesQuickWins(p.totals, pk, pc, p.quickWins, n.policy);
  }

  lemma LinesQuickWins(t: ImpactTotals, pk: real, pc: real, qs: seq<ImpactAction>, policy: Option<PolicyGoals>)
    ensures var ls := Lines(t, pk, pc, qs, policy);
      && (QuickWinsHeading in ls <==> qs != [])
      && (qs != [] ==>
            && ls[4] == QuickWinsHeading
            && forall i :: 0 <= i < |qs| ==> ls[5 + i].QuickWinLine? && ls[5 + i].action == qs[i].action)
  {
    var ls := Lines(t, pk, pc, qs, policy);
    var ws := QuickWinLines(qs);
    var head := [Heading, SavingsLine(t.lkr), EnergyLine(t.kwh, pk), Co2Line(t.co2, pc)];
    var tail := if GoalMissed(policy, pc) then [GoalUnmet(pc, policy.value.co2Goal.value)] else [];
    if qs == [] {
      assert ls == head + tail;
      assert forall i :: 0 <= i < |ls| ==> ls[i] != QuickWinsHeading;
    } else {
      assert ls == head + [QuickWinsHeading] + ws + tail;
      forall i | 0 <= i < |qs|
        ensures ls[5 + i] == ws[i]
      {
      }
    }
  }

  /** The CO2 goal warning is the last line exactly when there is a goal and
      the achieved CO2 percentage falls short of it by more than 1e-9. */
  lemma GoalWarning(n: NormalizedInput, recs: seq<Recommendation>, ef: real)
    requires Estimate(n, recs, ef).Some?
    ensures var p := Estimate(n, recs, ef).value;
      var pc := p.lines[3].pct;
      && (p.lines[|p.lines| - 1].GoalUnmet? <==>
          n.policy.Some? && n.policy.value.co2Goal.Some? && pc + 0.000000001 < n.policy.value.co2Goal.value)
      && (forall i :: 0 <= i < |p.lines| - 1 ==> !p.lines[i].GoalUnmet?)
  {
    var p := Estimate(n, recs, ef).value;
    var (pk, pc) := Achieved(p.totals, Max(n.monthlyKwh, 0.0), ef).value;
    LinesGoal(p.totals, pk, pc, p.quickWins, n.policy);
  }

  lemma LinesGoal(t: ImpactTotals, pk: real, pc: real, qs: seq<ImpactAction>, policy: Option<PolicyGoals>)
    ensures var ls := Lines(t, pk, pc, qs, policy);
      && ls[3].pct == pc
      && (ls[|ls| - 1].GoalUnmet? <==> GoalMissed(policy, pc))
      && (forall i :: 0 <= i < |ls| - 1 ==> !ls[i].GoalUnmet?)
  {
    var ls := Lines(t, pk, pc, qs, policy);
    var mid := [Heading, SavingsLine(t.lkr), EnergyLine(t.kwh, pk), Co2Line(t.co2, pc)]
      + (if qs != [] then [QuickWinsHeading] + QuickWinLines(qs) else []);
    assert forall i :: 0 <= i < |mid| ==> !mid[i].GoalUnmet?;
    assert ls == mid + (if GoalMissed(policy, pc) then [GoalUnmet(pc, policy.value.co2Goal.value)] else []);
  }
}
