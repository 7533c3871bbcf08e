/** The agentic coordinator: a fixed step list chosen from the payload, the
    step dispatcher that updates the shared state dict, and the pass loop
    with its error budget. The agents and the bill parser are parameters
    (`Agents`); the tariff lookup and the consistency checks are modelled.
    Logging, the trace id's generation and the messages' other fields are
    left out. */
module Coordinator {
  import opened Wrappers
  import opened Values
  import Tariff
  import Checks

  /** A plan step: the agent and its intent. */
  datatype Step = Step(agent: string, intent: string)

  const ParseBill := Step("tool", "parse_bill")
  const Normalize := Step("intake", "normalize")
  const LookupTariff := Step("tool", "lookup_tariff")
  const Audit := Step("auditor", "audit")
  const Recommend := Step("recommender", "recommend")
  const Estimate := Step("estimator", "estimate")

  /** The steps every plan runs after the optional bill parse. */
  const CoreSteps := [Normalize, LookupTariff, Audit, Recommend, Estimate]

  predicate Known(step: Step) {
    step == ParseBill || step == Normalize || step == LookupTariff
    || step == Audit || step == Recommend || step == Estimate
  }

  /** What a step ends with: an ok message, an error message, or an
      exception caught by the loop. */
  datatype StepStatus = Ok | Failed | Raised

  /** The collaborators a step calls: each returns the dict it produces, or
      None where it raises. `normalize`, `audit`, `recommend` and `estimate`
      stand for the agent together with the model validation and dump of
      its result. */
  datatype Agents = Agents(
    parseBill: Value -> Option<Obj>,
    normalize: Obj -> Option<Obj>,
    audit: Value -> Option<Obj>,
    recommend: (Value, Value) -> Option<Obj>,
    estimate: (Value, Value) -> Option<Obj>)

  const TariffKey := "tariff_LKR_per_kWh"

  // ---------------------------------------------------------------------------
  // _initial_plan

  /** `_initial_plan(payload)`: a bill parse first exactly when the payload
      carries a truthy bill text, then the five core steps in order. */
  method InitialPlan(payload: Obj) returns (steps: seq<Step>)
    ensures steps == PlanFor(payload)
    ensures |steps| == (if Truthy(Get(payload, "bill_text")) then 6 else 5)
    ensures (steps[0] == ParseBill) <==> Truthy(Get(payload, "bill_text"))
    ensures steps[|steps| - 5..] == CoreSteps
  {
    steps := [];
    if Truthy(Get(payload, "bill_text")) {
      steps := steps + [ParseBill];
    }
    steps := steps + [Normalize];
    steps := steps + [LookupTariff];
    steps := steps + [Audit];
    steps := steps + [Recommend];
    steps := steps + [Estimate];
  }

  /** The plan `_initial_plan` returns. */
  function PlanFor(payload: Obj): (r: seq<Step>)
    ensures forall i :: 0 <= i < |r| ==> Known(r[i])
    ensures ParseBill in r <==> Truthy(Get(payload, "bill_text"))
  {
    (if Truthy(Get(payload, "bill_text")) then [ParseBill] else []) + CoreSteps
  }

  // ---------------------------------------------------------------------------
  // _apply_step, one branch at a time

  /** `state.get("bill_text", "") or ""` is parsed and merged into the state. */
  function ParseBillBranch(st: Obj, ag: Agents): (Obj, StepStatus) {
    var text := if Truthy(Get(st, "bill_text")) then Get(st, "bill_text") else Str("");
    match ag.parseBill(text)
    case None => (st, Raised)
    case Some(parsed) => (st + parsed, Ok)
  }

  function NormalizeBranch(st: Obj, ag: Agents): (Obj, StepStatus) {
    match ag.normalize(st)
    case None => (st, Raised)
    case Some(n) => (st["normalized" := Dict(n)], Ok)
  }

  /** The region `get_tariff` receives: a falsy region reads as None; a
      truthy value that is not a string makes `.strip()` raise. */
  function RegionArg(v: Value): Option<Option<string>> {
    if !Truthy(v) then Some(None)
    else if v.Str? then Some(Some(v.s))
    else None
  }

  /** The tariff lookup: only a missing or zero tariff is looked up, from the
      state's region or else the normalized region. */
  function LookupBranch(st: Obj): (Obj, StepStatus) {
    var norm := GetOr(st, "normalized", Dict(map[]));
    if !norm.Dict? then (st, Raised)
    else if Truthy(Get(norm.fields, TariffKey)) then (st, Ok)
    else
      var region := if Truthy(Get(st, "region")) then Get(st, "region") else Get(norm.fields, "region");
      match RegionArg(region)
      case None => (st, Raised)
      case Some(code) =>
        if "normalized" !in st then (st, Raised)
        else (st["normalized" := Dict(norm.fields[TariffKey := Float(Tariff.GetTariff(code))])], Ok)
  }

  function AuditBranch(st: Obj, ag: Agents): (Obj, StepStatus) {
    if "normalized" !in st || !st["normalized"].Dict? then (st, Raised)
    else match ag.audit(st["normalized"])
      case None => (st, Raised)
      case Some(f) => (st["findings" := Dict(f)], Ok)
  }

  /** `len(state.get("findings", {}).get("findings", []))` can be taken. */
  predicate FindingsCountable(st: Obj) {
    var holder := GetOr(st, "findings", Dict(map[]));
    holder.Dict? && (var inner := GetOr(holder.fields, "findings", List([]));
                     inner.List? || inner.Dict? || inner.Str?)
  }

  function RecommendBranch(st: Obj, ag: Agents): (Obj, StepStatus) {
    if "normalized" !in st || !st["normalized"].Dict? || !FindingsCountable(st) || "findings" !in st then (st, Raised)
    else match ag.recommend(st["normalized"], st["findings"])
      case None => (st, Raised)
      case Some(r) => (st["recs" := Dict(r)], Ok)
  }

  /** The first argument of `consistency_checks`: a dict as it is, a falsy
      value as the empty dict; anything else makes `.get` raise. */
  function CheckInput(v: Value): Option<Option<Obj>> {
    if v.Dict? then Some(Some(v.fields))
    else if !Truthy(v) then Some(None)
    else None
  }

  function FlagName(f: Checks.Flag): string {
    match f
    case SavingsExceedBill => "savings_exceed_bill"
    case SavingsPctOutOfRange => "savings_pct_out_of_range"
    case InvalidPayback => "invalid_payback"
    case NeedsHumanReview => "needs_human_review"
  }

  function FlagList(fs: seq<Checks.Flag>): (r: Value)
    ensures r.List? && |r.items| == |fs|
  {
    List(seq(|fs|, i requires 0 <= i < |fs| => Str(FlagName(fs[i]))))
  }

  /** The estimate: the impact plan, then the consistency checks on it. */
  function EstimateBranch(st: Obj, ag: Agents): (Obj, StepStatus) {
    if "normalized" !in st || "recs" !in st then (st, Raised)
    else match ag.estimate(st["normalized"], st["recs"])
      case None => (st, Raised)
      case Some(plan) =>
        match CheckInput(st["normalized"])
        case None => (st, Raised)
        case Some(inp) =>
          match Checks.Consistency(inp, Some(plan))
          case None => (st, Raised)
          case Some((fixed, flags)) => (st["plan" := Dict(fixed)]["flags" := FlagList(flags)], Ok)
  }

  /** `_apply_step(state, step)`: the new state and how the step ended. An
      exception leaves the state as it was. */
  function Apply(st: Obj, step: Step, ag: Agents): (Obj, StepStatus) {
    if step == ParseBill then ParseBillBranch(st, ag)
    else if step == Normalize then NormalizeBranch(st, ag)
    else if step == LookupTariff then LookupBranch(st)
    else if step == Audit then AuditBranch(st, ag)
    else if step == Recommend then RecommendBranch(st, ag)
    else if step == Estimate then EstimateBranch(st, ag)
    else (st, Failed)
  }

  /** An unknown step ends with an error message and leaves the state
      unchanged, and it is the only way a step ends with one. */
  lemma UnknownStep(st: Obj, step: Step, ag: Agents)
    ensures !Known(step) ==> Apply(st, step, ag) == (st, Failed)
    ensures Apply(st, step, ag).1 == Failed <==> !Known(step)
  {
  }

  /** A raised step leaves the state unchanged. */
  lemma RaisedKeepsState(st: Obj, step: Step, ag: Agents)
    ensures Apply(st, step, ag).1 == Raised ==> Apply(st, step, ag).0 == st
  {
  }

  /** A truthy tariff is kept: the lookup changes nothing. */
  lemma TariffKept(st: Obj)
    requires "normalized" in st && st["normalized"].Dict? && Truthy(Get(st["normalized"].fields, TariffKey))
    ensures LookupBranch(st) == (st, Ok)
  {
  }

  /** A missing or zero tariff is replaced by a positive table tariff, and
      nothing else in the state changes. */
  lemma TariffFilled(st: Obj)
    requires "normalized" in st && st["normalized"].Dict? && !Truthy(Get(st["normalized"].fields, TariffKey))
    requires LookupBranch(st).1 == Ok
    ensures var st' := LookupBranch(st).0;
      && st'.Keys == st.Keys
      && (forall k :: k in st && k != "normalized" ==> st'[k] == st[k])
      && st'["normalized"].Dict?
      && TariffKey in st'["normalized"].fields
      && st'["normalized"].fields[TariffKey].Float?
      && st'["normalized"].fields[TariffKey].f > 0.0
      && Tariff.IsTableValue(st'["normalized"].fields[TariffKey].f)
      && (forall k :: k in st["normalized"].fields && k != TariffKey ==>
            k in st'["normalized"].fields && st'["normalized"].fields[k] == st["normalized"].fields[k])
  {
    var norm := st["normalized"].fields;
    var region := if Truthy(Get(st, "region")) then Get(st, "region") else Get(norm, "region");
    var code := RegionArg(region).value;
    assert LookupBranch(st).0 == st["normalized" := Dict(norm[TariffKey := Float(Tariff.GetTariff(code))])];
  }

  /** Looking the tariff up twice is looking it up once. */
  lemma LookupIdempotent(st: Obj)
    requires LookupBranch(st).1 == Ok
    ensures LookupBranch(LookupBranch(st).0) == LookupBranch(st)
  {
    var norm := GetOr(st, "normalized", Dict(map[]));
    if !Truthy(Get(norm.fields, TariffKey)) {
      TariffFilled(st);
    }
  }

  // ---------------------------------------------------------------------------
  // The passes of run_agentic

  /** How many errors a status adds. */
  function Cost(s: StepStatus): nat {
    if s == Ok then 0 else 1
  }

  /** One pass over `steps` from `(st, errors)`: each error or exception adds
      one, and the pass stops right after the one that takes the count above
      2. */
  function Pass(st: Obj, errors: int, steps: seq<Step>, ag: Agents): (r: (Obj, int))
    decreases |steps|
  {
    if steps == [] then (st, errors)
    else
      var (st', s) := Apply(st, steps[0], ag);
      var e := errors + Cost(s);
      if s != Ok && e > 2 then (st', e) else Pass(st', e, steps[1..], ag)
  }

  /** `max_iters` passes at most; the loop ends after the first pass that
      ends with at most two errors. */
  function Passes(st: Obj, errors: int, plan: seq<Step>, n: int, ag: Agents): (r: (Obj, int))
    decreases if n < 0 then 0 else n
  {
    if n <= 0 then (st, errors)
    else
      var (st', e) := Pass(st, errors, plan, ag);
      if e <= 2 then (st', e) else Passes(st', e, plan, n - 1, ag)
  }

  /** A pass never lowers the count and adds at most one per step; from a
      count of at most two it ends at three at most, and one that is already
      above two grows by at most one. */
  lemma {:induction false} PassCount(st: Obj, errors: int, steps: seq<Step>, ag: Agents)
    ensures errors <= Pass(st, errors, steps, ag).1 <= errors + |steps|
    ensures errors <= 2 ==> Pass(st, errors, steps, ag).1 <= 3
    ensures errors > 2 ==> Pass(st, errors, steps, ag).1 <= errors + 1
    decreases |steps|
  {
    if steps != [] {
      var (st', s) := Apply(st, steps[0], ag);
      PassCount(st', errors + Cost(s), steps[1..], ag);
    }
  }

  /** Once the count is above two, a pass runs only up to its first error. */
  lemma {:induction false} PassStopsAtFirstError(st: Obj, errors: int, steps: seq<Step>, ag: Agents)
    requires errors > 2 && steps != []
    requires Apply(st, steps[0], ag).1 != Ok
    ensures Pass(st, errors, steps, ag) == (Apply(st, steps[0], ag).0, errors + 1)
  {
  }

  /** A pass with no error applies every step in turn. */
  function ApplyAll(st: Obj, steps: seq<Step>, ag: Agents): Obj
    decreases |steps|
  {
    if steps == [] then st else ApplyAll(Apply(st, steps[0], ag).0, steps[1..], ag)
  }

  lemma {:induction false} CleanPass(st: Obj, errors: int, steps: seq<Step>, ag: Agents)
    requires Pass(st, errors, steps, ag).1 == errors
    ensures Pass(st, errors, steps, ag).0 == ApplyAll(st, steps, ag)
    decreases |steps|
  {
    if steps != [] {
      var (st', s) := Apply(st, steps[0], ag);
      PassCount(st', errors + Cost(s), steps[1..], ag);
      CleanPass(st', errors, steps[1..], ag);
    }
  }

  /** A first pass that ends within the budget is the only pass. */
  lemma WithinBudgetOnePass(st: Obj, plan: seq<Step>, n: int, ag: Agents)
    requires n >= 1 && Pass(st, 0, plan, ag).1 <= 2
    ensures Passes(st, 0, plan, n, ag) == Pass(st, 0, plan, ag)
  {
  }

  /** The count never decreases over the passes, and each pass after the
      first adds at most one. */
  lemma {:induction false} PassesCount(st: Obj, errors: int, plan: seq<Step>, n: int, ag: Agents)
    ensures errors <= Passes(st, errors, plan, n, ag).1
    ensures Passes(st, errors, plan, n, ag).1 <= (if errors > 2 then errors else 2) + (if n > 0 then n else 0)
    decreases if n < 0 then 0 else n
  {
    if n > 0 {
      var (st', e) := Pass(st, errors, plan, ag);
      PassCount(st, errors, plan, ag);
      PassesCount(st', e, plan, n - 1, ag);
    }
  }

  /** `run_agentic`'s return value; `flags` reads as the empty list where no
      estimate set it. */
  function ResultOf(traceId: string, input: Option<Obj>, st: Obj): (r: Obj)
    ensures r.Keys == {"trace_id", "input", "normalized", "findings", "recommendations", "plan", "flags"}
    ensures r["input"] == (if input.Some? then Dict(input.value) else Null)
    ensures r["flags"] == (if "flags" in st then st["flags"] else List([]))
    ensures r["recommendations"] == Get(st, "recs")
  {
    map[
      "trace_id" := Str(traceId),
      "input" := (if input.Some? then Dict(input.value) else Null),
      "normalized" := Get(st, "normalized"),
      "findings" := Get(st, "findings"),
      "recommendations" := Get(st, "recs"),
      "plan" := Get(st, "plan"),
      "flags" := GetOr(st, "flags", List([]))]
  }

  /** `run_agentic(input, max_iters)` with the trace id given. */
  function Agentic(input: Option<Obj>, maxIters: int, traceId: string, ag: Agents): Obj {
    var start := input.GetOr(map[]);
    ResultOf(traceId, input, Passes(start, 0, PlanFor(start), maxIters, ag).0)
  }

  /** The coordinator's run: the shared state dict, the plan made from it,
      and the error count. */
  class Run {
    var state: Obj
    const plan: seq<Step>
    var errors: int

    constructor (input: Option<Obj>)
      ensures state == input.GetOr(map[]) && plan == PlanFor(state) && errors == 0
    {
      var st := input.GetOr(map[]);
      var steps := InitialPlan(st);
      state := st;
      plan := steps;
      errors := 0;
    }

    /** `_apply_step(state, step)` on the shared state. */
    method ApplyStep(step: Step, ag: Agents) returns (status: StepStatus)
      modifies this
      ensures (state, status) == Apply(old(state), step, ag)
      ensures errors == old(errors)
    {
      ghost var st0 := state;
      if step == ParseBill {
        var text := if Truthy(Get(state, "bill_text")) then Get(state, "bill_text") else Str("");
        var parsed := ag.parseBill(text);
        if parsed.None? { return Raised; }
        state := state + parsed.value;
        return Ok;
      }
      if step == Normalize {
        var n := ag.normalize(state);
        if n.None? { return Raised; }
        state := state["normalized" := Dict(n.value)];
        return Ok;
      }
      if step == LookupTariff {
        status := LookupStep();
        return;
      }
      if step == Audit {
        if "normalized" !in state || !state["normalized"].Dict? { return Raised; }
        var f := ag.audit(state["normalized"]);
        if f.None? { return Raised; }
        state := state["findings" := Dict(f.value)];
        return Ok;
      }
      if step == Recommend {
        if "normalized" !in state || !state["normalized"].Dict? || !FindingsCountable(state) || "findings" !in state {
          return Raised;
        }
        var r := ag.recommend(state["normalized"], state["findings"]);
        if r.None? { return Raised; }
        state := state["recs" := Dict(r.value)];
        return Ok;
      }
      if step == Estimate {
        status := EstimateStep(ag);
        return;
      }
      return Failed;
    }

    /** The tariff lookup step on the shared state. */
    method LookupStep() returns (status: StepStatus)
      modifies this
      ensures (state, status) == LookupBranch(old(state))
      ensures errors == old(errors)
    {
      var norm := GetOr(state, "normalized", Dict(map[]));
      if !norm.Dict? { return Raised; }
      if !Truthy(Get(norm.fields, TariffKey)) {
        var region := Get(state, "region");
        if !Truthy(region) {
          region := Get(norm.fields, "region");
        }
        var code := RegionArg(region);
        if code.None? || "normalized" !in state { return Raised; }
        var t := Tariff.GetTariff(code.value);
        state := state["normalized" := Dict(norm.fields[TariffKey := Float(t)])];
      }
      return Ok;
    }

    /** The estimate step on the shared state. */
    method EstimateStep(ag: Agents) returns (status: StepStatus)
      modifies this
      ensures (state, status) == EstimateBranch(old(state), ag)
      ensures errors == old(errors)
    {
      if "normalized" !in state || "recs" !in state { return Raised; }
      var plan := ag.estimate(state["normalized"], state["recs"]);
      if plan.None? { return Raised; }
      var inp := CheckInput(state["normalized"]);
      if inp.None? { return Raised; }
      var checked := Checks.ConsistencyChecks(inp.value, Some(plan.value));
      if checked.None? { return Raised; }
      state := state["plan" := Dict(checked.value.0)]["flags" := FlagList(checked.value.1)];
      return Ok;
    }

    /** One pass over the plan: the inner loop of `run_agentic`. */
    method RunPass(ag: Agents)
      modifies this
      ensures (state, errors) == Pass(old(state), old(errors), plan, ag)
    {
      ghost var goal := Pass(state, errors, plan, ag);
      var i := 0;
      while i < |plan|
        invariant 0 <= i <= |plan|
        invariant Pass(state, errors, plan[i..], ag) == goal
      {
        assert plan[i..][0] == plan[i] && plan[i..][1..] == plan[i + 1..];
        var status := ApplyStep(plan[i], ag);
        if status != Ok {
          errors := errors + 1;
          if errors > 2 {
            return;
          }
        }
        i := i + 1;
      }
    }

    /** The outer loop of `run_agentic`: up to `maxIters` passes, stopping
        after the first pass that ends within the budget. */
    method RunPasses(maxIters: int, ag: Agents)
      modifies this
      ensures (state, errors) == Passes(old(state), old(errors), plan, maxIters, ag)
    {
      ghost var goal := Passes(state, errors, plan, maxIters, ag);
      var k := 0;
      while k < maxIters
        invariant 0 <= k && (maxIters >= 0 ==> k <= maxIters)
        invariant Passes(state, errors, plan, maxIters - k, ag) == goal
      {
        RunPass(ag);
        if errors <= 2 {
          return;
        }
        k := k + 1;
      }
    }
  }

  /** `run_agentic(input, max_iters)` with the trace id given: the result
      echoes the input and the state the passes leave. */
  method RunAgentic(input: Option<Obj>, maxIters: int, traceId: string, ag: Agents) returns (r: Obj)
    ensures r == Agentic(input, maxIters, traceId, ag)
  {
    var run := new Run(input);
    run.RunPasses(maxIters, ag);
    r := ResultOf(traceId, input, run.state);
  }
}
