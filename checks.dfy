/** The plan consistency checks: savings capped at the current bill, the
    savings percentage clamped into [0, 100], a non-positive payback cleared,
    and a flag for human review above 50 %. The plan handed in is copied;
    only the three checked entries of the copy change. */
module Checks {
  import opened Wrappers
  import opened Values
  import opened Text

  const TariffKey := "tariff_LKR_per_kWh"
  const MonthlyKey := "monthly_kWh"
  const SavingsKey := "estimated_monthly_savings_LKR"
  const PctKey := "estimated_savings_pct"
  const PaybackKey := "payback_months"

  lemma KeysDistinct()
    ensures SavingsKey != PctKey && SavingsKey != PaybackKey && PctKey != PaybackKey
  {
    assert |SavingsKey| != |PctKey| && |SavingsKey| != |PaybackKey| && |PctKey| != |PaybackKey|;
  }

  /** The flags, in the order the checks raise them. */
  datatype Flag = SavingsExceedBill | SavingsPctOutOfRange | InvalidPayback | NeedsHumanReview

  function Rank(f: Flag): nat {
    match f
    case SavingsExceedBill => 0
    case SavingsPctOutOfRange => 1
    case InvalidPayback => 2
    case NeedsHumanReview => 3
  }

  /** `float(v or 0)`: a falsy value reads as 0; None where `float()`
      raises. A non-finite reading counts as 0. */
  function ReadValue(v: Value): (r: Option<real>)
    ensures !Truthy(v) ==> r == Some(0.0)
    ensures v.Int? ==> r == Some(v.i as real)
    ensures v.Float? ==> r == Some(v.f)
    ensures Truthy(v) && (v.List? || v.Dict?) ==> r == None
  {
    if !Truthy(v) then Some(0.0)
    else match PyFloat(v)
      case None => None
      case Some(Finite(x)) => Some(x)
      case Some(_) => Some(0.0)
  }

  /** `float(d.get(k, 0) or 0)`: a missing entry reads as 0. */
  function ReadNum(d: Obj, k: string): (r: Option<real>)
    ensures k !in d ==> r == Some(0.0)
  {
    ReadValue(Get(d, k))
  }

  /** `isinstance(payback, (int, float)) and payback <= 0`; a bool is an int. */
  predicate NonPositiveNumber(v: Value) {
    match v
    case Bool(b) => !b
    case Int(i) => i <= 0
    case Float(f) => f <= 0.0
    case _ => false
  }

  /** `plan.get(PctKey, 0) and plan[PctKey] > 50`; None where the comparison
      raises (a non-empty string, list or dict). */
  function ReviewNeeded(v: Value): (r: Option<bool>)
    ensures !Truthy(v) ==> r == Some(false)
    ensures v.Int? ==> r == Some(v.i > 50)
    ensures v.Float? ==> r == Some(v.f > 50.0)
  {
    if !Truthy(v) then Some(false)
    else match v
      case Bool(b) => Some(false)
      case Int(i) => Some(i > 50)
      case Float(f) => Some(f > 50.0)
      case _ => None
  }

  /** What the checks start from: the current bill (monthly kWh times the
      tariff), the estimated savings and the savings percentage. */
  datatype Readings = Readings(bill: real, savings: real, pct: real)

  /** The current bill from the input: monthly kWh times the tariff. */
  function ReadBill(inp: Obj): Option<real> {
    match (ReadNum(inp, TariffKey), ReadNum(inp, MonthlyKey))
    case (Some(t), Some(m)) => Some(m * t)
    case _ => None
  }

  function ReadAll(inp: Obj, plan: Obj): Option<Readings> {
    match (ReadBill(inp), ReadNum(plan, SavingsKey), ReadNum(plan, PctKey))
    case (Some(bill), Some(s), Some(p)) => Some(Readings(bill, s, p))
    case _ => None
  }

  function ClampPct(p: real): (r: real)
    ensures 0.0 <= r <= 100.0
    ensures 0.0 <= p <= 100.0 ==> r == p
    ensures p < 0.0 ==> r == 0.0
    ensures p > 100.0 ==> r == 100.0
  {
    Max(0.0, Min(100.0, p))
  }

  /** The savings exceed a positive bill. */
  predicate BillExceeded(x: Readings) {
    x.bill > 0.0 && x.savings > x.bill
  }

  predicate PctOutOfRange(x: Readings) {
    x.pct < 0.0 || x.pct > 100.0
  }

  /** The plan copy after the three clamps. */
  function Clamped(plan: Obj, x: Readings): Obj {
    var p1 := if BillExceeded(x) then plan[SavingsKey := Float(x.bill)] else plan;
    var p2 := if PctOutOfRange(x) then p1[PctKey := Float(ClampPct(x.pct))] else p1;
    if NonPositiveNumber(Get(plan, PaybackKey)) then p2[PaybackKey := Null] else p2
  }

  function When(b: bool, f: Flag): seq<Flag> {
    if b then [f] else []
  }

  /** The flags raised by the four checks, in their fixed order. */
  function Flags(bill: bool, pct: bool, payback: bool, review: bool): (r: seq<Flag>)
    ensures SavingsExceedBill in r <==> bill
    ensures SavingsPctOutOfRange in r <==> pct
    ensures InvalidPayback in r <==> payback
    ensures NeedsHumanReview in r <==> review
    ensures forall i, j :: 0 <= i < j < |r| ==> Rank(r[i]) < Rank(r[j])
  {
    When(bill, SavingsExceedBill) + When(pct, SavingsPctOutOfRange) + When(payback, InvalidPayback) + When(review, NeedsHumanReview)
  }

  /** `consistency_checks(input_d, plan_d)`: the checked plan and the flags;
      None where a reading or the review comparison raises. A missing
      argument reads as the empty dict. */
  function Consistency(input: Option<Obj>, planIn: Option<Obj>): Option<(Obj, seq<Flag>)> {
    var inp := input.GetOr(map[]);
    var plan := planIn.GetOr(map[]);
    match ReadAll(inp, plan)
    case None => None
    case Some(x) =>
      var p := Clamped(plan, x);
      match ReviewNeeded(Get(p, PctKey))
      case None => None
      case Some(review) => Some((p, Flags(BillExceeded(x), PctOutOfRange(x), NonPositiveNumber(Get(plan, PaybackKey)), review)))
  }

  /** `consistency_checks`, step by step on a copy of the plan. */
  method ConsistencyChecks(input: Option<Obj>, planIn: Option<Obj>) returns (r: Option<(Obj, seq<Flag>)>)
    ensures r == Consistency(input, planIn)
  {
    var inp := input.GetOr(map[]);
    var plan := planIn.GetOr(map[]);
    var readings := ReadAll(inp, plan);
    if readings.None? {
      return None;
    }
    var x := readings.value;
    var payback := Get(plan, PaybackKey);
    var fixedPlan, flags := ClampPlan(plan, x);
    var review := ReviewNeeded(Get(fixedPlan, PctKey));
    if review.None? {
      ConsistencyRaises(input, planIn, x);
      return None;
    }
    if review.value {
      flags := flags + [NeedsHumanReview];
    }
    assert flags == Flags(BillExceeded(x), PctOutOfRange(x), NonPositiveNumber(payback), review.value);
    ConsistencyOf(input, planIn, x, review.value);
    return Some((fixedPlan, flags));
  }

  /** The first three checks on the plan copy: each fixes its entry and
      raises its flag when it fails. */
  method ClampPlan(plan: Obj, x: Readings) returns (out: Obj, flags: seq<Flag>)
    ensures out == Clamped(plan, x)
    ensures flags == When(BillExceeded(x), SavingsExceedBill) + When(PctOutOfRange(x), SavingsPctOutOfRange)
                     + When(NonPositiveNumber(Get(plan, PaybackKey)), InvalidPayback)
  {
    flags := [];
    out := plan;
    if x.bill > 0.0 && x.savings > x.bill {
      flags := flags + [SavingsExceedBill];
      out := out[SavingsKey := Float(x.bill)];
    }
    if x.pct < 0.0 || x.pct > 100.0 {
      flags := flags + [SavingsPctOutOfRange];
      out := out[PctKey := Float(ClampPct(x.pct))];
    }
    if NonPositiveNumber(Get(plan, PaybackKey)) {
      flags := flags + [InvalidPayback];
      out := out[PaybackKey := Null];
    }
  }

  lemma ConsistencyRaises(input: Option<Obj>, planIn: Option<Obj>, x: Readings)
    requires ReadAll(input.GetOr(map[]), planIn.GetOr(map[])) == Some(x)
    requires ReviewNeeded(Get(Clamped(planIn.GetOr(map[]), x), PctKey)).None?
    ensures Consistency(input, planIn).None?
  {
  }

  lemma ConsistencyOf(input: Option<Obj>, planIn: Option<Obj>, x: Readings, review: bool)
    requires ReadAll(input.GetOr(map[]), planIn.GetOr(map[])) == Some(x)
    requires ReviewNeeded(Get(Clamped(planIn.GetOr(map[]), x), PctKey)) == Some(review)
    ensures Consistency(input, planIn) == Some((Clamped(planIn.GetOr(map[]), x),
      Flags(BillExceeded(x), PctOutOfRange(x), NonPositiveNumber(Get(planIn.GetOr(map[]), PaybackKey)), review)))
  {
  }

  /** The readings of a plan whose savings and percentage read differently. */
  lemma ReadAllOther(inp: Obj, plan: Obj, out: Obj, x: Readings, s: real, p: real)
    requires ReadAll(inp, plan) == Some(x)
    requires ReadNum(out, SavingsKey) == Some(s) && ReadNum(out, PctKey) == Some(p)
    ensures ReadAll(inp, out) == Some(Readings(x.bill, s, p))
  {
  }

  // ---------------------------------------------------------------------------
  // Properties

  /** The readings and the review decision behind a result. */
  lemma ReadingsOf(input: Option<Obj>, planIn: Option<Obj>, out: Obj, flags: seq<Flag>) returns (x: Readings, review: bool)
    requires Consistency(input, planIn) == Some((out, flags))
    ensures ReadAll(input.GetOr(map[]), planIn.GetOr(map[])) == Some(x)
    ensures out == Clamped(planIn.GetOr(map[]), x)
    ensures ReviewNeeded(Get(out, PctKey)) == Some(review)
    ensures flags == Flags(BillExceeded(x), PctOutOfRange(x), NonPositiveNumber(Get(planIn.GetOr(map[]), PaybackKey)), review)
  {
    x := ReadAll(input.GetOr(map[]), planIn.GetOr(map[])).value;
    review := ReviewNeeded(Get(out, PctKey)).value;
  }

  /** The entries the clamps leave: each checked entry is replaced only when
      its check fails, and every other entry is kept. */
  lemma ClampedEntries(plan: Obj, x: Readings)
    ensures var out := Clamped(plan, x);
      && (BillExceeded(x) ==> SavingsKey in out && out[SavingsKey] == Float(x.bill))
      && (!BillExceeded(x) ==> Get(out, SavingsKey) == Get(plan, SavingsKey))
      && (PctOutOfRange(x) ==> PctKey in out && out[PctKey] == Float(ClampPct(x.pct)))
      && (!PctOutOfRange(x) ==> Get(out, PctKey) == Get(plan, PctKey))
      && (NonPositiveNumber(Get(plan, PaybackKey)) ==> PaybackKey in out && out[PaybackKey] == Null)
      && (!NonPositiveNumber(Get(plan, PaybackKey)) ==> Get(out, PaybackKey) == Get(plan, PaybackKey))
      && plan.Keys <= out.Keys <= plan.Keys + {SavingsKey, PctKey, PaybackKey}
      && (forall k :: k in plan && k != SavingsKey && k != PctKey && k != PaybackKey ==> out[k] == plan[k])
  {
    KeysDistinct();
  }

  /** The checks raise exactly where a reading raises or the percentage left
      in the plan is a truthy non-number. */
  lemma {:induction false} Raises(input: Option<Obj>, planIn: Option<Obj>)
    ensures Consistency(input, planIn).None? <==>
      ReadAll(input.GetOr(map[]), planIn.GetOr(map[])).None? ||
      ReviewNeeded(Get(Clamped(planIn.GetOr(map[]), ReadAll(input.GetOr(map[]), planIn.GetOr(map[])).value), PctKey)).None?
  {
  }

  /** Savings above a positive bill are flagged and capped at the bill;
      otherwise they stay as they were. */
  lemma {:induction false} BillCheck(input: Option<Obj>, planIn: Option<Obj>, out: Obj, flags: seq<Flag>, x: Readings)
    requires Consistency(input, planIn) == Some((out, flags))
    requires ReadAll(input.GetOr(map[]), planIn.GetOr(map[])) == Some(x)
    ensures SavingsExceedBill in flags <==> x.bill > 0.0 && x.savings > x.bill
    ensures SavingsExceedBill in flags ==> SavingsKey in out && out[SavingsKey] == Float(x.bill)
    ensures SavingsExceedBill !in flags ==> Get(out, SavingsKey) == Get(planIn.GetOr(map[]), SavingsKey)
  {
    var y, review := ReadingsOf(input, planIn, out, flags);
    ClampedEntries(planIn.GetOr(map[]), x);
  }

  /** A percentage outside [0, 100] is flagged and clamped to the nearer end;
      otherwise it stays as it was. */
  lemma {:induction false} PctCheck(input: Option<Obj>, planIn: Option<Obj>, out: Obj, flags: seq<Flag>, x: Readings)
    requires Consistency(input, planIn) == Some((out, flags))
    requires ReadAll(input.GetOr(map[]), planIn.GetOr(map[])) == Some(x)
    ensures SavingsPctOutOfRange in flags <==> x.pct < 0.0 || x.pct > 100.0
    ensures x.pct < 0.0 ==> PctKey in out && out[PctKey] == Float(0.0)
    ensures x.pct > 100.0 ==> PctKey in out && out[PctKey] == Float(100.0)
    ensures SavingsPctOutOfRange !in flags ==> Get(out, PctKey) == Get(planIn.GetOr(map[]), PctKey)
  {
    var y, review := ReadingsOf(input, planIn, out, flags);
    ClampedEntries(planIn.GetOr(map[]), x);
  }

  /** A payback that is a number at most 0 is flagged and cleared; otherwise
      it stays as it was. */
  lemma {:induction false} PaybackCheck(input: Option<Obj>, planIn: Option<Obj>, out: Obj, flags: seq<Flag>)
    requires Consistency(input, planIn) == Some((out, flags))
    ensures InvalidPayback in flags <==> NonPositiveNumber(Get(planIn.GetOr(map[]), PaybackKey))
    ensures InvalidPayback in flags ==> PaybackKey in out && out[PaybackKey] == Null
    ensures InvalidPayback !in flags ==> Get(out, PaybackKey) == Get(planIn.GetOr(map[]), PaybackKey)
  {
    var x, review := ReadingsOf(input, planIn, out, flags);
    ClampedEntries(planIn.GetOr(map[]), x);
  }

  /** Human review is flagged exactly when the percentage left in the plan is
      above 50; an out-of-range percentage is reviewed iff it was above 100. */
  lemma {:induction false} ReviewCheck(input: Option<Obj>, planIn: Option<Obj>, out: Obj, flags: seq<Flag>, x: Readings)
    requires Consistency(input, planIn) == Some((out, flags))
    requires ReadAll(input.GetOr(map[]), planIn.GetOr(map[])) == Some(x)
    ensures NeedsHumanReview in flags <==> ReviewNeeded(Get(out, PctKey)) == Some(true)
    ensures SavingsPctOutOfRange in flags ==> (NeedsHumanReview in flags <==> x.pct > 100.0)
  {
    var y, review := ReadingsOf(input, planIn, out, flags);
    ClampedEntries(planIn.GetOr(map[]), x);
  }

  /** Entries other than the three checked ones are those of the plan handed
      in, and no entry is removed. */
  lemma {:induction false} OthersUnchanged(input: Option<Obj>, planIn: Option<Obj>, out: Obj, flags: seq<Flag>)
    requires Consistency(input, planIn) == Some((out, flags))
    ensures planIn.GetOr(map[]).Keys <= out.Keys <= planIn.GetOr(map[]).Keys + {SavingsKey, PctKey, PaybackKey}
    ensures forall k :: k in planIn.GetOr(map[]) && k != SavingsKey && k != PctKey && k != PaybackKey ==>
      out[k] == planIn.GetOr(map[])[k]
  {
    var x, review := ReadingsOf(input, planIn, out, flags);
    ClampedEntries(planIn.GetOr(map[]), x);
  }

  /** Each flag appears at most once, in the order bill, percentage,
      payback, review. */
  lemma {:induction false} FlagOrder(input: Option<Obj>, planIn: Option<Obj>, out: Obj, flags: seq<Flag>)
    requires Consistency(input, planIn) == Some((out, flags))
    ensures forall i, j :: 0 <= i < j < |flags| ==> Rank(flags[i]) < Rank(flags[j])
  {
    var x, review := ReadingsOf(input, planIn, out, flags);
  }

  /** Checking a checked plan again changes nothing and raises at most the
      review flag, exactly when the first pass raised it. */
  lemma {:induction false} SecondPass(input: Option<Obj>, planIn: Option<Obj>, out: Obj, flags: seq<Flag>)
    requires Consistency(input, planIn) == Some((out, flags))
    ensures Consistency(input, Some(out)) == Some((out, if NeedsHumanReview in flags then [NeedsHumanReview] else []))
  {
    var x, review := ReadingsOf(input, planIn, out, flags);
    var plan := planIn.GetOr(map[]);
    var inp := input.GetOr(map[]);
    ClampedEntries(plan, x);
    assert ReadNum(plan, SavingsKey) == Some(x.savings) && ReadNum(plan, PctKey) == Some(x.pct);
    var s2 := SecondSavings(plan, out, x);
    var p2 := SecondPct(plan, out, x);
    var x2 := Readings(x.bill, s2, p2);
    ReadAllOther(inp, plan, out, x, s2, p2);
    assert !BillExceeded(x2) && !PctOutOfRange(x2);
    assert !NonPositiveNumber(Get(out, PaybackKey));
    ClampedEntries(out, x2);
    assert Clamped(out, x2) == out;
    assert Flags(false, false, false, review) == When(review, NeedsHumanReview);
  }

  lemma SecondSavings(plan: Obj, out: Obj, x: Readings) returns (s: real)
    requires ReadNum(plan, SavingsKey) == Some(x.savings)
    requires BillExceeded(x) ==> SavingsKey in out && out[SavingsKey] == Float(x.bill)
    requires !BillExceeded(x) ==> Get(out, SavingsKey) == Get(plan, SavingsKey)
    ensures ReadNum(out, SavingsKey) == Some(s)
    ensures !(x.bill > 0.0 && s > x.bill)
  {
    if BillExceeded(x) {
      s := x.bill;
    } else {
      s := x.savings;
      assert ReadNum(out, SavingsKey) == ReadNum(plan, SavingsKey);
    }
  }

  lemma SecondPct(plan: Obj, out: Obj, x: Readings) returns (p: real)
    requires ReadNum(plan, PctKey) == Some(x.pct)
    requires PctOutOfRange(x) ==> PctKey in out && out[PctKey] == Float(ClampPct(x.pct))
    requires !PctOutOfRange(x) ==> Get(out, PctKey) == Get(plan, PctKey)
    ensures ReadNum(out, PctKey) == Some(p)
    ensures 0.0 <= p <= 100.0
  {
    if PctOutOfRange(x) {
      p := ClampPct(x.pct);
    } else {
      p := x.pct;
      assert ReadNum(out, PctKey) == ReadNum(plan, PctKey);
    }
  }

  /** A percentage handed in as a numeric string within [0, 100] reads as
      its number, but the review comparison then meets the string itself and
      raises. */
  lemma StringPctRaises(input: Option<Obj>, plan: Obj, x: Readings)
    requires PctKey in plan && plan[PctKey].Str? && plan[PctKey].s != []
    requires ReadAll(input.GetOr(map[]), plan) == Some(x) && 0.0 <= x.pct <= 100.0
    ensures Consistency(input, Some(plan)).None?
  {
    ClampedEntries(plan, x);
    assert Get(Clamped(plan, x), PctKey) == plan[PctKey];
  }
}
