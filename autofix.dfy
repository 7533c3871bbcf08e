/** Coercion and derivation of the numeric fields of a structured action
    before validation: numeric strings become numbers, confidence is clamped
    into [0, 1], and outside strict mode negative quantities are zeroed and
    missing operating-cost change, CO2e and payback are derived. The
    `StructuredAction` model is not part of this model: its validation is the
    parameter `accepts`, and the validated object is the dict handed to it. */
module Autofix {
  import opened Wrappers
  import opened Text
  import opened Values

  // ---------------------------------------------------------------------------
  // _to_float

  /** `_to_float(x)`: numbers as they are (a bool counts as 0 or 1); for a
      string, surrounding whitespace and every comma are dropped and a final
      `k`/`K` or `m`/`M` scales by a thousand or a million. None for None,
      for anything else, and where the rest does not parse to a finite
      number. */
  function ToFloat(x: Value): (r: Option<real>)
    ensures x.Null? || x.List? || x.Dict? ==> r == None
    ensures x.Int? ==> r == Some(x.i as real)
    ensures x.Float? ==> r == Some(x.f)
    ensures x.Bool? ==> r == Some(if x.b then 1.0 else 0.0)
  {
    match x
    case Bool(b) => Some(if b then 1.0 else 0.0)
    case Int(i) => Some(i as real)
    case Float(f) => Some(f)
    case Str(s) =>
      var (mult, body) := SplitSuffix(RemoveChar(Strip(s), ','));
      Scaled(ParseFloatString(body), mult)
    case _ => None
  }

  /** The multiplier a final `k` or `m` (either case) stands for, and the
      text before it: `lower.endswith("k")` looks only at the lower-cased
      last character. */
  function SplitSuffix(sx: string): (real, string) {
    if sx != [] && LowerChar(sx[|sx| - 1]) == 'k' then (1000.0, sx[..|sx| - 1])
    else if sx != [] && LowerChar(sx[|sx| - 1]) == 'm' then (1000000.0, sx[..|sx| - 1])
    else (1.0, sx)
  }

  /** `float(body) * mult`, given what `float()` makes of the body: only a
      finite number passes. */
  function Scaled(n: Option<Num>, mult: real): (r: Option<real>)
    ensures r.Some? <==> n.Some? && n.value.Finite?
  {
    match n
    case Some(Finite(v)) => Some(v * mult)
    case _ => None
  }

  /** A string of plain digits has no whitespace, comma or sign to remove. */
  lemma DigitsParse(d: string)
    requires d != [] && AllDigits(d)
    ensures ParseFloatString(d) == Some(Finite(DigitsValue(d) as real))
    ensures Strip(d) == d && RemoveChar(d, ',') == d
  {
    assert forall i :: 0 <= i < |d| ==> !IsSpace(d[i]);
    assert forall i :: 0 <= i < |d| ==> d[i] != ',';
    NoCommaFixed(d);
    assert SplitSign(d) == (false, d);
    DigitsNotSpecial(d);
    DigitsDecimal(d);
  }

  lemma DigitsNotSpecial(d: string)
    requires d != [] && AllDigits(d)
    ensures Lower(d) != "inf" && Lower(d) != "infinity" && Lower(d) != "nan"
  {
    assert Lower(d)[0] == LowerChar(d[0]) == d[0];
  }

  lemma DigitsDecimal(d: string)
    requires d != [] && AllDigits(d)
    ensures ParseUnsignedDecimal(d) == Some(DigitsValue(d) as real)
  {
    NoDot(d);
    assert FractionValue([]) == 0.0;
    assert AllDigits([]);
    var x := DigitsValue(d) as real;
    assert ParseUnsignedDecimal(d) == Some(x + FractionValue([]));
  }

  lemma NoDot(d: string)
    requires AllDigits(d)
    ensures Find(d, '.') == -1
  {
    assert forall j :: 0 <= j < |d| ==> d[j] != '.';
  }

  lemma {:induction false} NoCommaFixed(s: string)
    requires forall i :: 0 <= i < |s| ==> s[i] != ','
    ensures RemoveChar(s, ',') == s
  {
    if s != [] {
      NoCommaFixed(s[1..]);
    }
  }

  /** A string with nothing to strip that ends in a thousand or million
      suffix, in either case, reads as the number before the suffix times
      the suffix's multiplier. */
  lemma SuffixScales(s: string)
    requires s != [] && (s[|s| - 1] == 'k' || s[|s| - 1] == 'K' || s[|s| - 1] == 'm' || s[|s| - 1] == 'M')
    requires forall i :: 0 <= i < |s| ==> !IsSpace(s[i]) && s[i] != ','
    ensures ToFloat(Str(s)) == Scaled(ParseFloatString(s[..|s| - 1]), if s[|s| - 1] == 'k' || s[|s| - 1] == 'K' then 1000.0 else 1000000.0)
  {
    NoCommaFixed(s);
    ToFloatClean(s);
    SplitOfSuffixed(s, s[..|s| - 1], s[|s| - 1]);
  }

  lemma SplitOfSuffixed(s: string, d: string, suffix: char)
    requires s != [] && s[..|s| - 1] == d && s[|s| - 1] == suffix
    requires suffix == 'k' || suffix == 'K' || suffix == 'm' || suffix == 'M'
    ensures SplitSuffix(s) == (if suffix == 'k' || suffix == 'K' then 1000.0 else 1000000.0, d)
  {
    if suffix == 'k' || suffix == 'K' {
      assert LowerChar(suffix) == 'k';
    } else {
      assert LowerChar(suffix) == 'm';
    }
  }

  /** The string branch of `_to_float` on a string with nothing to strip. */
  lemma ToFloatClean(s: string)
    requires RemoveChar(Strip(s), ',') == s
    ensures ToFloat(Str(s)) == Scaled(ParseFloatString(SplitSuffix(s).1), SplitSuffix(s).0)
  {
  }

  /** Plain digits read as their number. */
  lemma PlainDigits(d: string)
    requires d != [] && AllDigits(d)
    ensures ToFloat(Str(d)) == Some(DigitsValue(d) as real)
  {
    DigitsParse(d);
    ToFloatClean(d);
    assert IsDigit(d[|d| - 1]);
    assert SplitSuffix(d) == (1.0, d);
    assert Scaled(Some(Finite(DigitsValue(d) as real)), 1.0) == Some(DigitsValue(d) as real);
  }

  // ---------------------------------------------------------------------------
  // Derived quantities

  /** `_compute_opex_change`: the annual operating-cost change, negative for
      savings: minus the kWh saved times the tariff. */
  function OpexChange(annualKwh: Option<real>, tariff: Option<real>): (r: Option<real>)
    ensures r.Some? <==> annualKwh.Some? && tariff.Some?
    ensures r.Some? ==> r.value + annualKwh.value * tariff.value == 0.0
    ensures r.Some? && annualKwh.value >= 0.0 && tariff.value >= 0.0 ==> r.value <= 0.0
  {
    if annualKwh.None? || tariff.None? then None
    else Some(-Mul(annualKwh.value, tariff.value))
  }

  /** `_compute_co2e`: kWh saved times the grid's emission factor. */
  function Co2e(annualKwh: Option<real>, grid: Option<real>): (r: Option<real>)
    ensures r.Some? <==> annualKwh.Some? && grid.Some?
    ensures r.Some? ==> r.value == annualKwh.value * grid.value
    ensures r.Some? && annualKwh.value >= 0.0 && grid.value >= 0.0 ==> r.value >= 0.0
  {
    if annualKwh.None? || grid.None? then None
    else Some(Mul(annualKwh.value, grid.value))
  }

  /** The sentinel payback for an action that saves nothing. */
  const NoPayback: real := 1000000000.0

  /** `_compute_payback_months`: the capital cost divided by the monthly
      saving where the cost change is a saving, the sentinel otherwise. */
  function PaybackMonths(capex: Option<real>, opex: Option<real>): (r: Option<real>)
    ensures r.Some? <==> capex.Some? && opex.Some?
    ensures r.Some? && opex.value >= 0.0 ==> r.value == NoPayback
    ensures r.Some? && opex.value < 0.0 ==> r.value * (-opex.value / 12.0) == capex.value
    ensures r.Some? && opex.value < 0.0 && capex.value >= 0.0 ==> r.value >= 0.0
  {
    if capex.None? || opex.None? then None
    else if opex.value < 0.0 then Some(Ratio(capex.value, -opex.value / 12.0))
    else Some(NoPayback)
  }

  /** Deriving the cost change and then the payback from an annual saving
      at a positive tariff gives the capital cost over the monthly saving in
      money. */
  lemma PaybackFromSavings(capex: real, annualKwh: real, tariff: real)
    requires annualKwh > 0.0 && tariff > 0.0
    ensures PaybackMonths(Some(capex), OpexChange(Some(annualKwh), Some(tariff))).Some?
    ensures var p := PaybackMonths(Some(capex), OpexChange(Some(annualKwh), Some(tariff))).value;
      p * (annualKwh * tariff / 12.0) == capex
  {
    assert annualKwh * tariff > 0.0;
    var o := OpexChange(Some(annualKwh), Some(tariff)).value;
    assert -o == annualKwh * tariff;
  }

  // ---------------------------------------------------------------------------
  // validate_and_autofix_action

  /** The fix notes; their wording and number formatting are not
      modelled. */
  datatype FixNote =
    | CouldNotCoerce(field: string)
    | CoercedTo(field: string, value: real)
    | ClampedConfidence(before: real, after: real)
    | ZeroedNegative(field: string)
    | DerivedOpex
    | DerivedCo2e
    | NoSavingsPayback
    | DerivedPayback

  /** The working dict and the notes so far. */
  datatype Fixing = Fixing(data: Obj, notes: seq<FixNote>)

  /** `AutoFixContext`: tariff and grid emission factor, each optional. */
  datatype Context = Context(tariff: Option<real>, grid: Option<real>)

  const NumericFields: seq<string> := ["capex", "opex_change", "annual_kWh_saved", "CO2e_saved", "payback_months", "confidence"]
  const ZeroedFields: seq<string> := ["capex", "annual_kWh_saved", "CO2e_saved"]
  const DerivedFields: set<string> := {"opex_change", "CO2e_saved", "payback_months"}

  /** What coercion makes of a numeric field's value: the number it reads
      as, or the value itself when it does not read as one. */
  function CoercedValue(v: Value): (r: Value)
    ensures ToFloat(v).Some? ==> r == Float(ToFloat(v).value)
    ensures ToFloat(v).None? ==> r == v
  {
    match ToFloat(v)
    case Some(x) => Float(x)
    case None => v
  }

  /** One round of the coercion loop. */
  function CoerceField(st: Fixing, f: string): (r: Fixing)
    ensures r.data.Keys == st.data.Keys
    ensures forall k :: k in st.data && k != f ==> r.data[k] == st.data[k]
    ensures f in st.data ==> r.data[f] == CoercedValue(st.data[f])
  {
    if f !in st.data then st
    else
      var v := st.data[f];
      match ToFloat(v)
      case None =>
        if v.Null? then st else Fixing(st.data, st.notes + [CouldNotCoerce(f)])
      case Some(x) =>
        var d := st.data[f := Float(x)];
        assert d.Keys == st.data.Keys && d[f] == CoercedValue(v);
        Fixing(d, st.notes + if v.Str? then [CoercedTo(f, x)] else [])
  }

  /** The coercion loop over the first fields `fs`. */
  function CoerceAll(st: Fixing, fs: seq<string>): Fixing {
    if fs == [] then st else CoerceField(CoerceAll(st, fs[..|fs| - 1]), fs[|fs| - 1])
  }

  /** After the loop, each listed field holds its coerced value and every
      other entry is untouched. */
  lemma {:induction false} CoerceAllValues(st: Fixing, fs: seq<string>)
    requires forall i, j :: 0 <= i < j < |fs| ==> fs[i] != fs[j]
    ensures CoerceAll(st, fs).data.Keys == st.data.Keys
    ensures forall k :: k in st.data ==>
      CoerceAll(st, fs).data[k] == if k in fs then CoercedValue(st.data[k]) else st.data[k]
  {
    if fs != [] {
      var init := fs[..|fs| - 1];
      CoerceAllValues(st, init);
      assert forall k :: k in fs <==> k in init || k == fs[|fs| - 1];
      assert fs[|fs| - 1] !in init;
    }
  }

  /** `_clamp(float(before), 0, 1)` on a present confidence; None where
      `float()` raises on a value coercion left as it was. */
  function ClampConfidence(st: Fixing): (r: Option<Fixing>)
    ensures r.Some? ==> r.value.data.Keys == st.data.Keys
    ensures r.Some? ==> forall k :: k in st.data && k != "confidence" ==> r.value.data[k] == st.data[k]
    ensures r.Some? && !Get(st.data, "confidence").Null? ==>
      r.value.data["confidence"].Float? && 0.0 <= r.value.data["confidence"].f <= 1.0
    ensures Get(st.data, "confidence").Null? ==> r == Some(st)
  {
    var before := Get(st.data, "confidence");
    if before.Null? then Some(st)
    else match FiniteFloat(before)
      case None => None
      case Some(v) =>
        var after := ClampReal(v, 0.0, 1.0);
        Some(Fixing(st.data["confidence" := Float(after)],
                    st.notes + if before != Float(after) then [ClampedConfidence(v, after)] else []))
  }

  /** A value that is None or a number that is not negative. */
  predicate NotNegative(v: Value) {
    v.Null? || (FiniteFloat(v).Some? && FiniteFloat(v).value >= 0.0)
  }

  /** One round of the zeroing loop; None where `float()` raises. */
  function ZeroField(st: Fixing, f: string): (r: Option<Fixing>)
    ensures r.Some? ==> r.value.data.Keys == st.data.Keys
    ensures r.Some? ==> forall k :: k in st.data && k != f ==> r.value.data[k] == st.data[k]
    ensures r.Some? ==> NotNegative(Get(r.value.data, f))
    ensures r.None? <==> !Get(st.data, f).Null? && FiniteFloat(Get(st.data, f)).None?
  {
    var v := Get(st.data, f);
    if v.Null? then Some(st)
    else match FiniteFloat(v)
      case None => None
      case Some(x) =>
        if x < 0.0 then Some(Fixing(st.data[f := Float(0.0)], st.notes + [ZeroedNegative(f)]))
        else Some(st)
  }

  /** The zeroing loop over the first fields `fs`. */
  function ZeroAll(st: Fixing, fs: seq<string>): (r: Option<Fixing>)
    ensures r.Some? ==> r.value.data.Keys == st.data.Keys
    ensures r.Some? ==> forall k :: k in st.data && k !in fs ==> r.value.data[k] == st.data[k]
    ensures r.Some? ==> forall i :: 0 <= i < |fs| ==> NotNegative(Get(r.value.data, fs[i]))
  {
    if fs == [] then Some(st)
    else match ZeroAll(st, fs[..|fs| - 1])
      case None => None
      case Some(s) =>
        var r := ZeroField(s, fs[|fs| - 1]);
        if r.Some? then
          assert forall i :: 0 <= i < |fs| - 1 ==> fs[i] == fs[..|fs| - 1][i];
          r
        else r
  }

  /** `opex_change` derived from the annual kWh saved and the tariff, while
      it is missing or None. */
  function DeriveOpex(st: Fixing, tariff: Option<real>): (r: Fixing)
    ensures r.data.Keys == st.data.Keys + (r.data.Keys * {"opex_change"})
    ensures forall k :: k in st.data && (k != "opex_change" || !st.data[k].Null?) ==> r.data[k] == st.data[k]
  {
    if !Get(st.data, "opex_change").Null? then st
    else match OpexChange(ToFloat(Get(st.data, "annual_kWh_saved")), tariff)
      case None => st
      case Some(oc) => Fixing(st.data["opex_change" := Float(oc)], st.notes + [DerivedOpex])
  }

  /** `CO2e_saved` derived from the annual kWh saved and the grid factor,
      while it is missing or None. */
  function DeriveCo2e(st: Fixing, grid: Option<real>): (r: Fixing)
    ensures r.data.Keys == st.data.Keys + (r.data.Keys * {"CO2e_saved"})
    ensures forall k :: k in st.data && (k != "CO2e_saved" || !st.data[k].Null?) ==> r.data[k] == st.data[k]
  {
    if !Get(st.data, "CO2e_saved").Null? then st
    else match Co2e(ToFloat(Get(st.data, "annual_kWh_saved")), grid)
      case None => st
      case Some(co2) => Fixing(st.data["CO2e_saved" := Float(co2)], st.notes + [DerivedCo2e])
  }

  /** `payback_months` derived from the capital cost and the cost change,
      while it is missing or None. */
  function DerivePayback(st: Fixing): (r: Fixing)
    ensures r.data.Keys == st.data.Keys + (r.data.Keys * {"payback_months"})
    ensures forall k :: k in st.data && (k != "payback_months" || !st.data[k].Null?) ==> r.data[k] == st.data[k]
  {
    if !Get(st.data, "payback_months").Null? then st
    else match PaybackMonths(ToFloat(Get(st.data, "capex")), ToFloat(Get(st.data, "opex_change")))
      case None => st
      case Some(pb) =>
        Fixing(st.data["payback_months" := Float(pb)], st.notes + [if pb >= NoPayback then NoSavingsPayback else DerivedPayback])
  }

  /** A missing or None cost change is filled from the annual kWh saved at
      the tariff, with its note, when both are known; otherwise nothing
      changes. */
  lemma DeriveOpexFills(st: Fixing, tariff: Option<real>)
    ensures var o := OpexChange(ToFloat(Get(st.data, "annual_kWh_saved")), tariff);
      var r := DeriveOpex(st, tariff);
      && (Get(st.data, "opex_change").Null? && o.Some? ==>
            Get(r.data, "opex_change") == Float(o.value) && r.notes == st.notes + [DerivedOpex])
      && (!Get(st.data, "opex_change").Null? || o.None? ==> r == st)
  {
  }

  /** A missing or None CO2e saving is filled from the annual kWh saved and
      the grid factor, with its note, when both are known; otherwise nothing
      changes. */
  lemma DeriveCo2eFills(st: Fixing, grid: Option<real>)
    ensures var c := Co2e(ToFloat(Get(st.data, "annual_kWh_saved")), grid);
      var r := DeriveCo2e(st, grid);
      && (Get(st.data, "CO2e_saved").Null? && c.Some? ==>
            Get(r.data, "CO2e_saved") == Float(c.value) && r.notes == st.notes + [DerivedCo2e])
      && (!Get(st.data, "CO2e_saved").Null? || c.None? ==> r == st)
  {
  }

  /** A missing or None payback is filled from the capital cost and the cost
      change when both are known, with the no-savings note at the sentinel
      and the derivation note below it; otherwise nothing changes. */
  lemma DerivePaybackFills(st: Fixing)
    ensures var pb := PaybackMonths(ToFloat(Get(st.data, "capex")), ToFloat(Get(st.data, "opex_change")));
      var r := DerivePayback(st);
      && (Get(st.data, "payback_months").Null? && pb.Some? ==>
            Get(r.data, "payback_months") == Float(pb.value)
            && r.notes == st.notes + [if pb.value >= NoPayback then NoSavingsPayback else DerivedPayback])
      && (!Get(st.data, "payback_months").Null? || pb.None? ==> r == st)
  {
  }

  /** The derivations of the non-strict mode, in order: each fills its field
      only while it is missing or None, from the values present at that
      point. */
  function Derive(st: Fixing, ctx: Context): (r: Fixing)
    ensures r.data.Keys == st.data.Keys + (r.data.Keys * DerivedFields)
    ensures forall k :: k in st.data && (k !in DerivedFields || !st.data[k].Null?) ==> r.data[k] == st.data[k]
  {
    DerivePayback(DeriveCo2e(DeriveOpex(st, ctx.tariff), ctx.grid))
  }

  /** The fix-up up to validation; None where a step raises. */
  function Prepare(payload: Obj, ctx: Option<Context>, strict: bool): Option<Fixing> {
    var coerced := CoerceAll(Fixing(payload, []), NumericFields);
    match ClampConfidence(coerced)
    case None => None
    case Some(clamped) =>
      if strict then Some(clamped)
      else match ZeroAll(clamped, ZeroedFields)
        case None => None
        case Some(z) => Some(Derive(z, ctx.GetOr(Context(None, None))))
  }

  /** `validate_and_autofix_action(payload, ctx, strict)`: the dict handed
      to validation and the notes; None where a step raises or validation
      rejects the dict. */
  function Autofix(payload: Obj, ctx: Option<Context>, strict: bool, accepts: Obj -> bool): Option<Fixing> {
    match Prepare(payload, ctx, strict)
    case None => None
    case Some(fixed) => if accepts(fixed.data) then Some(fixed) else None
  }

  // ---------------------------------------------------------------------------
  // Properties of the fix-up

  lemma NumericFieldsDistinct()
    ensures forall i, j :: 0 <= i < j < |NumericFields| ==> NumericFields[i] != NumericFields[j]
  {
  }

  /** The stages of a fix-up that reached validation. */
  lemma Stages(payload: Obj, ctx: Option<Context>, strict: bool, fixed: Fixing)
    returns (coerced: Fixing, clamped: Fixing, z: Fixing)
    requires Prepare(payload, ctx, strict) == Some(fixed)
    ensures coerced == CoerceAll(Fixing(payload, []), NumericFields)
    ensures coerced.data.Keys == payload.Keys
    ensures forall k :: k in payload ==>
      coerced.data[k] == if k in NumericFields then CoercedValue(payload[k]) else payload[k]
    ensures ClampConfidence(coerced) == Some(clamped)
    ensures strict ==> z == clamped && fixed == clamped
    ensures !strict ==> ZeroAll(clamped, ZeroedFields) == Some(z) && fixed == Derive(z, ctx.GetOr(Context(None, None)))
  {
    NumericFieldsDistinct();
    coerced := CoerceAll(Fixing(payload, []), NumericFields);
    CoerceAllValues(Fixing(payload, []), NumericFields);
    clamped := ClampConfidence(coerced).value;
    z := if strict then clamped else ZeroAll(clamped, ZeroedFields).value;
  }

  /** A present confidence ends up a number in [0, 1], strict or not. */
  lemma {:induction false} ConfidenceInRange(payload: Obj, ctx: Option<Context>, strict: bool, fixed: Fixing)
    requires Prepare(payload, ctx, strict) == Some(fixed)
    requires "confidence" in payload && !CoercedValue(payload["confidence"]).Null?
    ensures "confidence" in fixed.data && fixed.data["confidence"].Float? && 0.0 <= fixed.data["confidence"].f <= 1.0
  {
    var coerced, clamped, z := Stages(payload, ctx, strict, fixed);
    assert NumericFields[5] == "confidence";
    assert !Get(coerced.data, "confidence").Null?;
    var c := clamped.data["confidence"];
    assert c.Float? && 0.0 <= c.f <= 1.0;
    ConfidenceNotDerived();
    assert z.data["confidence"] == c;
  }

  /** The confidence is neither zeroed nor derived. */
  lemma ConfidenceNotDerived()
    ensures "confidence" !in ZeroedFields && "confidence" !in DerivedFields
  {
  }

  /** Strict mode only coerces and clamps: every entry but the confidence
      holds its coerced value, and nothing is added. */
  lemma {:induction false} StrictOnlyCoerces(payload: Obj, ctx: Option<Context>, fixed: Fixing)
    requires Prepare(payload, ctx, true) == Some(fixed)
    ensures fixed.data.Keys == payload.Keys
    ensures forall k :: k in payload && k != "confidence" ==>
      fixed.data[k] == if k in NumericFields then CoercedValue(payload[k]) else payload[k]
  {
    var coerced, clamped, z := Stages(payload, ctx, true, fixed);
  }

  /** Outside strict mode, a capital cost or kWh saving that is present ends
      up a number that is not negative. */
  lemma {:induction false} NonStrictNotNegative(payload: Obj, ctx: Option<Context>, fixed: Fixing)
    requires Prepare(payload, ctx, false) == Some(fixed)
    ensures NotNegative(Get(fixed.data, "capex")) && NotNegative(Get(fixed.data, "annual_kWh_saved"))
  {
    var coerced, clamped, z := Stages(payload, ctx, false, fixed);
    assert ZeroedFields[0] == "capex" && ZeroedFields[1] == "annual_kWh_saved";
    assert "capex" !in DerivedFields && "annual_kWh_saved" !in DerivedFields;
    ZeroedStayNotNegative(clamped, z, fixed, ctx.GetOr(Context(None, None)), ZeroedFields, 0);
    ZeroedStayNotNegative(clamped, z, fixed, ctx.GetOr(Context(None, None)), ZeroedFields, 1);
  }

  /** A zeroed field that no derivation writes stays not negative. */
  lemma ZeroedStayNotNegative(clamped: Fixing, z: Fixing, fixed: Fixing, c: Context, fs: seq<string>, i: int)
    requires 0 <= i < |fs| && fs[i] !in DerivedFields
    requires ZeroAll(clamped, fs) == Some(z) && fixed == Derive(z, c)
    ensures NotNegative(Get(fixed.data, fs[i]))
  {
    assert NotNegative(Get(z.data, fs[i]));
  }

  /** Entries outside the numeric fields are never touched, no entry is
      dropped, and a supplied cost change or payback (one that reads as a
      number) is never overwritten by a derivation. */
  lemma {:induction false} SuppliedValuesKept(payload: Obj, ctx: Option<Context>, strict: bool, fixed: Fixing)
    requires Prepare(payload, ctx, strict) == Some(fixed)
    ensures payload.Keys <= fixed.data.Keys
    ensures forall k :: k in payload && k !in NumericFields ==> fixed.data[k] == payload[k]
    ensures forall k :: k in payload && (k == "opex_change" || k == "payback_months") && ToFloat(payload[k]).Some? ==>
      fixed.data[k] == Float(ToFloat(payload[k]).value)
  {
    var coerced, clamped, z := Stages(payload, ctx, strict, fixed);
    var c := ctx.GetOr(Context(None, None));
    StagesKeepKeys(payload, coerced, clamped, z, fixed, c, strict);
    forall k | k in payload && k !in NumericFields
      ensures fixed.data[k] == payload[k]
    {
      StagesKeepOthers(payload, coerced, clamped, z, fixed, c, strict, k);
    }
    forall k | k in payload && (k == "opex_change" || k == "payback_months") && ToFloat(payload[k]).Some?
      ensures fixed.data[k] == Float(ToFloat(payload[k]).value)
    {
      assert k in NumericFields;
      StagesKeepSupplied(payload, coerced, clamped, z, fixed, c, strict, k);
    }
  }

  /** `SuppliedValuesKept`, stage by stage: no entry is dropped. */
  lemma StagesKeepKeys(payload: Obj, coerced: Fixing, clamped: Fixing, z: Fixing, fixed: Fixing, c: Context, strict: bool)
    requires coerced.data.Keys == payload.Keys
    requires ClampConfidence(coerced) == Some(clamped)
    requires strict ==> fixed == clamped
    requires !strict ==> ZeroAll(clamped, ZeroedFields) == Some(z) && fixed == Derive(z, c)
    ensures payload.Keys <= fixed.data.Keys
  {
  }

  /** `SuppliedValuesKept`, stage by stage: entries outside the numeric fields
      are untouched. */
  lemma StagesKeepOthers(payload: Obj, coerced: Fixing, clamped: Fixing, z: Fixing, fixed: Fixing, c: Context,
                         strict: bool, k: string)
    requires k in payload && k !in NumericFields
    requires k in coerced.data && coerced.data[k] == payload[k]
    requires ClampConfidence(coerced) == Some(clamped)
    requires strict ==> fixed == clamped
    requires !strict ==> ZeroAll(clamped, ZeroedFields) == Some(z) && fixed == Derive(z, c)
    ensures k in fixed.data && fixed.data[k] == payload[k]
  {
    assert "confidence" in NumericFields;
    assert k !in ZeroedFields && k !in DerivedFields;
  }

  /** `SuppliedValuesKept`, stage by stage: a numeric cost change or payback
      is never overwritten. */
  lemma StagesKeepSupplied(payload: Obj, coerced: Fixing, clamped: Fixing, z: Fixing, fixed: Fixing, c: Context,
                           strict: bool, k: string)
    requires k == "opex_change" || k == "payback_months"
    requires k in coerced.data && coerced.data[k].Float?
    requires ClampConfidence(coerced) == Some(clamped)
    requires strict ==> fixed == clamped
    requires !strict ==> ZeroAll(clamped, ZeroedFields) == Some(z) && fixed == Derive(z, c)
    ensures k in fixed.data && fixed.data[k] == coerced.data[k]
  {
    assert k in clamped.data && clamped.data[k] == coerced.data[k];
    if !strict {
      ZeroDeriveKeeps(clamped, z, fixed, c, k);
    }
  }

  lemma ZeroDeriveKeeps(clamped: Fixing, z: Fixing, fixed: Fixing, c: Context, k: string)
    requires k == "opex_change" || k == "payback_months"
    requires k in clamped.data && clamped.data[k].Float?
    requires ZeroAll(clamped, ZeroedFields) == Some(z) && fixed == Derive(z, c)
    ensures k in fixed.data && fixed.data[k] == clamped.data[k]
  {
    ZeroKeeps(clamped, z, k);
    DeriveKeeps(z, c, k);
  }

  lemma ZeroKeeps(clamped: Fixing, z: Fixing, k: string)
    requires k == "opex_change" || k == "payback_months"
    requires k in clamped.data
    requires ZeroAll(clamped, ZeroedFields) == Some(z)
    ensures k in z.data && z.data[k] == clamped.data[k]
  {
    assert k !in ZeroedFields;
  }

  lemma DeriveKeeps(z: Fixing, c: Context, k: string)
    requires k in z.data && !z.data[k].Null?
    ensures k in Derive(z, c).data && Derive(z, c).data[k] == z.data[k]
  {
  }

  /** The fix-up steps of `validate_and_autofix_action` before the model is
      built; None where one of them raises. */
  method FixUp(payload: Obj, ctx: Option<Context>, strict: bool) returns (r: Option<Fixing>)
    ensures r == Prepare(payload, ctx, strict)
  {
    var c := if ctx.Some? then ctx.value else Context(None, None);
    var st := CoerceFields(payload);
    r := ClampConfidence(st);
    if r.Some? && !strict {
      r := ZeroNegatives(r.value);
      if r.Some? {
        r := Some(Derive(r.value, c));
      }
    }
  }

  /** The coercion loop over the numeric fields. */
  method CoerceFields(payload: Obj) returns (st: Fixing)
    ensures st == CoerceAll(Fixing(payload, []), NumericFields)
  {
    st := Fixing(payload, []);
    var i := 0;
    while i < |NumericFields|
      invariant 0 <= i <= |NumericFields|
      invariant st == CoerceAll(Fixing(payload, []), NumericFields[..i])
    {
      assert NumericFields[..i + 1][..i] == NumericFields[..i];
      st := CoerceField(st, NumericFields[i]);
      i := i + 1;
    }
    assert NumericFields[..i] == NumericFields;
  }

  /** The zeroing loop of the non-strict mode; None where a comparison
      raises. */
  method ZeroNegatives(start: Fixing) returns (r: Option<Fixing>)
    ensures r == ZeroAll(start, ZeroedFields)
  {
    var st := start;
    var j := 0;
    while j < |ZeroedFields|
      invariant 0 <= j <= |ZeroedFields|
      invariant ZeroAll(start, ZeroedFields[..j]) == Some(st)
    {
      ZeroAllSnoc(start, ZeroedFields, j);
      var z := ZeroField(st, ZeroedFields[j]);
      if z.None? {
        ZeroNoneStays(start, ZeroedFields, j + 1);
        return None;
      }
      st := z.value;
      j := j + 1;
    }
    assert ZeroedFields[..j] == ZeroedFields;
    return Some(st);
  }

  /** `validate_and_autofix_action(payload, ctx, strict)`: the fix-up, then
      validation; None where either raises. */
  method ValidateAndAutofixAction(payload: Obj, ctx: Option<Context>, strict: bool, accepts: Obj -> bool)
    returns (r: Option<Fixing>)
    ensures r == Autofix(payload, ctx, strict, accepts)
  {
    r := FixUp(payload, ctx, strict);
    if r.Some? && !accepts(r.value.data) {
      r := None;
    }
  }

  /** One more round of the zeroing loop. */
  lemma ZeroAllSnoc(st: Fixing, fs: seq<string>, j: int)
    requires 0 <= j < |fs|
    ensures ZeroAll(st, fs[..j + 1]) == match ZeroAll(st, fs[..j]) case None => None case Some(s) => ZeroField(s, fs[j])
  {
    assert fs[..j + 1][..j] == fs[..j];
  }

  /** Once a zeroing round raises, the loop raises. */
  lemma {:induction false} ZeroNoneStays(st: Fixing, fs: seq<string>, j: nat)
    requires j <= |fs| && ZeroAll(st, fs[..j]).None?
    ensures ZeroAll(st, fs).None?
    decreases |fs| - j
  {
    if j < |fs| {
      assert fs[..j + 1][..j] == fs[..j];
      ZeroNoneStays(st, fs, j + 1);
    } else {
      assert fs[..j] == fs;
    }
  }

  // ---------------------------------------------------------------------------
  // validate_and_autofix_actions

  /** The batch: every item fixed in order by `fix`; None where any item
      raises. */
  function AutofixAll(items: seq<Obj>, fix: Obj -> Option<Fixing>): (r: Option<(seq<Obj>, seq<seq<FixNote>>)>)
    ensures r.Some? ==> |r.value.0| == |items| && |r.value.1| == |items|
    ensures r.Some? ==> forall i :: 0 <= i < |items| ==> fix(items[i]) == Some(Fixing(r.value.0[i], r.value.1[i]))
    ensures r.None? <==> exists i :: 0 <= i < |items| && fix(items[i]).None?
  {
    if items == [] then Some(([], []))
    else
      var init := items[..|items| - 1];
      assert forall i :: 0 <= i < |init| ==> init[i] == items[i];
      match AutofixAll(init, fix)
      case None => None
      case Some(done) =>
        match fix(items[|items| - 1])
        case None => None
        case Some(f) => Some((done.0 + [f.data], done.1 + [f.notes]))
  }

  /** `validate_and_autofix_actions(items, ctx, strict)` */
  method ValidateAndAutofixActions(items: seq<Obj>, ctx: Option<Context>, strict: bool, accepts: Obj -> bool)
    returns (r: Option<(seq<Obj>, seq<seq<FixNote>>)>)
    ensures r == AutofixAll(items, x => Autofix(x, ctx, strict, accepts))
  {
    ghost var fix := x => Autofix(x, ctx, strict, accepts);
    var objs: seq<Obj> := [];
    var notes: seq<seq<FixNote>> := [];
    var i := 0;
    while i < |items|
      invariant 0 <= i <= |items|
      invariant AutofixAll(items[..i], fix) == Some((objs, notes))
    {
      var f := ValidateAndAutofixAction(items[i], ctx, strict, accepts);
      assert f == fix(items[i]);
      AutofixAllStep(items, fix, i, objs, notes, f);
      if f.None? {
        return None;
      }
      objs := objs + [f.value.data];
      notes := notes + [f.value.notes];
      i := i + 1;
    }
    assert items[..i] == items;
    return Some((objs, notes));
  }

  /** The batch of one more item, in terms of the batch before it. */
  lemma AutofixAllSnoc(items: seq<Obj>, fix: Obj -> Option<Fixing>, i: int)
    requires 0 <= i < |items|
    ensures AutofixAll(items[..i + 1], fix) ==
      match AutofixAll(items[..i], fix)
      case None => None
      case Some(done) =>
        match fix(items[i])
        case None => None
        case Some(f) => Some((done.0 + [f.data], done.1 + [f.notes]))
  {
    assert items[..i + 1][..i] == items[..i];
  }

  /** One round of the batch loop: a raising item makes the whole batch
      raise, and a fixed one extends the batch so far. */
  lemma AutofixAllStep(items: seq<Obj>, fix: Obj -> Option<Fixing>, i: int,
                       objs: seq<Obj>, notes: seq<seq<FixNote>>, f: Option<Fixing>)
    requires 0 <= i < |items|
    requires AutofixAll(items[..i], fix) == Some((objs, notes))
    requires f == fix(items[i])
    ensures f.None? ==> AutofixAll(items, fix).None?
    ensures f.Some? ==> AutofixAll(items[..i + 1], fix) == Some((objs + [f.value.data], notes + [f.value.notes]))
  {
    AutofixAllSnoc(items, fix, i);
    if f.None? {
      AllNoneStays(items, fix, i);
    }
  }

  lemma AllNoneStays(items: seq<Obj>, fix: Obj -> Option<Fixing>, i: nat)
    requires i < |items| && fix(items[i]).None?
    ensures AutofixAll(items, fix).None?
  {
  }
}
