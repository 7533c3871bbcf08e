/** The loosely typed values that flow through the Python code as dict entries
    (JSON-like payloads, `model_dump()` output, LLM replies), and the built-in
    conversions the code applies to them. */
module Values {
  import opened Wrappers
  import opened Text

  /** A Python value. Floats are finite; dict key order is not modelled. */
  datatype Value =
    | Null
    | Bool(b: bool)
    | Int(i: int)
    | Float(f: real)
    | Str(s: string)
    | List(items: seq<Value>)
    | Dict(fields: map<string, Value>)

  type Obj = map<string, Value>

  /** The result of a successful `float(x)`. */
  datatype Num = Finite(r: real) | NaN | PosInf | NegInf

  /** Python truthiness (`if x:`). */
  predicate Truthy(v: Value) {
    match v
    case Null => false
    case Bool(b) => b
    case Int(i) => i != 0
    case Float(f) => f != 0.0
    case Str(s) => s != []
    case List(xs) => xs != []
    case Dict(m) => m != map[]
  }

  /** `d.get(k)` */
  function Get(d: Obj, k: string): (r: Value)
    ensures k !in d ==> r == Null
  {
    if k in d then d[k] else Null
  }

  /** `d.get(k, default)` */
  function GetOr(d: Obj, k: string, default: Value): (r: Value)
    ensures k in d ==> r == d[k]
    ensures k !in d ==> r == default
  {
    if k in d then d[k] else default
  }

  /** The fields of a dict value; anything else reads as the empty dict. */
  function AsObj(v: Value): Obj {
    if v.Dict? then v.fields else map[]
  }

  // ---------------------------------------------------------------------------
  // float() and int() of strings

  predicate AllDigits(s: string) {
    forall i :: 0 <= i < |s| ==> IsDigit(s[i])
  }

  /** The number a run of decimal digits denotes. */
  function DigitsValue(s: string): (r: nat)
    requires AllDigits(s)
  {
    if s == [] then 0
    else DigitsValue(s[..|s| - 1]) * 10 + (s[|s| - 1] as int - '0' as int)
  }

  function Pow10(n: nat): (r: nat)
    ensures r >= 1
  {
    if n == 0 then 1 else 10 * Pow10(n - 1)
  }

  function FractionValue(fp: string): (r: real)
    requires AllDigits(fp)
    ensures 0.0 <= r
  {
    var den := Pow10(|fp|) as real;
    assert den > 0.0;
    DigitsValue(fp) as real / den
  }

  /** An unsigned decimal literal `ddd`, `ddd.ddd`, `ddd.` or `.ddd`. */
  function ParseUnsignedDecimal(t: string): (r: Option<real>)
    ensures r.Some? ==> r.value >= 0.0
  {
    var dot := Find(t, '.');
    var ip := if dot == -1 then t else t[..dot];
    var fp := if dot == -1 then [] else t[dot + 1..];
    if AllDigits(ip) && AllDigits(fp) && |ip| + |fp| > 0 then
      Some(DigitsValue(ip) as real + FractionValue(fp))
    else None
  }

  /** Splits an optional leading sign off a literal: (negative?, rest). */
  function SplitSign(t: string): (bool, string) {
    if t != [] && (t[0] == '+' || t[0] == '-') then (t[0] == '-', t[1..]) else (false, t)
  }

  /** `float(s)` for a string: surrounding whitespace, an optional sign, then a
      decimal literal or one of the spellings of infinity and NaN. */
  function ParseFloatString(s: string): Option<Num> {
    var (neg, body) := SplitSign(Strip(s));
    var low := Lower(body);
    if low == "inf" || low == "infinity" then Some(if neg then NegInf else PosInf)
    else if low == "nan" then Some(NaN)
    else match ParseUnsignedDecimal(body)
      case Some(x) => Some(Finite(if neg then -x else x))
      case None => None
  }

  /** `float(v)`; None where Python raises. */
  function PyFloat(v: Value): (r: Option<Num>)
    ensures v.Int? ==> r == Some(Finite(v.i as real))
    ensures v.Float? ==> r == Some(Finite(v.f))
    ensures v.Null? || v.List? || v.Dict? ==> r == None
  {
    match v
    case Null => None
    case Bool(b) => Some(Finite(if b then 1.0 else 0.0))
    case Int(i) => Some(Finite(i as real))
    case Float(f) => Some(Finite(f))
    case Str(s) => ParseFloatString(s)
    case List(_) => None
    case Dict(_) => None
  }

  /** `float(v)` where the program goes on only with a finite number. */
  function FiniteFloat(v: Value): Option<real> {
    match PyFloat(v)
    case Some(Finite(x)) => Some(x)
    case _ => None
  }

  /** `int(x)` of a float: truncation toward zero. */
  function Trunc(x: real): (r: int)
    ensures x >= 0.0 ==> r as real <= x < r as real + 1.0
    ensures x < 0.0 ==> r as real - 1.0 < x <= r as real
  {
    if x >= 0.0 then x.Floor else -((-x).Floor)
  }

  /** `int(v)`; None where Python raises. */
  function PyInt(v: Value): (r: Option<int>)
    ensures v.Int? ==> r == Some(v.i)
    ensures v.Null? || v.List? || v.Dict? ==> r == None
  {
    match v
    case Null => None
    case Bool(b) => Some(if b then 1 else 0)
    case Int(i) => Some(i)
    case Float(f) => Some(Trunc(f))
    case Str(s) =>
      var (neg, body) := SplitSign(Strip(s));
      if body != [] && AllDigits(body) then
        Some(if neg then -(DigitsValue(body) as int) else DigitsValue(body))
      else None
    case List(_) => None
    case Dict(_) => None
  }

  /** The `_num(x, default)` helper repeated in several modules: `float(x)` when
      that succeeds with a finite number, otherwise `default`. */
  function NumOr(x: Value, default: real): (r: real)
    ensures x.Float? ==> r == x.f
    ensures x.Int? ==> r == x.i as real
    ensures x.Null? || x.List? || x.Dict? ==> r == default
  {
    match FiniteFloat(x)
    case Some(v) => v
    case None => default
  }

  function Max(a: real, b: real): real {
    if a >= b then a else b
  }

  function Min(a: real, b: real): real {
    if a <= b then a else b
  }

  /** Scaling by a fraction in [0, 1] stays between 0 and the scaled amount. */
  lemma ScaleWithin(x: real, f: real)
    requires x >= 0.0 && 0.0 <= f <= 1.0
    ensures 0.0 <= x * f <= x
  {
    assert x * f <= x * 1.0;
  }

  /** `x * f` for a fraction `f` in [0, 1]. */
  function Scale(x: real, f: real): (r: real)
    requires 0.0 <= f <= 1.0
    ensures x >= 0.0 ==> 0.0 <= r <= x
  {
    if x >= 0.0 then ScaleWithin(x, f); x * f else x * f
  }

  /** `x * y`, kept behind a name so that equal factors give equal products
      without arithmetic. */
  function Mul(x: real, y: real): (r: real)
    ensures x >= 0.0 && y >= 0.0 ==> r >= 0.0
  {
    if x >= 0.0 && y >= 0.0 then MulNonNegative(x, y); x * y else x * y
  }

  lemma MulNonNegative(x: real, y: real)
    requires x >= 0.0 && y >= 0.0
    ensures x * y >= 0.0
  {
  }

  /** `a / b` for a positive divisor. */
  function Ratio(a: real, b: real): (r: real)
    requires b > 0.0
    ensures r * b == a
    ensures a >= 0.0 ==> r >= 0.0
    ensures a < 0.0 ==> r < 0.0
  {
    a / b
  }

  /** Python's `max(lo, min(hi, v))`. */
  function ClampReal(v: real, lo: real, hi: real): (r: real)
    ensures lo <= hi ==> lo <= r <= hi
    ensures lo <= v <= hi ==> r == v
  {
    Max(lo, Min(hi, v))
  }
}
