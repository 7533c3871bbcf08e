/** Range clamps applied to user- and LLM-supplied appliance numbers. */
module Guardrails {
  import opened Wrappers
  import opened Values

  /** `clamp(v, lo, hi)`: `float(v)` pulled into `[lo, hi]`; `lo` when `float(v)` raises.
      Python's `min(hi, nan)` and `min(hi, inf)` both give `hi`, and
      `min(hi, -inf)` gives `-inf`, which `max` then lifts to `lo`. */
  function Clamp(v: Value, lo: real, hi: real): (r: real)
    ensures lo <= hi ==> lo <= r <= hi
    ensures PyFloat(v).None? ==> r == lo
    ensures v.Float? && lo <= v.f <= hi ==> r == v.f
    ensures v.Int? && lo <= v.i as real <= hi ==> r == v.i as real
  {
    match PyFloat(v)
    case None => lo
    case Some(Finite(x)) => ClampReal(x, lo, hi)
    case Some(NaN) => Max(lo, hi)
    case Some(PosInf) => Max(lo, hi)
    case Some(NegInf) => lo
  }

  /** Clamping twice is clamping once. */
  lemma ClampIdempotent(v: Value, lo: real, hi: real)
    requires lo <= hi
    ensures Clamp(Float(Clamp(v, lo, hi)), lo, hi) == Clamp(v, lo, hi)
  {
  }

  function ClampHours(x: Value): (r: real)
    ensures 0.0 <= r <= 24.0
  {
    Clamp(x, 0.0, 24.0)
  }

  function ClampWatts(x: Value): (r: real)
    ensures 0.0 <= r <= 10000.0
  {
    Clamp(x, 0.0, 10000.0)
  }

  /** `int(clamp(x, 0, 1000))`: a whole count, truncated. */
  function ClampCount(x: Value): (r: int)
    ensures 0 <= r <= 1000
    ensures r as real <= Clamp(x, 0.0, 1000.0) < r as real + 1.0
  {
    Trunc(Clamp(x, 0.0, 1000.0))
  }

  function ClampKwh(x: Value): (r: real)
    ensures 0.0 <= r <= 10000000.0
  {
    Clamp(x, 0.0, 10000000.0)
  }
}
