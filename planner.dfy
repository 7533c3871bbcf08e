/** The bounded plan-act-check retry loop: each attempt plans from the current
    payload, acts on the plan and checks the result against the plan's
    criteria; a failed check's patch is merged into the payload for the next
    attempt. The three steps are injected; each may raise, which is `None`
    here and ends the run. */
module Planner {
  import opened Wrappers
  import opened Values

  // ---------------------------------------------------------------------------
  // _deep_merge

  /** `_deep_merge(base, patch)`: a fresh dict in which the patch's keys
      override, keys holding a dict on both sides merge recursively, and
      keys only in the base are kept. */
  function DeepMerge(base: Obj, patch: Obj): Obj
    decreases Dict(patch)
  {
    map k | k in base.Keys + patch.Keys ::
      if k !in patch then base[k]
      else if patch[k].Dict? && k in base && base[k].Dict? then
        assert patch[k] in Dict(patch).fields.Values;
        Dict(DeepMerge(base[k].fields, patch[k].fields))
      else patch[k]
  }

  /** What each key of the merge holds, key by key. */
  lemma MergeKeys(base: Obj, patch: Obj)
    ensures DeepMerge(base, patch).Keys == base.Keys + patch.Keys
    ensures forall k :: k in base && k !in patch ==> DeepMerge(base, patch)[k] == base[k]
    ensures forall k :: k in patch && !(patch[k].Dict? && k in base && base[k].Dict?) ==>
      DeepMerge(base, patch)[k] == patch[k]
    ensures forall k :: k in patch && patch[k].Dict? && k in base && base[k].Dict? ==>
      DeepMerge(base, patch)[k] == Dict(DeepMerge(base[k].fields, patch[k].fields))
  {
  }

  /** Everything the patch says holds in `d`: leaves are equal, and a dict in
      the patch is covered by a dict in `d`. */
  predicate Covers(d: Obj, patch: Obj)
    decreases Dict(patch)
  {
    forall k :: k in patch ==>
      k in d &&
      (assert patch[k] in Dict(patch).fields.Values;
       if patch[k].Dict? then d[k].Dict? && Covers(d[k].fields, patch[k].fields) else d[k] == patch[k])
  }

  lemma {:induction false} CoversSelf(p: Obj)
    ensures Covers(p, p)
    decreases Dict(p)
  {
    forall k | k in p && p[k].Dict?
      ensures Covers(p[k].fields, p[k].fields)
    {
      assert p[k] in Dict(p).fields.Values;
      CoversSelf(p[k].fields);
    }
  }

  /** After the merge, everything the patch says holds. */
  lemma {:induction false} MergeCovers(base: Obj, patch: Obj)
    ensures Covers(DeepMerge(base, patch), patch)
    decreases Dict(patch)
  {
    var r := DeepMerge(base, patch);
    forall k | k in patch && patch[k].Dict?
      ensures r[k].Dict? && Covers(r[k].fields, patch[k].fields)
    {
      assert patch[k] in Dict(patch).fields.Values;
      if k in base && base[k].Dict? {
        MergeCovers(base[k].fields, patch[k].fields);
      } else {
        CoversSelf(patch[k].fields);
      }
    }
  }

  /** Merging a patch whose content already holds changes nothing. */
  lemma {:induction false} MergeCovered(d: Obj, patch: Obj)
    requires Covers(d, patch)
    ensures DeepMerge(d, patch) == d
    decreases Dict(patch)
  {
    var r := DeepMerge(d, patch);
    forall k | k in d
      ensures r[k] == d[k]
    {
      if k in patch {
        assert patch[k] in Dict(patch).fields.Values;
        if patch[k].Dict? {
          MergeCovered(d[k].fields, patch[k].fields);
        }
      }
    }
  }

  /** Merging the empty patch returns the base unchanged. */
  lemma MergeEmpty(base: Obj)
    ensures DeepMerge(base, map[]) == base
  {
    assert DeepMerge(base, map[]).Keys == base.Keys;
  }

  /** Merging the same patch twice is merging it once. */
  lemma MergeIdempotent(base: Obj, patch: Obj)
    ensures DeepMerge(DeepMerge(base, patch), patch) == DeepMerge(base, patch)
  {
    MergeCovers(base, patch);
    MergeCovered(DeepMerge(base, patch), patch);
  }

  // ---------------------------------------------------------------------------
  // The run

  /** What the check step returns: `(ok, reason, patch)`. */
  datatype Outcome<R> = Outcome(ok: bool, reason: R, patch: Obj)

  /** One trace entry. */
  datatype Attempt<R> = Attempt(attempt: nat, plan: Obj, ok: bool, reason: R, patchAppliedNext: bool)

  /** `{"planner_trace": ..., "final": ...}` */
  datatype RunOut<R> = RunOut(trace: seq<Attempt<R>>, final: Obj)

  /** `plan.get("criteria", {})` */
  function Criteria(plan: Obj): Value {
    GetOr(plan, "criteria", Dict(map[]))
  }

  /** The payload of the next attempt: merged with a non-empty patch. */
  function NextPayload(payload: Obj, patch: Obj): (r: Obj)
    ensures patch == map[] ==> r == payload
    ensures Covers(r, patch)
  {
    if patch == map[] then payload
    else
      MergeCovers(payload, patch);
      DeepMerge(payload, patch)
  }

  /** `max(1, min(max_iters, 3))` */
  function ClampIters(m: int): (r: nat)
    ensures 1 <= r <= 3
    ensures 1 <= m <= 3 ==> r == m
    ensures m < 1 ==> r == 1
    ensures m > 3 ==> r == 3
  {
    if m < 1 then 1 else if m > 3 then 3 else m
  }

  /** The attempts from index `i` (0-based) on, out of `n`, starting from
      `payload`; None where a step raises. */
  function RunFrom<R>(plan: Obj -> Option<Obj>, act: Obj -> Option<Obj>, check: (Obj, Value) -> Option<Outcome<R>>,
                      n: nat, i: nat, payload: Obj): Option<RunOut<R>>
    requires i < n
    decreases n - i
  {
    match plan(payload)
    case None => None
    case Some(p) =>
      match act(p)
      case None => None
      case Some(result) =>
        match check(result, Criteria(p))
        case None => None
        case Some(o) =>
          var a := Attempt(i + 1, p, o.ok, o.reason, o.patch != map[] && !o.ok && i + 1 < n);
          if o.ok || i + 1 == n then Some(RunOut([a], result))
          else
            match RunFrom(plan, act, check, n, i + 1, NextPayload(payload, o.patch))
            case None => None
            case Some(rest) => Some(RunOut([a] + rest.trace, rest.final))
  }

  /** The check of an entry's plan's result, as the run made it. */
  function CheckOf<R>(act: Obj -> Option<Obj>, check: (Obj, Value) -> Option<Outcome<R>>, a: Attempt<R>): Option<Outcome<R>> {
    match act(a.plan)
    case None => None
    case Some(result) => check(result, Criteria(a.plan))
  }

  /** A trace entry records the check of its own plan's result: its `ok`,
      its reason, and whether a non-empty patch goes to a later attempt. */
  ghost predicate Records<R>(act: Obj -> Option<Obj>, check: (Obj, Value) -> Option<Outcome<R>>, n: nat, a: Attempt<R>) {
    CheckOf(act, check, a).Some?
    && var o := CheckOf(act, check, a).value;
       o.ok == a.ok && o.reason == a.reason
       && a.patchAppliedNext == (o.patch != map[] && !o.ok && a.attempt < n)
  }

  /** The shape of a completed run: between one and the remaining number of
      attempts, numbered consecutively, each recording its own check; all
      but the last failed, the last passed or used up the attempts, and the
      final result is the last plan's result. */
  lemma {:induction false} RunShape<R>(plan: Obj -> Option<Obj>, act: Obj -> Option<Obj>,
                                       check: (Obj, Value) -> Option<Outcome<R>>, n: nat, i: nat, payload: Obj)
    requires i < n && RunFrom(plan, act, check, n, i, payload).Some?
    ensures var out := RunFrom(plan, act, check, n, i, payload).value;
      1 <= |out.trace| <= n - i
      && (forall j :: 0 <= j < |out.trace| ==> out.trace[j].attempt == i + j + 1)
      && (forall j :: 0 <= j < |out.trace| ==> Records(act, check, n, out.trace[j]))
      && (forall j :: 0 <= j < |out.trace| - 1 ==> !out.trace[j].ok)
      && (out.trace[|out.trace| - 1].ok || out.trace[|out.trace| - 1].attempt == n)
      && act(out.trace[|out.trace| - 1].plan) == Some(out.final)
    decreases n - i
  {
    var out := RunFrom(plan, act, check, n, i, payload).value;
    var a, result, o := RunStep(plan, act, check, n, i, payload);
    if !(o.ok || i + 1 == n) {
      var next := NextPayload(payload, o.patch);
      RunShape(plan, act, check, n, i + 1, next);
      var rest := RunFrom(plan, act, check, n, i + 1, next).value;
      ShapeCons(act, check, n, i, a, rest, out);
    }
  }

  /** The shape `RunShape` states, for a run that continues after a failed
      first attempt `a`. */
  lemma ShapeCons<R>(act: Obj -> Option<Obj>, check: (Obj, Value) -> Option<Outcome<R>>, n: nat, i: nat,
                     a: Attempt<R>, rest: RunOut<R>, out: RunOut<R>)
    requires out == RunOut([a] + rest.trace, rest.final)
    requires a.attempt == i + 1 && Records(act, check, n, a) && !a.ok
    requires 1 <= |rest.trace| <= n - (i + 1)
      && (forall j :: 0 <= j < |rest.trace| ==> rest.trace[j].attempt == i + 1 + j + 1)
      && (forall j :: 0 <= j < |rest.trace| ==> Records(act, check, n, rest.trace[j]))
      && (forall j :: 0 <= j < |rest.trace| - 1 ==> !rest.trace[j].ok)
      && (rest.trace[|rest.trace| - 1].ok || rest.trace[|rest.trace| - 1].attempt == n)
      && act(rest.trace[|rest.trace| - 1].plan) == Some(rest.final)
    ensures 1 <= |out.trace| <= n - i
      && (forall j :: 0 <= j < |out.trace| ==> out.trace[j].attempt == i + j + 1)
      && (forall j :: 0 <= j < |out.trace| ==> Records(act, check, n, out.trace[j]))
      && (forall j :: 0 <= j < |out.trace| - 1 ==> !out.trace[j].ok)
      && (out.trace[|out.trace| - 1].ok || out.trace[|out.trace| - 1].attempt == n)
      && act(out.trace[|out.trace| - 1].plan) == Some(out.final)
  {
    assert out.trace[0] == a;
    assert forall j :: 1 <= j < |out.trace| ==> out.trace[j] == rest.trace[j - 1];
  }

  /** The first attempt of a run from index `i`, and how the rest follows it. */
  lemma RunStep<R>(plan: Obj -> Option<Obj>, act: Obj -> Option<Obj>, check: (Obj, Value) -> Option<Outcome<R>>,
                   n: nat, i: nat, payload: Obj)
    returns (a: Attempt<R>, result: Obj, o: Outcome<R>)
    requires i < n && RunFrom(plan, act, check, n, i, payload).Some?
    ensures plan(payload).Some? && act(plan(payload).value) == Some(result)
    ensures check(result, Criteria(plan(payload).value)) == Some(o)
    ensures a == Attempt(i + 1, plan(payload).value, o.ok, o.reason, o.patch != map[] && !o.ok && i + 1 < n)
    ensures Records(act, check, n, a)
    ensures o.ok || i + 1 == n ==> RunFrom(plan, act, check, n, i, payload) == Some(RunOut([a], result))
    ensures !(o.ok || i + 1 == n) ==>
      var rest := RunFrom(plan, act, check, n, i + 1, NextPayload(payload, o.patch));
      rest.Some? && RunFrom(plan, act, check, n, i, payload) == Some(RunOut([a] + rest.value.trace, rest.value.final))
  {
    var p := plan(payload).value;
    result := act(p).value;
    o := check(result, Criteria(p)).value;
    a := Attempt(i + 1, p, o.ok, o.reason, o.patch != map[] && !o.ok && i + 1 < n);
  }

  /** The payloads the attempts plan from: the first is the one given, and
      each next one is the previous merged with its failed check's patch. */
  lemma {:induction false} RunPayloads<R>(plan: Obj -> Option<Obj>, act: Obj -> Option<Obj>,
                                          check: (Obj, Value) -> Option<Outcome<R>>, n: nat, i: nat, payload: Obj)
    returns (ps: seq<Obj>)
    requires i < n && RunFrom(plan, act, check, n, i, payload).Some?
    ensures var out := RunFrom(plan, act, check, n, i, payload).value;
      |ps| == |out.trace| && ps[0] == payload
      && (forall j :: 0 <= j < |ps| ==> plan(ps[j]) == Some(out.trace[j].plan))
      && (forall j :: 0 <= j < |ps| - 1 ==>
            CheckOf(act, check, out.trace[j]).Some?
            && ps[j + 1] == NextPayload(ps[j], CheckOf(act, check, out.trace[j]).value.patch))
    decreases n - i
  {
    var out := RunFrom(plan, act, check, n, i, payload).value;
    var p := plan(payload).value;
    var o := check(act(p).value, Criteria(p)).value;
    if o.ok || i + 1 == n {
      ps := [payload];
    } else {
      var next := NextPayload(payload, o.patch);
      var rest := RunPayloads(plan, act, check, n, i + 1, next);
      ps := [payload] + rest;
      var tail := RunFrom(plan, act, check, n, i + 1, next).value;
      assert forall j :: 1 <= j < |out.trace| ==> out.trace[j] == tail.trace[j - 1];
    }
  }

  /** The attempts made so far, put before the rest of a run. */
  function Prepend<R>(trace: seq<Attempt<R>>, r: Option<RunOut<R>>): Option<RunOut<R>> {
    match r
    case None => None
    case Some(rest) => Some(RunOut(trace + rest.trace, rest.final))
  }

  lemma PrependNone<R>(r: Option<RunOut<R>>)
    ensures Prepend([], r) == r
  {
    if r.Some? {
      assert [] + r.value.trace == r.value.trace;
    }
  }

  lemma PrependTwice<R>(trace: seq<Attempt<R>>, a: Attempt<R>, r: Option<RunOut<R>>)
    ensures Prepend(trace, Prepend([a], r)) == Prepend(trace + [a], r)
  {
    if r.Some? {
      assert trace + ([a] + r.value.trace) == trace + [a] + r.value.trace;
    }
  }

  /** The planner: an attempt cap and the three injected steps, all fixed at
      construction. */
  class TinyPlanner<R> {
    const maxIters: nat
    const planStep: Obj -> Option<Obj>
    const actStep: Obj -> Option<Obj>
    const checkStep: (Obj, Value) -> Option<Outcome<R>>

    /** `__init__`: the cap is clamped into [1, 3]. */
    constructor(maxIters: int, planStep: Obj -> Option<Obj>, actStep: Obj -> Option<Obj>,
                checkStep: (Obj, Value) -> Option<Outcome<R>>)
      ensures this.maxIters == ClampIters(maxIters) && 1 <= this.maxIters <= 3
      ensures this.planStep == planStep && this.actStep == actStep && this.checkStep == checkStep
    {
      this.maxIters := ClampIters(maxIters);
      this.planStep := planStep;
      this.actStep := actStep;
      this.checkStep := checkStep;
    }

    /** `run(raw_payload)` */
    method Run(raw: Obj) returns (r: Option<RunOut<R>>)
      requires maxIters >= 1
      ensures r == RunFrom(planStep, actStep, checkStep, maxIters, 0, raw)
    {
      var trace: seq<Attempt<R>> := [];
      var payload := raw;
      var i := 0;
      PrependNone(RunFrom(planStep, actStep, checkStep, maxIters, 0, raw));
      while i < maxIters
        invariant 0 <= i < maxIters
        invariant RunFrom(planStep, actStep, checkStep, maxIters, 0, raw) ==
          Prepend(trace, RunFrom(planStep, actStep, checkStep, maxIters, i, payload))
        decreases maxIters - i
      {
        var p := planStep(payload);
        if p.None? {
          return None;
        }
        var result := actStep(p.value);
        if result.None? {
          return None;
        }
        var o := checkStep(result.value, Criteria(p.value));
        if o.None? {
          return None;
        }
        var a := Attempt(i + 1, p.value, o.value.ok, o.value.reason, o.value.patch != map[] && !o.value.ok && i + 1 < maxIters);
        if o.value.ok || i + 1 == maxIters {
          return Some(RunOut(trace + [a], result.value));
        }
        var next := NextPayload(payload, o.value.patch);
        PrependTwice(trace, a, RunFrom(planStep, actStep, checkStep, maxIters, i + 1, next));
        trace := trace + [a];
        if o.value.patch != map[] {
          payload := DeepMerge(payload, o.value.patch);
        }
        i := i + 1;
      }
      assert false;
    }
  }
}
