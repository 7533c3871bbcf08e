/** Extraction of the first top-level `{...}` block from an LLM reply. */
module JsonTools {
  import opened Wrappers
  import opened Text
  import opened Values

  /** One step of the brace counter: `{` opens, `}` closes only when something is open. */
  function Step(d: nat, c: char): nat {
    if c == '{' then d + 1
    else if c == '}' && d > 0 then d - 1
    else d
  }

  /** The brace depth after reading all of `s` from depth 0. */
  function DepthAfter(s: string): nat {
    if s == [] then 0 else Step(DepthAfter(s[..|s| - 1]), s[|s| - 1])
  }

  /** The brace depth after reading `s` from depth `d`. */
  function DepthFrom(d: nat, s: string): nat
    decreases |s|
  {
    if s == [] then d else DepthFrom(Step(d, s[0]), s[1..])
  }

  lemma {:induction false} DepthFromAppend(d: nat, s: string, c: char)
    ensures DepthFrom(d, s + [c]) == Step(DepthFrom(d, s), c)
    decreases |s|
  {
    if s != [] {
      assert (s + [c])[1..] == s[1..] + [c];
      DepthFromAppend(Step(d, s[0]), s[1..], c);
    }
  }

  lemma {:induction false} DepthAfterIsDepthFrom(s: string)
    ensures DepthAfter(s) == DepthFrom(0, s)
    decreases |s|
  {
    if s != [] {
      var p := s[..|s| - 1];
      DepthAfterIsDepthFrom(p);
      DepthFromAppend(0, p, s[|s| - 1]);
      assert p + [s[|s| - 1]] == s;
    }
  }

  /** Reading from depth 0 is memoryless: once the depth is back to 0 what came
      before no longer matters. */
  lemma {:induction false} DepthAfterRestart(a: string, b: string)
    requires DepthAfter(a) == 0
    ensures DepthAfter(a + b) == DepthAfter(b)
    decreases |b|
  {
    if b != [] {
      var b' := b[..|b| - 1];
      DepthAfterRestart(a, b');
      assert (a + b)[..|a + b| - 1] == a + b';
      assert (a + b)[|a + b| - 1] == b[|b| - 1];
    } else {
      assert a + b == a;
    }
  }

  /** Index `e` closes the top-level block: a `}` read at depth 1. */
  predicate IsClose(s: string, e: int) {
    0 <= e < |s| && s[e] == '}' && DepthAfter(s[..e]) == 1
  }

  /** The first index at or after `i` that closes a top-level block. */
  function FirstCloseFrom(s: string, i: nat): (r: Option<nat>)
    decreases |s| - i
    ensures r.Some? ==> i <= r.value && IsClose(s, r.value)
    ensures r.Some? ==> forall e :: i <= e < r.value ==> !IsClose(s, e)
    ensures r.None? ==> forall e :: i <= e < |s| ==> !IsClose(s, e)
  {
    if i >= |s| then None
    else if IsClose(s, i) then Some(i)
    else FirstCloseFrom(s, i + 1)
  }

  function FirstClose(s: string): Option<nat> {
    FirstCloseFrom(s, 0)
  }

  /** What `extract_json_block` returns for a string: the text from the first
      `{` through the first top-level closing `}`, else the stripped string. */
  function Extracted(s: string): (r: string)
  {
    match FirstClose(s)
    case Some(e) =>
      var f := Find(s, '{');
      if 0 <= f <= e then s[f..e + 1] else Strip(s)
    case None => Strip(s)
  }

  /** Up to its first `{` a string has depth 0. */
  lemma {:induction false} NoOpenDepthZero(s: string, i: nat)
    requires i <= |s| && forall j :: 0 <= j < i ==> s[j] != '{'
    ensures DepthAfter(s[..i]) == 0
    decreases i
  {
    if i > 0 {
      NoOpenDepthZero(s, i - 1);
      assert s[..i][..i - 1] == s[..i - 1];
    }
  }

  /** The first `{` comes before any top-level close, and the depth stays at
      least 1 from it up to the close. */
  lemma {:induction false} OpenBeforeClose(s: string, e: nat)
    requires IsClose(s, e)
    ensures 0 <= Find(s, '{') < e
  {
    if Find(s, '{') == -1 || Find(s, '{') >= e {
      NoOpenDepthZero(s, e);
    }
  }

  /** `extract_json_block`; a non-string argument comes back unchanged. */
  method ExtractJsonBlock(text: Value) returns (r: Value)
    ensures !text.Str? ==> r == text
    ensures text.Str? ==> r == Str(Extracted(text.s))
  {
    if !text.Str? {
      return text;
    }
    var s := text.s;
    var stack: nat := 0;
    var start: Option<nat> := None;
    var i := 0;
    while i < |s|
      invariant 0 <= i <= |s|
      invariant stack == DepthAfter(s[..i])
      invariant forall e :: 0 <= e < i ==> !IsClose(s, e)
      invariant start.None? <==> stack == 0
      invariant start.None? ==> forall j :: 0 <= j < i ==> s[j] != '{'
      invariant start.Some? ==> start.value == Find(s, '{') && start.value < i
    {
      assert s[..i + 1][..i] == s[..i];
      var ch := s[i];
      if ch == '{' {
        if stack == 0 {
          start := Some(i);
        }
        stack := stack + 1;
      } else if ch == '}' {
        if stack > 0 {
          stack := stack - 1;
          if stack == 0 && start.Some? {
            assert IsClose(s, i);
            assert FirstCloseFrom(s, 0) == Some(i) by { FirstCloseIs(s, 0, i); }
            return Str(s[start.value..i + 1]);
          }
        }
      }
      i := i + 1;
    }
    return Str(Strip(s));
  }

  lemma {:induction false} FirstCloseIs(s: string, i: nat, e: nat)
    requires i <= e && IsClose(s, e) && forall k :: i <= k < e ==> !IsClose(s, k)
    ensures FirstCloseFrom(s, i) == Some(e)
    decreases e - i
  {
    if i < e {
      FirstCloseIs(s, i + 1, e);
    }
  }

  /** The returned block starts at the first `{`, ends with `}`, is balanced, and
      its depth reaches 0 only at its last character. */
  lemma BlockIsBalanced(s: string)
    requires FirstClose(s).Some?
    ensures var e := FirstClose(s).value; var f := Find(s, '{');
      && 0 <= f < e
      && Extracted(s) == s[f..e + 1]
      && s[f] == '{' && s[e] == '}'
      && (forall j :: 0 <= j < f ==> s[j] != '{')
      && DepthAfter(Extracted(s)) == 0
      && forall k :: 0 < k < |Extracted(s)| ==> DepthAfter(Extracted(s)[..k]) >= 1
  {
    var e := FirstClose(s).value;
    var f := Find(s, '{');
    OpenBeforeClose(s, e);
    BlockInside(s, f, e, s[f..e + 1]);
    BlockEnd(s, f, e);
  }

  lemma BlockInside(s: string, f: int, e: nat, b: string)
    requires FirstClose(s) == Some(e) && f == Find(s, '{') && 0 <= f < e && b == s[f..e + 1]
    ensures forall k :: 0 < k < |b| ==> DepthAfter(b[..k]) >= 1
  {
    NoOpenDepthZero(s, f);
    forall k | 0 < k < |b|
      ensures DepthAfter(b[..k]) >= 1
    {
      assert s[..f] + b[..k] == s[..f + k];
      DepthAfterRestart(s[..f], b[..k]);
      DepthNeverZeroBeforeClose(s, f, e, f + k);
    }
  }

  lemma BlockEnd(s: string, f: int, e: nat)
    requires FirstClose(s) == Some(e) && f == Find(s, '{') && 0 <= f < e
    ensures DepthAfter(s[f..e + 1]) == 0
  {
    assert IsClose(s, e);
    var b := s[f..e + 1];
    NoOpenDepthZero(s, f);
    assert b[..|b| - 1] == s[f..e];
    assert s[..f] + s[f..e] == s[..e];
    DepthAfterRestart(s[..f], b[..|b| - 1]);
    assert DepthAfter(b[..|b| - 1]) == 1;
    assert b[|b| - 1] == '}';
  }

  /** Between the first `{` and the first top-level close the depth stays positive. */
  lemma {:induction false} DepthNeverZeroBeforeClose(s: string, f: int, e: nat, m: nat)
    requires FirstClose(s) == Some(e) && f == Find(s, '{') && 0 <= f < m <= e
    ensures DepthAfter(s[..m]) >= 1
    decreases m
  {
    assert s[..m][..m - 1] == s[..m - 1];
    if m - 1 == f {
      NoOpenDepthZero(s, f);
    } else {
      DepthNeverZeroBeforeClose(s, f, e, m - 1);
      assert !IsClose(s, m - 1);
    }
  }

  lemma {:induction false} CloseShift(s: string, e: int)
    ensures IsClose(s, e) <==> IsClose("}" + s, e + 1)
  {
    if 0 <= e < |s| {
      assert ("}" + s)[..e + 1] == "}" + s[..e];
      assert DepthAfter("}") == 0;
      DepthAfterRestart("}", s[..e]);
    }
  }

  /** A `}` read at depth 0 is ignored: a stray leading `}` does not change the block found. */
  lemma LeadingCloseIgnored(s: string)
    requires FirstClose(s).Some?
    ensures Extracted("}" + s) == Extracted(s)
  {
    var t := "}" + s;
    var e := FirstClose(s).value;
    CloseShift(s, e);
    forall k | 0 <= k < e + 1
      ensures !IsClose(t, k)
    {
      if k > 0 { CloseShift(s, k - 1); }
    }
    FirstCloseIs(t, 0, e + 1);
    OpenBeforeClose(s, e);
    assert Find(t, '{') == Find(s, '{') + 1;
    assert t[Find(t, '{')..e + 2] == s[Find(s, '{')..e + 1];
  }

}
