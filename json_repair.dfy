/** The last-chance repair applied to an LLM reply that did not parse as JSON. */
module JsonRepair {
  import opened Text

  predicate IsCloser(c: char) {
    c == '}' || c == ']'
  }

  /** `t` begins with optional whitespace and then a `}` or `]`: the part
      `\s*[}\]]` of the trailing-comma pattern. */
  predicate ClosesAfterSpaces(t: string)
    decreases |t|
  {
    t != [] && (IsCloser(t[0]) || (IsSpace(t[0]) && ClosesAfterSpaces(t[1..])))
  }

  /** The comma at index `i` is a trailing comma the repair removes. */
  predicate Removable(s: string, i: int) {
    0 <= i < |s| && s[i] == ',' && ClosesAfterSpaces(s[i + 1..])
  }

  /** `re.sub(r",(\s*[}\]])", r"\1", s)`. The substitution consumes the
      whitespace and bracket after the comma; neither contains a comma, so
      scanning on from the character after the comma gives the same result. */
  function StripTrailingCommas(s: string): (r: string)
    ensures |r| <= |s|
    decreases |s|
  {
    if s == [] then []
    else if s[0] == ',' && ClosesAfterSpaces(s[1..]) then StripTrailingCommas(s[1..])
    else [s[0]] + StripTrailingCommas(s[1..])
  }

  /** Only commas are ever removed: every other character survives, in order. */
  lemma {:induction false} OnlyCommasRemoved(s: string)
    ensures RemoveChar(StripTrailingCommas(s), ',') == RemoveChar(s, ',')
    decreases |s|
  {
    if s != [] {
      OnlyCommasRemoved(s[1..]);
      if !(s[0] == ',' && ClosesAfterSpaces(s[1..])) {
        var t := StripTrailingCommas(s[1..]);
        assert ([s[0]] + t)[1..] == t;
      }
    }
  }

  /** Text with no trailing comma is left alone. */
  lemma {:induction false} NoTrailingCommaUnchanged(s: string)
    requires forall i :: 0 <= i < |s| ==> !Removable(s, i)
    ensures StripTrailingCommas(s) == s
    decreases |s|
  {
    if s != [] {
      forall i | 0 <= i < |s[1..]|
        ensures !Removable(s[1..], i)
      {
        assert s[1..][i + 1..] == s[i + 2..];
        assert !Removable(s, i + 1);
      }
      NoTrailingCommaUnchanged(s[1..]);
      assert !Removable(s, 0);
    }
  }

  /** A run of whitespace and a closing bracket pass through unchanged. */
  lemma {:induction false} SpacesThenCloserKept(w: string, b: char, q: string)
    requires (forall i :: 0 <= i < |w| ==> IsSpace(w[i])) && IsCloser(b)
    ensures StripTrailingCommas(w + [b] + q) == w + [b] + StripTrailingCommas(q)
    decreases |w|
  {
    if w == [] {
      assert [b] + q == w + [b] + q;
      assert ([b] + q)[1..] == q;
    } else {
      var s := w + [b] + q;
      assert s[0] == w[0] && s[1..] == w[1..] + [b] + q;
      SpacesThenCloserKept(w[1..], b, q);
    }
  }

  lemma {:induction false} SpacesThenCloserCloses(w: string, b: char, q: string)
    requires (forall i :: 0 <= i < |w| ==> IsSpace(w[i])) && IsCloser(b)
    ensures ClosesAfterSpaces(w + [b] + q)
    decreases |w|
  {
    if w == [] {
      assert (w + [b] + q)[0] == b;
    } else {
      assert (w + [b] + q)[1..] == w[1..] + [b] + q;
      SpacesThenCloserCloses(w[1..], b, q);
    }
  }

  /** A comma followed by optional whitespace and then `}` or `]` is removed;
      the whitespace and the bracket stay. */
  lemma TrailingCommaRemoved(w: string, b: char, q: string)
    requires (forall i :: 0 <= i < |w| ==> IsSpace(w[i])) && IsCloser(b)
    ensures StripTrailingCommas([','] + w + [b] + q) == w + [b] + StripTrailingCommas(q)
  {
    var s := [','] + w + [b] + q;
    assert s[1..] == w + [b] + q;
    SpacesThenCloserCloses(w, b, q);
    SpacesThenCloserKept(w, b, q);
  }

  /** `_json_repair(s)`: remove trailing commas, then keep the span from the
      first `{` to the last `}` when there is one. */
  function Repair(s: string): (r: string)
    ensures |r| <= |s|
  {
    Cut(StripTrailingCommas(s))
  }

  /** The cut to the outer braces: the span from the first `{` to the last `}`
      when there is one, else the text as it is. */
  function Cut(t: string): (r: string)
    ensures |r| <= |t|
  {
    var first := Find(t, '{');
    var last := RFind(t, '}');
    if first != -1 && last != -1 && last > first then t[first..last + 1] else t
  }

  /** With a `{` before the last `}`, the result is the inclusive span from the
      first `{` to the last `}` of the comma-stripped text `t`. */
  lemma RepairCutsToBraces(s: string, t: string)
    requires t == StripTrailingCommas(s) && 0 <= Find(t, '{') < RFind(t, '}')
    ensures Repair(s) == t[Find(t, '{')..RFind(t, '}') + 1]
    ensures Repair(s)[0] == '{' && Repair(s)[|Repair(s)| - 1] == '}'
    ensures forall j :: 0 <= j < Find(t, '{') ==> t[j] != '{'
    ensures forall j :: RFind(t, '}') < j < |t| ==> t[j] != '}'
  {
    CutToBraces(t);
  }

  /** The cut of a text with a `{` before its last `}`. */
  lemma CutToBraces(t: string)
    requires 0 <= Find(t, '{') < RFind(t, '}')
    ensures Cut(t) == t[Find(t, '{')..RFind(t, '}') + 1]
    ensures Cut(t)[0] == '{' && Cut(t)[|Cut(t)| - 1] == '}'
    ensures forall j :: 0 <= j < Find(t, '{') ==> t[j] != '{'
    ensures forall j :: RFind(t, '}') < j < |t| ==> t[j] != '}'
  {
    var first, last := Find(t, '{'), RFind(t, '}');
    SliceEnds(t, first, last);
  }

  lemma SliceEnds(t: string, a: int, b: int)
    requires 0 <= a < b < |t|
    ensures var span := t[a..b + 1]; span != [] && span[0] == t[a] && span[|span| - 1] == t[b]
  {
  }

  /** Otherwise the comma-stripped text is the result. */
  lemma RepairWithoutBraces(s: string)
    requires var t := StripTrailingCommas(s); Find(t, '{') == -1 || RFind(t, '}') <= Find(t, '{')
    ensures Repair(s) == StripTrailingCommas(s)
  {
  }

  /** When the text is already free of trailing commas and has no outer
      braces to cut to, repair is the identity. */
  lemma RepairIdentity(s: string)
    requires forall i :: 0 <= i < |s| ==> !Removable(s, i)
    requires Find(s, '{') == -1 || RFind(s, '}') <= Find(s, '{')
    ensures Repair(s) == s
  {
    NoTrailingCommaUnchanged(s);
  }
}
