/** List comprehensions, stated once for any element type: the filter
    `[x for x in xs if keep(x)]` and the loop that maps each element to an
    optional copy, keeps the present ones and counts the rest. */
module Lists {
  import opened Wrappers

  /** `[x for x in xs if keep(x)]` */
  function Filter<T>(xs: seq<T>, keep: T -> bool): (r: seq<T>)
    ensures |r| <= |xs|
  {
    if xs == [] then []
    else Filter(xs[..|xs| - 1], keep) + (if keep(xs[|xs| - 1]) then [xs[|xs| - 1]] else [])
  }

  /** What the filter keeps passes the test and comes from the input. */
  lemma {:induction false} FilterSound<T>(xs: seq<T>, keep: T -> bool)
    ensures forall i :: 0 <= i < |Filter(xs, keep)| ==> keep(Filter(xs, keep)[i])
    ensures multiset(Filter(xs, keep)) <= multiset(xs)
    decreases |xs|
  {
    if xs != [] {
      var p := xs[..|xs| - 1];
      var x := xs[|xs| - 1];
      FilterSound(p, keep);
      assert xs == p + [x];
      var f := Filter(p, keep);
      var r := f + (if keep(x) then [x] else []);
      forall i | 0 <= i < |r|
        ensures keep(r[i])
      {
        if i < |f| {
          assert r[i] == f[i];
        }
      }
    }
  }

  /** Every input that passes the test is kept: nothing is lost but failures. */
  lemma {:induction false} FilterComplete<T>(xs: seq<T>, keep: T -> bool)
    ensures forall x :: x in xs && keep(x) ==> x in Filter(xs, keep)
    decreases |xs|
  {
    if xs != [] {
      var p := xs[..|xs| - 1];
      FilterComplete(p, keep);
      assert xs == p + [xs[|xs| - 1]];
    }
  }

  /** The filter removes nothing exactly when every element passes. */
  lemma {:induction false} FilterKeepsAll<T>(xs: seq<T>, keep: T -> bool)
    ensures Filter(xs, keep) == xs <==> forall i :: 0 <= i < |xs| ==> keep(xs[i])
    ensures |Filter(xs, keep)| == |xs| <==> Filter(xs, keep) == xs
    decreases |xs|
  {
    if xs != [] {
      var p := xs[..|xs| - 1];
      var x := xs[|xs| - 1];
      FilterKeepsAll(p, keep);
      assert xs == p + [x];
      assert forall i :: 0 <= i < |p| ==> p[i] == xs[i];
      if !keep(x) {
        assert |Filter(xs, keep)| < |xs|;
      } else if Filter(p, keep) != p {
        assert |Filter(p, keep)| < |p|;
        assert |Filter(xs, keep)| < |xs|;
      }
    }
  }

  /** The kept results of `f` applied to each element, in order. */
  function FilterMap<T, U>(xs: seq<T>, f: T -> Option<U>): (r: seq<U>)
    ensures |r| <= |xs|
  {
    if xs == [] then []
    else
      var x := xs[|xs| - 1];
      FilterMap(xs[..|xs| - 1], f) + (if f(x).Some? then [f(x).value] else [])
  }

  /** How many elements `f` rejects. */
  function Misses<T, U>(xs: seq<T>, f: T -> Option<U>): (r: nat)
    ensures |FilterMap(xs, f)| + r == |xs|
  {
    if xs == [] then 0
    else Misses(xs[..|xs| - 1], f) + (if f(xs[|xs| - 1]).Some? then 0 else 1)
  }

  /** A non-empty list is its front and its last element. */
  lemma FrontLast<T>(xs: seq<T>)
    requires xs != []
    ensures xs == xs[..|xs| - 1] + [xs[|xs| - 1]]
  {
  }

  /** One more element of a prefix. */
  lemma FilterMapSnoc<T, U>(xs: seq<T>, f: T -> Option<U>, i: int)
    requires 0 <= i < |xs|
    ensures FilterMap(xs[..i + 1], f) == FilterMap(xs[..i], f) + (if f(xs[i]).Some? then [f(xs[i]).value] else [])
    ensures Misses(xs[..i + 1], f) == Misses(xs[..i], f) + (if f(xs[i]).Some? then 0 else 1)
  {
    assert xs[..i + 1][..i] == xs[..i];
  }

  /** Nothing is rejected exactly when `f` accepts every element. */
  lemma {:induction false} MissesZero<T, U>(xs: seq<T>, f: T -> Option<U>)
    ensures Misses(xs, f) == 0 <==> forall i :: 0 <= i < |xs| ==> f(xs[i]).Some?
    decreases |xs|
  {
    if xs != [] {
      var p := xs[..|xs| - 1];
      MissesZero(p, f);
      assert forall i :: 0 <= i < |p| ==> p[i] == xs[i];
    }
  }

  /** A property that every accepted result has holds for the whole output,
      given a property of every input. */
  lemma {:induction false} FilterMapPreserves<T, U>(xs: seq<T>, f: T -> Option<U>, pre: T -> bool, post: U -> bool)
    requires forall i :: 0 <= i < |xs| ==> pre(xs[i])
    requires forall x :: pre(x) && f(x).Some? ==> post(f(x).value)
    ensures forall j :: 0 <= j < |FilterMap(xs, f)| ==> post(FilterMap(xs, f)[j])
    decreases |xs|
  {
    if xs != [] {
      var p := xs[..|xs| - 1];
      var x := xs[|xs| - 1];
      assert forall i :: 0 <= i < |p| ==> p[i] == xs[i];
      FilterMapPreserves(p, f, pre, post);
      var g := FilterMap(p, f);
      var r := g + (if f(x).Some? then [f(x).value] else []);
      forall j | 0 <= j < |r|
        ensures post(r[j])
      {
        if j < |g| {
          assert r[j] == g[j];
        }
      }
    }
  }

  /** Where `f` returns every element unchanged, the loop is the identity. */
  lemma {:induction false} FilterMapFixed<T>(xs: seq<T>, f: T -> Option<T>)
    requires forall i :: 0 <= i < |xs| ==> f(xs[i]) == Some(xs[i])
    ensures FilterMap(xs, f) == xs
    ensures Misses(xs, f) == 0
    decreases |xs|
  {
    if xs != [] {
      var p, x := xs[..|xs| - 1], xs[|xs| - 1];
      forall i | 0 <= i < |p|
        ensures f(p[i]) == Some(p[i])
      {
        assert p[i] == xs[i];
      }
      FilterMapFixed(p, f);
      assert f(x) == Some(x);
      FrontLast(xs);
    }
  }

  /** `[h(x) for x in xs]` */
  function Map<T, U>(xs: seq<T>, h: T -> U): (r: seq<U>)
    ensures |r| == |xs| && forall i :: 0 <= i < |xs| ==> r[i] == h(xs[i])
  {
    seq(|xs|, i requires 0 <= i < |xs| => h(xs[i]))
  }

  /** When `g` accepts exactly what `f` accepts and returns `h` of what `f`
      returns, the loop with `g` is the loop with `f` followed by `h`, and
      both reject the same number of elements. */
  lemma {:induction false} FilterMapThen<T, U, V>(xs: seq<T>, f: T -> Option<U>, g: T -> Option<V>, h: U -> V)
    requires forall x :: g(x).Some? <==> f(x).Some?
    requires forall x :: f(x).Some? ==> g(x).value == h(f(x).value)
    ensures FilterMap(xs, g) == Map(FilterMap(xs, f), h)
    ensures Misses(xs, g) == Misses(xs, f)
    decreases |xs|
  {
    if xs != [] {
      var p := xs[..|xs| - 1];
      var x := xs[|xs| - 1];
      FilterMapThen(p, f, g, h);
      var a := FilterMap(p, f);
      if f(x).Some? {
        assert Map(a + [f(x).value], h) == Map(a, h) + [h(f(x).value)];
      }
    }
  }

  /** When every accepted result is `h` of its element, the kept results are
      a sub-multiset of `h` applied to every element. */
  lemma {:induction false} FilterMapSubMultiset<T, U>(xs: seq<T>, f: T -> Option<U>, h: T -> U)
    requires forall x :: f(x).Some? ==> f(x).value == h(x)
    ensures multiset(FilterMap(xs, f)) <= multiset(Map(xs, h))
    decreases |xs|
  {
    if xs != [] {
      var p := xs[..|xs| - 1];
      var x := xs[|xs| - 1];
      FilterMapSubMultiset(p, f, h);
      assert Map(xs, h) == Map(p, h) + [h(x)];
    }
  }

  /** A property of every element of `b` holds for every element of a
      sub-multiset of `b`. */
  lemma SubMultisetPreserves<T>(a: seq<T>, b: seq<T>, p: T -> bool)
    requires multiset(a) <= multiset(b)
    requires forall i :: 0 <= i < |b| ==> p(b[i])
    ensures forall j :: 0 <= j < |a| ==> p(a[j])
  {
    forall j | 0 <= j < |a|
      ensures p(a[j])
    {
      assert a[j] in multiset(a);
      assert a[j] in multiset(b);
      var i :| 0 <= i < |b| && b[i] == a[j];
    }
  }

  /** The largest of `f` over `xs`, 0 for the empty list: at least every
      element's value and equal to one of them. */
  function MaxOf<T>(xs: seq<T>, f: T -> nat): (r: nat)
    ensures forall i :: 0 <= i < |xs| ==> f(xs[i]) <= r
    ensures xs == [] ==> r == 0
    ensures xs != [] ==> exists i :: 0 <= i < |xs| && f(xs[i]) == r
  {
    if xs == [] then 0
    else
      var p := xs[..|xs| - 1];
      var m := MaxOf(p, f);
      var k := f(xs[|xs| - 1]);
      assert forall i :: 0 <= i < |p| ==> p[i] == xs[i];
      if m >= k then m else k
  }

  /** `[f(x) for x in xs]` where each `f` may raise: None as soon as one
      element fails. */
  function AllOf<T, U>(xs: seq<T>, f: T -> Option<U>): (r: Option<seq<U>>)
    ensures r.Some? ==> |r.value| == |xs|
    ensures r.Some? ==> forall j :: 0 <= j < |xs| ==> f(xs[j]) == Some(r.value[j])
    ensures r.None? ==> exists j :: 0 <= j < |xs| && f(xs[j]).None?
  {
    if xs == [] then Some([])
    else
      var p := xs[..|xs| - 1];
      var init := AllOf(p, f);
      var last := f(xs[|xs| - 1]);
      if init.Some? && last.Some? then
        assert forall j :: 0 <= j < |p| ==> xs[j] == p[j];
        Some(init.value + [last.value])
      else
        assert init.None? ==> exists j :: 0 <= j < |p| && f(p[j]).None? && xs[j] == p[j];
        None
  }
}
