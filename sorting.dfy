/** Python's stable `sorted(..., key=...)` and the greedy budget pass, stated
    once for any element type. A descending sort (`reverse=True`) is an
    ascending sort on the negated key: Python keeps equal keys in input order
    in both directions. */
module Sorting {
  import opened Lists

  /** A sort key compared lexicographically, like a Python tuple of three floats. */
  datatype Key = Key(a: real, b: real, c: real)

  predicate Below(x: Key, y: Key) {
    x.a < y.a || (x.a == y.a && (x.b < y.b || (x.b == y.b && x.c < y.c)))
  }

  predicate AtMost(x: Key, y: Key) {
    !Below(y, x)
  }

  predicate SortedBy<T>(xs: seq<T>, key: T -> Key) {
    forall i, j :: 0 <= i < j < |xs| ==> AtMost(key(xs[i]), key(xs[j]))
  }

  /** Inserts `x` after every element whose key is at most its own. */
  function Insert<T>(x: T, s: seq<T>, key: T -> Key): (r: seq<T>)
    ensures |r| == |s| + 1
    ensures multiset(r) == multiset(s) + multiset{x}
    ensures r[0] == x || (s != [] && r[0] == s[0])
  {
    if s == [] then [x]
    else if Below(key(x), key(s[0])) then [x] + s
    else
      var t := Insert(x, s[1..], key);
      assert s == [s[0]] + s[1..];
      [s[0]] + t
  }

  /** `sorted(xs, key=key)` */
  function SortBy<T>(xs: seq<T>, key: T -> Key): (r: seq<T>)
    ensures |r| == |xs|
    ensures multiset(r) == multiset(xs)
  {
    if xs == [] then []
    else
      var p := xs[..|xs| - 1];
      assert xs == p + [xs[|xs| - 1]];
      Insert(xs[|xs| - 1], SortBy(p, key), key)
  }

  lemma {:induction false} InsertSorted<T>(x: T, s: seq<T>, key: T -> Key)
    requires SortedBy(s, key)
    ensures SortedBy(Insert(x, s, key), key)
    decreases |s|
  {
    if s != [] && !Below(key(x), key(s[0])) {
      var t := Insert(x, s[1..], key);
      InsertSorted(x, s[1..], key);
      var r := [s[0]] + t;
      forall j | 0 < j < |r|
        ensures AtMost(key(s[0]), key(r[j]))
      {
        assert r[j] in multiset(t);
        assert r[j] == x || r[j] in multiset(s[1..]);
        if r[j] != x {
          var k :| 0 <= k < |s[1..]| && s[1..][k] == r[j];
          assert s[k + 1] == r[j];
        }
      }
      assert r == Insert(x, s, key);
    }
  }

  /** The result is ordered by the key. */
  lemma {:induction false} SortBySorted<T>(xs: seq<T>, key: T -> Key)
    ensures SortedBy(SortBy(xs, key), key)
    decreases |xs|
  {
    if xs != [] {
      SortBySorted(xs[..|xs| - 1], key);
      InsertSorted(xs[|xs| - 1], SortBy(xs[..|xs| - 1], key), key);
    }
  }

  /** The elements of `xs` whose key equals `k`, in order. */
  function WithKey<T>(xs: seq<T>, key: T -> Key, k: Key): seq<T> {
    if xs == [] then []
    else (if key(xs[0]) == k then [xs[0]] else []) + WithKey(xs[1..], key, k)
  }

  lemma {:induction false} WithKeyAppend<T>(xs: seq<T>, x: T, key: T -> Key, k: Key)
    ensures WithKey(xs + [x], key, k) == WithKey(xs, key, k) + (if key(x) == k then [x] else [])
    decreases |xs|
  {
    if xs != [] {
      assert (xs + [x])[1..] == xs[1..] + [x];
      WithKeyAppend(xs[1..], x, key, k);
    } else {
      assert [x][1..] == [];
    }
  }

  lemma {:induction false} NoneWithLowerKey<T>(s: seq<T>, key: T -> Key, k: Key)
    requires SortedBy(s, key) && s != [] && Below(k, key(s[0]))
    ensures WithKey(s, key, k) == []
    decreases |s|
  {
    if |s| > 1 {
      assert AtMost(key(s[0]), key(s[1]));
      NoneWithLowerKey(s[1..], key, k);
    }
  }

  lemma {:induction false} InsertStable<T>(x: T, s: seq<T>, key: T -> Key, k: Key)
    requires SortedBy(s, key)
    ensures WithKey(Insert(x, s, key), key, k) == WithKey(s, key, k) + (if key(x) == k then [x] else [])
    decreases |s|
  {
    if s == [] {
    } else if Below(key(x), key(s[0])) {
      if key(x) == k {
        NoneWithLowerKey(s, key, k);
      }
      assert Insert(x, s, key) == [x] + s;
      WithKeyCons(x, s, key, k);
    } else {
      SortedTail(s, key);
      var t := Insert(x, s[1..], key);
      assert Insert(x, s, key) == [s[0]] + t;
      InsertStable(x, s[1..], key, k);
      StableStep(s[0], s[1..], t, x, key, k);
      assert [s[0]] + s[1..] == s;
    }
  }

  lemma StableStep<T>(a: T, rest: seq<T>, t: seq<T>, x: T, key: T -> Key, k: Key)
    requires WithKey(t, key, k) == WithKey(rest, key, k) + (if key(x) == k then [x] else [])
    ensures WithKey([a] + t, key, k) == WithKey([a] + rest, key, k) + (if key(x) == k then [x] else [])
  {
    WithKeyCons(a, t, key, k);
    WithKeyCons(a, rest, key, k);
  }

  lemma WithKeyCons<T>(x: T, s: seq<T>, key: T -> Key, k: Key)
    ensures WithKey([x] + s, key, k) == (if key(x) == k then [x] else []) + WithKey(s, key, k)
  {
    assert ([x] + s)[1..] == s;
  }

  lemma SortedTail<T>(s: seq<T>, key: T -> Key)
    requires s != [] && SortedBy(s, key)
    ensures SortedBy(s[1..], key)
  {
    forall i, j | 0 <= i < j < |s| - 1
      ensures AtMost(key(s[1..][i]), key(s[1..][j]))
    {
      assert s[1..][i] == s[i + 1] && s[1..][j] == s[j + 1];
    }
  }

  /** Stability: elements with equal keys keep their input order. */
  lemma {:induction false} SortByStable<T>(xs: seq<T>, key: T -> Key, k: Key)
    ensures WithKey(SortBy(xs, key), key, k) == WithKey(xs, key, k)
    decreases |xs|
  {
    if xs != [] {
      var p, x := xs[..|xs| - 1], xs[|xs| - 1];
      assert SortBy(xs, key) == Insert(x, SortBy(p, key), key);
      SortByStable(p, key, k);
      SortBySorted(p, key);
      InsertStable(x, SortBy(p, key), key, k);
      Lists.FrontLast(xs);
      WithKeyAppend(p, x, key, k);
    }
  }

  lemma {:induction false} InsertAtEnd<T>(x: T, s: seq<T>, key: T -> Key)
    requires forall i :: 0 <= i < |s| ==> AtMost(key(s[i]), key(x))
    ensures Insert(x, s, key) == s + [x]
    decreases |s|
  {
    if s != [] {
      assert AtMost(key(s[0]), key(x));
      InsertAtEnd(x, s[1..], key);
      assert [s[0]] + (s[1..] + [x]) == s + [x];
    }
  }

  /** Sorting an already sorted sequence changes nothing. */
  lemma {:induction false} SortBySortedIdentity<T>(xs: seq<T>, key: T -> Key)
    requires SortedBy(xs, key)
    ensures SortBy(xs, key) == xs
    decreases |xs|
  {
    if xs != [] {
      var p := xs[..|xs| - 1];
      assert SortedBy(p, key);
      SortBySortedIdentity(p, key);
      InsertAtEnd(xs[|xs| - 1], p, key);
      assert p + [xs[|xs| - 1]] == xs;
    }
  }

  /** Inserting commutes with a map that keeps every key. */
  lemma {:induction false} InsertMap<T>(x: T, s: seq<T>, key: T -> Key, h: T -> T)
    requires forall y :: key(h(y)) == key(y)
    ensures Insert(h(x), Map(s, h), key) == Map(Insert(x, s, key), h)
    decreases |s|
  {
    if s != [] {
      var a, rest := s[0], s[1..];
      assert s == [a] + rest;
      MapCons(a, rest, h);
      var m := Map(s, h);
      assert m[0] == h(a) && m[1..] == Map(rest, h);
      assert key(h(x)) == key(x) && key(h(a)) == key(a);
      if Below(key(x), key(a)) {
        MapCons(x, s, h);
      } else {
        InsertMap(x, rest, key, h);
        MapCons(a, Insert(x, rest, key), h);
      }
    }
  }

  lemma MapCons<T>(a: T, s: seq<T>, h: T -> T)
    ensures Map([a] + s, h) == [h(a)] + Map(s, h)
  {
  }

  /** Sorting commutes with a map that keeps every key. */
  lemma {:induction false} SortByMap<T>(xs: seq<T>, key: T -> Key, h: T -> T)
    requires forall y :: key(h(y)) == key(y)
    ensures SortBy(Map(xs, h), key) == Map(SortBy(xs, key), h)
    decreases |xs|
  {
    if xs != [] {
      var p := xs[..|xs| - 1];
      var m := Map(xs, h);
      assert m[..|m| - 1] == Map(p, h) && m[|m| - 1] == h(xs[|xs| - 1]);
      SortByMap(p, key, h);
      InsertMap(xs[|xs| - 1], SortBy(p, key), key, h);
    }
  }

  // ---------------------------------------------------------------------------
  // The greedy budget pass

  function Total<T>(xs: seq<T>, cost: T -> real): real {
    if xs == [] then 0.0 else cost(xs[0]) + Total(xs[1..], cost)
  }

  /** Walks `xs` in order, takes each element whose cost still fits the budget
      and skips the rest: a non-fitting element does not stop the walk. */
  function Greedy<T>(xs: seq<T>, cost: T -> real, budget: real, spent: real): seq<T>
    decreases |xs|
  {
    if xs == [] then []
    else if spent + cost(xs[0]) <= budget then [xs[0]] + Greedy(xs[1..], cost, budget, spent + cost(xs[0]))
      else Greedy(xs[1..], cost, budget, spent)
  }

  /** The chosen elements are a sub-multiset of the input. */
  lemma {:induction false} GreedySubMultiset<T>(xs: seq<T>, cost: T -> real, budget: real, spent: real)
    ensures multiset(Greedy(xs, cost, budget, spent)) <= multiset(xs)
    ensures forall y :: y in Greedy(xs, cost, budget, spent) ==> y in xs
    ensures |Greedy(xs, cost, budget, spent)| <= |xs|
    decreases |xs|
  {
    if xs != [] {
      assert xs == [xs[0]] + xs[1..];
      var c := cost(xs[0]);
      if spent + c <= budget {
        GreedySubMultiset(xs[1..], cost, budget, spent + c);
      } else {
        GreedySubMultiset(xs[1..], cost, budget, spent);
      }
    }
  }

  /** What the pass spends, starting from `spent`. */
  function Spent<T>(xs: seq<T>, cost: T -> real, budget: real, spent: real): real
    decreases |xs|
  {
    if xs == [] then spent
    else if spent + cost(xs[0]) <= budget then Spent(xs[1..], cost, budget, spent + cost(xs[0]))
    else Spent(xs[1..], cost, budget, spent)
  }

  /** The chosen elements cost exactly what was spent, and that is within budget. */
  lemma {:induction false} GreedyWithinBudget<T>(xs: seq<T>, cost: T -> real, budget: real, spent: real)
    requires spent <= budget
    ensures Spent(xs, cost, budget, spent) == spent + Total(Greedy(xs, cost, budget, spent), cost)
    ensures Spent(xs, cost, budget, spent) <= budget
    decreases |xs|
  {
    if xs != [] {
      var c := cost(xs[0]);
      if spent + c <= budget {
        GreedyWithinBudget(xs[1..], cost, budget, spent + c);
        var g := Greedy(xs[1..], cost, budget, spent + c);
        assert ([xs[0]] + g)[1..] == g;
      } else {
        GreedyWithinBudget(xs[1..], cost, budget, spent);
      }
    }
  }

  /** The walk commutes with a map that keeps every cost, and spends the same. */
  lemma {:induction false} GreedyMap<T>(xs: seq<T>, cost: T -> real, budget: real, spent: real, h: T -> T)
    requires forall y :: cost(h(y)) == cost(y)
    ensures Greedy(Map(xs, h), cost, budget, spent) == Map(Greedy(xs, cost, budget, spent), h)
    ensures Spent(Map(xs, h), cost, budget, spent) == Spent(xs, cost, budget, spent)
    decreases |xs|
  {
    if xs != [] {
      var m := Map(xs, h);
      assert m[0] == h(xs[0]) && m[1..] == Map(xs[1..], h);
      var c := cost(xs[0]);
      if spent + c <= budget {
        GreedyMap(xs[1..], cost, budget, spent + c, h);
        var g := Greedy(xs[1..], cost, budget, spent + c);
        assert Map([xs[0]] + g, h) == [h(xs[0])] + Map(g, h);
      } else {
        GreedyMap(xs[1..], cost, budget, spent, h);
      }
    }
  }

  /** The budget loop: walk the ranked elements, take each one that still
      fits and add its cost to what has been spent. */
  method GreedyPass<T>(xs: seq<T>, cost: T -> real, budget: real)
    returns (chosen: seq<T>, spent: real)
    ensures chosen == Greedy(xs, cost, budget, 0.0)
    ensures spent == Spent(xs, cost, budget, 0.0)
  {
    chosen := [];
    spent := 0.0;
    var i := 0;
    while i < |xs|
      invariant 0 <= i <= |xs|
      invariant chosen == Greedy(xs[..i], cost, budget, 0.0)
      invariant spent == Spent(xs[..i], cost, budget, 0.0)
    {
      assert xs[..i + 1] == xs[..i] + [xs[i]];
      GreedySnoc(xs[..i], xs[i], cost, budget, 0.0);
      var c := cost(xs[i]);
      if spent + c <= budget {
        chosen := chosen + [xs[i]];
        spent := spent + c;
      }
      i := i + 1;
    }
    assert xs[..|xs|] == xs;
  }

  /** Extending the input by one element extends the choice by that element
      exactly when it fits in what is left. */
  lemma GreedySnoc<T>(p: seq<T>, x: T, cost: T -> real, budget: real, spent: real)
    ensures var s := Spent(p, cost, budget, spent); var fits := s + cost(x) <= budget;
      && Greedy(p + [x], cost, budget, spent) == Greedy(p, cost, budget, spent) + (if fits then [x] else [])
      && Spent(p + [x], cost, budget, spent) == (if fits then s + cost(x) else s)
  {
    GreedyChoiceSnoc(p, x, cost, budget, spent);
    SpentSnoc(p, x, cost, budget, spent);
  }

  lemma {:induction false} SpentSnoc<T>(p: seq<T>, x: T, cost: T -> real, budget: real, spent: real)
    ensures var s := Spent(p, cost, budget, spent);
      Spent(p + [x], cost, budget, spent) == (if s + cost(x) <= budget then s + cost(x) else s)
    decreases |p|
  {
    if p == [] {
      assert [x][1..] == [];
    } else {
      assert (p + [x])[1..] == p[1..] + [x];
      var c := cost(p[0]);
      if spent + c <= budget {
        SpentSnoc(p[1..], x, cost, budget, spent + c);
      } else {
        SpentSnoc(p[1..], x, cost, budget, spent);
      }
    }
  }

  lemma {:induction false} GreedyChoiceSnoc<T>(p: seq<T>, x: T, cost: T -> real, budget: real, spent: real)
    ensures var s := Spent(p, cost, budget, spent);
      Greedy(p + [x], cost, budget, spent) == Greedy(p, cost, budget, spent) + (if s + cost(x) <= budget then [x] else [])
    decreases |p|
  {
    if p == [] {
      assert [x][1..] == [];
    } else {
      var q := p + [x];
      assert q[0] == p[0] && q[1..] == p[1..] + [x];
      var c := cost(p[0]);
      var tail := if Spent(p, cost, budget, spent) + cost(x) <= budget then [x] else [];
      if spent + c <= budget {
        GreedyChoiceSnoc(p[1..], x, cost, budget, spent + c);
        var g := Greedy(p[1..], cost, budget, spent + c);
        assert Greedy(q, cost, budget, spent) == [p[0]] + Greedy(q[1..], cost, budget, spent + c);
        assert [p[0]] + (g + tail) == ([p[0]] + g) + tail;
      } else {
        GreedyChoiceSnoc(p[1..], x, cost, budget, spent);
        assert Greedy(q, cost, budget, spent) == Greedy(q[1..], cost, budget, spent);
      }
    }
  }

  /** When everything fits, everything is taken. */
  lemma {:induction false} GreedyTakesAllThatFit<T>(xs: seq<T>, cost: T -> real, budget: real, spent: real)
    requires forall i :: 0 <= i < |xs| ==> cost(xs[i]) >= 0.0
    requires spent + Total(xs, cost) <= budget
    ensures Greedy(xs, cost, budget, spent) == xs
    decreases |xs|
  {
    if xs != [] {
      TotalNonNegative(xs[1..], cost);
      GreedyTakesAllThatFit(xs[1..], cost, budget, spent + cost(xs[0]));
    }
  }

  lemma {:induction false} TotalNonNegative<T>(xs: seq<T>, cost: T -> real)
    requires forall i :: 0 <= i < |xs| ==> cost(xs[i]) >= 0.0
    ensures Total(xs, cost) >= 0.0
    decreases |xs|
  {
    if xs != [] {
      TotalNonNegative(xs[1..], cost);
    }
  }

  /** Two lists whose elements cost the same, position by position, cost the
      same in total. */
  lemma {:induction false} TotalPointwise<T, U>(xs: seq<T>, f: T -> real, ys: seq<U>, g: U -> real)
    requires |xs| == |ys|
    requires forall i :: 0 <= i < |xs| ==> f(xs[i]) == g(ys[i])
    ensures Total(xs, f) == Total(ys, g)
    decreases |xs|
  {
    if xs != [] {
      assert forall i :: 0 <= i < |xs[1..]| ==> xs[1..][i] == xs[i + 1] && ys[1..][i] == ys[i + 1];
      TotalPointwise(xs[1..], f, ys[1..], g);
    }
  }

  /** The chosen elements keep the order of the ranked input. */
  lemma {:induction false} GreedyKeepsOrder<T>(xs: seq<T>, cost: T -> real, budget: real, spent: real, key: T -> Key)
    requires SortedBy(xs, key)
    ensures SortedBy(Greedy(xs, cost, budget, spent), key)
    decreases |xs|
  {
    if xs != [] {
      assert SortedBy(xs[1..], key);
      var c := cost(xs[0]);
      if spent + c <= budget {
        var g := Greedy(xs[1..], cost, budget, spent + c);
        GreedyKeepsOrder(xs[1..], cost, budget, spent + c, key);
        GreedySubMultiset(xs[1..], cost, budget, spent + c);
        var r := [xs[0]] + g;
        forall i, j | 0 <= i < j < |r|
          ensures AtMost(key(r[i]), key(r[j]))
        {
          if i == 0 {
            assert r[j] in xs[1..];
            var k :| 0 <= k < |xs[1..]| && xs[1..][k] == r[j];
            assert xs[k + 1] == r[j];
          } else {
            assert r[i] == g[i - 1] && r[j] == g[j - 1];
          }
        }
      } else {
        GreedyKeepsOrder(xs[1..], cost, budget, spent, key);
      }
    }
  }

  /** Ranking then walking: what is chosen comes from the input, is in rank
      order, and costs exactly what was spent, which is within budget. */
  lemma RankedGreedy<T>(xs: seq<T>, key: T -> Key, cost: T -> real, budget: real)
    requires budget >= 0.0
    ensures var ranked := SortBy(xs, key); var g := Greedy(ranked, cost, budget, 0.0);
      && multiset(g) <= multiset(xs)
      && SortedBy(g, key)
      && Spent(ranked, cost, budget, 0.0) == Total(g, cost)
      && Total(g, cost) <= budget
  {
    var ranked := SortBy(xs, key);
    SortBySorted(xs, key);
    GreedyKeepsOrder(ranked, cost, budget, 0.0, key);
    GreedyWithinBudget(ranked, cost, budget, 0.0);
    GreedySubMultiset(ranked, cost, budget, 0.0);
  }

  /** Ranking then walking keeps any property every input has, and never
      lengthens the list. */
  lemma RankedGreedyPreserves<T>(xs: seq<T>, key: T -> Key, cost: T -> real, budget: real, p: T -> bool)
    requires forall i :: 0 <= i < |xs| ==> p(xs[i])
    ensures var g := Greedy(SortBy(xs, key), cost, budget, 0.0);
      && |g| <= |xs|
      && forall j :: 0 <= j < |g| ==> p(g[j])
  {
    var ranked := SortBy(xs, key);
    var g := Greedy(ranked, cost, budget, 0.0);
    GreedySubMultiset(ranked, cost, budget, 0.0);
    SubMultisetPreserves(g, xs, p);
  }

  /** The walk skips rather than stops: with a budget of 5 the ranked costs
      10 then 1 leave the second one chosen. */
  lemma GreedySkipsNotStops(xs: seq<real>)
    requires xs == [10.0, 1.0]
    ensures Greedy(xs, (x: real) => x, 5.0, 0.0) == [1.0]
  {
    var id := (x: real) => x;
    assert xs[1..] == [1.0];
    assert xs[1..][1..] == [];
    assert Greedy(xs[1..], id, 5.0, 0.0) == [1.0] + Greedy([], id, 5.0, 1.0);
    assert Greedy(xs, id, 5.0, 0.0) == Greedy(xs[1..], id, 5.0, 0.0);
  }
}
