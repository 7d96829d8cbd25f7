/** Relational building blocks: selection, aggregation and GROUP BY over rows kept
    in a sequence, with the algebra that the queries of the repository rely on.
    Row order carries no meaning; results that matter are stated on multisets or sums. */
module Rows {

  datatype Group<K> = Group(key: K, total: real)

  /** SQL WHERE: the rows that satisfy p, in table order. */
  function Filter<T>(xs: seq<T>, p: T -> bool): (ys: seq<T>)
    ensures |ys| <= |xs|
    ensures forall y :: y in ys ==> y in xs && p(y)
    ensures forall x :: x in xs && p(x) ==> x in ys
  {
    if xs == [] then []
    else
      var last := xs[|xs| - 1];
      assert xs == xs[..|xs| - 1] + [last];
      if p(last) then Filter(xs[..|xs| - 1], p) + [last] else Filter(xs[..|xs| - 1], p)
  }

  /** SQL SUM. */
  function SumBy<T>(xs: seq<T>, f: T -> real): real {
    if xs == [] then 0.0 else SumBy(xs[..|xs| - 1], f) + f(xs[|xs| - 1])
  }

  /** Adds v to the group of k, opening the group if there is none yet. */
  function Credit<K(==)>(gs: seq<Group<K>>, k: K, v: real): seq<Group<K>> {
    if gs == [] then [Group(k, v)]
    else
      var last := gs[|gs| - 1];
      if last.key == k then gs[..|gs| - 1] + [Group(k, last.total + v)]
      else Credit(gs[..|gs| - 1], k, v) + [last]
  }

  /** SQL GROUP BY key with SUM(val). */
  function GroupBy<T, K(==)>(xs: seq<T>, key: T -> K, val: T -> real): seq<Group<K>> {
    if xs == [] then []
    else
      var last := xs[|xs| - 1];
      Credit(GroupBy(xs[..|xs| - 1], key, val), key(last), val(last))
  }

  /** One output row per input row. */
  function MapRows<T, U>(xs: seq<T>, f: T -> U): seq<U> {
    if xs == [] then [] else MapRows(xs[..|xs| - 1], f) + [f(xs[|xs| - 1])]
  }

  // Named closures, so that equal predicates are equal terms.
  function OnKey<K>(p: K -> bool): Group<K> -> bool { (g: Group<K>) => p(g.key) }
  function Compose<T, K>(key: T -> K, p: K -> bool): T -> bool { (x: T) => p(key(x)) }
  function HasKey<T, K(==)>(key: T -> K, k: K): T -> bool { (x: T) => key(x) == k }
  function GroupTotal<K>(): Group<K> -> real { (g: Group<K>) => g.total }
  function And<T>(p: T -> bool, q: T -> bool): T -> bool { (x: T) => p(x) && q(x) }

  ghost predicate DistinctKeys<K>(gs: seq<Group<K>>) {
    forall i, j :: 0 <= i < j < |gs| ==> gs[i].key != gs[j].key
  }

  ghost function Keys<K>(gs: seq<Group<K>>): set<K> { set g | g in gs :: g.key }

  ghost function KeysOf<T, K>(xs: seq<T>, key: T -> K): set<K> { set x | x in xs :: key(x) }

  /** The total a full scan of the rows gives for one key. */
  function TotalFor<T, K(==)>(xs: seq<T>, key: T -> K, val: T -> real, k: K): real {
    SumBy(Filter(xs, HasKey(key, k)), val)
  }

  // ---- selection -------------------------------------------------------------

  lemma {:induction false} FilterAppend<T>(xs: seq<T>, ys: seq<T>, p: T -> bool)
    ensures Filter(xs + ys, p) == Filter(xs, p) + Filter(ys, p)
  {
    if ys == [] {
      assert xs + ys == xs;
    } else {
      var n := |ys| - 1;
      assert (xs + ys)[..|xs + ys| - 1] == xs + ys[..n];
      FilterAppend(xs, ys[..n], p);
    }
  }

  lemma {:induction false} FilterFilter<T>(xs: seq<T>, p: T -> bool, q: T -> bool)
    ensures Filter(Filter(xs, p), q) == Filter(xs, And(p, q))
  {
    if xs != [] {
      var last := xs[|xs| - 1];
      FilterFilter(xs[..|xs| - 1], p, q);
      FilterSnoc(Filter(xs[..|xs| - 1], p), last, q);
    }
  }

  lemma {:induction false} FilterCongruent<T>(xs: seq<T>, p: T -> bool, q: T -> bool)
    requires forall x :: x in xs ==> p(x) == q(x)
    ensures Filter(xs, p) == Filter(xs, q)
  {
    if xs != [] {
      FilterCongruent(xs[..|xs| - 1], p, q);
    }
  }

  lemma {:induction false} FilterAll<T>(xs: seq<T>, p: T -> bool)
    requires forall x :: x in xs ==> p(x)
    ensures Filter(xs, p) == xs
  {
    if xs != [] {
      FilterAll(xs[..|xs| - 1], p);
    }
  }

  lemma {:induction false} FilterNone<T>(xs: seq<T>, p: T -> bool)
    requires forall x :: x in xs ==> !p(x)
    ensures Filter(xs, p) == []
  {
    if xs != [] {
      FilterNone(xs[..|xs| - 1], p);
    }
  }

  lemma {:induction false} MapCongruent<T, U>(xs: seq<T>, f: T -> U, g: T -> U)
    requires forall x :: x in xs ==> f(x) == g(x)
    ensures MapRows(xs, f) == MapRows(xs, g)
  {
    if xs != [] {
      MapCongruent(xs[..|xs| - 1], f, g);
    }
  }

  lemma {:induction false} MapAppend<T, U>(xs: seq<T>, ys: seq<T>, f: T -> U)
    ensures MapRows(xs + ys, f) == MapRows(xs, f) + MapRows(ys, f)
  {
    if ys == [] {
      assert xs + ys == xs;
    } else {
      assert (xs + ys)[..|xs + ys| - 1] == xs + ys[..|ys| - 1];
      MapAppend(xs, ys[..|ys| - 1], f);
    }
  }

  lemma {:induction false} MapAt<T, U>(xs: seq<T>, f: T -> U)
    ensures |MapRows(xs, f)| == |xs| && forall i :: 0 <= i < |xs| ==> MapRows(xs, f)[i] == f(xs[i])
  {
    if xs != [] {
      MapAt(xs[..|xs| - 1], f);
    }
  }

  lemma MapMiddle<T, U>(front: seq<T>, x: T, back: seq<T>, f: T -> U)
    ensures multiset(MapRows(front + [x] + back, f)) == multiset(MapRows(front + back, f)) + multiset{f(x)}
  {
    MapAppend(front + [x], back, f);
    MapAppend(front, back, f);
    assert (front + [x])[..|front|] == front;
    assert MapRows(front + [x], f) == MapRows(front, f) + [f(x)];
  }

  lemma {:induction false} MapPermutation<T, U>(xs: seq<T>, ys: seq<T>, f: T -> U)
    requires multiset(xs) == multiset(ys)
    ensures multiset(MapRows(xs, f)) == multiset(MapRows(ys, f))
  {
    if xs == [] {
      assert |multiset(ys)| == 0;
    } else {
      var init, last := xs[..|xs| - 1], xs[|xs| - 1];
      assert xs == init + [last];
      assert last in multiset(ys);
      var i :| 0 <= i < |ys| && ys[i] == last;
      assert ys == ys[..i] + [last] + ys[i + 1..];
      assert multiset(init) == multiset(xs) - multiset{last} == multiset(ys[..i] + ys[i + 1..]);
      MapPermutation(init, ys[..i] + ys[i + 1..], f);
      MapMiddle(ys[..i], last, ys[i + 1..], f);
    }
  }

  /** Selecting mapped rows is mapping the selected rows. */
  lemma {:induction false} FilterMap<T, U>(xs: seq<T>, f: T -> U, p: U -> bool, q: T -> bool)
    requires forall x :: x in xs ==> q(x) == p(f(x))
    ensures Filter(MapRows(xs, f), p) == MapRows(Filter(xs, q), f)
  {
    if xs != [] {
      var init, last := xs[..|xs| - 1], xs[|xs| - 1];
      FilterMap(init, f, p, q);
      FilterSnoc(MapRows(init, f), f(last), p);
      var kept := Filter(init, q);
      assert (kept + [last])[..|kept|] == kept;
    }
  }

  // ---- sums --------------------------------------------------------------------

  lemma {:induction false} SumAppend<T>(xs: seq<T>, ys: seq<T>, f: T -> real)
    ensures SumBy(xs + ys, f) == SumBy(xs, f) + SumBy(ys, f)
  {
    if ys == [] {
      assert xs + ys == xs;
    } else {
      assert (xs + ys)[..|xs + ys| - 1] == xs + ys[..|ys| - 1];
      SumAppend(xs, ys[..|ys| - 1], f);
    }
  }

  lemma SumSnoc<T>(xs: seq<T>, x: T, f: T -> real)
    ensures SumBy(xs + [x], f) == SumBy(xs, f) + f(x)
  {
    assert (xs + [x])[..|xs|] == xs;
  }

  lemma SumFilterSnoc<T>(xs: seq<T>, x: T, p: T -> bool, f: T -> real)
    ensures SumBy(Filter(xs + [x], p), f) == SumBy(Filter(xs, p), f) + if p(x) then f(x) else 0.0
  {
    FilterSnoc(xs, x, p);
    SumSnoc(Filter(xs, p), x, f);
  }

  lemma SumOfNone<T>(p: T -> bool, f: T -> real)
    ensures SumBy(Filter([], p), f) == 0.0
  {}

  /** A sum does not depend on the order of the rows. */
  lemma {:induction false} SumPermutation<T>(xs: seq<T>, ys: seq<T>, f: T -> real)
    requires multiset(xs) == multiset(ys)
    ensures SumBy(xs, f) == SumBy(ys, f)
  {
    if xs == [] {
      assert |multiset(ys)| == 0;
    } else {
      var last := xs[|xs| - 1];
      assert xs == xs[..|xs| - 1] + [last];
      assert last in multiset(ys);
      var i :| 0 <= i < |ys| && ys[i] == last;
      assert ys == ys[..i] + [last] + ys[i + 1..];
      SumAppend(ys[..i] + [last], ys[i + 1..], f);
      SumAppend(ys[..i], [last], f);
      SumAppend(ys[..i], ys[i + 1..], f);
      assert multiset(xs[..|xs| - 1]) == multiset(xs) - multiset{last} == multiset(ys[..i] + ys[i + 1..]);
      SumPermutation(xs[..|xs| - 1], ys[..i] + ys[i + 1..], f);
    }
  }

  lemma {:induction false} FilterPermutation<T(!new)>(xs: seq<T>, ys: seq<T>, p: T -> bool)
    requires multiset(xs) == multiset(ys)
    ensures multiset(Filter(xs, p)) == multiset(Filter(ys, p))
  {
    forall x ensures multiset(Filter(xs, p))[x] == multiset(Filter(ys, p))[x] {
      FilterMultiplicity(xs, p, x);
      FilterMultiplicity(ys, p, x);
    }
  }

  lemma {:induction false} FilterMultiplicity<T>(xs: seq<T>, p: T -> bool, x: T)
    ensures multiset(Filter(xs, p))[x] == if p(x) then multiset(xs)[x] else 0
  {
    if xs != [] {
      assert xs == xs[..|xs| - 1] + [xs[|xs| - 1]];
      FilterMultiplicity(xs[..|xs| - 1], p, x);
    }
  }

  // ---- grouping ----------------------------------------------------------------

  lemma KeysSnoc<K>(gs: seq<Group<K>>, g: Group<K>)
    ensures Keys(gs + [g]) == Keys(gs) + {g.key}
  {
    assert g in gs + [g];
    assert forall h :: h in gs ==> h in gs + [g];
  }

  lemma {:induction false} CreditKeys<K>(gs: seq<Group<K>>, k: K, v: real)
    ensures Keys(Credit(gs, k, v)) == Keys(gs) + {k}
  {
    if gs == [] {
      KeysSnoc([], Group(k, v));
      assert [] + [Group(k, v)] == [Group(k, v)];
    } else {
      var init, last := gs[..|gs| - 1], gs[|gs| - 1];
      assert gs == init + [last];
      CreditSnoc(init, last, k, v);
      KeysSnoc(init, last);
      if last.key == k {
        KeysSnoc(init, Group(k, last.total + v));
      } else {
        CreditKeys(init, k, v);
        KeysSnoc(Credit(init, k, v), last);
      }
    }
  }

  lemma {:induction false} CreditDistinct<K>(gs: seq<Group<K>>, k: K, v: real)
    requires DistinctKeys(gs)
    ensures DistinctKeys(Credit(gs, k, v))
  {
    if gs != [] {
      var init, last := gs[..|gs| - 1], gs[|gs| - 1];
      assert gs == init + [last];
      if last.key != k {
        var rest := Credit(init, k, v);
        CreditDistinct(init, k, v);
        CreditKeys(init, k, v);
        assert last.key !in Keys(init);
        forall i | 0 <= i < |rest| ensures rest[i].key != last.key {
          assert rest[i].key in Keys(rest);
        }
      }
    }
  }

  /** One group per key, and a group exactly for the keys that occur. */
  lemma {:induction false} GroupByKeys<T, K>(xs: seq<T>, key: T -> K, val: T -> real)
    ensures DistinctKeys(GroupBy(xs, key, val))
    ensures Keys(GroupBy(xs, key, val)) == KeysOf(xs, key)
  {
    if xs != [] {
      var last := xs[|xs| - 1];
      assert xs == xs[..|xs| - 1] + [last];
      GroupByKeys(xs[..|xs| - 1], key, val);
      CreditKeys(GroupBy(xs[..|xs| - 1], key, val), key(last), val(last));
      CreditDistinct(GroupBy(xs[..|xs| - 1], key, val), key(last), val(last));
    }
  }

  lemma {:induction false} FilterDistinct<K>(gs: seq<Group<K>>, p: Group<K> -> bool)
    requires DistinctKeys(gs)
    ensures DistinctKeys(Filter(gs, p))
  {
    if gs != [] {
      var init, last := gs[..|gs| - 1], gs[|gs| - 1];
      FilterDistinct(init, p);
      forall g | g in Filter(init, p) ensures g.key != last.key {
        var i :| 0 <= i < |init| && init[i] == g;
        assert gs[i] == g;
      }
    }
  }

  lemma FilterSnoc<T>(xs: seq<T>, x: T, p: T -> bool)
    ensures Filter(xs + [x], p) == if p(x) then Filter(xs, p) + [x] else Filter(xs, p)
  {
    assert (xs + [x])[..|xs|] == xs;
  }

  lemma CreditSnoc<K>(gs: seq<Group<K>>, g: Group<K>, k: K, v: real)
    ensures Credit(gs + [g], k, v) ==
            if g.key == k then gs + [Group(k, g.total + v)] else Credit(gs, k, v) + [g]
  {
    assert (gs + [g])[..|gs|] == gs;
  }

  lemma {:induction false} FilterCredit<K>(gs: seq<Group<K>>, k: K, v: real, p: K -> bool)
    ensures Filter(Credit(gs, k, v), OnKey(p)) ==
            if p(k) then Credit(Filter(gs, OnKey(p)), k, v) else Filter(gs, OnKey(p))
  {
    if gs == [] {
      FilterSnoc([], Group(k, v), OnKey(p));
      assert [] + [Group(k, v)] == [Group(k, v)];
    } else {
      var init, last := gs[..|gs| - 1], gs[|gs| - 1];
      assert gs == init + [last];
      FilterSnoc(init, last, OnKey(p));
      CreditSnoc(init, last, k, v);
      CreditSnoc(Filter(init, OnKey(p)), last, k, v);
      if last.key == k {
        FilterSnoc(init, Group(k, last.total + v), OnKey(p));
      } else {
        FilterCredit(init, k, v, p);
        FilterSnoc(Credit(init, k, v), last, OnKey(p));
      }
    }
  }

  lemma GroupBySnoc<T, K>(xs: seq<T>, x: T, key: T -> K, val: T -> real)
    ensures GroupBy(xs + [x], key, val) == Credit(GroupBy(xs, key, val), key(x), val(x))
  {
    assert (xs + [x])[..|xs|] == xs;
  }

  /** Selecting groups by key is the same as grouping the selected rows. */
  lemma {:induction false} FilterGroupBy<T, K>(xs: seq<T>, key: T -> K, val: T -> real, p: K -> bool)
    ensures Filter(GroupBy(xs, key, val), OnKey(p)) == GroupBy(Filter(xs, Compose(key, p)), key, val)
  {
    if xs != [] {
      var init, last := xs[..|xs| - 1], xs[|xs| - 1];
      FilterGroupBy(init, key, val, p);
      FilterCredit(GroupBy(init, key, val), key(last), val(last), p);
      GroupBySnoc(Filter(init, Compose(key, p)), last, key, val);
    }
  }

  lemma {:induction false} SumCredit<K>(gs: seq<Group<K>>, k: K, v: real)
    ensures SumBy(Credit(gs, k, v), GroupTotal()) == SumBy(gs, GroupTotal()) + v
  {
    if gs == [] {
      assert [Group(k, v)][..0] == [];
    } else {
      var n := |gs| - 1;
      if gs[n].key == k {
        assert Credit(gs, k, v)[..n] == gs[..n];
      } else {
        SumCredit(gs[..n], k, v);
        assert Credit(gs, k, v)[..|Credit(gs, k, v)| - 1] == Credit(gs[..n], k, v);
      }
    }
  }

  /** Grouping neither loses nor invents cost. */
  lemma {:induction false} SumGroupBy<T, K>(xs: seq<T>, key: T -> K, val: T -> real)
    ensures SumBy(GroupBy(xs, key, val), GroupTotal()) == SumBy(xs, val)
  {
    if xs != [] {
      var last := xs[|xs| - 1];
      SumGroupBy(xs[..|xs| - 1], key, val);
      SumCredit(GroupBy(xs[..|xs| - 1], key, val), key(last), val(last));
    }
  }

  /** The total of a group is what a full scan for its key gives. */
  lemma {:induction false} GroupByTotals<T, K>(xs: seq<T>, key: T -> K, val: T -> real)
    ensures forall g :: g in GroupBy(xs, key, val) ==> g.total == TotalFor(xs, key, val, g.key)
  {
    forall g | g in GroupBy(xs, key, val) ensures g.total == TotalFor(xs, key, val, g.key) {
      var p := (q: K) => q == g.key;
      var gs := GroupBy(xs, key, val);
      GroupByKeys(xs, key, val);
      OnlyGroup(gs, g, p);
      FilterGroupBy(xs, key, val, p);
      FilterCongruent(xs, Compose(key, p), HasKey(key, g.key));
      SumGroupBy(Filter(xs, HasKey(key, g.key)), key, val);
      assert SumBy([g], GroupTotal()) == g.total by { assert [g][..0] == []; }
    }
  }

  lemma {:induction false} OnlyGroup<K>(gs: seq<Group<K>>, g: Group<K>, p: K -> bool)
    requires DistinctKeys(gs) && g in gs
    requires forall q :: p(q) <==> q == g.key
    ensures Filter(gs, OnKey(p)) == [g]
  {
    var n := |gs| - 1;
    var last := gs[n];
    assert gs == gs[..n] + [last];
    if last == g {
      FilterNone(gs[..n], OnKey(p));
    } else {
      OnlyGroup(gs[..n], g, p);
      var i :| 0 <= i < n && gs[i] == g;
    }
  }

  /** Grouping permuted rows gives the same groups. */
  lemma GroupByPermutation<T(!new), K(!new)>(xs: seq<T>, ys: seq<T>, key: T -> K, val: T -> real)
    requires multiset(xs) == multiset(ys)
    ensures multiset(GroupBy(xs, key, val)) == multiset(GroupBy(ys, key, val))
  {
    var a, b := GroupBy(xs, key, val), GroupBy(ys, key, val);
    GroupByKeys(xs, key, val);
    GroupByKeys(ys, key, val);
    forall g ensures multiset(a)[g] == multiset(b)[g] {
      if g in a { GroupIncluded(xs, ys, key, val, g); }
      if g in b { GroupIncluded(ys, xs, key, val, g); }
      OnceEach(a, g);
      OnceEach(b, g);
    }
  }

  lemma GroupIncluded<T(!new), K(!new)>(xs: seq<T>, ys: seq<T>, key: T -> K, val: T -> real, g: Group<K>)
    requires multiset(xs) == multiset(ys)
    requires g in GroupBy(xs, key, val)
    ensures g in GroupBy(ys, key, val)
  {
    GroupByKeys(xs, key, val);
    GroupByKeys(ys, key, val);
    GroupByTotals(xs, key, val);
    GroupByTotals(ys, key, val);
    assert g.key in KeysOf(xs, key);
    var x :| x in xs && key(x) == g.key;
    assert x in multiset(ys);
    assert g.key in KeysOf(ys, key);
    var h :| h in GroupBy(ys, key, val) && h.key == g.key;
    FilterPermutation(xs, ys, HasKey(key, g.key));
    SumPermutation(Filter(xs, HasKey(key, g.key)), Filter(ys, HasKey(key, g.key)), val);
  }

  lemma {:induction false} OnceEach<K>(gs: seq<Group<K>>, g: Group<K>)
    requires DistinctKeys(gs)
    ensures multiset(gs)[g] == if g in gs then 1 else 0
  {
    if gs != [] {
      var n := |gs| - 1;
      assert gs == gs[..n] + [gs[n]];
      OnceEach(gs[..n], g);
    }
  }
}
