/**
 Folds over Go maps visit the keys in an arbitrary order. Here an order is any
 sequence that enumerates the key set once, and an aggregate is order independent
 when it depends only on the multiset of what was visited.
 */
module Bags {
  import opened Wrappers

  /** `order` lists every key exactly once. */
  ghost predicate IsOrder<K>(order: seq<K>, keys: set<K>) {
    multiset(order) == multiset(keys)
  }

  lemma OrderHasKeys<K>(order: seq<K>, keys: set<K>)
    requires IsOrder(order, keys)
    ensures forall k :: k in order <==> k in keys
    ensures |order| == |keys|
  {
    forall k ensures k in order <==> k in keys {
      assert k in order <==> k in multiset(order);
      assert k in keys <==> k in multiset(keys);
    }
    assert |multiset(order)| == |order|;
  }

  /** One more key visited: the step every map loop makes. */
  lemma OrderSnoc<K>(order: seq<K>, seen: set<K>, k: K)
    requires IsOrder(order, seen) && k !in seen
    ensures IsOrder(order + [k], seen + {k})
  {
    assert multiset(seen + {k}) == multiset(seen) + multiset{k};
  }

  function Values<K, V>(m: map<K, V>, order: seq<K>): (vs: seq<V>)
    requires forall k :: k in order ==> k in m
    ensures |vs| == |order|
    ensures forall i :: 0 <= i < |order| ==> vs[i] == m[order[i]]
  {
    if order == [] then [] else [m[order[0]]] + Values(m, order[1..])
  }

  /** The payload's records, as the order `order` delivers them. */
  ghost predicate Delivers<K, V>(m: map<K, V>, order: seq<K>, vs: seq<V>) {
    IsOrder(order, m.Keys) && (forall k :: k in order ==> k in m) && vs == Values(m, order)
  }

  function AsSeq<V>(v: Option<V>): (s: seq<V>)
    ensures |s| <= 1
  {
    match v case Some(x) => [x] case None => []
  }

  /** The values `f` extracts, in order; the records it rejects leave no trace. */
  function FilterMap<T, V>(xs: seq<T>, f: T -> Option<V>): (ys: seq<V>)
    ensures |ys| <= |xs|
  {
    if xs == [] then [] else AsSeq(f(xs[0])) + FilterMap(xs[1..], f)
  }

  function Sum(xs: seq<real>): real {
    if xs == [] then 0.0 else xs[0] + Sum(xs[1..])
  }

  /** How many observations are at most `bound`: the meaning of one histogram bucket. */
  function CountAtMost(xs: seq<real>, bound: real): (n: nat)
    ensures n <= |xs|
  {
    if xs == [] then 0 else (if xs[0] <= bound then 1 else 0) + CountAtMost(xs[1..], bound)
  }

  predicate Distinct<T(==)>(xs: seq<T>) {
    forall i, j :: 0 <= i < j < |xs| ==> xs[i] != xs[j]
  }

  lemma {:induction false} DistinctSize<T>(xs: seq<T>)
    ensures |set x | x in xs| <= |xs|
    ensures |set x | x in xs| == |xs| <==> Distinct(xs)
  {
    if xs != [] {
      var last := |xs| - 1;
      var front := xs[..last];
      DistinctSize(front);
      assert xs == front + [xs[last]];
      assert (set x | x in xs) == (set x | x in front) + {xs[last]};
      if xs[last] in front {
        var i :| 0 <= i < last && xs[i] == xs[last];
        assert (set x | x in xs) == (set x | x in front);
      }
    }
  }

  // ----- appending -----

  lemma {:induction false} FilterMapAppend<T, V>(xs: seq<T>, ys: seq<T>, f: T -> Option<V>)
    ensures FilterMap(xs + ys, f) == FilterMap(xs, f) + FilterMap(ys, f)
  {
    if xs == [] {
      assert xs + ys == ys;
    } else {
      assert (xs + ys)[1..] == xs[1..] + ys;
      FilterMapAppend(xs[1..], ys, f);
    }
  }

  lemma FilterMapSnoc<T, V>(xs: seq<T>, x: T, f: T -> Option<V>)
    ensures FilterMap(xs + [x], f) == FilterMap(xs, f) + AsSeq(f(x))
  {
    FilterMapAppend(xs, [x], f);
    assert [x][1..] == [];
  }

  lemma {:induction false} SumAppend(xs: seq<real>, ys: seq<real>)
    ensures Sum(xs + ys) == Sum(xs) + Sum(ys)
  {
    if xs == [] {
      assert xs + ys == ys;
    } else {
      assert (xs + ys)[1..] == xs[1..] + ys;
      SumAppend(xs[1..], ys);
    }
  }

  lemma {:induction false} CountAppend(xs: seq<real>, ys: seq<real>, bound: real)
    ensures CountAtMost(xs + ys, bound) == CountAtMost(xs, bound) + CountAtMost(ys, bound)
  {
    if xs == [] {
      assert xs + ys == ys;
    } else {
      assert (xs + ys)[1..] == xs[1..] + ys;
      CountAppend(xs[1..], ys, bound);
    }
  }

  /** A higher bound admits at least as many observations. */
  lemma {:induction false} CountMonotone(xs: seq<real>, low: real, high: real)
    requires low <= high
    ensures CountAtMost(xs, low) <= CountAtMost(xs, high)
  {
    if xs != [] {
      CountMonotone(xs[1..], low, high);
    }
  }

  // ----- permuting -----

  lemma Locate<T>(x: T, ys: seq<T>) returns (i: nat)
    requires x in multiset(ys)
    ensures i < |ys| && ys == ys[..i] + [x] + ys[i + 1..]
    ensures multiset(ys[..i] + ys[i + 1..]) == multiset(ys) - multiset{x}
  {
    assert x in ys;
    i :| 0 <= i < |ys| && ys[i] == x;
    assert ys == ys[..i] + [x] + ys[i + 1..];
  }

  /** Moves the head of `xs` to where `ys` holds it, leaving two shorter permutations. */
  lemma Match<T>(xs: seq<T>, ys: seq<T>) returns (i: nat)
    requires xs != [] && multiset(xs) == multiset(ys)
    ensures i < |ys| && ys == ys[..i] + [xs[0]] + ys[i + 1..]
    ensures multiset(xs[1..]) == multiset(ys[..i] + ys[i + 1..])
  {
    assert xs == [xs[0]] + xs[1..];
    assert xs[0] in multiset(xs);
    i := Locate(xs[0], ys);
  }

  lemma {:induction false} FilterMapPermutes<T, V>(xs: seq<T>, ys: seq<T>, f: T -> Option<V>)
    requires multiset(xs) == multiset(ys)
    ensures multiset(FilterMap(xs, f)) == multiset(FilterMap(ys, f))
    decreases |xs|
  {
    if xs == [] {
      assert |multiset(ys)| == 0;
    } else {
      var i := Match(xs, ys);
      var front, back := ys[..i], ys[i + 1..];
      FilterMapPermutes(xs[1..], front + back, f);
      FilterMapAppend(front, back, f);
      FilterMapAppend(front + [xs[0]], back, f);
      FilterMapSnoc(front, xs[0], f);
    }
  }

  lemma {:induction false} SumPermutes(xs: seq<real>, ys: seq<real>)
    requires multiset(xs) == multiset(ys)
    ensures Sum(xs) == Sum(ys)
    decreases |xs|
  {
    if xs == [] {
      assert |multiset(ys)| == 0;
    } else {
      var i := Match(xs, ys);
      var front, back := ys[..i], ys[i + 1..];
      SumPermutes(xs[1..], front + back);
      SumAppend(front, back);
      SumAppend(front + [xs[0]], back);
      SumAppend(front, [xs[0]]);
    }
  }

  lemma {:induction false} CountPermutes(xs: seq<real>, ys: seq<real>, bound: real)
    requires multiset(xs) == multiset(ys)
    ensures CountAtMost(xs, bound) == CountAtMost(ys, bound)
    decreases |xs|
  {
    if xs == [] {
      assert |multiset(ys)| == 0;
    } else {
      var i := Match(xs, ys);
      var front, back := ys[..i], ys[i + 1..];
      CountPermutes(xs[1..], front + back, bound);
      CountAppend(front, back, bound);
      CountAppend(front + [xs[0]], back, bound);
      CountAppend(front, [xs[0]], bound);
    }
  }

  lemma TotalSnoc<T>(xs: seq<T>, x: T, f: T -> Option<real>)
    requires f(x).Some?
    ensures Sum(FilterMap(xs + [x], f)) == Sum(FilterMap(xs, f)) + f(x).value
  {
    FilterMapSnoc(xs, x, f);
    SumAppend(FilterMap(xs, f), [f(x).value]);
    assert [f(x).value][1..] == [];
  }

  lemma TotalPermutes<T>(xs: seq<T>, ys: seq<T>, f: T -> Option<real>)
    requires multiset(xs) == multiset(ys)
    ensures Sum(FilterMap(xs, f)) == Sum(FilterMap(ys, f))
  {
    FilterMapPermutes(xs, ys, f);
    SumPermutes(FilterMap(xs, f), FilterMap(ys, f));
  }

  lemma {:induction false} ValuesSnoc<K, V>(m: map<K, V>, order: seq<K>, k: K)
    requires forall j :: j in order + [k] ==> j in m
    ensures (forall j :: j in order ==> j in m) && k in m
    ensures Values(m, order + [k]) == Values(m, order) + [m[k]]
  {
    assert forall j :: j in order ==> j in order + [k];
    assert k in order + [k];
    assert |Values(m, order + [k])| == |order| + 1;
  }

  /** One step of a map loop: the chosen key's record joins the deliveries. */
  lemma DeliverySnoc<K, V>(m: map<K, V>, todo: set<K>, order: seq<K>, vs: seq<V>, k: K)
    requires todo <= m.Keys && k in todo && IsOrder(order, m.Keys - todo)
    requires (forall j :: j in order ==> j in m) && vs == Values(m, order)
    ensures IsOrder(order + [k], m.Keys - (todo - {k}))
    ensures (forall j :: j in order + [k] ==> j in m) && vs + [m[k]] == Values(m, order + [k])
  {
    OrderSnoc(order, m.Keys - todo, k);
    assert m.Keys - todo + {k} == m.Keys - (todo - {k});
    ValuesSnoc(m, order, k);
  }

  lemma {:induction false} ValuesAppend<K, V>(m: map<K, V>, a: seq<K>, b: seq<K>)
    requires forall j :: j in a + b ==> j in m
    ensures (forall j :: j in a ==> j in m) && (forall j :: j in b ==> j in m)
    ensures Values(m, a + b) == Values(m, a) + Values(m, b)
  {
    if a == [] {
      assert a + b == b;
    } else {
      assert (a + b)[1..] == a[1..] + b;
      assert a[0] in a + b;
      forall j | j in a[1..] + b ensures j in m {
        assert j in a + b;
      }
      ValuesAppend(m, a[1..], b);
    }
  }

  lemma ValuesSplice<K, V>(m: map<K, V>, front: seq<K>, k: K, back: seq<K>)
    requires forall j :: j in front + [k] + back ==> j in m
    ensures (forall j :: j in front + back ==> j in m) && k in m
    ensures multiset(Values(m, front + [k] + back)) == multiset{m[k]} + multiset(Values(m, front + back))
  {
    ValuesAppend(m, front + [k], back);
    ValuesAppend(m, front, [k]);
    assert k in [k];
    assert forall j :: j in front + back ==> j in front || j in back;
    ValuesAppend(m, front, back);
  }

  lemma {:induction false} ValuesPermute<K, V>(m: map<K, V>, xs: seq<K>, ys: seq<K>)
    requires multiset(xs) == multiset(ys)
    requires forall k :: k in xs ==> k in m
    ensures forall k :: k in ys ==> k in m
    ensures multiset(Values(m, xs)) == multiset(Values(m, ys))
    decreases |xs|
  {
    forall k | k in ys ensures k in m {
      assert k in multiset(ys);
      assert k in multiset(xs);
    }
    if xs == [] {
      assert |multiset(ys)| == 0;
    } else {
      var i := Match(xs, ys);
      var front, back := ys[..i], ys[i + 1..];
      ValuesPermute(m, xs[1..], front + back);
      ValuesSplice(m, front, xs[0], back);
    }
  }

  /** Any two enumerations of the same payload deliver the same multiset of records. */
  lemma DeliveriesPermute<K, V>(m: map<K, V>, o1: seq<K>, vs1: seq<V>, o2: seq<K>, vs2: seq<V>)
    requires Delivers(m, o1, vs1) && Delivers(m, o2, vs2)
    ensures multiset(vs1) == multiset(vs2)
  {
    ValuesPermute(m, o1, o2);
  }

  /** Every payload has a delivery. */
  lemma SomeDelivery<K, V>(m: map<K, V>) returns (order: seq<K>, vs: seq<V>)
    ensures Delivers(m, order, vs)
  {
    order := SomeOrder(m.Keys);
    OrderHasKeys(order, m.Keys);
    vs := Values(m, order);
  }

  lemma {:induction false} SomeOrder<K>(keys: set<K>) returns (order: seq<K>)
    ensures IsOrder(order, keys)
  {
    if keys == {} {
      order := [];
    } else {
      var k :| k in keys;
      order := SomeOrder(keys - {k});
      OrderSnoc(order, keys - {k}, k);
      assert keys - {k} + {k} == keys;
      order := order + [k];
    }
  }

  // ----- counting keys -----

  lemma OrderDistinct<K>(order: seq<K>, keys: set<K>)
    requires IsOrder(order, keys)
    ensures Distinct(order)
  {
    OrderHasKeys(order, keys);
    assert (set k | k in order) == keys;
    DistinctSize(order);
  }

  /** The keys whose value `p` accepts. */
  function KeysWhere<K, V>(m: map<K, V>, p: V -> bool): set<K> {
    set k | k in m && p(m[k])
  }

  /** The number of keys whose value `p` accepts. */
  function CountWhere<K, V>(m: map<K, V>, p: V -> bool): nat {
    |KeysWhere(m, p)|
  }

  /** Dropping the first of distinct keys, the accepted ones lose that key, if it was accepted. */
  lemma AcceptedStep<K, V>(m: map<K, V>, order: seq<K>, p: V -> bool)
    requires order != [] && Distinct(order) && forall k :: k in order ==> k in m
    ensures |set k | k in order && p(m[k])| == |set k | k in order[1..] && p(m[k])| + (if p(m[order[0]]) then 1 else 0)
  {
    var first, rest := order[0], order[1..];
    assert order == [first] + rest && first !in rest;
    var all, kept := set k | k in order && p(m[k]), set k | k in rest && p(m[k]);
    assert all == if p(m[first]) then kept + {first} else kept;
  }

  lemma {:induction false} AcceptedCount<K, V, W>(m: map<K, V>, order: seq<K>, f: V -> Option<W>, p: V -> bool)
    requires Distinct(order) && forall k :: k in order ==> k in m
    requires forall v :: p(v) <==> f(v).Some?
    ensures |FilterMap(Values(m, order), f)| == |set k | k in order && p(m[k])|
  {
    if order != [] {
      AcceptedCount(m, order[1..], f, p);
      AcceptedStep(m, order, p);
    }
  }

  /** Whatever the order, a filter keeps as many values as there are keys whose value it accepts. */
  lemma DeliveredCount<K, V, W>(m: map<K, V>, order: seq<K>, vs: seq<V>, f: V -> Option<W>, p: V -> bool)
    requires Delivers(m, order, vs) && forall v :: p(v) <==> f(v).Some?
    ensures |FilterMap(vs, f)| == CountWhere(m, p)
  {
    OrderHasKeys(order, m.Keys);
    OrderDistinct(order, m.Keys);
    AcceptedCount(m, order, f, p);
    assert (set k | k in order && p(m[k])) == KeysWhere(m, p);
  }

  function Equal<V, X(==)>(f: V -> Option<X>, x: X): V -> Option<X> {
    (v: V) => if f(v) == Some(x) then Some(x) else None
  }

  function AtMost<V>(f: V -> Option<real>, bound: real): V -> Option<real> {
    (v: V) => if f(v).Some? && f(v).value <= bound then f(v) else None
  }

  lemma {:induction false} MultiplicityIsCount<V, X>(vs: seq<V>, f: V -> Option<X>, x: X)
    ensures multiset(FilterMap(vs, f))[x] == |FilterMap(vs, Equal(f, x))|
  {
    if vs != [] {
      MultiplicityIsCount(vs[1..], f, x);
    }
  }

  lemma {:induction false} BucketIsCount<V>(vs: seq<V>, f: V -> Option<real>, bound: real)
    ensures CountAtMost(FilterMap(vs, f), bound) == |FilterMap(vs, AtMost(f, bound))|
  {
    if vs != [] {
      BucketIsCount(vs[1..], f, bound);
      CountAppend(AsSeq(f(vs[0])), FilterMap(vs[1..], f), bound);
      if f(vs[0]).Some? {
        assert [f(vs[0]).value][1..] == [];
      }
    }
  }

  /** What a tally of the deliveries holds for `x`: the number of keys whose value yields it. */
  lemma TallyCountsKeys<K, V, X(!new)>(
      counts: map<X, int>, m: map<K, V>, order: seq<K>, vs: seq<V>, f: V -> Option<X>, x: X, p: V -> bool)
    requires Delivers(m, order, vs) && Tallies(counts, multiset(FilterMap(vs, f)))
    requires forall v :: p(v) <==> f(v) == Some(x)
    ensures GetOr(counts, x, 0) == CountWhere(m, p)
    ensures x in counts <==> CountWhere(m, p) > 0
  {
    MultiplicityIsCount(vs, f, x);
    DeliveredCount(m, order, vs, Equal(f, x), p);
  }

  // ----- keyed counters -----

  /** `counts` is what `counts[k]++` for every k of `bag` leaves in an empty Go map. */
  ghost predicate Tallies<K(!new)>(counts: map<K, int>, bag: multiset<K>) {
    forall k :: (k in counts <==> k in bag) && (k in counts ==> counts[k] == bag[k])
  }

  /** Go's `counts[k]++`. */
  function Increment<K>(counts: map<K, int>, k: K): map<K, int> {
    counts[k := GetOr(counts, k, 0) + 1]
  }

  lemma IncrementTallies<K(!new)>(counts: map<K, int>, bag: multiset<K>, k: K)
    requires Tallies(counts, bag)
    ensures Tallies(Increment(counts, k), bag + multiset{k})
  {
    var next := Increment(counts, k);
    forall j ensures (j in next <==> j in bag + multiset{k}) && (j in next ==> next[j] == (bag + multiset{k})[j]) {
      if j != k {
        assert j in next <==> j in counts;
      }
    }
  }

  lemma TalliesUnique<K(!new)>(a: map<K, int>, b: map<K, int>, bag: multiset<K>)
    requires Tallies(a, bag) && Tallies(b, bag)
    ensures a == b
  {
    assert forall k :: k in a <==> k in b;
  }

  ghost function SumValues<K>(counts: map<K, int>): int
    decreases |counts|
  {
    if counts == map[] then 0
    else
      var k :| k in counts;
      assert (counts - {k}).Keys == counts.Keys - {k};
      counts[k] + SumValues(counts - {k})
  }

  lemma {:induction false} SumOfTally<K(!new)>(counts: map<K, int>, bag: multiset<K>)
    requires Tallies(counts, bag)
    ensures SumValues(counts) == |bag|
    decreases |counts|
  {
    if counts == map[] {
      assert bag == multiset{};
    } else {
      var k :| k in counts && SumValues(counts) == counts[k] + SumValues(counts - {k});
      assert (counts - {k}).Keys == counts.Keys - {k};
      var rest := bag[k := 0];
      assert forall j :: j in counts - {k} <==> j in counts && j != k;
      assert Tallies(counts - {k}, rest);
      SumOfTally(counts - {k}, rest);
      assert bag == rest[k := bag[k]];
    }
  }
}
