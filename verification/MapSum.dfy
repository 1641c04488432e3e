/** Sums over finite maps, the shape in which the contract keeps balances. */
module MapSum {

  function At<K>(m: map<K, nat>, k: K): nat {
    if k in m then m[k] else 0
  }

  ghost function Sum<K>(m: map<K, nat>): nat {
    if m == map[] then 0 else
      var k :| k in m;
      m[k] + Sum(m - {k})
  }

  /** The sum does not depend on which key is taken out first. */
  lemma {:induction false} SumTake<K>(m: map<K, nat>, k: K)
    ensures Sum(m) == At(m, k) + Sum(m - {k})
    decreases |m|
  {
    if k !in m {
      assert m - {k} == m;
    } else {
      var c :| c in m && Sum(m) == m[c] + Sum(m - {c});
      if c != k {
        SumTake(m - {c}, k);
        SumTake(m - {k}, c);
        assert m - {c} - {k} == m - {k} - {c};
      }
    }
  }

  lemma SumUpdate<K>(m: map<K, nat>, k: K, v: nat)
    ensures Sum(m[k := v]) + At(m, k) == Sum(m) + v
  {
    SumTake(m, k);
    SumTake(m[k := v], k);
    assert m[k := v] - {k} == m - {k};
  }

  /** Maps that add up key by key have sums that add up. */
  lemma SumAdd<K>(a: map<K, nat>, b: map<K, nat>, c: map<K, nat>)
    requires forall k :: At(a, k) + At(b, k) == At(c, k)
    ensures Sum(a) + Sum(b) == Sum(c)
  {
    SumAddOver(a, b, c, a.Keys + b.Keys + c.Keys);
  }

  lemma {:induction false} SumAddOver<K>(a: map<K, nat>, b: map<K, nat>, c: map<K, nat>, keys: set<K>)
    requires a.Keys + b.Keys + c.Keys <= keys
    requires forall k :: At(a, k) + At(b, k) == At(c, k)
    ensures Sum(a) + Sum(b) == Sum(c)
    decreases keys
  {
    if keys == {} {
      assert a == map[] && b == map[] && c == map[];
    } else {
      var k :| k in keys;
      SumTake(a, k);
      SumTake(b, k);
      SumTake(c, k);
      forall j ensures At(a - {k}, j) + At(b - {k}, j) == At(c - {k}, j) {
        assert At(a, j) + At(b, j) == At(c, j);
      }
      assert At(a, k) + At(b, k) == At(c, k);
      SumAddOver(a - {k}, b - {k}, c - {k}, keys - {k});
    }
  }

  lemma SumEqual<K>(a: map<K, nat>, b: map<K, nat>)
    requires forall k :: At(a, k) == At(b, k)
    ensures Sum(a) == Sum(b)
  {
    forall k ensures At(a, k) + At(map[], k) == At(b, k) {
      assert At(a, k) == At(b, k);
    }
    SumAdd(a, map[], b);
  }

  lemma SumAtLeast<K>(m: map<K, nat>, k: K)
    ensures At(m, k) <= Sum(m)
  {
    SumTake(m, k);
  }

  lemma SumMonotone<K>(a: map<K, nat>, b: map<K, nat>)
    requires forall k :: At(a, k) <= At(b, k)
    ensures Sum(a) <= Sum(b)
  {
    assert forall k :: k in b ==> At(a, k) <= At(b, k);
    var rest := map k | k in b :: b[k] - At(a, k);
    forall k ensures At(a, k) + At(rest, k) == At(b, k) {
      assert At(a, k) <= At(b, k);
    }
    SumAdd(a, rest, b);
  }
}
