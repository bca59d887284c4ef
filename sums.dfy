/** The sum of the values of a mapping from addresses, used to relate balances to the total supply. */
module Sums {
  import opened Chain

  /** The sum of m's values over the keys in `keys`. */
  ghost function SumOver(m: map<Address, nat>, keys: set<Address>): nat
    requires keys <= m.Keys
  {
    if keys == {} then 0
    else
      var k :| k in keys;
      m[k] + SumOver(m, keys - {k})
  }

  /** The sum of all values of m. */
  ghost function Sum(m: map<Address, nat>): nat
  {
    SumOver(m, m.Keys)
  }

  /** Any key may be taken out first: the sum does not depend on the order of the keys. */
  lemma {:induction false} SumOverRemove(m: map<Address, nat>, keys: set<Address>, k: Address)
    requires keys <= m.Keys && k in keys
    ensures SumOver(m, keys) == m[k] + SumOver(m, keys - {k})
    decreases keys
  {
    var j :| j in keys && SumOver(m, keys) == m[j] + SumOver(m, keys - {j});
    if j != k {
      SumOverRemove(m, keys - {j}, k);
      SumOverRemove(m, keys - {k}, j);
      assert keys - {j} - {k} == keys - {k} - {j};
    }
  }

  /** Two mappings that agree on `keys` have the same sum over them. */
  lemma {:induction false} SumOverAgree(m: map<Address, nat>, m': map<Address, nat>, keys: set<Address>)
    requires keys <= m.Keys && keys <= m'.Keys
    requires forall k :: k in keys ==> m[k] == m'[k]
    ensures SumOver(m, keys) == SumOver(m', keys)
    decreases keys
  {
    if keys != {} {
      var k :| k in keys && SumOver(m, keys) == m[k] + SumOver(m, keys - {k});
      SumOverRemove(m', keys, k);
      SumOverAgree(m, m', keys - {k});
    }
  }

  /** Writing v at key k changes the sum by v minus the value k held before. */
  lemma SumUpdate(m: map<Address, nat>, k: Address, v: nat)
    ensures Sum(m[k := v]) + Lookup(m, k) == Sum(m) + v
  {
    var m' := m[k := v];
    SumOverRemove(m', m'.Keys, k);
    assert m'.Keys - {k} == m.Keys - {k};
    SumOverAgree(m', m, m.Keys - {k});
    if k in m {
      SumOverRemove(m, m.Keys, k);
    } else {
      assert m.Keys - {k} == m.Keys;
    }
  }

  /** A value is never larger than the sum it is part of. */
  lemma SumBoundsLookup(m: map<Address, nat>, k: Address)
    ensures Lookup(m, k) <= Sum(m)
  {
    if k in m {
      SumOverRemove(m, m.Keys, k);
    }
  }
}
