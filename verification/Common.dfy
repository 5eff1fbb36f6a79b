/** Vocabulary shared by every component: symbols, order sides, optional values
    and sums over finite maps. */
module Common {

  type Symbol = string

  datatype Option<+T> = None | Some(value: T)

  datatype Side = Buy | Sell {
    function Opposite(): Side {
      if Buy? then Sell else Buy
    }

    // +1 for a buy, -1 for a sell.
    function Sign(): int {
      if Buy? then 1 else -1
    }
  }

  // An arbitrary key of a non-empty map; naming it makes MapSum unfoldable in proofs.
  ghost function PickKey<V>(m: map<Symbol, V>): (k: Symbol)
    requires m != map[]
    ensures k in m
  {
    assert m.Keys != {};
    var k :| k in m.Keys; k
  }

  ghost function MapSum(m: map<Symbol, real>): real
    decreases |m|
  {
    if m == map[] then 0.0
    else
      var k := PickKey(m);
      assert (m - {k}).Keys == m.Keys - {k};
      m[k] + MapSum(m - {k})
  }

  // The sum does not depend on which key is taken out first.
  lemma {:induction false} MapSumRemove(m: map<Symbol, real>, k: Symbol)
    requires k in m
    ensures MapSum(m) == m[k] + MapSum(m - {k})
    decreases |m|
  {
    var j := PickKey(m);
    if j != k {
      var mj, mk := m - {j}, m - {k};
      assert mj.Keys == m.Keys - {j} && mk.Keys == m.Keys - {k};
      assert |mj.Keys| < |m.Keys| && |mk.Keys| < |m.Keys|;
      assert mj - {k} == mk - {j};
      MapSumRemove(mj, k);
      MapSumRemove(mk, j);
    }
  }

  lemma MapSumUpdate(m: map<Symbol, real>, k: Symbol, v: real)
    ensures MapSum(m[k := v]) == MapSum(m) - (if k in m then m[k] else 0.0) + v
  {
    MapSumRemove(m[k := v], k);
    assert m[k := v] - {k} == m - {k};
    if k in m {
      MapSumRemove(m, k);
    } else {
      assert m - {k} == m;
    }
  }

  lemma ProductNonNegative(x: real, y: real)
    requires 0.0 <= x && 0.0 <= y
    ensures 0.0 <= x * y
  {
  }
}
