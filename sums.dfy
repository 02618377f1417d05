/** Sums of an integer-valued function over a finite set of keys: Python's
    `sum(... for k in d)` over a dict, where the order of the keys does not matter. */
module Sums {

  ghost function SumOver<K>(keys: set<K>, f: K -> int): int
    decreases keys
  {
    if keys == {} then 0
    else
      var k :| k in keys;
      f(k) + SumOver(keys - {k}, f)
  }

  /** Any key may be taken out first. */
  lemma {:induction false} SumOverRemove<K>(keys: set<K>, f: K -> int, k: K)
    requires k in keys
    ensures SumOver(keys, f) == f(k) + SumOver(keys - {k}, f)
    decreases keys
  {
    var j :| j in keys && SumOver(keys, f) == f(j) + SumOver(keys - {j}, f);
    if j != k {
      SumOverRemove(keys - {j}, f, k);
      SumOverRemove(keys - {k}, f, j);
      assert keys - {j} - {k} == keys - {k} - {j};
    }
  }

  /** Adding a key adds its value. */
  lemma SumOverAdd<K>(keys: set<K>, f: K -> int, k: K)
    requires k !in keys
    ensures SumOver(keys + {k}, f) == SumOver(keys, f) + f(k)
  {
    SumOverRemove(keys + {k}, f, k);
    assert keys + {k} - {k} == keys;
  }

  /** Functions that agree on the keys have the same sum. */
  lemma {:induction false} SumOverExt<K>(keys: set<K>, f: K -> int, g: K -> int)
    requires forall k :: k in keys ==> f(k) == g(k)
    ensures SumOver(keys, f) == SumOver(keys, g)
    decreases keys
  {
    if keys != {} {
      var k :| k in keys;
      SumOverRemove(keys, f, k);
      SumOverRemove(keys, g, k);
      SumOverExt(keys - {k}, f, g);
    }
  }

  /** Changing the value at one key changes the sum by the difference. */
  lemma SumOverUpdate<K>(keys: set<K>, f: K -> int, g: K -> int, k: K)
    requires k in keys
    requires forall x :: x in keys && x != k ==> f(x) == g(x)
    ensures SumOver(keys, g) == SumOver(keys, f) - f(k) + g(k)
  {
    SumOverRemove(keys, f, k);
    SumOverRemove(keys, g, k);
    SumOverExt(keys - {k}, f, g);
  }
}
