/// Folds over the entries of a map whose iteration order the source leaves to
/// the hash map: a sum and a multiset union, each proved independent of the
/// order in which entries are taken.
module MapFolds {

  /** Sum of `f(k, m[k])` over the keys in `keys`. */
  ghost function SumOver<K, V>(keys: set<K>, m: map<K, V>, f: (K, V) -> int): int
    requires keys <= m.Keys
    decreases keys
  {
    if keys == {} then 0
    else
      var k :| k in keys;
      f(k, m[k]) + SumOver(keys - {k}, m, f)
  }

  /** Any key may be taken first. */
  lemma {:induction false} SumOverRemove<K, V>(keys: set<K>, m: map<K, V>, f: (K, V) -> int, k: K)
    requires keys <= m.Keys && k in keys
    ensures SumOver(keys, m, f) == f(k, m[k]) + SumOver(keys - {k}, m, f)
    decreases keys
  {
    var k' :| k' in keys && SumOver(keys, m, f) == f(k', m[k']) + SumOver(keys - {k'}, m, f);
    if k' != k {
      assert keys - {k'} - {k} == keys - {k} - {k'};
      SumOverRemove(keys - {k'}, m, f, k);
      SumOverRemove(keys - {k}, m, f, k');
    }
  }

  /** Multiset union of `f(k, m[k])` over the keys in `keys`. */
  ghost function BagOver<K, V, T>(keys: set<K>, m: map<K, V>, f: (K, V) -> multiset<T>): multiset<T>
    requires keys <= m.Keys
    decreases keys
  {
    if keys == {} then multiset{}
    else
      var k :| k in keys;
      f(k, m[k]) + BagOver(keys - {k}, m, f)
  }

  /** Any key may be taken first. */
  lemma {:induction false} BagOverRemove<K, V, T>(keys: set<K>, m: map<K, V>, f: (K, V) -> multiset<T>, k: K)
    requires keys <= m.Keys && k in keys
    ensures BagOver(keys, m, f) == f(k, m[k]) + BagOver(keys - {k}, m, f)
    decreases keys
  {
    var k' :| k' in keys && BagOver(keys, m, f) == f(k', m[k']) + BagOver(keys - {k'}, m, f);
    if k' != k {
      assert keys - {k'} - {k} == keys - {k} - {k'};
      BagOverRemove(keys - {k'}, m, f, k);
      BagOverRemove(keys - {k}, m, f, k');
    }
  }

  /** The fold only reads the entries of the keys it folds over. */
  lemma {:induction false} BagOverAgree<K, V, T>(keys: set<K>, m1: map<K, V>, m2: map<K, V>, f: (K, V) -> multiset<T>)
    requires keys <= m1.Keys && keys <= m2.Keys
    requires forall k :: k in keys ==> m1[k] == m2[k]
    ensures BagOver(keys, m1, f) == BagOver(keys, m2, f)
    decreases keys
  {
    if keys != {} {
      var k :| k in keys;
      BagOverRemove(keys, m1, f, k);
      BagOverRemove(keys, m2, f, k);
      BagOverAgree(keys - {k}, m1, m2, f);
    }
  }

  /** The fold is empty exactly when every entry contributes nothing. */
  lemma {:induction false} BagOverEmpty<K, V, T>(keys: set<K>, m: map<K, V>, f: (K, V) -> multiset<T>)
    requires keys <= m.Keys
    ensures BagOver(keys, m, f) == multiset{} <==> forall k :: k in keys ==> f(k, m[k]) == multiset{}
    decreases keys
  {
    if keys != {} {
      var k :| k in keys;
      BagOverRemove(keys, m, f, k);
      BagOverEmpty(keys - {k}, m, f);
    }
  }
}
