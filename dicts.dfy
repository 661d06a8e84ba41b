/**
 * Python dictionaries as the visualiser uses them: insertion-ordered
 * association lists, read with a default (a `defaultdict`) and updated in
 * place by `d[k] = f(d[k])`, which appends a new key at the end.
 */
module Dicts {
  type Dict<K, V> = seq<(K, V)>

  /** The keys in insertion order. */
  function Keys<K, V>(d: Dict<K, V>): (ks: seq<K>)
    ensures |ks| == |d|
    ensures forall i :: 0 <= i < |d| ==> ks[i] == d[i].0
  {
    seq(|d|, i requires 0 <= i < |d| => d[i].0)
  }

  /** No key occurs twice. */
  predicate DistinctKeys<K(==), V>(d: Dict<K, V>)
  {
    forall i, j :: 0 <= i < j < |d| ==> d[i].0 != d[j].0
  }

  /** `d[k]` on a `defaultdict` whose default is `dflt`. */
  function Find<K(==), V>(d: Dict<K, V>, k: K, dflt: V): V
  {
    if d == [] then dflt else if d[0].0 == k then d[0].1 else Find(d[1..], k, dflt)
  }

  /** `d[k] = f(d[k])` on a `defaultdict` whose default is `dflt`. */
  function Upsert<K(==), V>(d: Dict<K, V>, k: K, f: V -> V, dflt: V): (r: Dict<K, V>)
    ensures |r| == |d| || |r| == |d| + 1
  {
    if d == [] then [(k, f(dflt))]
    else if d[0].0 == k then [(k, f(d[0].1))] + d[1..]
    else [d[0]] + Upsert(d[1..], k, f, dflt)
  }

  /**
   * Only the updated key changes: it now holds `f` of its old value (of the
   * default, if it was absent); every other key reads as before.
   */
  lemma {:induction false} FindUpsert<K, V>(d: Dict<K, V>, k: K, f: V -> V, dflt: V, k': K)
    ensures Find(Upsert(d, k, f, dflt), k', dflt) == if k' == k then f(Find(d, k, dflt)) else Find(d, k', dflt)
  {
    if d != [] && d[0].0 != k {
      FindUpsert(d[1..], k, f, dflt, k');
      assert Upsert(d, k, f, dflt)[1..] == Upsert(d[1..], k, f, dflt);
    }
  }

  /** An existing key keeps its place; a new key is appended at the end. */
  lemma {:induction false} KeysUpsert<K, V>(d: Dict<K, V>, k: K, f: V -> V, dflt: V)
    ensures Keys(Upsert(d, k, f, dflt)) == if k in Keys(d) then Keys(d) else Keys(d) + [k]
  {
    if d != [] {
      if d[0].0 != k {
        KeysUpsert(d[1..], k, f, dflt);
        assert Keys(d) == [d[0].0] + Keys(d[1..]);
        assert Keys(Upsert(d, k, f, dflt)) == [d[0].0] + Keys(Upsert(d[1..], k, f, dflt));
      } else {
        assert Keys(Upsert(d, k, f, dflt)) == [k] + Keys(d[1..]);
        assert Keys(d) == [k] + Keys(d[1..]);
      }
    }
  }

  /** Updating in place never makes a key occur twice. */
  lemma {:induction false} DistinctUpsert<K, V>(d: Dict<K, V>, k: K, f: V -> V, dflt: V)
    requires DistinctKeys(d)
    ensures DistinctKeys(Upsert(d, k, f, dflt))
  {
    KeysUpsert(d, k, f, dflt);
    var r := Upsert(d, k, f, dflt);
    forall i, j | 0 <= i < j < |r| ensures r[i].0 != r[j].0 {
      assert Keys(r)[i] == r[i].0 && Keys(r)[j] == r[j].0;
      if j < |d| {
        assert Keys(d)[i] == d[i].0 && Keys(d)[j] == d[j].0;
      } else {
        assert k !in Keys(d) && r[j].0 == k;
        assert Keys(d)[i] == d[i].0;
      }
    }
  }

  /** A key that is absent reads as the default. */
  lemma {:induction false} FindAbsent<K, V>(d: Dict<K, V>, k: K, dflt: V)
    requires k !in Keys(d)
    ensures Find(d, k, dflt) == dflt
  {
    if d != [] {
      assert Keys(d) == [d[0].0] + Keys(d[1..]);
      FindAbsent(d[1..], k, dflt);
    }
  }

  /** The sum of an integer-valued dictionary's values, in iteration order. */
  function Total<K>(d: Dict<K, int>): int
  {
    if d == [] then 0 else d[0].1 + Total(d[1..])
  }

  /** `d[k] += a` on a `defaultdict(float)`. */
  function Add<K(==)>(d: Dict<K, int>, k: K, a: int): Dict<K, int>
  {
    Upsert(d, k, x => x + a, 0)
  }

  /** `d[k] += a` adds exactly `a` to the sum of the values. */
  lemma {:induction false} TotalAdd<K>(d: Dict<K, int>, k: K, a: int)
    ensures Total(Add(d, k, a)) == Total(d) + a
  {
    if d != [] && d[0].0 != k {
      TotalAdd(d[1..], k, a);
      assert Add(d, k, a)[1..] == Add(d[1..], k, a);
    } else if d != [] {
      assert Add(d, k, a)[1..] == d[1..];
    }
  }
}
