/**
 * Python's insertion-ordered `dict`, as a list of key/value pairs.
 * `Set` is `d[k] = v` (an existing key keeps its position, a new key goes last)
 * and `Update` is `a.update(b)`.
 */
module PyDict {
  import opened Wrappers

  type Dict<K, V> = seq<(K, V)>

  /** The keys in iteration order (`list(d.keys())`). */
  function Keys<K, V>(d: Dict<K, V>): seq<K> {
    if d == [] then [] else [d[0].0] + Keys(d[1..])
  }

  /** The values in iteration order (`list(d.values())`). */
  function Values<K, V>(d: Dict<K, V>): seq<V> {
    if d == [] then [] else [d[0].1] + Values(d[1..])
  }

  lemma {:induction false} KeysAt<K, V>(d: Dict<K, V>, i: nat)
    requires i < |d|
    ensures |Keys(d)| == |d| && Keys(d)[i] == d[i].0
    ensures |Values(d)| == |d| && Values(d)[i] == d[i].1
  {
    if i > 0 {
      KeysAt(d[1..], i - 1);
    } else {
      KeysLength(d);
    }
  }

  lemma {:induction false} KeysLength<K, V>(d: Dict<K, V>)
    ensures |Keys(d)| == |d| && |Values(d)| == |d|
  {
    if d != [] {
      KeysLength(d[1..]);
    }
  }

  ghost predicate Distinct<K>(s: seq<K>) {
    forall i, j :: 0 <= i < j < |s| ==> s[i] != s[j]
  }

  /** Every dictionary the program builds has each key once. */
  ghost predicate Unique<K, V>(d: Dict<K, V>) {
    Distinct(Keys(d))
  }

  /** `d.get(k)`: the value stored under `k`, if any. */
  function Get<K(==), V>(d: Dict<K, V>, k: K): (r: Option<V>)
    ensures r.Some? <==> k in Keys(d)
    ensures r.Some? ==> (k, r.value) in d
  {
    if d == [] then None
    else if d[0].0 == k then Some(d[0].1)
    else Get(d[1..], k)
  }

  /** `d[k] = v`: `k` then holds `v`, every other key is untouched, and a new key goes last. */
  function Set<K(==,!new), V>(d: Dict<K, V>, k: K, v: V): (r: Dict<K, V>)
    ensures Get(r, k) == Some(v)
    ensures forall k' :: k' != k ==> Get(r, k') == Get(d, k')
    ensures Keys(r) == if k in Keys(d) then Keys(d) else Keys(d) + [k]
  {
    if d == [] then [(k, v)]
    else if d[0].0 == k then
      [(k, v)] + d[1..]
    else
      var rest := Set(d[1..], k, v);
      assert ([d[0]] + rest)[1..] == rest;
      [d[0]] + rest
  }

  lemma SetUnique<K(!new), V>(d: Dict<K, V>, k: K, v: V)
    requires Unique(d)
    ensures Unique(Set(d, k, v))
  {
  }

  /** `a.update(b)`: every pair of `b`, in order, assigned into `a`. */
  function Update<K(==,!new), V>(a: Dict<K, V>, b: Dict<K, V>): Dict<K, V>
    decreases |b|
  {
    if b == [] then a else Update(Set(a, b[0].0, b[0].1), b[1..])
  }

  lemma {:induction false} UniqueTail<K, V>(d: Dict<K, V>)
    requires d != [] && Unique(d)
    ensures Unique(d[1..]) && d[0].0 !in Keys(d[1..])
  {
    var ks := Keys(d);
    assert ks == [d[0].0] + Keys(d[1..]);
    forall i, j | 0 <= i < j < |Keys(d[1..])|
      ensures Keys(d[1..])[i] != Keys(d[1..])[j]
    {
      assert Keys(d[1..])[i] == ks[i + 1] && Keys(d[1..])[j] == ks[j + 1];
    }
    forall i | 0 <= i < |Keys(d[1..])|
      ensures Keys(d[1..])[i] != d[0].0
    {
      assert Keys(d[1..])[i] == ks[i + 1] && d[0].0 == ks[0];
    }
  }

  /** After `a.update(b)` a key of `b` holds `b`'s value; any other key keeps `a`'s. */
  lemma {:induction false} UpdateGet<K(!new), V>(a: Dict<K, V>, b: Dict<K, V>, k: K)
    requires Unique(b)
    ensures Get(Update(a, b), k) == if k in Keys(b) then Get(b, k) else Get(a, k)
    decreases |b|
  {
    if b != [] {
      UniqueTail(b);
      UpdateGet(Set(a, b[0].0, b[0].1), b[1..], k);
    }
  }

  /** `a.update(b)` keeps `a`'s keys first and in order, adds `b`'s, and keeps keys unique. */
  lemma {:induction false} UpdateKeys<K(!new), V>(a: Dict<K, V>, b: Dict<K, V>)
    ensures Keys(a) <= Keys(Update(a, b))
    ensures forall k :: k in Keys(Update(a, b)) <==> k in Keys(a) || k in Keys(b)
    ensures Unique(a) ==> Unique(Update(a, b))
    decreases |b|
  {
    if b != [] {
      var a' := Set(a, b[0].0, b[0].1);
      if Unique(a) { SetUnique(a, b[0].0, b[0].1); }
      UpdateKeys(a', b[1..]);
    }
  }

  /** Assigning a key its current value changes nothing. */
  lemma {:induction false} SetSame<K(!new), V>(d: Dict<K, V>, k: K, v: V)
    requires Get(d, k) == Some(v)
    ensures Set(d, k, v) == d
  {
    if d != [] && d[0].0 != k {
      SetSame(d[1..], k, v);
    }
  }
}
