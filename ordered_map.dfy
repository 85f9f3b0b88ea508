/** A JavaScript `Map`: key/value entries kept in insertion order. Setting an
    existing key replaces its value in place; a new key goes to the end.
    Iteration (`forEach`, `entries()`) visits the entries in this order. */
module OrderedMap {
  import opened Wrappers

  type OMap<K, V> = seq<(K, V)>

  function Keys<K, V>(m: OMap<K, V>): (ks: seq<K>)
    ensures |ks| == |m| && forall i :: 0 <= i < |m| ==> ks[i] == m[i].0
  {
    if m == [] then [] else [m[0].0] + Keys(m[1..])
  }

  function Values<K, V>(m: OMap<K, V>): (vs: seq<V>)
    ensures |vs| == |m| && forall i :: 0 <= i < |m| ==> vs[i] == m[i].1
  {
    if m == [] then [] else [m[0].1] + Values(m[1..])
  }

  predicate UniqueKeys<K(==), V>(m: OMap<K, V>) {
    forall i, j :: 0 <= i < j < |m| ==> m[i].0 != m[j].0
  }

  /** `m.get(k)`: `None` plays `undefined`. */
  function Get<K(==), V>(m: OMap<K, V>, k: K): (r: Option<V>)
    ensures r.None? <==> k !in Keys(m)
    ensures r.Some? ==> exists i :: 0 <= i < |m| && m[i] == (k, r.value)
  {
    if m == [] then None
    else if m[0].0 == k then Some(m[0].1)
    else Get(m[1..], k)
  }

  /** `m.set(k, v)`. */
  function Set<K(==), V>(m: OMap<K, V>, k: K, v: V): (r: OMap<K, V>)
    ensures Get(r, k) == Some(v)
  {
    if m == [] then [(k, v)]
    else if m[0].0 == k then
      var r := [(k, v)] + m[1..];
      assert r[1..] == m[1..];
      r
    else
      var rest := Set(m[1..], k, v);
      var r := [m[0]] + rest;
      assert r[1..] == rest;
      r
  }

  /** `set` keeps an existing key where it is and appends a new one. */
  lemma {:induction false} SetKeys<K, V>(m: OMap<K, V>, k: K, v: V)
    ensures k in Keys(m) ==> Keys(Set(m, k, v)) == Keys(m)
    ensures k !in Keys(m) ==> Keys(Set(m, k, v)) == Keys(m) + [k]
  {
    if k in Keys(m) {
      SetKeysPresent(m, k, v);
    } else {
      SetKeysAbsent(m, k, v);
    }
  }

  /** An existing key: the key order is unchanged. */
  lemma {:induction false} SetKeysPresent<K, V>(m: OMap<K, V>, k: K, v: V)
    requires k in Keys(m)
    ensures Keys(Set(m, k, v)) == Keys(m)
  {
    var r := Set(m, k, v);
    if m[0].0 == k {
      assert r == [(k, v)] + m[1..];
    } else {
      assert k in Keys(m[1..]) by {
        assert Keys(m) == [m[0].0] + Keys(m[1..]);
      }
      SetKeysPresent(m[1..], k, v);
      assert r == [m[0]] + Set(m[1..], k, v);
    }
  }

  /** A new key: it joins the end of the key order. */
  lemma {:induction false} SetKeysAbsent<K, V>(m: OMap<K, V>, k: K, v: V)
    requires k !in Keys(m)
    ensures Keys(Set(m, k, v)) == Keys(m) + [k]
  {
    if m != [] {
      var r := Set(m, k, v);
      assert k !in Keys(m[1..]) by {
        assert Keys(m) == [m[0].0] + Keys(m[1..]);
      }
      SetKeysAbsent(m[1..], k, v);
      assert r == [m[0]] + Set(m[1..], k, v);
    }
  }

  /** Keys stay unique under `set`. */
  lemma SetKeepsKeysUnique<K, V>(m: OMap<K, V>, k: K, v: V)
    requires UniqueKeys(m)
    ensures UniqueKeys(Set(m, k, v))
  {
    var r := Set(m, k, v);
    if k in Keys(m) {
      SetKeysPresent(m, k, v);
      SameKeysUnique(m, r);
    } else {
      SetKeysAbsent(m, k, v);
      NewKeyUnique(m, r, k);
    }
  }

  /** Appending a key not yet present keeps keys unique. */
  lemma NewKeyUnique<K, V>(m: OMap<K, V>, r: OMap<K, V>, k: K)
    requires UniqueKeys(m) && k !in Keys(m) && Keys(r) == Keys(m) + [k]
    ensures UniqueKeys(r)
  {
    forall i, j | 0 <= i < j < |r| ensures r[i].0 != r[j].0 {
      assert Keys(r)[i] == r[i].0 && Keys(r)[j] == r[j].0;
      assert Keys(r)[i] == m[i].0;
      if j < |m| {
        assert Keys(r)[j] == m[j].0;
      } else {
        assert Keys(m)[i] == m[i].0;
      }
    }
  }

  /** Whether keys are unique depends on the keys alone. */
  lemma SameKeysUnique<K, V>(m: OMap<K, V>, r: OMap<K, V>)
    requires UniqueKeys(m) && Keys(r) == Keys(m)
    ensures UniqueKeys(r)
  {
    forall i, j | 0 <= i < j < |r| ensures r[i].0 != r[j].0 {
      assert Keys(r)[i] == m[i].0 && Keys(r)[j] == m[j].0;
    }
  }

  /** Setting one key leaves what `get` finds for every other key alone. */
  lemma {:induction false} GetSetOther<K, V>(m: OMap<K, V>, k: K, v: V, k': K)
    requires k' != k
    ensures Get(Set(m, k, v), k') == Get(m, k')
  {
    if m != [] && m[0].0 != k {
      GetSetOther(m[1..], k, v, k');
    }
  }

  /** An entry of a map with unique keys is what `get` finds for its key. */
  lemma GetEntry<K, V>(m: OMap<K, V>, i: nat)
    requires UniqueKeys(m) && i < |m|
    ensures Get(m, m[i].0) == Some(m[i].1)
  {
    if i > 0 && m[0].0 != m[i].0 {
      GetEntry(m[1..], i - 1);
    }
  }
}
