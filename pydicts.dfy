/**
 * Python's `dict` as the modelled code uses it: a map from keys to values that
 * also remembers the order in which keys were first inserted, which is the order
 * `dict.values()` lists them in.
 */
module PyDicts {
  import opened Wrappers

  /** `keys` without the key `k`, order kept. */
  function Without<K(==,!new)>(keys: seq<K>, k: K): (r: seq<K>)
    ensures k !in r
    ensures forall x :: x in r <==> x in keys && x != k
    ensures |r| <= |keys|
    decreases |keys|
  {
    if keys == [] then []
    else if keys[0] == k then Without(keys[1..], k)
    else [keys[0]] + Without(keys[1..], k)
  }

  /** Removing a key that is not listed changes nothing. */
  lemma {:induction false} WithoutAbsent<K(!new)>(keys: seq<K>, k: K)
    requires k !in keys
    ensures Without(keys, k) == keys
    decreases |keys|
  {
    if keys != [] {
      WithoutAbsent(keys[1..], k);
      assert keys == [keys[0]] + keys[1..];
    }
  }

  /** No element is listed twice. */
  ghost predicate Distinct<K>(s: seq<K>) {
    forall i, j :: 0 <= i < j < |s| ==> s[i] != s[j]
  }

  lemma {:induction false} WithoutDistinct<K(!new)>(keys: seq<K>, k: K)
    requires Distinct(keys)
    ensures Distinct(Without(keys, k))
    decreases |keys|
  {
    if keys != [] {
      WithoutDistinct(keys[1..], k);
      var rest := Without(keys[1..], k);
      assert keys[0] !in keys[1..];
      if keys[0] != k {
        var r := [keys[0]] + rest;
        assert r[0] !in rest;
        forall i, j | 0 <= i < j < |r|
          ensures r[i] != r[j]
        {
          if i > 0 {
            assert r[i] == rest[i - 1] && r[j] == rest[j - 1];
          } else {
            assert r[j] == rest[j - 1];
          }
        }
      }
    }
  }

  datatype Dict<K(==,!new), V> = Dict(keys: seq<K>, entries: map<K, V>) {

    /** Every key is listed once, and exactly the keys with an entry are listed. */
    ghost predicate Valid() {
      && Distinct(keys)
      && (forall k :: k in entries <==> k in keys)
    }

    /** `d.get(k)` */
    function Get(k: K): (r: Option<V>)
      ensures r.Some? <==> k in entries
      ensures r.Some? ==> r.value == entries[k]
    {
      if k in entries then Some(entries[k]) else None
    }

    /** `d[k] = v`: a key already present keeps its place, a new key goes last. */
    function Set(k: K, v: V): (d: Dict<K, V>)
      requires Valid()
      ensures d.Valid()
      ensures d.entries == entries[k := v]
      ensures d.keys == if k in entries then keys else keys + [k]
    {
      if k in entries then Dict(keys, entries[k := v]) else Dict(keys + [k], entries[k := v])
    }

    /** `del d[k]` (or nothing when `k` is absent): the other keys keep their order. */
    function Remove(k: K): (d: Dict<K, V>)
      requires Valid()
      ensures d.Valid()
      ensures d.entries == entries - {k}
      ensures d.keys == Without(keys, k)
    {
      WithoutDistinct(keys, k);
      Dict(Without(keys, k), entries - {k})
    }

    /** `list(d.values())`: one value per key, in key order. */
    function Values(): (r: seq<V>)
      requires Valid()
      ensures |r| == |keys|
      ensures forall i :: 0 <= i < |keys| ==> r[i] == entries[keys[i]]
    {
      seq(|keys|, i requires 0 <= i < |keys| && Valid() => entries[keys[i]])
    }
  }

  function EmptyDict<K(==,!new), V>(): (d: Dict<K, V>)
    ensures d.Valid() && d.entries == map[] && d.keys == []
  {
    Dict([], map[])
  }

  /** Storing the value a key already holds changes nothing. */
  lemma SetSameValue<K(!new), V>(d: Dict<K, V>, k: K)
    requires d.Valid() && k in d.entries
    ensures d.Set(k, d.entries[k]) == d
  {
    assert d.entries[k := d.entries[k]] == d.entries;
  }

  /** Reading a key back after storing it gives the stored value; other keys are untouched. */
  lemma GetAfterSet<K(!new), V>(d: Dict<K, V>, k: K, v: V, other: K)
    requires d.Valid()
    ensures d.Set(k, v).Get(k) == Some(v)
    ensures other != k ==> d.Set(k, v).Get(other) == d.Get(other)
  {
  }

  /** After a removal the key is gone and every other key reads as before. */
  lemma GetAfterRemove<K(!new), V>(d: Dict<K, V>, k: K, other: K)
    requires d.Valid()
    ensures d.Remove(k).Get(k) == None
    ensures other != k ==> d.Remove(k).Get(other) == d.Get(other)
  {
  }

  /** `d.values()` lists exactly the values of the entries. */
  lemma ValuesMembers<K(!new), V>(d: Dict<K, V>)
    requires d.Valid()
    ensures forall v :: v in d.Values() <==> v in d.entries.Values
  {
    var r := d.Values();
    forall v | v in d.entries.Values
      ensures v in r
    {
      var k :| k in d.entries && d.entries[k] == v;
      var i :| 0 <= i < |d.keys| && d.keys[i] == k;
      assert r[i] == v;
    }
  }

  /** Storing a new key lists its value after all the others. */
  lemma ValuesAfterSetNew<K(!new), V>(d: Dict<K, V>, k: K, v: V)
    requires d.Valid() && k !in d.entries
    ensures d.Set(k, v).Values() == d.Values() + [v]
  {
  }

  /** Overwriting a present key replaces its value in place. */
  lemma ValuesAfterSetPresent<K(!new), V>(d: Dict<K, V>, k: K, v: V, i: nat)
    requires d.Valid() && k in d.entries && i < |d.keys|
    ensures d.Set(k, v).Values()[i] == if d.keys[i] == k then v else d.Values()[i]
  {
  }
}
