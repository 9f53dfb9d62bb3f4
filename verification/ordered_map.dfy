/** JavaScript `Map`s iterate in insertion order, and so do plain objects for keys that are
    not integer-like (those come first, in ascending order); `OrderedMap` keeps insertion
    order (`keys`) beside the lookup table (`values`). */
module OrderedMaps {
  import opened Wrappers

  /** Position of the first occurrence of `k` in `s`, or -1 (`Array.prototype.findIndex`). */
  function IndexOf<K(==)>(s: seq<K>, k: K): (r: int)
    ensures -1 <= r < |s|
    ensures r == -1 <==> k !in s
    ensures r >= 0 ==> s[r] == k && forall j :: 0 <= j < r ==> s[j] != k
  {
    if |s| == 0 then -1
    else if s[0] == k then 0
    else
      var i := IndexOf(s[1..], k);
      if i == -1 then -1 else i + 1
  }

  /** `s` with every occurrence of `k` dropped, order otherwise kept. */
  function Without<K(==,!new)>(s: seq<K>, k: K): (r: seq<K>)
    ensures forall x :: x in r <==> x in s && x != k
    ensures |r| <= |s|
    ensures k !in s ==> r == s
  {
    if |s| == 0 then []
    else if s[0] == k then Without(s[1..], k)
    else [s[0]] + Without(s[1..], k)
  }

  ghost predicate Distinct<K>(s: seq<K>) {
    forall i, j :: 0 <= i < j < |s| ==> s[i] != s[j]
  }

  lemma {:induction false} WithoutDistinct<K(!new)>(s: seq<K>, k: K)
    ensures Distinct(s) ==> Distinct(Without(s, k))
    ensures Distinct(s) && k in s ==> |Without(s, k)| == |s| - 1
  {
    if |s| > 0 && Distinct(s) {
      assert Distinct(s[1..]);
      WithoutDistinct(s[1..], k);
      if s[0] == k {
        assert k !in s[1..];
      } else {
        var r := Without(s, k);
        assert r == [s[0]] + Without(s[1..], k);
        assert s[0] !in s[1..];
        assert s[0] !in Without(s[1..], k);
      }
    }
  }

  datatype OrderedMap<K(==,!new), V> = OrderedMap(keys: seq<K>, values: map<K, V>) {

    /** Keys are listed once each, and exactly the keys of `values` are listed. */
    ghost predicate Valid() {
      && Distinct(keys)
      && forall k :: k in values <==> k in keys
    }

    /** `Map.prototype.size`. */
    function Size(): nat {
      |keys|
    }

    /** `Map.prototype.get`: `None` for `undefined`. */
    function Get(k: K): (r: Option<V>)
      ensures r.Some? <==> k in values
      ensures r.Some? ==> r.value == values[k]
    {
      if k in values then Some(values[k]) else None
    }
  }

  function Empty<K(==,!new), V>(): (m: OrderedMap<K, V>)
    ensures m.Valid() && m.Size() == 0 && m.values == map[]
  {
    OrderedMap([], map[])
  }

  /** `Map.prototype.set`: a new key goes last, an existing key keeps its place. */
  function Set<K(==,!new), V>(m: OrderedMap<K, V>, k: K, v: V): (r: OrderedMap<K, V>)
    ensures r.values == m.values[k := v]
    ensures k in m.keys ==> r.keys == m.keys
    ensures k !in m.keys ==> r.keys == m.keys + [k]
    ensures m.Valid() ==> r.Valid()
  {
    if k in m.keys then OrderedMap(m.keys, m.values[k := v])
    else OrderedMap(m.keys + [k], m.values[k := v])
  }

  /** `Map.prototype.delete`: the other keys keep their order. */
  function Delete<K(==,!new), V>(m: OrderedMap<K, V>, k: K): (r: OrderedMap<K, V>)
    ensures r.values == m.values - {k}
    ensures r.keys == Without(m.keys, k)
    ensures m.Valid() ==> r.Valid()
    ensures m.Valid() && k in m.values ==> r.Size() == m.Size() - 1
    ensures k !in m.keys ==> r.keys == m.keys
  {
    WithoutDistinct(m.keys, k);
    OrderedMap(Without(m.keys, k), m.values - {k})
  }
}
