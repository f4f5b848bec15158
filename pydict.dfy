/** A Python dict as the strategies use it: a mapping together with the
    order in which its keys were first inserted.  Assigning to a present
    key keeps its place, a new key goes last, and deleting a key closes the
    gap; iteration follows that order. */
module PyDict {

  datatype Dict<K(==, !new), V> = Dict(keys: seq<K>, items: map<K, V>)
  {
    /** Each key once, and the same keys in the order as in the map. */
    ghost predicate Valid()
    {
      (forall i, j :: 0 <= i < j < |keys| ==> keys[i] != keys[j])
      && (forall k :: k in items <==> k in keys)
    }
  }

  function Empty<K(==, !new), V>(): (d: Dict<K, V>)
    ensures d.Valid() && d.items == map[] && d.keys == []
  {
    Dict([], map[])
  }

  /** d[k] = v. */
  function Put<K(==, !new), V>(d: Dict<K, V>, k: K, v: V): (r: Dict<K, V>)
    ensures d.Valid() ==> r.Valid()
    ensures r.items == d.items[k := v]
  {
    if k in d.items then Dict(d.keys, d.items[k := v])
    else Dict(d.keys + [k], d.items[k := v])
  }

  /** del d[k] (nothing when k is absent). */
  function Remove<K(==, !new), V>(d: Dict<K, V>, k: K): (r: Dict<K, V>)
    ensures d.Valid() ==> r.Valid()
    ensures r.items == d.items - {k}
  {
    Dict(Without(d.keys, k), d.items - {k})
  }

  /** The sequence with every occurrence of k taken out, order kept. */
  function Without<K(==, !new)>(s: seq<K>, k: K): (r: seq<K>)
    ensures forall x :: x in r <==> x in s && x != k
    ensures (forall i, j :: 0 <= i < j < |s| ==> s[i] != s[j]) ==>
            (forall i, j :: 0 <= i < j < |r| ==> r[i] != r[j])
    ensures |r| <= |s|
  {
    if s == [] then []
    else
      var r := Without(s[..|s| - 1], k);
      assert s == s[..|s| - 1] + [s[|s| - 1]];
      assert (forall i, j :: 0 <= i < j < |s| ==> s[i] != s[j]) ==> s[|s| - 1] !in s[..|s| - 1];
      if s[|s| - 1] == k then r else r + [s[|s| - 1]]
  }

  /** Assigning keeps the order of the keys already present and puts a new
      key last. */
  lemma PutOrder<K(!new), V>(d: Dict<K, V>, k: K, v: V)
    requires d.Valid()
    ensures k in d.items ==> Put(d, k, v).keys == d.keys
    ensures k !in d.items ==> Put(d, k, v).keys == d.keys + [k]
  {
  }

  /** `len(d)`: a valid dict lists each key of its map exactly once. */
  lemma LenIsSize<K(!new), V>(d: Dict<K, V>)
    requires d.Valid()
    ensures |d.keys| == |d.items.Keys|
  {
    assert d.items.Keys == set k | k in d.keys;
    DistinctCard(d.keys);
  }

  /** A sequence without repetitions has as many elements as its set. */
  lemma {:induction false} DistinctCard<K(!new)>(s: seq<K>)
    requires forall i, j :: 0 <= i < j < |s| ==> s[i] != s[j]
    ensures |set k | k in s| == |s|
  {
    if s != [] {
      var s', x := s[..|s| - 1], s[|s| - 1];
      assert s == s' + [x];
      assert x !in s';
      assert (set k | k in s) == (set k | k in s') + {x};
      DistinctCard(s');
    }
  }

  /** Deleting keeps the order of the other keys: a key that came before
      another still does. */
  lemma {:induction false} RemoveOrder<K(!new)>(s: seq<K>, k: K, i: nat, j: nat)
    requires i < j < |s| && s[i] != k && s[j] != k
    ensures exists a, b :: 0 <= a < b < |Without(s, k)| && Without(s, k)[a] == s[i] && Without(s, k)[b] == s[j]
    decreases |s|
  {
    var s' := s[..|s| - 1];
    var r' := Without(s', k);
    assert s == s' + [s[|s| - 1]];
    if j < |s| - 1 {
      RemoveOrder(s', k, i, j);
      var a, b :| 0 <= a < b < |r'| && r'[a] == s'[i] && r'[b] == s'[j];
      assert Without(s, k)[a] == s[i] && Without(s, k)[b] == s[j];
    } else {
      assert s'[i] in r';
      var a :| 0 <= a < |r'| && r'[a] == s'[i];
      assert Without(s, k) == r' + [s[j]];
      assert Without(s, k)[a] == s[i];
      assert Without(s, k)[|r'|] == s[j];
    }
  }
}
