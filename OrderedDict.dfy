/**
 * An insertion-ordered dictionary, as Python's `dict` behaves: a list of
 * (key, value) entries in the order keys were first inserted; assigning to
 * a key already present replaces its value in place.
 */
module OrderedDict {

  type Dict<K, V> = seq<(K, V)>

  /** The keys, in insertion order (`list(d.keys())`). */
  function Keys<K, V>(d: Dict<K, V>): (ks: seq<K>)
    ensures |ks| == |d|
    ensures forall i :: 0 <= i < |d| ==> ks[i] == d[i].0
  {
    if d == [] then [] else [d[0].0] + Keys(d[1..])
  }

  /** No key occurs twice: what every Python dict guarantees. */
  ghost predicate DistinctKeys<K, V>(d: Dict<K, V>)
  {
    forall i, j :: 0 <= i < j < |d| ==> d[i].0 != d[j].0
  }

  /** `d[k]`: the value of the first entry with key `k`. */
  function Get<K(==), V>(d: Dict<K, V>, k: K): V
    requires k in Keys(d)
  {
    if d[0].0 == k then d[0].1 else Get(d[1..], k)
  }

  /** With distinct keys, looking up the key of entry `i` yields entry `i`'s value. */
  lemma {:induction false} GetAt<K, V>(d: Dict<K, V>, i: nat)
    requires DistinctKeys(d) && i < |d|
    ensures d[i].0 in Keys(d) && Get(d, d[i].0) == d[i].1
  {
    if i > 0 {
      assert d[0].0 != d[i].0;
      assert d[1..][i - 1] == d[i];
      GetAt(d[1..], i - 1);
    }
  }

  /** `d[k] = v`: replace the value of `k` in place, or append a new entry. */
  function Put<K(==), V>(d: Dict<K, V>, k: K, v: V): (r: Dict<K, V>)
    ensures Keys(r) == if k in Keys(d) then Keys(d) else Keys(d) + [k]
    ensures Get(r, k) == v
    ensures forall k' :: k' in Keys(d) && k' != k ==> Get(r, k') == Get(d, k')
  {
    if d == [] then [(k, v)]
    else if d[0].0 == k then
      var r := [(k, v)] + d[1..];
      assert r[1..] == d[1..];
      r
    else
      var rest := Put(d[1..], k, v);
      var r := [d[0]] + rest;
      assert r[1..] == rest;
      assert Keys(r) == [d[0].0] + Keys(rest);
      r
  }

  /** Assigning to a key never makes two entries share a key. */
  lemma PutKeepsKeysDistinct<K, V>(d: Dict<K, V>, k: K, v: V)
    requires DistinctKeys(d)
    ensures DistinctKeys(Put(d, k, v))
  {
    var r := Put(d, k, v);
    forall i, j | 0 <= i < j < |r|
      ensures r[i].0 != r[j].0
    {
      if j == |d| {
        assert Keys(r)[i] == Keys(d)[i] && Keys(d)[i] in Keys(d);
      } else {
        assert r[i].0 == Keys(d)[i] == d[i].0 && r[j].0 == Keys(d)[j] == d[j].0;
      }
    }
  }

  /** Assigning to a key not yet present appends its entry at the end. */
  lemma {:induction false} PutNew<K, V>(d: Dict<K, V>, k: K, v: V)
    requires k !in Keys(d)
    ensures Put(d, k, v) == d + [(k, v)]
  {
    if d != [] {
      assert Keys(d) == [d[0].0] + Keys(d[1..]);
      PutNew(d[1..], k, v);
      assert Put(d, k, v) == [d[0]] + Put(d[1..], k, v);
      assert [d[0]] + (d[1..] + [(k, v)]) == d + [(k, v)];
    }
  }
}
