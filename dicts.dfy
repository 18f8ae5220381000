/** Python dictionaries as the source uses them: an ordered list of key/value
    entries with pairwise distinct keys, iterated in insertion order.
    Assigning to a key already present replaces its value where it stands;
    assigning to a new key appends an entry. */
module Dicts {

  datatype Entry<K, V> = Entry(key: K, value: V)

  type Dict<K, V> = seq<Entry<K, V>>

  /** The keys of `d`, in iteration order (`list(d.keys())`). */
  function Keys<K, V>(d: Dict<K, V>): (ks: seq<K>)
    ensures |ks| == |d| && forall i :: 0 <= i < |d| ==> ks[i] == d[i].key
  {
    seq(|d|, i requires 0 <= i < |d| => d[i].key)
  }

  /** The values of `d`, in iteration order (`list(d.values())`). */
  function Values<K, V>(d: Dict<K, V>): (vs: seq<V>)
    ensures |vs| == |d| && forall i :: 0 <= i < |d| ==> vs[i] == d[i].value
  {
    seq(|d|, i requires 0 <= i < |d| => d[i].value)
  }

  /** The invariant every Python dictionary keeps: no key twice. */
  predicate DistinctKeys<K(==), V>(d: Dict<K, V>)
  {
    forall i, j :: 0 <= i < j < |d| ==> d[i].key != d[j].key
  }

  /** Position of `k` in `d`, or `|d|` when `k` is not a key of `d`. */
  function IndexOf<K(==), V>(d: Dict<K, V>, k: K): (i: nat)
    ensures i <= |d|
    ensures i < |d| ==> d[i].key == k
    ensures forall j :: 0 <= j < i ==> d[j].key != k
  {
    if |d| == 0 then 0
    else if d[0].key == k then 0
    else 1 + IndexOf(d[1..], k)
  }

  /** `d[k] = v`: overwrite in place when `k` is present, otherwise append. */
  function Put<K(==), V>(d: Dict<K, V>, k: K, v: V): (r: Dict<K, V>)
    ensures DistinctKeys(d) ==> DistinctKeys(r)
    ensures IndexOf(d, k) < |d| ==> r == d[IndexOf(d, k) := Entry(k, v)]
    ensures IndexOf(d, k) == |d| ==> r == d + [Entry(k, v)]
  {
    var i := IndexOf(d, k);
    if i < |d| then d[i := Entry(k, v)] else d + [Entry(k, v)]
  }

  /** `{ks[i]: vs[i] for i in range(len(ks))}`: a dictionary comprehension,
      which assigns the pairs one after the other, left to right. */
  function FromPairs<K(==), V>(ks: seq<K>, vs: seq<V>): (d: Dict<K, V>)
    requires |ks| == |vs|
    ensures DistinctKeys(d)
    ensures |d| <= |ks|
  {
    if |ks| == 0 then []
    else Put(FromPairs(ks[..|ks| - 1], vs[..|vs| - 1]), ks[|ks| - 1], vs[|vs| - 1])
  }

  /** With pairwise distinct keys no assignment overwrites another, so the
      comprehension holds exactly the given pairs in the given order. */
  lemma {:induction false} FromDistinctPairs<K, V>(ks: seq<K>, vs: seq<V>)
    requires |ks| == |vs|
    requires forall i, j :: 0 <= i < j < |ks| ==> ks[i] != ks[j]
    ensures |FromPairs(ks, vs)| == |ks|
    ensures forall i :: 0 <= i < |ks| ==> FromPairs(ks, vs)[i] == Entry(ks[i], vs[i])
  {
    if |ks| > 0 {
      var n := |ks| - 1;
      var d := FromPairs(ks[..n], vs[..n]);
      FromDistinctPairs(ks[..n], vs[..n]);
      assert forall j :: 0 <= j < n ==> d[j].key != ks[n];
      assert IndexOf(d, ks[n]) == |d|;
    }
  }

  /** When every key is the same, the comprehension collapses to one entry
      holding the last value. */
  lemma {:induction false} FromRepeatedKey<K, V>(ks: seq<K>, vs: seq<V>, k: K)
    requires |ks| == |vs| > 0
    requires forall i :: 0 <= i < |ks| ==> ks[i] == k
    ensures FromPairs(ks, vs) == [Entry(k, vs[|vs| - 1])]
  {
    var n := |ks| - 1;
    if n > 0 {
      FromRepeatedKey(ks[..n], vs[..n], k);
    }
  }
}
