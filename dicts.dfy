/**
 * Python dictionaries as ordered association lists.
 *
 * A Python `dict` remembers insertion order, and several callbacks of the dashboard
 * depend on it (the order of relayout keys, the order of configured sensors), so a
 * dictionary is a sequence of (key, value) pairs whose keys are pairwise distinct.
 */
module Dicts {
  import opened Wrappers

  /** The keys of an association list, in insertion order (`list(d.keys())`). */
  function Keys<V>(d: seq<(string, V)>): (ks: seq<string>)
    ensures |ks| == |d|
    ensures forall i :: 0 <= i < |d| ==> ks[i] == d[i].0
  {
    if d == [] then [] else [d[0].0] + Keys(d[1..])
  }

  predicate DistinctKeys<V>(d: seq<(string, V)>) {
    forall i, j :: 0 <= i < j < |d| ==> d[i].0 != d[j].0
  }

  /** A Python dictionary: no key occurs twice. */
  type Dict<V> = d: seq<(string, V)> | DistinctKeys(d) witness []

  /** Position of key `k` (the first one, which in a `Dict` is the only one). */
  function IndexOf<V>(d: seq<(string, V)>, k: string): (i: nat)
    requires k in Keys(d)
    ensures i < |d| && d[i].0 == k
    ensures forall j :: 0 <= j < i ==> d[j].0 != k
  {
    if d[0].0 == k then 0 else IndexOf(d[1..], k) + 1
  }

  /** `d[k]` for a key that is present. */
  function Get<V>(d: seq<(string, V)>, k: string): V
    requires k in Keys(d)
  {
    d[IndexOf(d, k)].1
  }

  /** `d.get(k)`: the value under `k`, or `None`. */
  function Lookup<V>(d: seq<(string, V)>, k: string): (r: Option<V>)
    ensures r.Some? <==> k in Keys(d)
    ensures k in Keys(d) ==> r.value == Get(d, k)
  {
    if k in Keys(d) then Some(Get(d, k)) else None
  }

  /** In a dictionary, the entry at position `i` is the one every lookup of its key finds. */
  lemma GetAt<V>(d: Dict<V>, i: nat)
    requires i < |d|
    ensures d[i].0 in Keys(d) && IndexOf(d, d[i].0) == i && Get(d, d[i].0) == d[i].1
  {
    assert Keys(d)[i] == d[i].0;
  }

  /** `d[k] = v`: an existing key keeps its position, a new key goes to the end. */
  function Put<V>(d: Dict<V>, k: string, v: V): (r: Dict<V>)
    ensures Keys(r) == if k in Keys(d) then Keys(d) else Keys(d) + [k]
    ensures k !in Keys(d) ==> r == d + [(k, v)]
    ensures k in Keys(r) && Get(r, k) == v
    ensures forall k' :: k' in Keys(d) && k' != k ==> k' in Keys(r) && Get(r, k') == Get(d, k')
  {
    if k in Keys(d) then
      var i := IndexOf(d, k);
      PutAt(d, i, v);
      d[i := (k, v)]
    else
      PutNew(d, k, v);
      d + [(k, v)]
  }

  /** Overwriting the value at position `i` keeps the keys and every other lookup. */
  lemma PutAt<V>(d: Dict<V>, i: nat, v: V)
    requires i < |d|
    ensures DistinctKeys(d[i := (d[i].0, v)])
    ensures Keys(d[i := (d[i].0, v)]) == Keys(d)
    ensures Get(d[i := (d[i].0, v)], d[i].0) == v
    ensures forall k' :: k' in Keys(d) && k' != d[i].0 ==> Get(d[i := (d[i].0, v)], k') == Get(d, k')
  {
    var r: Dict<V> := d[i := (d[i].0, v)];
    assert Keys(r) == Keys(d);
    GetAt(r, i);
    forall k' | k' in Keys(d) && k' != d[i].0 ensures Get(r, k') == Get(d, k') {
      var j := IndexOf(d, k');
      GetAt(r, j);
    }
  }

  /** Appending a fresh key keeps the dictionary's keys distinct and every old lookup. */
  lemma PutNew<V>(d: Dict<V>, k: string, v: V)
    requires k !in Keys(d)
    ensures DistinctKeys(d + [(k, v)])
    ensures Keys(d + [(k, v)]) == Keys(d) + [k]
    ensures k in Keys(d + [(k, v)]) && Get(d + [(k, v)], k) == v
    ensures forall k' :: k' in Keys(d) ==> Get(d + [(k, v)], k') == Get(d, k')
  {
    var r := d + [(k, v)];
    assert Keys(r) == Keys(d) + [k];
    assert DistinctKeys(r) by {
      forall i | 0 <= i < |d| ensures r[i].0 != k {
        assert Keys(d)[i] == d[i].0;
      }
    }
    var r': Dict<V> := r;
    GetAt(r', |d|);
    forall k' | k' in Keys(d) ensures Get(r, k') == Get(d, k') {
      var j := IndexOf(d, k');
      GetAt(r', j);
    }
  }

  /** The pairs of `d` that `keep` accepts, in their original order. */
  function FilterPairs<V>(d: seq<(string, V)>, keep: (string, V) -> bool): (r: seq<(string, V)>)
    ensures forall i :: 0 <= i < |r| ==> r[i] in d && keep(r[i].0, r[i].1)
    ensures forall i :: 0 <= i < |d| && keep(d[i].0, d[i].1) ==> d[i] in r
    ensures DistinctKeys(d) ==> DistinctKeys(r)
    ensures |r| <= |d|
  {
    if d == [] then []
    else
      var tail := FilterPairs(d[1..], keep);
      if keep(d[0].0, d[0].1) then
        if DistinctKeys(d) then FreshHead(d, tail); [d[0]] + tail else [d[0]] + tail
      else tail
  }

  /** The first key of a dictionary does not occur among pairs drawn from the rest of it. */
  lemma FreshHead<V>(d: seq<(string, V)>, tail: seq<(string, V)>)
    requires |d| > 0 && DistinctKeys(d)
    requires forall i :: 0 <= i < |tail| ==> tail[i] in d[1..]
    ensures DistinctKeys(tail) ==> DistinctKeys([d[0]] + tail)
  {
    forall i | 0 <= i < |tail| ensures tail[i].0 != d[0].0 {
      var j :| 0 <= j < |d[1..]| && d[1..][j] == tail[i];
      assert d[j + 1] == tail[i];
    }
  }

  /** A dictionary comprehension `{k: v for k, v in d.items() if keep(k, v)}`. */
  function Filter<V>(d: Dict<V>, keep: (string, V) -> bool): (r: Dict<V>)
    ensures forall i :: 0 <= i < |r| ==> r[i] in d && keep(r[i].0, r[i].1)
    ensures forall i :: 0 <= i < |d| && keep(d[i].0, d[i].1) ==> d[i] in r
    ensures forall k :: k in Keys(r) <==> k in Keys(d) && keep(k, Get(d, k))
    ensures forall k :: k in Keys(r) ==> Get(r, k) == Get(d, k)
    ensures |r| <= |d|
  {
    var r: Dict<V> := FilterPairs(d, keep);
    forall k | k in Keys(r) ensures k in Keys(d) && keep(k, Get(d, k)) && Get(r, k) == Get(d, k) {
      var i := IndexOf(r, k);
      GetAt(r, i);
      var j :| 0 <= j < |d| && d[j] == r[i];
      GetAt(d, j);
    }
    forall k | k in Keys(d) && keep(k, Get(d, k)) ensures k in Keys(r) {
      var j := IndexOf(d, k);
      GetAt(d, j);
      var i :| 0 <= i < |r| && r[i] == d[j];
      assert Keys(r)[i] == k;
    }
    r
  }
}
