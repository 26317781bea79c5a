/**
 * Python dictionaries as ordered association lists. A dict iterates in
 * insertion order; assigning to a present key keeps its position, and
 * assigning to a new key appends it. Lists of pairs with distinct keys
 * model exactly that. Every function here recurses on the last entry, the
 * one most recently added.
 */
module Dicts {
  import opened Results

  /** A dict with string keys, as every dict of the core has. */
  type Dict<V> = seq<(string, V)>

  /** `list(d.keys())` */
  function Keys<V>(d: Dict<V>): (ks: seq<string>)
    ensures |ks| == |d|
    ensures forall i :: 0 <= i < |d| ==> ks[i] == d[i].0
  {
    if d == [] then [] else Keys(d[..|d| - 1]) + [d[|d| - 1].0]
  }

  /** `list(d.values())` */
  function Values<V>(d: Dict<V>): (vs: seq<V>)
    ensures |vs| == |d|
    ensures forall i :: 0 <= i < |d| ==> vs[i] == d[i].1
  {
    if d == [] then [] else Values(d[..|d| - 1]) + [d[|d| - 1].1]
  }

  /** No key occurs twice: what every Python dict satisfies. */
  predicate ValidDict<V>(d: Dict<V>) {
    forall i, j :: 0 <= i < j < |d| ==> d[i].0 != d[j].0
  }

  /** `d.get(k)` */
  function Get<V>(d: Dict<V>, k: string): (r: Option<V>)
    ensures r.Some? <==> k in Keys(d)
    ensures r.Some? ==> (k, r.value) in d
  {
    if d == [] then None
    else if d[|d| - 1].0 == k then Some(d[|d| - 1].1)
    else Get(d[..|d| - 1], k)
  }

  /** `d.get(k, default)`; with default 0.0 it is a read of a defaultdict(float). */
  function GetOr<V>(d: Dict<V>, k: string, default: V): V {
    if d == [] then default
    else if d[|d| - 1].0 == k then d[|d| - 1].1
    else GetOr(d[..|d| - 1], k, default)
  }

  lemma {:induction false} GetOrGet<V>(d: Dict<V>, k: string, default: V)
    ensures GetOr(d, k, default) == Get(d, k).GetOr(default)
  {
    if d != [] {
      GetOrGet(d[..|d| - 1], k, default);
    }
  }

  /** Every entry of `d` with key `k` given the value `v`, in place. */
  function Replace<V>(d: Dict<V>, k: string, v: V): (r: Dict<V>)
    ensures Keys(r) == Keys(d)
  {
    if d == [] then []
    else
      var last := d[|d| - 1];
      Replace(d[..|d| - 1], k, v) + [if last.0 == k then (k, v) else last]
  }

  /** `d[k] = v`: a present key keeps its position, a new one goes last. */
  function Put<V>(d: Dict<V>, k: string, v: V): (r: Dict<V>)
    ensures Keys(r) == if k in Keys(d) then Keys(d) else Keys(d) + [k]
    ensures ValidDict(d) ==> ValidDict(r)
  {
    if k in Keys(d) then Replace(d, k, v) else d + [(k, v)]
  }

  lemma {:induction false} GetReplace<V>(d: Dict<V>, k: string, v: V, k': string)
    ensures Get(Replace(d, k, v), k') == if k' == k && k in Keys(d) then Some(v) else Get(d, k')
  {
    if d != [] {
      var init, last := d[..|d| - 1], d[|d| - 1];
      GetReplace(init, k, v, k');
      assert Keys(d) == Keys(init) + [last.0];
      var r := Replace(d, k, v);
      assert r[..|r| - 1] == Replace(init, k, v);
    }
  }

  /** After `d[k] = v`, `k` looks up `v` and every other key what it did before. */
  lemma GetPut<V>(d: Dict<V>, k: string, v: V, k': string)
    ensures Get(Put(d, k, v), k') == if k' == k then Some(v) else Get(d, k')
  {
    if k in Keys(d) {
      GetReplace(d, k, v, k');
    } else {
      assert (d + [(k, v)])[..|d|] == d;
    }
  }

  /** In a dict every stored pair is what a lookup of its key returns. */
  lemma {:induction false} GetAt<V>(d: Dict<V>, i: nat)
    requires ValidDict(d) && i < |d|
    ensures Get(d, d[i].0) == Some(d[i].1)
  {
    if i < |d| - 1 {
      assert d[i].0 != d[|d| - 1].0;
      GetAt(d[..|d| - 1], i);
    }
  }

  /** A pair belongs to a dict exactly when a lookup of its key returns its value. */
  lemma MemberIffGet<V>(d: Dict<V>, k: string, v: V)
    requires ValidDict(d)
    ensures (k, v) in d <==> Get(d, k) == Some(v)
  {
    if (k, v) in d {
      var i :| 0 <= i < |d| && d[i] == (k, v);
      GetAt(d, i);
    }
  }
}
