/** Python dictionaries keyed by strings whose iteration order the core
    observes (the QnA table and the learned facts): an association list
    in insertion order with distinct keys. Assigning to a present key
    replaces its value in place; assigning to a new key appends it. */
module Dicts {
  import opened Wrappers

  type Dict<V> = seq<(string, V)>

  predicate DistinctKeys<V>(d: Dict<V>) {
    forall i, j :: 0 <= i < j < |d| ==> d[i].0 != d[j].0
  }

  /** Position of `k` in iteration order, if present. */
  function IndexOf<V>(d: Dict<V>, k: string): (r: Option<nat>)
    ensures r.Some? ==> r.value < |d| && d[r.value].0 == k
    ensures r.Some? ==> forall j :: 0 <= j < r.value ==> d[j].0 != k
    ensures r.None? <==> forall j :: 0 <= j < |d| ==> d[j].0 != k
  {
    if d == [] then None
    else if d[0].0 == k then Some(0)
    else match IndexOf(d[1..], k)
      case None => None
      case Some(i) => Some(i + 1)
  }

  /** Python's `d.get(k)`. */
  function Get<V>(d: Dict<V>, k: string): (r: Option<V>)
    ensures r.None? <==> forall j :: 0 <= j < |d| ==> d[j].0 != k
    ensures DistinctKeys(d) ==> forall j :: 0 <= j < |d| && d[j].0 == k ==> r == Some(d[j].1)
  {
    match IndexOf(d, k)
    case None => None
    case Some(i) => Some(d[i].1)
  }

  /** Python's `d[k] = v`. */
  function Put<V>(d: Dict<V>, k: string, v: V): (r: Dict<V>)
    ensures Get(r, k) == Some(v)
    ensures forall k' :: k' != k ==> Get(r, k') == Get(d, k')
    ensures DistinctKeys(d) ==> DistinctKeys(r)
    ensures Get(d, k).Some? ==> |r| == |d|
    ensures Get(d, k).None? ==> |r| == |d| + 1 && r[|d|] == (k, v)
    ensures forall i :: 0 <= i < |d| ==> r[i].0 == d[i].0
  {
    match IndexOf(d, k)
    case Some(i) =>
      var r := d[i := (k, v)];
      assert IndexOf(r, k) == Some(i) by {
        IndexOfSameKeys(d, r, k);
      }
      forall k' | k' != k ensures Get(r, k') == Get(d, k') {
        IndexOfSameKeys(d, r, k');
      }
      r
    case None =>
      var r := d + [(k, v)];
      assert IndexOf(r, k) == Some(|d|) by {
        IndexOfSameKeys(d, r[..|d|], k);
        IndexOfExtend(d, (k, v), k);
      }
      forall k' | k' != k ensures Get(r, k') == Get(d, k') {
        IndexOfExtend(d, (k, v), k');
      }
      r
  }

  /** Only the keys decide where a key is found. */
  lemma {:induction false} IndexOfSameKeys<V>(d: Dict<V>, e: Dict<V>, k: string)
    requires |d| == |e| && forall i :: 0 <= i < |d| ==> d[i].0 == e[i].0
    ensures IndexOf(d, k) == IndexOf(e, k)
  {
    if d != [] && d[0].0 != k {
      IndexOfSameKeys(d[1..], e[1..], k);
    }
  }

  /** Appending an entry does not move the keys already present. */
  lemma {:induction false} IndexOfExtend<V>(d: Dict<V>, entry: (string, V), k: string)
    ensures IndexOf(d + [entry], k) ==
            if IndexOf(d, k).Some? then IndexOf(d, k)
            else if entry.0 == k then Some(|d|) else None
  {
    if d != [] && d[0].0 != k {
      assert (d + [entry])[1..] == d[1..] + [entry];
      IndexOfExtend(d[1..], entry, k);
    }
  }
}
