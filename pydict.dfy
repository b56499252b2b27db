/**
 * A Python `dict` as the engine uses it: entries kept in insertion order, each key once.
 * Assigning to an existing key keeps its position; assigning a new key appends it.
 */
module PyDict {
  import opened Wrappers

  type Dict<K, V> = seq<(K, V)>

  function Keys<K, V>(d: Dict<K, V>): (r: seq<K>)
    ensures |r| == |d|
    ensures forall i :: 0 <= i < |d| ==> r[i] == d[i].0
  {
    seq(|d|, i requires 0 <= i < |d| => d[i].0)
  }

  predicate DistinctKeys<K(==), V>(d: Dict<K, V>)
  {
    forall i, j :: 0 <= i < j < |d| ==> d[i].0 != d[j].0
  }

  /** `d.get(k)`. */
  function Get<K(==), V>(d: Dict<K, V>, k: K): (r: Option<V>)
    ensures r.None? <==> k !in Keys(d)
  {
    if d == [] then None
    else if d[0].0 == k then Some(d[0].1)
    else
      assert Keys(d) == [d[0].0] + Keys(d[1..]);
      Get(d[1..], k)
  }

  /** `d.get(k, default)`. */
  function GetOr<K(==), V>(d: Dict<K, V>, k: K, default: V): V
  {
    Get(d, k).GetOr(default)
  }

  /** `d[k] = v`. */
  function Set<K(==), V>(d: Dict<K, V>, k: K, v: V): Dict<K, V>
  {
    if d == [] then [(k, v)]
    else if d[0].0 == k then [(k, v)] + d[1..]
    else [d[0]] + Set(d[1..], k, v)
  }

  lemma KeysCons<K, V>(e: (K, V), d: Dict<K, V>)
    ensures Keys([e] + d) == [e.0] + Keys(d)
  {
  }

  lemma {:induction false} SetKeys<K, V>(d: Dict<K, V>, k: K, v: V)
    ensures Keys(Set(d, k, v)) == if k in Keys(d) then Keys(d) else Keys(d) + [k]
  {
    if d != [] {
      KeysCons(d[0], d[1..]);
      assert d == [d[0]] + d[1..];
      if d[0].0 != k {
        SetKeys(d[1..], k, v);
        KeysCons(d[0], Set(d[1..], k, v));
      } else {
        KeysCons((k, v), d[1..]);
      }
    }
  }

  lemma {:induction false} SetGet<K, V>(d: Dict<K, V>, k: K, v: V, k': K)
    ensures Get(Set(d, k, v), k') == if k' == k then Some(v) else Get(d, k')
  {
    if d != [] && d[0].0 != k {
      SetGet(d[1..], k, v, k');
    }
  }

  lemma {:induction false} SetDistinct<K, V>(d: Dict<K, V>, k: K, v: V)
    requires DistinctKeys(d)
    ensures DistinctKeys(Set(d, k, v))
  {
    SetKeys(d, k, v);
    var r := Set(d, k, v);
    assert forall i :: 0 <= i < |r| ==> r[i].0 == Keys(r)[i];
    assert forall i :: 0 <= i < |d| ==> d[i].0 == Keys(d)[i];
  }

  /** Assigning each pair in order: `for k, v in pairs: d[k] = v`. */
  function SetAll<K(==), V>(d: Dict<K, V>, pairs: seq<(K, V)>): Dict<K, V>
  {
    if pairs == [] then d
    else
      var p := pairs[|pairs| - 1];
      Set(SetAll(d, pairs[..|pairs| - 1]), p.0, p.1)
  }

  /** The value of the last pair with key `k`, if any. */
  function LastValue<K(==), V>(pairs: seq<(K, V)>, k: K): Option<V>
  {
    if pairs == [] then None
    else if pairs[|pairs| - 1].0 == k then Some(pairs[|pairs| - 1].1)
    else LastValue(pairs[..|pairs| - 1], k)
  }

  /** After assigning every pair, each key holds the value of its last pair. */
  lemma {:induction false} SetAllGet<K, V>(d: Dict<K, V>, pairs: seq<(K, V)>, k: K)
    ensures Get(SetAll(d, pairs), k) == if LastValue(pairs, k).Some? then LastValue(pairs, k) else Get(d, k)
  {
    if pairs != [] {
      var p := pairs[|pairs| - 1];
      SetGet(SetAll(d, pairs[..|pairs| - 1]), p.0, p.1, k);
      SetAllGet(d, pairs[..|pairs| - 1], k);
    }
  }

  lemma {:induction false} SetAllDistinct<K, V>(d: Dict<K, V>, pairs: seq<(K, V)>)
    requires DistinctKeys(d)
    ensures DistinctKeys(SetAll(d, pairs))
  {
    if pairs != [] {
      var p := pairs[|pairs| - 1];
      SetAllDistinct(d, pairs[..|pairs| - 1]);
      SetDistinct(SetAll(d, pairs[..|pairs| - 1]), p.0, p.1);
    }
  }

  /** `dict(pairs)`: the pairs assigned in order into an empty dict. */
  function FromPairs<K(==), V>(pairs: seq<(K, V)>): Dict<K, V>
  {
    SetAll([], pairs)
  }
}
